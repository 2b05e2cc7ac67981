// Form heads, reference slots and merge plans row by row: what it means that heads and slots agree, and
// that a plan is current.
module FormRecords {
  import opened Wrappers
  import opened FormPlan
  import opened FormReferences
  import opened FormMerge
  import opened FormMergeBuffer

  // ---- Heads and slots -----------------------------------------------------------------------

  predicate AsksForItems(rule: Rule, registry: Registry) {
    && rule.condition != OtherCondition && rule.condition.sourceField in registry
    && registry[rule.condition.sourceField] != None
  }

  // The k-th rule asks for program items, and no later rule with its id does.
  predicate Decides(rules: seq<Rule>, registry: Registry, k: int) {
    && 0 <= k < |rules| && AsksForItems(rules[k], registry)
    && forall m :: k < m < |rules| && rules[m].id == rules[k].id ==> !AsksForItems(rules[m], registry)
  }

  // The slot names something its form's head really mentions, under the right kind.
  ghost predicate IsTrue(slot: Slot, head: Head, registry: Registry) {
    match slot.key
    case TargetSlot(_) => head.target == Some(Category(slot.kind, slot.item))
    case ExposureSlot(_, field, _) =>
      && field in head.exposure && slot.item in head.exposure[field]
      && field in registry && registry[field] == Some(slot.kind)
    case RuleSlot(_, id, _) =>
      exists k :: Decides(head.rules, registry, k) && head.rules[k].id == id
                  && registry[head.rules[k].condition.sourceField] == Some(slot.kind)
                  && slot.item in head.rules[k].condition.choices
  }

  ghost predicate HasExposureSlot(slots: set<Slot>, form: Id, field: Id, item: Id) {
    exists s :: s in slots && s.key.ExposureSlot? && s.key.form == form && s.key.field == field && s.item == item
  }

  ghost predicate HasRuleSlot(slots: set<Slot>, form: Id, id: Id, item: Id) {
    exists s :: s in slots && s.key.RuleSlot? && s.key.form == form && s.key.rule == id && s.item == item
  }

  // Everything the head mentions has a slot; what it exposes are program items, and at least one.
  ghost predicate IsComplete(head: Head, registry: Registry, slots: set<Slot>) {
    && (head.target != None ==> exists s :: s in slots && s.key == TargetSlot(head.form))
    && (forall f :: f in head.exposure ==>
          && f in registry && registry[f] != None && head.exposure[f] != []
          && forall item :: item in head.exposure[f] ==> HasExposureSlot(slots, head.form, f, item))
    && (forall k :: Decides(head.rules, registry, k) ==>
          && head.rules[k].condition.choices != []
          && forall item :: item in head.rules[k].condition.choices ==>
               HasRuleSlot(slots, head.form, head.rules[k].id, item))
  }

  ghost predicate OwnSlotsAreTrue(head: Head, registry: Registry, slots: set<Slot>) {
    forall s :: s in slots && s.key.form == head.form ==> IsTrue(s, head, registry)
  }

  lemma {:induction false} LastRuleDecides(rules: seq<Rule>, registry: Registry, id: Id)
    ensures RuleWant(rules, registry, id).Some? ==> exists k :: Decides(rules, registry, k) && rules[k].id == id
    ensures forall k :: Decides(rules, registry, k) && rules[k].id == id ==>
              RuleWant(rules, registry, id) ==
              Some(Want(registry[rules[k].condition.sourceField].value, SetOf(rules[k].condition.choices)))
  {
    if rules != [] {
      var n := |rules| - 1;
      var last, before := rules[n], rules[..n];
      assert Chooses(last, registry) <==> AsksForItems(last, registry);
      if last.id == id && Chooses(last, registry) {
        assert Decides(rules, registry, n);
      } else {
        LastRuleDecides(before, registry, id);
        forall k | 0 <= k < n && rules[k].id == id
          ensures Decides(before, registry, k) <==> Decides(rules, registry, k)
        {
          assert forall m :: k < m < n ==> before[m] == rules[m];
        }
        if RuleWant(before, registry, id).Some? {
          var k :| Decides(before, registry, k) && before[k].id == id;
          assert Decides(rules, registry, k);
        }
      }
    }
  }

  lemma ListedIds(ids: seq<Id>)
    ensures forall i :: i in SetOf(ids) <==> i in ids
    ensures SetOf(ids) == {} <==> ids == []
  {
    assert ids != [] ==> ids[0] in SetOf(ids);
  }

  // What is at a location matches what is wanted there, slot by slot and id by id.
  lemma MatchesSlotBySlot(want: Option<Want>, here: set<Slot>)
    ensures Matches(want, here) <==>
            && (forall s :: s in here ==> want.Some? && want.value.kind == s.kind && s.item in want.value.ids)
            && (want.Some? ==> here != {} && forall i :: i in want.value.ids ==> exists s :: s in here && s.item == i)
  {
    if want.Some? {
      if Matches(want, here) {
        forall i | i in want.value.ids ensures exists s :: s in here && s.item == i { assert i in ItemsOf(here); }
        forall s | s in here ensures s.item in want.value.ids { assert s.item in ItemsOf(here); }
      }
    }
  }

  lemma TargetMatches(head: Head, registry: Registry, slots: set<Slot>)
    requires ExposesVocabulary(head, registry)
    ensures Matches(WantAt(head, registry, AtTarget), SlotsAt(slots, head.form, AtTarget)) <==>
            && (forall s :: s in slots && s.key == TargetSlot(head.form) ==> IsTrue(s, head, registry))
            && (head.target != None ==> exists s :: s in slots && s.key == TargetSlot(head.form))
  {
    var here := SlotsAt(slots, head.form, AtTarget);
    MatchesSlotBySlot(WantAt(head, registry, AtTarget), here);
    assert forall s :: s in here <==> s in slots && s.key == TargetSlot(head.form);
    hide Matches, SlotsAt;
    if s :| s in here {
      assert head.target.Some? ==> (s.item in {head.target.value.item} <==> s.item == head.target.value.item);
    }
  }

  lemma ExposureMatches(head: Head, registry: Registry, slots: set<Slot>, f: Id)
    requires ExposesVocabulary(head, registry)
    ensures Matches(WantAt(head, registry, AtExposure(f)), SlotsAt(slots, head.form, AtExposure(f))) <==>
            && (forall s :: s in slots && s.key.form == head.form && LocationOf(s.key) == AtExposure(f) ==>
                  IsTrue(s, head, registry))
            && (f in head.exposure ==>
                  && head.exposure[f] != []
                  && forall item :: item in head.exposure[f] ==> HasExposureSlot(slots, head.form, f, item))
  {
    var here := SlotsAt(slots, head.form, AtExposure(f));
    MatchesSlotBySlot(WantAt(head, registry, AtExposure(f)), here);
    if f in head.exposure {
      ListedIds(head.exposure[f]);
      assert Vocabulary(registry, f);
      hide Matches;
      forall item ensures HasExposureSlot(slots, head.form, f, item) <==> exists s :: s in here && s.item == item {
        if exists s :: s in here && s.item == item {
          var s :| s in here && s.item == item;
          assert s.key.ExposureSlot? && s.key.field == f;
        }
        if HasExposureSlot(slots, head.form, f, item) {
          var s :| s in slots && s.key.ExposureSlot? && s.key.form == head.form && s.key.field == f && s.item == item;
          assert s in here;
        }
      }
      if head.exposure[f] != [] { assert head.exposure[f][0] in head.exposure[f]; }
    }
  }

  // The rules with the id ask for their items as the slots at the id tell.
  ghost predicate RuleComplete(head: Head, registry: Registry, slots: set<Slot>, id: Id) {
    forall k :: Decides(head.rules, registry, k) && head.rules[k].id == id ==>
      && head.rules[k].condition.choices != []
      && forall item :: item in head.rules[k].condition.choices ==> HasRuleSlot(slots, head.form, id, item)
  }

  lemma RuleMatches(head: Head, registry: Registry, slots: set<Slot>, id: Id)
    requires ExposesVocabulary(head, registry)
    ensures Matches(WantAt(head, registry, AtRule(id)), SlotsAt(slots, head.form, AtRule(id))) <==>
            && (forall s :: s in slots && s.key.form == head.form && LocationOf(s.key) == AtRule(id) ==>
                  IsTrue(s, head, registry))
            && RuleComplete(head, registry, slots, id)
  {
    var here := SlotsAt(slots, head.form, AtRule(id));
    MatchesSlotBySlot(WantAt(head, registry, AtRule(id)), here);
    LastRuleDecides(head.rules, registry, id);
    hide Matches, RuleWant, HasRuleSlot;
    if WantAt(head, registry, AtRule(id)).Some? {
      var k :| Decides(head.rules, registry, k) && head.rules[k].id == id;
      var choices := head.rules[k].condition.choices;
      ListedIds(choices);
      OneDecides(head.rules, registry);
      forall item ensures HasRuleSlot(slots, head.form, id, item) <==> exists s :: s in here && s.item == item {
        RuleSlotsAreHere(slots, head.form, id, item);
      }
      if choices != [] { assert choices[0] in choices; }
    }
  }

  lemma RuleSlotsAreHere(slots: set<Slot>, form: Id, id: Id, item: Id)
    ensures HasRuleSlot(slots, form, id, item) <==> exists s :: s in SlotsAt(slots, form, AtRule(id)) && s.item == item
  {
    var here := SlotsAt(slots, form, AtRule(id));
    if exists s :: s in here && s.item == item {
      var s :| s in here && s.item == item;
      assert s.key.RuleSlot? && s.key.rule == id;
    }
    if HasRuleSlot(slots, form, id, item) {
      var s :| s in slots && s.key.RuleSlot? && s.key.form == form && s.key.rule == id && s.item == item;
      assert s in here;
    }
  }

  lemma OneDecides(rules: seq<Rule>, registry: Registry)
    ensures forall j, k :: Decides(rules, registry, j) && Decides(rules, registry, k) && rules[j].id == rules[k].id ==>
              j == k
  {
  }

  lemma AgreeingHeadIsTold(head: Head, registry: Registry, slots: set<Slot>)
    requires FormAgrees(head, registry, slots)
    ensures OwnSlotsAreTrue(head, registry, slots) && IsComplete(head, registry, slots)
  {
    hide IsTrue, HasExposureSlot, HasRuleSlot, WantAt, SlotsAt, Matches, AsksForItems;
    TargetMatches(head, registry, slots);
    forall s | s in slots && s.key.form == head.form ensures IsTrue(s, head, registry) {
      match s.key
      case TargetSlot(_) =>
      case ExposureSlot(_, f, _) => ExposureMatches(head, registry, slots, f);
      case RuleSlot(_, id, _) => RuleMatches(head, registry, slots, id);
    }
    forall f | f in head.exposure
      ensures head.exposure[f] != []
      ensures forall item :: item in head.exposure[f] ==> HasExposureSlot(slots, head.form, f, item)
    {
      ExposureMatches(head, registry, slots, f);
    }
    forall k | Decides(head.rules, registry, k)
      ensures RuleComplete(head, registry, slots, head.rules[k].id)
    {
      RuleMatches(head, registry, slots, head.rules[k].id);
    }
  }

  lemma ToldHeadAgrees(head: Head, registry: Registry, slots: set<Slot>)
    requires OwnSlotsAreTrue(head, registry, slots) && IsComplete(head, registry, slots)
    ensures FormAgrees(head, registry, slots)
  {
    hide IsTrue, HasExposureSlot, HasRuleSlot, WantAt, SlotsAt, Matches, AsksForItems;
    assert ExposesVocabulary(head, registry);
    forall l ensures Matches(WantAt(head, registry, l), SlotsAt(slots, head.form, l)) {
      match l
      case AtTarget => TargetMatches(head, registry, slots);
      case AtExposure(f) => ExposureMatches(head, registry, slots, f);
      case AtRule(id) => RuleMatches(head, registry, slots, id);
    }
  }

  // Heads and slots agree exactly when every slot is true of its form's head and every head is
  // completely told by its slots.
  lemma AgreementRowByRow(heads: seq<Head>, registry: Registry, slots: set<Slot>)
    ensures Agreement(heads, registry, slots) <==>
            && (forall i :: 0 <= i < |heads| ==>
                  OwnSlotsAreTrue(heads[i], registry, slots) && IsComplete(heads[i], registry, slots))
            && (forall s :: s in slots ==> exists i :: 0 <= i < |heads| && heads[i].form == s.key.form)
  {
    hide FormAgrees, OwnSlotsAreTrue, IsComplete;
    forall i | 0 <= i < |heads|
      ensures FormAgrees(heads[i], registry, slots) <==>
              OwnSlotsAreTrue(heads[i], registry, slots) && IsComplete(heads[i], registry, slots)
    {
      if FormAgrees(heads[i], registry, slots) { AgreeingHeadIsTold(heads[i], registry, slots); }
      if OwnSlotsAreTrue(heads[i], registry, slots) && IsComplete(heads[i], registry, slots) {
        ToldHeadAgrees(heads[i], registry, slots);
      }
    }
    forall s | s in slots
      ensures s.key.form in FormsOf(heads) <==> exists i :: 0 <= i < |heads| && heads[i].form == s.key.form
    {
    }
  }

  // ---- Slot keys -----------------------------------------------------------------------------

  predicate HasFullIds(key: SlotKey) {
    match key
    case TargetSlot(form) => |form| == 36
    case ExposureSlot(form, field, origin) => |form| == |field| == |origin| == 36
    case RuleSlot(form, rule, origin) => |form| == |rule| == |origin| == 36
  }

  lemma FormAndTag(form: Id, rest: string)
    requires |form| == 36 && |rest| > 1
    ensures var r := "intake_form:" + form + rest; r[12..48] == form && r[49] == rest[1]
  {
    var start := "intake_form:" + form;
    assert start[12..] == form && (start + rest)[..48] == start;
  }

  lemma MiddleAndEnd(start: string, middle: string, tag: string, end: string)
    ensures var r := start + middle + tag + end;
            r[|start|..|start| + |middle|] == middle && r[|start| + |middle| + |tag|..] == end
  {
    var r := start + middle + tag + end;
    assert r[..|start| + |middle|] == start + middle;
  }

  // Where the ids stand in what is written.
  lemma WrittenParts(key: SlotKey)
    requires HasFullIds(key)
    ensures var r := ReferenceKey(key);
            && |r| > 54 && r[12..48] == key.form
            && r[49] == (if key.TargetSlot? then 't' else if key.ExposureSlot? then 'f' else 'r')
            && (key.ExposureSlot? ==> |r| == 137 && r[55..91] == key.field && r[101..] == key.origin)
            && (key.RuleSlot? ==> |r| == 134 && r[54..90] == key.rule && r[98..] == key.origin)
  {
    var start := "intake_form:" + key.form;
    match key
    case TargetSlot(form) => FormAndTag(form, ":target");
    case ExposureSlot(form, field, origin) =>
      FormAndTag(form, ":field:" + field + ":exposure:" + origin);
      assert start + (":field:" + field + ":exposure:" + origin) == start + ":field:" + field + ":exposure:" + origin;
      MiddleAndEnd(start + ":field:", field, ":exposure:", origin);
    case RuleSlot(form, rule, origin) =>
      FormAndTag(form, ":rule:" + rule + ":choice:" + origin);
      assert start + (":rule:" + rule + ":choice:" + origin) == start + ":rule:" + rule + ":choice:" + origin;
      MiddleAndEnd(start + ":rule:", rule, ":choice:", origin);
  }

  // Different slots are written differently.
  lemma ReferenceKeysAreDistinct(a: SlotKey, b: SlotKey)
    requires HasFullIds(a) && HasFullIds(b) && ReferenceKey(a) == ReferenceKey(b)
    ensures a == b
  {
    WrittenParts(a);
    WrittenParts(b);
    hide ReferenceKey;
  }

  // ---- Plans ---------------------------------------------------------------------------------

  // The repoint's slot is as it expects, and the head mentions the old item where the slot says.
  ghost predicate IsCurrent(r: Repoint, heads: Heads, slots: Slots, occurredAt: int) {
    && r.key in slots && slots[r.key].version == r.expectedVersion
    && slots[r.key].kind == r.from.kind == r.to.kind && slots[r.key].item == r.from.id != r.to.id
    && r.form == r.key.form && r.form in heads && heads[r.form].updatedAt <= occurredAt
    && match r.key
       case TargetSlot(_) => heads[r.form].target == Some(Category(r.from.kind, r.from.id))
       case ExposureSlot(_, field, _) =>
         field in heads[r.form].exposure && r.from.id in heads[r.form].exposure[field]
       case RuleSlot(_, id, _) =>
         exists k :: 0 <= k < |heads[r.form].rules| && heads[r.form].rules[k].id == id
                     && heads[r.form].rules[k].condition != OtherCondition
                     && slots[r.key].fieldId == Some(heads[r.form].rules[k].condition.sourceField)
                     && r.from.id in heads[r.form].rules[k].condition.choices
  }

  lemma {:induction false} TwoOfAForm(repoints: seq<Repoint>, form: Id, i: nat, j: nat)
    requires i < j < |repoints| && repoints[i].key.form == form && repoints[j].key.form == form
    ensures exists a, b :: 0 <= a < b < |OfFormPlan(repoints, form)|
                           && OfFormPlan(repoints, form)[a] == repoints[i] && OfFormPlan(repoints, form)[b] == repoints[j]
  {
    var n := |repoints| - 1;
    var before := repoints[..n];
    if j < n {
      TwoOfAForm(before, form, i, j);
      var own := OfFormPlan(before, form);
      var a, b :| 0 <= a < b < |own| && own[a] == repoints[i] && own[b] == repoints[j];
      assert OfFormPlan(repoints, form)[a] == own[a] && OfFormPlan(repoints, form)[b] == own[b];
    } else {
      OfFormPlanMembers(before, form, repoints[i]);
      assert before[i] == repoints[i];
      var own := OfFormPlan(before, form);
      var a :| 0 <= a < |own| && own[a] == repoints[i];
      assert OfFormPlan(repoints, form)[a] == own[a] && OfFormPlan(repoints, form)[|own|] == repoints[j];
    }
  }

  lemma {:induction false} TwoOfThePlan(repoints: seq<Repoint>, form: Id, a: nat, b: nat)
    requires a < b < |OfFormPlan(repoints, form)|
    ensures exists i, j :: 0 <= i < j < |repoints|
                           && repoints[i] == OfFormPlan(repoints, form)[a] && repoints[j] == OfFormPlan(repoints, form)[b]
  {
    var n := |repoints| - 1;
    var before, own := repoints[..n], OfFormPlan(repoints[..n], form);
    if b < |own| {
      TwoOfThePlan(before, form, a, b);
      var i, j :| 0 <= i < j < |before| && before[i] == own[a] && before[j] == own[b];
      assert repoints[i] == before[i] && repoints[j] == before[j];
    } else {
      OfFormPlanMembers(before, form, own[a]);
      var i :| 0 <= i < |before| && before[i] == own[a];
      assert repoints[i] == own[a] && repoints[n] == OfFormPlan(repoints, form)[b];
    }
  }

  lemma TargetsOnceEach(repoints: seq<Repoint>)
    ensures OneTargetEach(repoints) <==> forall form :: OneTargetEach(OfFormPlan(repoints, form))
  {
    if !OneTargetEach(repoints) {
      var i, j :| 0 <= i < j < |repoints| && repoints[i].key.TargetSlot? && repoints[i].key == repoints[j].key;
      TwoOfAForm(repoints, repoints[i].key.form, i, j);
      assert !OneTargetEach(OfFormPlan(repoints, repoints[i].key.form));
    }
    forall form | !OneTargetEach(OfFormPlan(repoints, form))
      ensures !OneTargetEach(repoints)
    {
      var own := OfFormPlan(repoints, form);
      var a, b :| 0 <= a < b < |own| && own[a].key.TargetSlot? && own[a].key == own[b].key;
      TwoOfThePlan(repoints, form, a, b);
    }
  }

  lemma CurrentEntry(r: Repoint, heads: Heads, slots: Slots, occurredAt: int)
    requires forall k :: k in slots ==> slots[k].key == k
    ensures IsCurrent(r, heads, slots, occurredAt) <==>
            && Fits(r, slots) && r.key.form in heads && heads[r.key.form].updatedAt <= occurredAt
            && Mentions(heads[r.key.form], slots[r.key], r.from)
  {
    if r.key in slots && r.key.RuleSlot? && r.form == r.key.form && r.key.form in heads {
      var head, slot := heads[r.key.form], slots[r.key];
      if k :| 0 <= k < |head.rules| && RuleMentions(head.rules[k], r.key.rule, slot.fieldId, r.from.id) {}
      if k :| 0 <= k < |head.rules| && head.rules[k].id == r.key.rule && head.rules[k].condition != OtherCondition
              && slot.fieldId == Some(head.rules[k].condition.sourceField) && r.from.id in head.rules[k].condition.choices
      {
        assert RuleMentions(head.rules[k], r.key.rule, slot.fieldId, r.from.id);
      }
    }
  }

  lemma FormIsCurrent(heads: Heads, slots: Slots, repoints: seq<Repoint>, form: Id, occurredAt: int)
    requires (forall k :: k in slots ==> slots[k].key == k) && PlanFits(repoints, slots) && TouchesForm(repoints, form)
    ensures Current(heads, slots, repoints, form, occurredAt) <==>
            && OneTargetEach(OfFormPlan(repoints, form))
            && forall r :: r in repoints && r.key.form == form ==> IsCurrent(r, heads, slots, occurredAt)
  {
    hide Fits, Mentions, IsCurrent, OneTargetEach, OfFormPlan;
    var own := OfFormPlan(repoints, form);
    OwnEntries(heads, slots, repoints, form);
    TouchedForms(repoints);
    assert own != [];
    forall r ensures r in own <==> r in repoints && r.key.form == form { OfFormPlanMembers(repoints, form, r); }
    forall r | r in own
      ensures r.key in slots && Fits(r, slots)
      ensures IsCurrent(r, heads, slots, occurredAt) <==>
              && r.key.form in heads && heads[r.key.form].updatedAt <= occurredAt
              && Mentions(heads[r.key.form], slots[r.key], r.from)
    {
      var i :| 0 <= i < |own| && own[i] == r;
      FitsItsSlot(r, slots);
      CurrentEntry(r, heads, slots, occurredAt);
    }
    if Current(heads, slots, repoints, form, occurredAt) {
      forall r | r in repoints && r.key.form == form ensures IsCurrent(r, heads, slots, occurredAt) {
        var i :| 0 <= i < |own| && own[i] == r;
      }
    }
    if forall r :: r in repoints && r.key.form == form ==> IsCurrent(r, heads, slots, occurredAt) {
      assert own[0] in own;
      forall i | 0 <= i < |own| ensures form in heads && Mentions(heads[form], slots[own[i].key], own[i].from) {
        assert own[i] in own;
      }
    }
  }

  lemma FitsItsSlot(r: Repoint, slots: Slots)
    requires Fits(r, slots)
    ensures r.key in slots
  {
  }

  // A plan is current exactly when each of its repoints is, and no target is moved twice.
  lemma CurrentRowByRow(heads: Heads, slots: Slots, repoints: seq<Repoint>, occurredAt: int)
    requires WellKeyed(heads, slots)
    ensures PlanCurrent(heads, slots, repoints, occurredAt) <==>
            && (forall i :: 0 <= i < |repoints| ==> IsCurrent(repoints[i], heads, slots, occurredAt))
            && (forall i, j :: 0 <= i < j < |repoints| && repoints[i].key.TargetSlot? ==> repoints[i].key != repoints[j].key)
  {
    TargetsOnceEach(repoints);
    hide Fits, Mentions, IsCurrent, Current, OfFormPlan, Entries, TouchesForm;
    forall r | IsCurrent(r, heads, slots, occurredAt) ensures Fits(r, slots) { CurrentEntry(r, heads, slots, occurredAt); }
    if PlanFits(repoints, slots) {
      TouchedForms(repoints);
      forall f | !TouchesForm(repoints, f) ensures OneTargetEach(OfFormPlan(repoints, f)) {
        assert f !in FormsTouched(repoints) && OfFormPlan(repoints, f) == [];
      }
      if PlanCurrent(heads, slots, repoints, occurredAt) {
        forall i | 0 <= i < |repoints| ensures IsCurrent(repoints[i], heads, slots, occurredAt) {
          assert repoints[i].key.form in FormsTouched(repoints) && repoints[i] in repoints;
          FormIsCurrent(heads, slots, repoints, repoints[i].key.form, occurredAt);
        }
        forall f | TouchesForm(repoints, f) ensures OneTargetEach(OfFormPlan(repoints, f)) {
          FormIsCurrent(heads, slots, repoints, f, occurredAt);
        }
      }
      if OneTargetEach(repoints) && forall i :: 0 <= i < |repoints| ==> IsCurrent(repoints[i], heads, slots, occurredAt) {
        forall f | TouchesForm(repoints, f) ensures Current(heads, slots, repoints, f, occurredAt) {
          FormIsCurrent(heads, slots, repoints, f, occurredAt);
        }
      }
    }
  }
}
