// Model of bufferIntakeRepoints in apps/cloudflare-worker/src/d1-program-vocabulary-merge.ts: a merge
// rewrites form heads and moves reference slots; afterwards the checker must still accept both.
module FormMerge {
  import opened Wrappers
  import opened FormPlan
  import opened FormReferences

  type Heads = map<Id, Head>
  type Slots = map<SlotKey, Slot>

  ghost predicate WellKeyed(heads: Heads, slots: Slots) {
    (forall f :: f in heads ==> heads[f].form == f) && (forall k :: k in slots ==> slots[k].key == k)
  }

  function SlotValues(slots: Slots): set<Slot> {
    set k | k in slots :: slots[k]
  }

  // ---- The plan ----------------------------------------------------------------------------

  function FirstTo(repoints: seq<Repoint>, key: SlotKey): Option<Id> {
    if repoints == [] then None
    else if repoints[0].key == key then Some(repoints[0].to.id)
    else FirstTo(repoints[1..], key)
  }

  function LastTo(repoints: seq<Repoint>, key: SlotKey): Option<Id> {
    if repoints == [] then None
    else
      var last := repoints[|repoints| - 1];
      if last.key == key then Some(last.to.id) else LastTo(repoints[..|repoints| - 1], key)
  }

  predicate Fits(r: Repoint, slots: Slots) {
    && r.key in slots
    && var slot := slots[r.key];
    && slot.version == r.expectedVersion && slot.kind == r.from.kind && slot.item == r.from.id
    && r.to.kind == r.from.kind && r.to.id != r.from.id && r.form == r.key.form
  }

  // The head really mentions the old item where the slot says it does.
  predicate Mentions(head: Head, slot: Slot, from: Item) {
    match slot.key
    case TargetSlot(_) => head.target == Some(Category(from.kind, from.id))
    case ExposureSlot(_, field, _) => field in head.exposure && from.id in head.exposure[field]
    case RuleSlot(_, rule, _) =>
      exists i :: 0 <= i < |head.rules| && RuleMentions(head.rules[i], rule, slot.fieldId, from.id)
  }

  predicate RuleMentions(rule: Rule, id: Id, fieldId: Option<Id>, item: Id) {
    && rule.id == id && rule.condition.SelectedAny? && Some(rule.condition.sourceField) == fieldId
    && item in rule.condition.choices
  }

  predicate Touches(repoints: seq<Repoint>, form: Id, l: Location) {
    exists i :: 0 <= i < |repoints| && repoints[i].key.form == form && LocationOf(repoints[i].key) == l
  }

  // ---- The tables after the batch ----------------------------------------------------------

  // UPDATE ... WHERE item_id and slot_version are still the ones read: a second repoint of the same
  // slot matches no row and changes nothing.
  function MoveSlot(slots: Slots, before: Slots, r: Repoint): Slots
    requires r.key in before
  {
    if r.key in slots && slots[r.key] == before[r.key] then
      slots[r.key := slots[r.key].(item := r.to.id, version := before[r.key].version + 1)]
    else slots
  }

  function MoveSlots(before: Slots, repoints: seq<Repoint>): Slots
    requires forall i :: 0 <= i < |repoints| ==> repoints[i].key in before
  {
    if repoints == [] then before
    else MoveSlot(MoveSlots(before, repoints[..|repoints| - 1]), before, repoints[|repoints| - 1])
  }

  function Moved(slot: Slot, repoints: seq<Repoint>): Slot {
    match FirstTo(repoints, slot.key)
    case None => slot
    case Some(to) => slot.(item := to, version := slot.version + 1)
  }

  function AfterSlots(slots: Slots, repoints: seq<Repoint>): Slots {
    map k | k in slots :: Moved(slots[k], repoints)
  }

  lemma {:induction false} FirstOfAppend(repoints: seq<Repoint>, r: Repoint, key: SlotKey)
    ensures FirstTo(repoints + [r], key) ==
            if FirstTo(repoints, key).Some? then FirstTo(repoints, key) else if r.key == key then Some(r.to.id) else None
  {
    if repoints == [] {
      assert repoints + [r] == [r] && [r][1..] == [];
    } else {
      assert (repoints + [r])[1..] == repoints[1..] + [r];
      FirstOfAppend(repoints[1..], r, key);
    }
  }

  // One more update moves the slot it names, unless an earlier one has.
  lemma OneMoreMoved(before: Slots, init: seq<Repoint>, r: Repoint, k: SlotKey)
    requires k in before && before[k].key == k && r.key in before
    ensures var slots := MoveSlot(AfterSlots(before, init), before, r);
            k in slots && slots[k] == Moved(before[k], init + [r])
  {
    hide FirstTo;
    FirstOfAppend(init, r, k);
  }

  // The conditional updates give every slot its FIRST repoint's target.
  lemma {:induction false} MovedSlots(before: Slots, repoints: seq<Repoint>)
    requires forall k :: k in before ==> before[k].key == k
    requires forall i :: 0 <= i < |repoints| ==> repoints[i].key in before
    ensures MoveSlots(before, repoints) == AfterSlots(before, repoints)
  {
    if repoints != [] {
      var n := |repoints| - 1;
      var init, r := repoints[..n], repoints[n];
      MovedSlots(before, init);
      assert repoints == init + [r];
      hide Moved;
      var slots := MoveSlot(AfterSlots(before, init), before, r);
      forall k | k in before ensures k in slots && slots[k] == Moved(before[k], repoints) {
        OneMoreMoved(before, init, r, k);
      }
      assert slots.Keys == before.Keys;
    }
  }

  // ---- The head after the merge ------------------------------------------------------------

  // repointBySlot is a Map, so the LAST repoint of a slot decides what the head says.
  function NewItem(slot: Slot, repoints: seq<Repoint>): Id {
    match LastTo(repoints, slot.key) case None => slot.item case Some(to) => to
  }

  function NewItems(slots: set<Slot>, repoints: seq<Repoint>): set<Id> {
    set s | s in slots :: NewItem(s, repoints)
  }

  predicate NoDuplicates(ids: seq<Id>) {
    forall i, j :: 0 <= i < j < |ids| ==> ids[i] != ids[j]
  }

  // The new ids are listed once each; their order is left open.
  ghost predicate Lists(ids: seq<Id>, items: set<Id>) {
    NoDuplicates(ids) && SetOf(ids) == items
  }

  ghost predicate RuleRewritten(before: Rule, after: Rule, form: Id, slots: set<Slot>, repoints: seq<Repoint>) {
    && after.id == before.id
    && if before.condition.SelectedAny? && Touches(repoints, form, AtRule(before.id)) then
         && after.condition.SelectedAny? && after.condition.sourceField == before.condition.sourceField
         && Lists(after.condition.choices, NewItems(SlotsAt(slots, form, AtRule(before.id)), repoints))
       else after.condition == before.condition
  }

  ghost predicate Rewritten(before: Head, after: Head, slots: set<Slot>, repoints: seq<Repoint>) {
    && after.form == before.form && after.version == before.version + 1
    && (if Touches(repoints, before.form, AtTarget) then
          && before.target.Some? && LastTo(repoints, TargetSlot(before.form)).Some?
          && after.target == Some(Category(before.target.value.kind, LastTo(repoints, TargetSlot(before.form)).value))
        else after.target == before.target)
    && after.exposure.Keys == before.exposure.Keys
    && (forall f :: f in before.exposure ==>
          if Touches(repoints, before.form, AtExposure(f)) then
            Lists(after.exposure[f], NewItems(SlotsAt(slots, before.form, AtExposure(f)), repoints))
          else after.exposure[f] == before.exposure[f])
    && |after.rules| == |before.rules|
    && (forall i :: 0 <= i < |before.rules| ==>
          RuleRewritten(before.rules[i], after.rules[i], before.form, slots, repoints))
  }

  // ---- Agreement is kept -------------------------------------------------------------------

  lemma SlotsAfter(slots: Slots, repoints: seq<Repoint>, form: Id, l: Location)
    requires forall k :: k in slots ==> slots[k].key == k
    ensures SlotsAt(SlotValues(AfterSlots(slots, repoints)), form, l) ==
            set s | s in SlotsAt(SlotValues(slots), form, l) :: Moved(s, repoints)
  {
    var after := AfterSlots(slots, repoints);
    forall t ensures t in SlotsAt(SlotValues(after), form, l) <==>
                     exists s :: s in SlotsAt(SlotValues(slots), form, l) && Moved(s, repoints) == t
    {
      if t in SlotsAt(SlotValues(after), form, l) {
        var k :| k in after && after[k] == t;
        assert slots[k] in SlotsAt(SlotValues(slots), form, l);
      }
      if exists s :: s in SlotsAt(SlotValues(slots), form, l) && Moved(s, repoints) == t {
        var s :| s in SlotsAt(SlotValues(slots), form, l) && Moved(s, repoints) == t;
        assert s.key in after && after[s.key] == t;
      }
    }
  }

  lemma {:induction false} Untouched(repoints: seq<Repoint>, form: Id, l: Location, key: SlotKey)
    requires !Touches(repoints, form, l) && key.form == form && LocationOf(key) == l
    ensures FirstTo(repoints, key).None? && LastTo(repoints, key).None?
  {
    NeverFirst(repoints, key);
    NeverLast(repoints, key);
  }

  lemma {:induction false} NeverFirst(repoints: seq<Repoint>, key: SlotKey)
    requires forall i :: 0 <= i < |repoints| ==> repoints[i].key != key
    ensures FirstTo(repoints, key).None?
  {
    if repoints != [] { NeverFirst(repoints[1..], key); }
  }

  lemma {:induction false} NeverLast(repoints: seq<Repoint>, key: SlotKey)
    requires forall i :: 0 <= i < |repoints| ==> repoints[i].key != key
    ensures LastTo(repoints, key).None?
  {
    if repoints != [] { NeverLast(repoints[..|repoints| - 1], key); }
  }

  // What a merge asks for at one location afterwards, in terms of what was asked for before.
  lemma {:induction false} RuleWantAfter(before: seq<Rule>, after: seq<Rule>, registry: Registry, form: Id, id: Id,
                                         slots: set<Slot>, repoints: seq<Repoint>)
    requires |before| == |after|
    requires forall i :: 0 <= i < |before| ==> RuleRewritten(before[i], after[i], form, slots, repoints)
    ensures match RuleWant(before, registry, id)
            case None => RuleWant(after, registry, id).None?
            case Some(w) =>
              RuleWant(after, registry, id) ==
              Some(Want(w.kind, if Touches(repoints, form, AtRule(id)) then NewItems(SlotsAt(slots, form, AtRule(id)), repoints)
                                else w.ids))
  {
    if before != [] {
      var n := |before| - 1;
      RuleWantAfter(before[..n], after[..n], registry, form, id, slots, repoints);
    }
  }

  lemma WantAfter(before: Head, after: Head, registry: Registry, slots: set<Slot>, repoints: seq<Repoint>, l: Location)
    requires Rewritten(before, after, slots, repoints) && ExposesVocabulary(before, registry)
    requires l == AtTarget && Touches(repoints, before.form, AtTarget) ==>
               before.target.Some? && NewItems(SlotsAt(slots, before.form, AtTarget), repoints) ==
                                      {LastTo(repoints, TargetSlot(before.form)).value}
    ensures ExposesVocabulary(after, registry)
    ensures match WantAt(before, registry, l)
            case None => WantAt(after, registry, l).None?
            case Some(w) =>
              WantAt(after, registry, l) ==
              Some(Want(w.kind, if Touches(repoints, before.form, l) then NewItems(SlotsAt(slots, before.form, l), repoints)
                                else w.ids))
  {
    if l.AtRule? { RuleWantAfter(before.rules, after.rules, registry, before.form, l.rule, slots, repoints); }
  }

  function MovedItems(slots: set<Slot>, repoints: seq<Repoint>): set<Id> {
    set s | s in slots :: Moved(s, repoints).item
  }

  // Slot by slot the head takes the last target and the index the first; they agree as sets.
  predicate Consistent(slots: set<Slot>, repoints: seq<Repoint>) {
    MovedItems(slots, repoints) == NewItems(slots, repoints)
  }

  lemma MatchesAfter(want: Option<Want>, want': Option<Want>, slots: set<Slot>, slots': set<Slot>, repoints: seq<Repoint>,
                     touched: bool)
    requires Matches(want, slots) && slots' == (set s | s in slots :: Moved(s, repoints)) && (touched ==> slots != {})
    requires want'.Some? <==> want.Some?
    requires want.Some? ==> want'.value == Want(want.value.kind, if touched then NewItems(slots, repoints) else want.value.ids)
    requires !touched ==> forall s :: s in slots ==> Moved(s, repoints) == s
    ensures Matches(want', slots') <==> (touched ==> Consistent(slots, repoints))
  {
    if want.Some? {
      var s :| s in slots;
      assert Moved(s, repoints) in slots';
      assert ItemsOf(slots') == MovedItems(slots, repoints);
      if !touched { assert slots' == slots; }
    }
  }

  // The plan names existing slots of forms it may rewrite.
  ghost predicate PlanFits(repoints: seq<Repoint>, slots: Slots) {
    forall i :: 0 <= i < |repoints| ==> Fits(repoints[i], slots)
  }

  lemma TargetIsOne(heads: Heads, slots: Slots, repoints: seq<Repoint>, form: Id)
    requires WellKeyed(heads, slots) && PlanFits(repoints, slots) && Touches(repoints, form, AtTarget)
    ensures TargetSlot(form) in slots && SlotsAt(SlotValues(slots), form, AtTarget) == {slots[TargetSlot(form)]}
    ensures LastTo(repoints, TargetSlot(form)).Some?
    ensures NewItems(SlotsAt(SlotValues(slots), form, AtTarget), repoints) == {LastTo(repoints, TargetSlot(form)).value}
  {
    var i :| 0 <= i < |repoints| && repoints[i].key.form == form && LocationOf(repoints[i].key) == AtTarget;
    assert repoints[i].key == TargetSlot(form);
    SomeLast(repoints, i);
    assert SlotsAt(SlotValues(slots), form, AtTarget) == {slots[TargetSlot(form)]};
  }

  lemma {:induction false} SomeLast(repoints: seq<Repoint>, i: nat)
    requires i < |repoints|
    ensures LastTo(repoints, repoints[i].key).Some?
  {
    if i < |repoints| - 1 { SomeLast(repoints[..|repoints| - 1], i); }
  }

  // One rewritten form: it agrees afterwards exactly when first and last targets agree as sets
  // wherever the plan touches it.
  lemma FormAgreesExactlyWhenConsistent(
    heads: Heads, slots: Slots, registry: Registry, repoints: seq<Repoint>, form: Id, after: Head)
    requires WellKeyed(heads, slots) && PlanFits(repoints, slots) && form in heads
    requires FormAgrees(heads[form], registry, SlotValues(slots))
    requires Rewritten(heads[form], after, SlotValues(slots), repoints)
    ensures FormAgrees(after, registry, SlotValues(AfterSlots(slots, repoints))) <==>
            forall l :: Touches(repoints, form, l) ==> Consistent(SlotsAt(SlotValues(slots), form, l), repoints)
  {
    forall l ensures Matches(WantAt(heads[form], registry, l), SlotsAt(SlotValues(slots), form, l))
             ensures ExposesVocabulary(after, registry)
             ensures Matches(WantAt(after, registry, l), SlotsAt(SlotValues(AfterSlots(slots, repoints)), form, l)) <==>
                     (Touches(repoints, form, l) ==> Consistent(SlotsAt(SlotValues(slots), form, l), repoints))
    {
      LocationAgreesExactlyWhenConsistent(heads, slots, registry, repoints, form, after, l);
    }
  }

  lemma LocationAgreesExactlyWhenConsistent(
    heads: Heads, slots: Slots, registry: Registry, repoints: seq<Repoint>, form: Id, after: Head, l: Location)
    requires WellKeyed(heads, slots) && PlanFits(repoints, slots) && form in heads
    requires ExposesVocabulary(heads[form], registry)
    requires Matches(WantAt(heads[form], registry, l), SlotsAt(SlotValues(slots), form, l))
    requires Rewritten(heads[form], after, SlotValues(slots), repoints)
    ensures ExposesVocabulary(after, registry)
    ensures Matches(WantAt(after, registry, l), SlotsAt(SlotValues(AfterSlots(slots, repoints)), form, l)) <==>
            (Touches(repoints, form, l) ==> Consistent(SlotsAt(SlotValues(slots), form, l), repoints))
  {
    var here := SlotsAt(SlotValues(slots), form, l);
    if l == AtTarget && Touches(repoints, form, l) { TargetIsOne(heads, slots, repoints, form); }
    WantAfter(heads[form], after, registry, SlotValues(slots), repoints, l);
    SlotsAfter(slots, repoints, form, l);
    if Touches(repoints, form, l) {
      var i :| 0 <= i < |repoints| && repoints[i].key.form == form && LocationOf(repoints[i].key) == l;
      assert slots[repoints[i].key] in here;
    } else {
      forall s | s in here ensures Moved(s, repoints) == s { Untouched(repoints, form, l, s.key); }
    }
    MatchesAfter(WantAt(heads[form], registry, l), WantAt(after, registry, l), here,
                 SlotsAt(SlotValues(AfterSlots(slots, repoints)), form, l), repoints, Touches(repoints, form, l));
  }

  // ---- The main results --------------------------------------------------------------------

  lemma {:induction false} DistinctFirstIsLast(repoints: seq<Repoint>, key: SlotKey)
    requires DistinctSlots(repoints)
    ensures FirstTo(repoints, key) == LastTo(repoints, key)
  {
    if repoints != [] {
      var n := |repoints| - 1;
      DistinctFirstIsLast(repoints[..n], key);
      assert repoints == repoints[..n] + [repoints[n]];
      FirstOfAppend(repoints[..n], repoints[n], key);
      if repoints[n].key == key { NeverFirst(repoints[..n], key); }
    }
  }

  lemma DistinctIsConsistent(slots: set<Slot>, repoints: seq<Repoint>)
    requires DistinctSlots(repoints)
    ensures Consistent(slots, repoints)
  {
    forall s | s in slots ensures Moved(s, repoints).item == NewItem(s, repoints) { DistinctFirstIsLast(repoints, s.key); }
  }

  ghost predicate TouchesForm(repoints: seq<Repoint>, form: Id) {
    exists l :: Touches(repoints, form, l)
  }

  // Every touched head is rewritten, every other head is left alone.
  ghost predicate Merged(heads: Heads, after: Heads, slots: Slots, repoints: seq<Repoint>) {
    && after.Keys == heads.Keys
    && (forall f :: f in heads ==>
          if TouchesForm(repoints, f) then Rewritten(heads[f], after[f], SlotValues(slots), repoints)
          else after[f] == heads[f])
  }

  // Agreement over keyed tables, as ValidateCurrentFormReferences decides it over row lists.
  ghost predicate TablesAgree(heads: Heads, registry: Registry, slots: Slots) {
    && (forall f :: f in heads ==> FormAgrees(heads[f], registry, SlotValues(slots)))
    && (forall k :: k in slots ==> k.form in heads)
  }

  lemma UntouchedFormAgrees(heads: Heads, registry: Registry, slots: Slots, repoints: seq<Repoint>, form: Id)
    requires WellKeyed(heads, slots) && form in heads && !TouchesForm(repoints, form)
    requires FormAgrees(heads[form], registry, SlotValues(slots))
    ensures FormAgrees(heads[form], registry, SlotValues(AfterSlots(slots, repoints)))
  {
    forall l ensures Matches(WantAt(heads[form], registry, l), SlotsAt(SlotValues(AfterSlots(slots, repoints)), form, l)) {
      var here := SlotsAt(SlotValues(slots), form, l);
      SlotsAfter(slots, repoints, form, l);
      forall s | s in here ensures Moved(s, repoints) == s { Untouched(repoints, form, l, s.key); }
      assert SlotsAt(SlotValues(AfterSlots(slots, repoints)), form, l) == here;
      assert Matches(WantAt(heads[form], registry, l), here);
    }
  }

  // For any list of repoints, form by form.
  lemma MergeAgreesExactlyWhenConsistent(heads: Heads, after: Heads, registry: Registry, slots: Slots, repoints: seq<Repoint>)
    requires WellKeyed(heads, slots) && PlanFits(repoints, slots) && TablesAgree(heads, registry, slots)
    requires Merged(heads, after, slots, repoints)
    ensures TablesAgree(after, registry, AfterSlots(slots, repoints)) <==>
            forall f, l :: f in heads && Touches(repoints, f, l) ==>
              Consistent(SlotsAt(SlotValues(slots), f, l), repoints)
  {
    forall f | f in heads
      ensures FormAgrees(after[f], registry, SlotValues(AfterSlots(slots, repoints))) <==>
              forall l :: Touches(repoints, f, l) ==> Consistent(SlotsAt(SlotValues(slots), f, l), repoints)
    {
      if TouchesForm(repoints, f) {
        FormAgreesExactlyWhenConsistent(heads, slots, registry, repoints, f, after[f]);
      } else {
        UntouchedFormAgrees(heads, registry, slots, repoints, f);
      }
    }
  }

  // The promise: every accepted plan keeps them in agreement, also when several slots of one
  // location collapse onto the same target item.
  lemma MergeKeepsAgreement(
    plan: MergePlan, c: Contribution, heads: Heads, after: Heads, registry: Registry, slots: Slots)
    requires Coherent(plan) && c in plan.references
    requires WellKeyed(heads, slots) && PlanFits(c.liveRepoints, slots) && TablesAgree(heads, registry, slots)
    requires Merged(heads, after, slots, c.liveRepoints)
    ensures TablesAgree(after, registry, MoveSlots(slots, c.liveRepoints))
  {
    var repoints := c.liveRepoints;
    AcceptedPlanNamesSlotsOnce(plan, c);
    MovedSlots(slots, repoints);
    forall f, l | f in heads && Touches(repoints, f, l) ensures Consistent(SlotsAt(SlotValues(slots), f, l), repoints) {
      DistinctIsConsistent(SlotsAt(SlotValues(slots), f, l), repoints);
    }
    MergeAgreesExactlyWhenConsistent(heads, after, registry, slots, repoints);
  }
}
