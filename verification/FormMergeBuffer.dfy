// The imperative bufferIntakeRepoints: it groups the repoints by form, rewrites each head and
// buffers the slot updates. What it buffers is what FormMerge reasons about.
module FormMergeBuffer {
  import opened Wrappers
  import opened FormPlan
  import opened FormReferences
  import opened FormCollation
  import opened FormMerge

  // What is left in the unit: new heads, slot updates in statement order, the catalog's new version.
  datatype Buffer = Buffer(heads: Heads, moves: seq<Repoint>, catalogVersion: Option<nat>)

  // A second repoint of a form's target no longer finds the item it comes from.
  predicate OneTargetEach(repoints: seq<Repoint>) {
    forall i, j :: 0 <= i < j < |repoints| && repoints[i].key.TargetSlot? ==> repoints[i].key != repoints[j].key
  }

  function OfFormPlan(repoints: seq<Repoint>, form: Id): seq<Repoint> {
    if repoints == [] then []
    else
      var last := repoints[|repoints| - 1];
      OfFormPlan(repoints[..|repoints| - 1], form) + (if last.key.form == form then [last] else [])
  }

  lemma OfFormPlanGrows(repoints: seq<Repoint>, i: nat)
    requires i < |repoints|
    ensures forall f :: OfFormPlan(repoints[..i + 1], f) ==
              OfFormPlan(repoints[..i], f) + (if repoints[i].key.form == f then [repoints[i]] else [])
  {
    assert repoints[..i + 1][..i] == repoints[..i];
  }

  lemma {:induction false} OfFormPlanTargets(repoints: seq<Repoint>, form: Id, key: SlotKey)
    requires key.form == form
    ensures LastTo(OfFormPlan(repoints, form), key) == LastTo(repoints, key)
    ensures FirstTo(OfFormPlan(repoints, form), key) == FirstTo(repoints, key)
  {
    if repoints != [] {
      var n := |repoints| - 1;
      OfFormPlanTargets(repoints[..n], form, key);
      assert repoints == repoints[..n] + [repoints[n]];
      FirstOfAppend(repoints[..n], repoints[n], key);
      FirstOfAppend(OfFormPlan(repoints[..n], form), repoints[n], key);
      assert (OfFormPlan(repoints[..n], form) + [repoints[n]])[..|OfFormPlan(repoints[..n], form)|] == OfFormPlan(repoints[..n], form);
      assert OfFormPlan(repoints[..n], form) + [] == OfFormPlan(repoints[..n], form);
    }
  }

  lemma {:induction false} OfFormPlanMembers(repoints: seq<Repoint>, form: Id, r: Repoint)
    ensures r in OfFormPlan(repoints, form) <==> r in repoints && r.key.form == form
  {
    if repoints != [] {
      var n := |repoints| - 1;
      OfFormPlanMembers(repoints[..n], form, r);
      assert repoints == repoints[..n] + [repoints[n]];
    }
  }

  lemma OfFormPlanTouches(repoints: seq<Repoint>, form: Id, l: Location)
    ensures Touches(OfFormPlan(repoints, form), form, l) <==> Touches(repoints, form, l)
  {
    var plan := OfFormPlan(repoints, form);
    if Touches(plan, form, l) {
      var i :| 0 <= i < |plan| && plan[i].key.form == form && LocationOf(plan[i].key) == l;
      OfFormPlanMembers(repoints, form, plan[i]);
      var j :| 0 <= j < |repoints| && repoints[j] == plan[i];
    }
    if Touches(repoints, form, l) {
      var i :| 0 <= i < |repoints| && repoints[i].key.form == form && LocationOf(repoints[i].key) == l;
      OfFormPlanMembers(repoints, form, repoints[i]);
      var j :| 0 <= j < |plan| && plan[j] == repoints[i];
    }
  }

  lemma NewItemsSame(slots: set<Slot>, form: Id, l: Location, repoints: seq<Repoint>)
    ensures NewItems(SlotsAt(slots, form, l), OfFormPlan(repoints, form)) == NewItems(SlotsAt(slots, form, l), repoints)
  {
    forall s | s in SlotsAt(slots, form, l) ensures NewItem(s, OfFormPlan(repoints, form)) == NewItem(s, repoints) {
      OfFormPlanTargets(repoints, form, s.key);
    }
  }

  // Rewriting a head by its own repoints is rewriting it by the whole plan.
  lemma RewrittenByOwn(before: Head, after: Head, slots: set<Slot>, repoints: seq<Repoint>)
    requires Rewritten(before, after, slots, OfFormPlan(repoints, before.form))
    ensures Rewritten(before, after, slots, repoints)
  {
    OfFormPlanTargets(repoints, before.form, TargetSlot(before.form));
    forall l ensures Touches(OfFormPlan(repoints, before.form), before.form, l) <==> Touches(repoints, before.form, l) {
      OfFormPlanTouches(repoints, before.form, l);
    }
    forall l ensures NewItems(SlotsAt(slots, before.form, l), OfFormPlan(repoints, before.form)) ==
                     NewItems(SlotsAt(slots, before.form, l), repoints)
    {
      NewItemsSame(slots, before.form, l, repoints);
    }
    forall i | 0 <= i < |before.rules|
      ensures RuleRewritten(before.rules[i], after.rules[i], before.form, slots, repoints)
    {
      assert RuleRewritten(before.rules[i], after.rules[i], before.form, slots, OfFormPlan(repoints, before.form));
    }
  }

  // [...new Set(slots at a location, each with its new item)].sort(localeCompare)
  method NewIdsAt(slots: Slots, form: Id, l: Location, repoints: seq<Repoint>, before: Collation) returns (ids: seq<Id>)
    requires Collates(before)
    ensures Lists(ids, NewItems(SlotsAt(SlotValues(slots), form, l), repoints)) && Sorted(ids, before)
  {
    ids := [];
    var keys := slots.Keys;
    ghost var seen: set<Slot> := {};
    while keys != {}
      invariant keys <= slots.Keys
      invariant seen ==
                set k | k in slots && k !in keys && slots[k].key.form == form && LocationOf(slots[k].key) == l :: slots[k]
      invariant Lists(ids, NewItems(seen, repoints))
      decreases keys
    {
      var key :| key in keys;
      keys := keys - {key};
      var slot := slots[key];
      if slot.key.form == form && LocationOf(slot.key) == l {
        var item := NewItemNow(slot, repoints);
        assert NewItems(seen + {slot}, repoints) == NewItems(seen, repoints) + {item};
        seen := seen + {slot};
        if item !in ids { AppendId(ids, item); ids := ids + [item]; }
      }
    }
    assert seen == SlotsAt(SlotValues(slots), form, l);
    ids := SortIds(ids, before);
    SortedListsOnce(ids, before);
  }

  // repointBySlot.get(slot.key)?.to.id ?? slot.itemId
  method NewItemNow(slot: Slot, repoints: seq<Repoint>) returns (item: Id)
    ensures item == NewItem(slot, repoints)
  {
    item := slot.item;
    for i := 0 to |repoints|
      invariant item == NewItem(slot, repoints[..i])
    {
      assert repoints[..i + 1][..i] == repoints[..i];
      if repoints[i].key == slot.key { item := repoints[i].to.id; }
    }
    assert repoints[..|repoints|] == repoints;
  }

  lemma NoEntries(before: Head, slots: Slots)
    ensures Entries(before, slots, []) && TargetAfter(before, []) == before.target
    ensures forall l :: !Touches([], before.form, l)
  {
  }

  // The checking pass over one form's entries: the target moves as it goes, fields and rules are
  // only marked.
  method CheckEntries(before: Head, slots: Slots, entries: seq<Repoint>)
    returns (stale: bool, target: Option<Category>, fields: set<Id>, ruleIds: set<Id>)
    requires PlanFits(entries, slots) && (forall i :: 0 <= i < |entries| ==> entries[i].key.form == before.form)
    requires forall k :: k in slots ==> slots[k].key == k
    ensures !stale <==> Entries(before, slots, entries)
    ensures !stale ==> target == TargetAfter(before, entries)
    ensures !stale ==> forall f :: f in fields <==> Touches(entries, before.form, AtExposure(f))
    ensures !stale ==> forall r :: r in ruleIds <==> Touches(entries, before.form, AtRule(r))
    ensures !stale ==> fields <= before.exposure.Keys
  {
    stale, target, fields, ruleIds := false, before.target, {}, {};
    NoEntries(before, slots);
    hide Entries, TargetAfter, Touches, OneTargetEach;
    for i := 0 to |entries|
      invariant Entries(before, slots, entries[..i])
      invariant target == TargetAfter(before, entries[..i])
      invariant forall f :: f in fields <==> Touches(entries[..i], before.form, AtExposure(f))
      invariant forall r :: r in ruleIds <==> Touches(entries[..i], before.form, AtRule(r))
      invariant fields <= before.exposure.Keys
    {
      var r := entries[i];
      var slot := slots[r.key];
      MarkOne(before.form, entries[..i], r);
      EntriesGrow(before, slots, entries[..i], r);
      assert entries[..i + 1] == entries[..i] + [r];
      match slot.key {
        case TargetSlot(_) =>
          if target != Some(Category(r.from.kind, r.from.id)) {
            StaleStays(before, slots, entries, i + 1);
            return true, target, fields, ruleIds;
          }
          target := Some(Category(r.to.kind, r.to.id));
        case ExposureSlot(_, field, _) =>
          if !(field in before.exposure && r.from.id in before.exposure[field]) {
            StaleStays(before, slots, entries, i + 1);
            return true, target, fields, ruleIds;
          }
          fields := fields + {field};
        case RuleSlot(_, rule, _) =>
          if !(exists j :: 0 <= j < |before.rules| && RuleMentions(before.rules[j], rule, slot.fieldId, r.from.id)) {
            StaleStays(before, slots, entries, i + 1);
            return true, target, fields, ruleIds;
          }
          ruleIds := ruleIds + {rule};
      }
    }
    assert entries[..|entries|] == entries;
  }

  ghost predicate Entries(before: Head, slots: Slots, entries: seq<Repoint>)
    requires forall i :: 0 <= i < |entries| ==> entries[i].key in slots
  {
    OneTargetEach(entries) && forall i :: 0 <= i < |entries| ==> Mentions(before, slots[entries[i].key], entries[i].from)
  }

  function TargetAfter(before: Head, entries: seq<Repoint>): Option<Category> {
    if LastTo(entries, TargetSlot(before.form)).None? then before.target
    else if before.target.None? then None
    else Some(Category(before.target.value.kind, LastTo(entries, TargetSlot(before.form)).value))
  }

  lemma MarkOne(form: Id, entries: seq<Repoint>, r: Repoint)
    requires r.key.form == form
    ensures forall l :: Touches(entries + [r], form, l) <==> Touches(entries, form, l) || l == LocationOf(r.key)
  {
    var all := entries + [r];
    forall l ensures Touches(all, form, l) <==> Touches(entries, form, l) || l == LocationOf(r.key) {
      assert all[|entries|] == r;
      if Touches(entries, form, l) {
        var i :| 0 <= i < |entries| && entries[i].key.form == form && LocationOf(entries[i].key) == l;
        assert all[i] == entries[i];
      }
    }
  }

  lemma StaleStays(before: Head, slots: Slots, entries: seq<Repoint>, n: nat)
    requires n <= |entries| && (forall i :: 0 <= i < |entries| ==> entries[i].key in slots)
    ensures Entries(before, slots, entries) ==> Entries(before, slots, entries[..n])
  {
    assert forall i :: 0 <= i < n ==> entries[..n][i] == entries[i];
  }

  // One more entry is acceptable exactly when the running state still mentions what it moves.
  lemma EntriesGrow(before: Head, slots: Slots, entries: seq<Repoint>, r: Repoint)
    requires PlanFits(entries, slots) && Fits(r, slots) && Entries(before, slots, entries)
    requires r.key.form == before.form && (forall i :: 0 <= i < |entries| ==> entries[i].key.form == before.form)
    requires forall k :: k in slots ==> slots[k].key == k
    ensures Entries(before, slots, entries + [r]) <==>
            if r.key.TargetSlot? then TargetAfter(before, entries) == Some(Category(r.from.kind, r.from.id))
            else Mentions(before, slots[r.key], r.from)
    ensures Entries(before, slots, entries + [r]) ==>
              TargetAfter(before, entries + [r]) ==
              if r.key.TargetSlot? then Some(Category(r.to.kind, r.to.id)) else TargetAfter(before, entries)
  {
    hide Mentions, Touches;
    var all := entries + [r];
    assert all[|entries|] == r && all[..|entries|] == entries;
    assert forall i :: 0 <= i < |entries| ==> all[i] == entries[i];
    if r.key.TargetSlot? { TargetGrows(before, slots, entries, r); }
    else { assert LastTo(all, TargetSlot(before.form)) == LastTo(entries, TargetSlot(before.form)); }
  }

  lemma TargetGrows(before: Head, slots: Slots, entries: seq<Repoint>, r: Repoint)
    requires PlanFits(entries, slots) && Fits(r, slots) && Entries(before, slots, entries)
    requires r.key == TargetSlot(before.form)
    requires forall k :: k in slots ==> slots[k].key == k
    ensures (OneTargetEach(entries + [r]) && Mentions(before, slots[r.key], r.from)) <==>
            TargetAfter(before, entries) == Some(Category(r.from.kind, r.from.id))
    ensures LastTo(entries + [r], r.key) == Some(r.to.id)
  {
    var all := entries + [r];
    assert all[|entries|] == r && all[..|entries|] == entries;
    assert forall i :: 0 <= i < |entries| ==> all[i] == entries[i];
    if LastTo(entries, r.key).Some? {
      var i := LastIndex(entries, r.key);
      assert all[i].key == all[|entries|].key;
      assert entries[i].to.id != slots[r.key].item;
    } else {
      forall i | 0 <= i < |entries| ensures entries[i].key != r.key { SomeLast(entries, i); }
    }
  }

  lemma {:induction false} LastIndex(entries: seq<Repoint>, key: SlotKey) returns (i: nat)
    requires LastTo(entries, key).Some?
    ensures i < |entries| && entries[i].key == key && LastTo(entries, key) == Some(entries[i].to.id)
  {
    var n := |entries| - 1;
    if entries[n].key == key { i := n; } else { i := LastIndex(entries[..n], key); }
  }

  // The lists that the entries rewrite are sorted.
  ghost predicate Collated(after: Head, entries: seq<Repoint>, collation: Collation) {
    && (forall f :: f in after.exposure && Touches(entries, after.form, AtExposure(f)) ==>
          Sorted(after.exposure[f], collation))
    && (forall i :: 0 <= i < |after.rules| ==> RuleCollated(after.rules[i], after.form, entries, collation))
  }

  ghost predicate RuleCollated(rule: Rule, form: Id, entries: seq<Repoint>, collation: Collation) {
    rule.condition.SelectedAny? && Touches(entries, form, AtRule(rule.id)) ==> Sorted(rule.condition.choices, collation)
  }

  // One form's head: None when an entry is stale.
  method RewriteHead(before: Head, slots: Slots, entries: seq<Repoint>, occurredAt: int, collation: Collation)
    returns (after: Option<Head>)
    requires Collates(collation) && PlanFits(entries, slots) && entries != [] && (forall i :: 0 <= i < |entries| ==> entries[i].key.form == before.form)
    requires forall k :: k in slots ==> slots[k].key == k
    ensures after.Some? <==> before.updatedAt <= occurredAt && Entries(before, slots, entries)
    ensures after.Some? ==>
              && Rewritten(before, after.value, SlotValues(slots), entries) && Collated(after.value, entries, collation)
              && after.value.updatedAt == occurredAt
  {
    if before.updatedAt > occurredAt { return None; }
    var stale, target, fields, ruleIds := CheckEntries(before, slots, entries);
    if stale { return None; }
    var exposure := RewriteExposure(before, slots, entries, fields, collation);
    var rules := RewriteRules(before, slots, entries, ruleIds, collation);
    TargetRewritten(before, slots, entries);
    return Some(before.(version := before.version + 1, target := target, exposure := exposure, rules := rules,
                        updatedAt := occurredAt));
  }

  lemma TargetRewritten(before: Head, slots: Slots, entries: seq<Repoint>)
    requires Entries.requires(before, slots, entries) && Entries(before, slots, entries)
    requires forall k :: k in slots ==> slots[k].key == k
    requires forall i :: 0 <= i < |entries| ==> entries[i].key.form == before.form
    ensures Touches(entries, before.form, AtTarget) ==>
              && before.target.Some? && LastTo(entries, TargetSlot(before.form)).Some?
              && TargetAfter(before, entries) ==
                 Some(Category(before.target.value.kind, LastTo(entries, TargetSlot(before.form)).value))
    ensures !Touches(entries, before.form, AtTarget) ==> TargetAfter(before, entries) == before.target
  {
    if Touches(entries, before.form, AtTarget) {
      var i :| 0 <= i < |entries| && entries[i].key.form == before.form && LocationOf(entries[i].key) == AtTarget;
      assert entries[i].key == TargetSlot(before.form) && Mentions(before, slots[entries[i].key], entries[i].from);
      SomeLast(entries, i);
    } else {
      Untouched(entries, before.form, AtTarget, TargetSlot(before.form));
    }
  }

  method RewriteExposure(before: Head, slots: Slots, entries: seq<Repoint>, fields: set<Id>, collation: Collation)
    returns (exposure: map<Id, seq<Id>>)
    requires Collates(collation) && fields <= before.exposure.Keys
    ensures forall f :: f in fields && f in exposure ==> Sorted(exposure[f], collation)
    ensures exposure.Keys == before.exposure.Keys
    ensures forall f :: f in before.exposure ==>
              if f in fields then Lists(exposure[f], NewItems(SlotsAt(SlotValues(slots), before.form, AtExposure(f)), entries))
              else exposure[f] == before.exposure[f]
  {
    exposure := before.exposure;
    var rest := fields;
    while rest != {}
      invariant rest <= fields && exposure.Keys == before.exposure.Keys
      invariant forall f :: f in before.exposure ==>
                  if f in fields && f !in rest
                  then Lists(exposure[f], NewItems(SlotsAt(SlotValues(slots), before.form, AtExposure(f)), entries))
                  else exposure[f] == before.exposure[f]
      invariant forall f :: f in fields - rest ==> Sorted(exposure[f], collation)
      decreases rest
    {
      var field :| field in rest;
      var ids := NewIdsAt(slots, before.form, AtExposure(field), entries, collation);
      exposure := exposure[field := ids];
      rest := rest - {field};
    }
  }

  method RewriteRules(before: Head, slots: Slots, entries: seq<Repoint>, ruleIds: set<Id>, collation: Collation)
    returns (rules: seq<Rule>)
    requires Collates(collation)
    requires forall r :: r in ruleIds <==> Touches(entries, before.form, AtRule(r))
    ensures |rules| == |before.rules|
    ensures forall i :: 0 <= i < |rules| ==>
              && RuleRewritten(before.rules[i], rules[i], before.form, SlotValues(slots), entries)
              && RuleCollated(rules[i], before.form, entries, collation)
  {
    rules := [];
    for i := 0 to |before.rules|
      invariant |rules| == i
      invariant forall j :: 0 <= j < i ==>
                  && RuleRewritten(before.rules[j], rules[j], before.form, SlotValues(slots), entries)
                  && RuleCollated(rules[j], before.form, entries, collation)
    {
      var rule := before.rules[i];
      if rule.id in ruleIds && rule.condition.SelectedAny? {
        var ids := NewIdsAt(slots, before.form, AtRule(rule.id), entries, collation);
        rule := rule.(condition := rule.condition.(choices := ids));
      }
      rules := rules + [rule];
    }
  }

  // The forms in the order in which the plan first names them.
  function FormOrder(repoints: seq<Repoint>): seq<Id> {
    if repoints == [] then []
    else
      var last := repoints[|repoints| - 1].key.form;
      var forms := FormOrder(repoints[..|repoints| - 1]);
      if last in forms then forms else forms + [last]
  }

  lemma {:induction false} FormOrderListsTheForms(repoints: seq<Repoint>)
    ensures forall f :: f in FormOrder(repoints) <==> OfFormPlan(repoints, f) != []
    ensures forall i, j :: 0 <= i < j < |FormOrder(repoints)| ==> FormOrder(repoints)[i] != FormOrder(repoints)[j]
  {
    if repoints != [] { FormOrderListsTheForms(repoints[..|repoints| - 1]); }
  }

  lemma FormInOrder(repoints: seq<Repoint>, form: Id)
    ensures form in FormOrder(repoints) <==> OfFormPlan(repoints, form) != []
  {
    FormOrderListsTheForms(repoints);
  }

  lemma NoForms()
    ensures FormOrder([]) == []
  {
  }

  lemma FormOrderNext(repoints: seq<Repoint>, i: nat)
    requires i < |repoints|
    ensures var form, forms := repoints[i].key.form, FormOrder(repoints[..i]);
            FormOrder(repoints[..i + 1]) == if form in forms then forms else forms + [form]
  {
    assert repoints[..i + 1][..i] == repoints[..i];
  }

  ghost predicate GroupedBy(groups: map<Id, seq<Repoint>>, repoints: seq<Repoint>) {
    forall f :: (f in groups <==> OfFormPlan(repoints, f) != []) && (f in groups ==> groups[f] == OfFormPlan(repoints, f))
  }

  lemma GroupOneMore(groups: map<Id, seq<Repoint>>, repoints: seq<Repoint>, i: nat)
    requires i < |repoints| && GroupedBy(groups, repoints[..i])
    ensures var form := repoints[i].key.form;
            && (form in groups <==> form in FormOrder(repoints[..i]))
            && GroupedBy(groups[form := (if form in groups then groups[form] else []) + [repoints[i]]], repoints[..i + 1])
  {
    OfFormPlanGrows(repoints, i);
    FormInOrder(repoints[..i], repoints[i].key.form);
    hide OfFormPlan, FormOrder;
  }

  lemma NoGroups()
    ensures GroupedBy(map[], [])
  {
  }

  // The first pass: every repoint must still fit its slot; then they are grouped by form, the groups
  // in the order of a Map.
  method GroupPlan(slots: Slots, repoints: seq<Repoint>)
    returns (groups: Option<map<Id, seq<Repoint>>>, forms: seq<Id>)
    ensures groups.Some? ==> forms == FormOrder(repoints)
    ensures groups.Some? <==> PlanFits(repoints, slots)
    ensures groups.Some? ==> GroupedBy(groups.value, repoints)
  {
    hide OfFormPlan, Fits, FormOrder, GroupedBy;
    NoForms();
    NoGroups();
    forms := [];
    var grouped: map<Id, seq<Repoint>> := map[];
    for i := 0 to |repoints|
      invariant forall j :: 0 <= j < i ==> Fits(repoints[j], slots)
      invariant GroupedBy(grouped, repoints[..i]) && forms == FormOrder(repoints[..i])
    {
      var r := repoints[i];
      if !Fits(r, slots) { return None, forms; }
      FormOrderNext(repoints, i);
      GroupOneMore(grouped, repoints, i);
      if r.key.form !in grouped { forms := forms + [r.key.form]; }
      var group := if r.key.form in grouped then grouped[r.key.form] else [];
      grouped := grouped[r.key.form := group + [r]];
    }
    assert repoints[..|repoints|] == repoints;
    return Some(grouped), forms;
  }

  // The moves of the forms in `done`, in some order of forms but in plan order within each.
  ghost predicate MovesOf(moves: seq<Repoint>, repoints: seq<Repoint>, done: set<Id>) {
    && (forall i :: 0 <= i < |moves| ==> moves[i] in repoints)
    && (forall k :: FirstTo(moves, k) == if k.form in done then FirstTo(repoints, k) else None)
  }

  lemma {:induction false} FirstOfConcat(a: seq<Repoint>, b: seq<Repoint>, key: SlotKey)
    ensures FirstTo(a + b, key) == if FirstTo(a, key).Some? then FirstTo(a, key) else FirstTo(b, key)
  {
    if a == [] {
      assert a + b == b;
    } else {
      assert (a + b)[1..] == a[1..] + b;
      FirstOfConcat(a[1..], b, key);
    }
  }

  lemma MovesGrow(moves: seq<Repoint>, repoints: seq<Repoint>, done: set<Id>, form: Id)
    requires MovesOf(moves, repoints, done) && form !in done
    ensures MovesOf(moves + OfFormPlan(repoints, form), repoints, done + {form})
  {
    var own := OfFormPlan(repoints, form);
    forall k ensures FirstTo(moves + own, k) == if k.form in done + {form} then FirstTo(repoints, k) else None {
      FirstOfConcat(moves, own, k);
      if k.form == form {
        OfFormPlanTargets(repoints, form, k);
      } else {
        forall i | 0 <= i < |own| ensures own[i].key != k { OfFormPlanMembers(repoints, form, own[i]); }
        NeverFirst(own, k);
      }
    }
    forall i | 0 <= i < |own| ensures own[i] in repoints { OfFormPlanMembers(repoints, form, own[i]); }
  }

  lemma OwnEntries(heads: Heads, slots: Slots, repoints: seq<Repoint>, form: Id)
    requires PlanFits(repoints, slots)
    ensures PlanFits(OfFormPlan(repoints, form), slots)
    ensures forall i :: 0 <= i < |OfFormPlan(repoints, form)| ==> OfFormPlan(repoints, form)[i].key.form == form
  {
    var own := OfFormPlan(repoints, form);
    forall i | 0 <= i < |own| ensures Fits(own[i], slots) && own[i].key.form == form {
      OfFormPlanMembers(repoints, form, own[i]);
      var j :| 0 <= j < |repoints| && repoints[j] == own[i];
    }
  }

  // A touched form whose head is there, is not from the future and mentions everything the plan
  // moves in it.
  ghost predicate Current(heads: Heads, slots: Slots, repoints: seq<Repoint>, form: Id, occurredAt: int) {
    form in heads && heads[form].updatedAt <= occurredAt && Stays(heads[form], slots, OfFormPlan(repoints, form))
  }

  ghost predicate PlanCurrent(heads: Heads, slots: Slots, repoints: seq<Repoint>, occurredAt: int) {
    PlanFits(repoints, slots) && forall f :: TouchesForm(repoints, f) ==> Current(heads, slots, repoints, f, occurredAt)
  }

  // The slot updates in statement order: form by form in plan order, within a form in plan order.
  function PlannedMoves(repoints: seq<Repoint>, forms: seq<Id>): seq<Repoint> {
    if forms == [] then []
    else PlannedMoves(repoints, forms[..|forms| - 1]) + OfFormPlan(repoints, forms[|forms| - 1])
  }

  // The head a form is to get, to the last list.
  ghost predicate IsNewHead(
    before: Head, after: Head, slots: Slots, repoints: seq<Repoint>, occurredAt: int, collation: Collation)
  {
    && Rewritten(before, after, SlotValues(slots), repoints) && Collated(after, repoints, collation)
    && after.updatedAt == occurredAt
  }

  // A form whose new head does not pass the head schema.
  ghost predicate Unparsed(
    heads: Heads, slots: Slots, repoints: seq<Repoint>, f: Id, occurredAt: int, collation: Collation,
    parses: Head -> bool)
  {
    && f in heads && TouchesForm(repoints, f)
    && exists h :: IsNewHead(heads[f], h, slots, repoints, occurredAt, collation) && !parses(h)
  }

  // bufferIntakeRepoints. None is a refusal: a stale reference exactly when the plan is not current,
  // or else a new head that does not parse. Otherwise the buffered heads are the merged ones, the
  // slot updates are the plan's repoints in statement order, and the catalog goes one version up.
  method BufferIntakeRepoints(
    catalogVersion: Option<nat>, heads: Heads, slots: Slots, repoints: seq<Repoint>, occurredAt: int,
    collation: Collation, parses: Head -> bool)
    returns (buffer: Option<Buffer>)
    requires WellKeyed(heads, slots) && Collates(collation)
    ensures buffer.None? ==>
              && |repoints| > 0
              && (|| catalogVersion.None? || !PlanCurrent(heads, slots, repoints, occurredAt)
                  || exists f :: Unparsed(heads, slots, repoints, f, occurredAt, collation, parses))
    ensures buffer.Some? && |repoints| == 0 ==> buffer.value == Buffer(map[], [], None)
    ensures buffer.Some? && |repoints| > 0 ==>
              && catalogVersion.Some? && PlanCurrent(heads, slots, repoints, occurredAt)
              && buffer.value.catalogVersion == Some(catalogVersion.value + 1)
              && buffer.value.heads.Keys == FormsTouched(repoints) && buffer.value.heads.Keys <= heads.Keys
              && forall f :: f in buffer.value.heads ==>
                   && IsNewHead(heads[f], buffer.value.heads[f], slots, repoints, occurredAt, collation)
                   && parses(buffer.value.heads[f])
    ensures buffer.Some? ==> buffer.value.moves == PlannedMoves(repoints, FormOrder(repoints))
    ensures buffer.Some? ==> Merged(heads, heads + buffer.value.heads, slots, repoints)
    ensures buffer.Some? ==> MovesOf(buffer.value.moves, repoints, FormsTouched(repoints))
  {
    hide Rewritten, MovesOf, Touches, Fits, Current, Merged, TouchesForm, OfFormPlan, FormsTouched, Collated, IsNewHead;
    hide FormSet, PlannedMoves, FormOrder, Unparsed;
    if |repoints| == 0 {
      NoMoves(repoints, heads, slots);
      return Some(Buffer(map[], [], None));
    }
    if catalogVersion.None? { return None; }
    var groups, forms := GroupPlan(slots, repoints);
    if groups.None? { return None; }
    FormOrderListsTheForms(repoints);
    TouchedForms(repoints);
    var after: Heads := map[];
    var moves: seq<Repoint> := [];
    NoMovesYet(repoints);
    assert forms[..0] == [];
    for i := 0 to |forms|
      invariant after.Keys == FormSet(forms[..i]) && after.Keys <= heads.Keys
      invariant forall f :: f in after ==>
                  && Current(heads, slots, repoints, f, occurredAt)
                  && IsNewHead(heads[f], after[f], slots, repoints, occurredAt, collation) && parses(after[f])
      invariant MovesOf(moves, repoints, FormSet(forms[..i])) && moves == PlannedMoves(repoints, forms[..i])
    {
      var form := forms[i];
      NextForm(repoints, forms, i);
      assert TouchesForm(repoints, form);
      if form !in heads {
        NotCurrent(heads, slots, repoints, form, occurredAt);
        return None;
      }
      var rewritten := RewriteGroup(heads, slots, repoints, form, groups.value[form], occurredAt, collation);
      if rewritten.None? { return None; }
      if !parses(rewritten.value) {
        DoesNotParse(heads, slots, repoints, form, rewritten.value, occurredAt, collation, parses);
        return None;
      }
      MovesGrow(moves, repoints, FormSet(forms[..i]), form);
      after := after[form := rewritten.value];
      moves := moves + groups.value[form];
    }
    assert forms[..|forms|] == forms;
    AllFormsDone(repoints, forms);
    NewHeadsAreRewritten(heads, after, slots, repoints, occurredAt, collation);
    MergedByGroups(heads, after, slots, repoints);
    return Some(Buffer(after, moves, Some(catalogVersion.value + 1)));
  }

  function FormSet(forms: seq<Id>): set<Id> {
    set f | f in forms
  }

  lemma NextForm(repoints: seq<Repoint>, forms: seq<Id>, i: nat)
    requires i < |forms| && forall j, k :: 0 <= j < k < |forms| ==> forms[j] != forms[k]
    ensures FormSet(forms[..i + 1]) == FormSet(forms[..i]) + {forms[i]} && forms[i] !in FormSet(forms[..i])
    ensures PlannedMoves(repoints, forms[..i + 1]) == PlannedMoves(repoints, forms[..i]) + OfFormPlan(repoints, forms[i])
  {
    assert forms[..i + 1] == forms[..i] + [forms[i]];
    assert forms[..i + 1][..i] == forms[..i];
  }

  lemma DoesNotParse(
    heads: Heads, slots: Slots, repoints: seq<Repoint>, form: Id, h: Head, occurredAt: int, collation: Collation,
    parses: Head -> bool)
    requires form in heads && TouchesForm(repoints, form) && !parses(h)
    requires IsNewHead(heads[form], h, slots, repoints, occurredAt, collation)
    ensures Unparsed(heads, slots, repoints, form, occurredAt, collation, parses)
  {
    hide IsNewHead, TouchesForm;
  }

  lemma NewHeadsAreRewritten(
    heads: Heads, after: Heads, slots: Slots, repoints: seq<Repoint>, occurredAt: int, collation: Collation)
    requires after.Keys <= heads.Keys
    requires forall f :: f in after ==> IsNewHead(heads[f], after[f], slots, repoints, occurredAt, collation)
    ensures forall f :: f in after ==> Rewritten(heads[f], after[f], SlotValues(slots), repoints)
  {
    hide Rewritten, Collated;
  }

  lemma AllFormsDone(repoints: seq<Repoint>, forms: seq<Id>)
    requires forms == FormOrder(repoints)
    ensures FormSet(forms) == FormsTouched(repoints)
  {
    FormOrderListsTheForms(repoints);
    TouchedForms(repoints);
  }

  lemma NotCurrent(heads: Heads, slots: Slots, repoints: seq<Repoint>, form: Id, occurredAt: int)
    requires form !in heads
    ensures !Current(heads, slots, repoints, form, occurredAt)
  {
  }

  lemma MergedByGroups(heads: Heads, after: Heads, slots: Slots, repoints: seq<Repoint>)
    requires after.Keys == FormsTouched(repoints) && after.Keys <= heads.Keys
    requires forall f :: f in after ==> Rewritten(heads[f], after[f], SlotValues(slots), repoints)
    ensures Merged(heads, heads + after, slots, repoints)
  {
    hide Rewritten;
    TouchedForms(repoints);
  }

  method RewriteGroup(
    heads: Heads, slots: Slots, repoints: seq<Repoint>, form: Id, entries: seq<Repoint>, occurredAt: int,
    collation: Collation)
    returns (after: Option<Head>)
    requires Collates(collation) && WellKeyed(heads, slots) && PlanFits(repoints, slots) && form in heads
    requires entries == OfFormPlan(repoints, form) && entries != []
    ensures after.Some? <==> Current(heads, slots, repoints, form, occurredAt)
    ensures after.Some? ==> IsNewHead(heads[form], after.value, slots, repoints, occurredAt, collation)
  {
    OwnEntries(heads, slots, repoints, form);
    hide Rewritten, Collated;
    after := RewriteHead(heads[form], slots, entries, occurredAt, collation);
    if after.Some? {
      RewrittenByOwn(heads[form], after.value, SlotValues(slots), repoints);
      SameForm(heads[form], after.value, SlotValues(slots), repoints);
      CollatedByOwn(after.value, repoints, collation);
    }
  }

  lemma SameForm(before: Head, after: Head, slots: set<Slot>, repoints: seq<Repoint>)
    requires Rewritten(before, after, slots, repoints)
    ensures after.form == before.form
  {
  }

  lemma CollatedByOwn(after: Head, repoints: seq<Repoint>, collation: Collation)
    requires Collated(after, OfFormPlan(repoints, after.form), collation)
    ensures Collated(after, repoints, collation)
  {
    forall l ensures Touches(OfFormPlan(repoints, after.form), after.form, l) <==> Touches(repoints, after.form, l) {
      OfFormPlanTouches(repoints, after.form, l);
    }
    hide Touches, Sorted;
    forall i | 0 <= i < |after.rules| ensures RuleCollated(after.rules[i], after.form, repoints, collation) {
      assert RuleCollated(after.rules[i], after.form, OfFormPlan(repoints, after.form), collation);
    }
  }

  // ---- The new head is one head ------------------------------------------------------------

  lemma RuleIsOne(
    before: Rule, a: Rule, b: Rule, form: Id, slots: set<Slot>, repoints: seq<Repoint>, collation: Collation)
    requires Collates(collation)
    requires RuleRewritten(before, a, form, slots, repoints) && RuleCollated(a, form, repoints, collation)
    requires RuleRewritten(before, b, form, slots, repoints) && RuleCollated(b, form, repoints, collation)
    ensures a == b
  {
    if before.condition.SelectedAny? && Touches(repoints, form, AtRule(before.id)) {
      SortedListIsOne(a.condition.choices, b.condition.choices, collation);
    }
  }

  // The plan determines the new head of a form, list orders included.
  lemma NewHeadIsOne(
    before: Head, a: Head, b: Head, slots: Slots, repoints: seq<Repoint>, occurredAt: int, collation: Collation)
    requires Collates(collation)
    requires IsNewHead(before, a, slots, repoints, occurredAt, collation)
    requires IsNewHead(before, b, slots, repoints, occurredAt, collation)
    ensures a == b
  {
    forall f | f in before.exposure ensures a.exposure[f] == b.exposure[f] {
      if Touches(repoints, before.form, AtExposure(f)) { SortedListIsOne(a.exposure[f], b.exposure[f], collation); }
    }
    forall i | 0 <= i < |before.rules| ensures a.rules[i] == b.rules[i] {
      RuleIsOne(before.rules[i], a.rules[i], b.rules[i], before.form, SlotValues(slots), repoints, collation);
    }
    assert a.exposure == b.exposure && a.rules == b.rules;
  }

  lemma NoMovesYet(repoints: seq<Repoint>)
    ensures MovesOf([], repoints, {}) && FormSet([]) == {} && PlannedMoves(repoints, []) == []
  {
  }

  lemma NoMoves(repoints: seq<Repoint>, heads: Heads, slots: Slots)
    requires repoints == []
    ensures Merged(heads, heads + map[], slots, repoints) && MovesOf([], repoints, FormsTouched(repoints))
    ensures PlannedMoves(repoints, FormOrder(repoints)) == []
    ensures FormsTouched(repoints) == {}
  {
    assert heads + map[] == heads;
  }

  ghost predicate Stays(before: Head, slots: Slots, entries: seq<Repoint>) {
    (forall i :: 0 <= i < |entries| ==> entries[i].key in slots) && Entries(before, slots, entries)
  }

  function FormsTouched(repoints: seq<Repoint>): set<Id> {
    set i | 0 <= i < |repoints| :: repoints[i].key.form
  }

  lemma TouchedForms(repoints: seq<Repoint>)
    ensures forall f :: f in FormsTouched(repoints) <==> TouchesForm(repoints, f)
    ensures forall f :: f in FormsTouched(repoints) <==> OfFormPlan(repoints, f) != []
  {
    forall f ensures f in FormsTouched(repoints) <==> TouchesForm(repoints, f) {
      if f in FormsTouched(repoints) {
        var i :| 0 <= i < |repoints| && repoints[i].key.form == f;
        assert Touches(repoints, f, LocationOf(repoints[i].key));
      }
    }
    forall f ensures f in FormsTouched(repoints) <==> OfFormPlan(repoints, f) != [] {
      if f in FormsTouched(repoints) {
        var i :| 0 <= i < |repoints| && repoints[i].key.form == f;
        OfFormPlanMembers(repoints, f, repoints[i]);
      }
      if OfFormPlan(repoints, f) != [] {
        OfFormPlanMembers(repoints, f, OfFormPlan(repoints, f)[0]);
        var i :| 0 <= i < |repoints| && repoints[i] == OfFormPlan(repoints, f)[0];
      }
    }
  }

  lemma MovesAreKnown(slots: Slots, repoints: seq<Repoint>, moves: seq<Repoint>)
    requires PlanFits(repoints, slots) && MovesOf(moves, repoints, FormsTouched(repoints))
    ensures forall i :: 0 <= i < |moves| ==> moves[i].key in slots
  {
    forall i | 0 <= i < |moves| ensures moves[i].key in slots {
      var j :| 0 <= j < |repoints| && repoints[j] == moves[i];
    }
  }

  lemma MovesAgreeFirst(repoints: seq<Repoint>, moves: seq<Repoint>, k: SlotKey)
    requires MovesOf(moves, repoints, FormsTouched(repoints))
    ensures FirstTo(moves, k) == FirstTo(repoints, k)
  {
    if k.form !in FormsTouched(repoints) {
      forall i | 0 <= i < |repoints| ensures repoints[i].key != k {}
      NeverFirst(repoints, k);
    }
  }

  lemma SameFirstSameSlots(slots: Slots, a: seq<Repoint>, b: seq<Repoint>)
    requires forall k :: FirstTo(a, k) == FirstTo(b, k)
    ensures AfterSlots(slots, a) == AfterSlots(slots, b)
  {
    hide FirstTo;
  }

  lemma MovesMoveTheSame(slots: Slots, repoints: seq<Repoint>, moves: seq<Repoint>)
    requires (forall k :: k in slots ==> slots[k].key == k) && PlanFits(repoints, slots)
    requires MovesOf(moves, repoints, FormsTouched(repoints))
    ensures forall i :: 0 <= i < |moves| ==> moves[i].key in slots
    ensures MoveSlots(slots, moves) == MoveSlots(slots, repoints)
  {
    MovesAreKnown(slots, repoints, moves);
    assert forall i :: 0 <= i < |repoints| ==> Fits(repoints[i], slots);
    forall k ensures FirstTo(moves, k) == FirstTo(repoints, k) { MovesAgreeFirst(repoints, moves, k); }
    SameFirstSameSlots(slots, repoints, moves);
    hide *;
    MovedSlots(slots, moves);
    MovedSlots(slots, repoints);
  }

  // From the buffer to the tables: whatever plan is accepted, the checker accepts what the batch
  // leaves behind.
  lemma BufferedMergeAgrees(
    plan: MergePlan, c: Contribution, heads: Heads, registry: Registry, slots: Slots, buffer: Buffer)
    requires Coherent(plan) && c in plan.references
    requires WellKeyed(heads, slots) && PlanFits(c.liveRepoints, slots) && TablesAgree(heads, registry, slots)
    requires Merged(heads, heads + buffer.heads, slots, c.liveRepoints)
    requires MovesOf(buffer.moves, c.liveRepoints, FormsTouched(c.liveRepoints))
    ensures forall i :: 0 <= i < |buffer.moves| ==> buffer.moves[i].key in slots
    ensures TablesAgree(heads + buffer.heads, registry, MoveSlots(slots, buffer.moves))
  {
    hide TablesAgree, Merged, MovesOf, Fits, Coherent;
    MovesMoveTheSame(slots, c.liveRepoints, buffer.moves);
    MergeKeepsAgreement(plan, c, heads, heads + buffer.heads, registry, slots);
  }
}
