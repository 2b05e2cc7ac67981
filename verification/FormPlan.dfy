// The merge plan's references and the check that every plan passes when it is parsed:
// referencesAreCanonical and mutationPlanIsCoherent in packages/program/src/domain.ts.
module FormPlan {
  import opened FormReferences
  import opened StringOrder

  datatype Item = Item(kind: Kind, id: Id)
  datatype Repoint = Repoint(key: SlotKey, form: Id, from: Item, to: Item, expectedVersion: nat)
  datatype Pin = Pin(referenceKey: string, item: Item)
  datatype Contribution = Contribution(contributor: string, guard: Id, liveRepoints: seq<Repoint>, historicalPins: seq<Pin>)
  datatype MergePlan = MergePlan(source: Item, target: Item, references: seq<Contribution>)

  // The reference key is the slot's key, written out.
  function ReferenceKey(key: SlotKey): string {
    match key
    case TargetSlot(form) => "intake_form:" + form + ":target"
    case ExposureSlot(form, field, origin) => "intake_form:" + form + ":field:" + field + ":exposure:" + origin
    case RuleSlot(form, rule, origin) => "intake_form:" + form + ":rule:" + rule + ":choice:" + origin
  }

  function LiveKeys(c: Contribution): seq<string> {
    seq(|c.liveRepoints|, i requires 0 <= i < |c.liveRepoints| => ReferenceKey(c.liveRepoints[i].key))
  }

  function PinKeys(c: Contribution): seq<string> {
    seq(|c.historicalPins|, i requires 0 <= i < |c.historicalPins| => c.historicalPins[i].referenceKey)
  }

  // Each value is compared with the one before it, and only with that one.
  predicate StrictlyOrdered(keys: seq<string>) {
    forall i :: 0 < i < |keys| ==> Less(keys[i - 1], keys[i])
  }

  predicate AllDistinct<T(==)>(values: seq<T>) {
    forall i, j :: 0 <= i < j < |values| ==> values[i] != values[j]
  }

  predicate Canonical(c: Contribution, source: Item, target: Item) {
    && StrictlyOrdered(LiveKeys(c)) && StrictlyOrdered(PinKeys(c)) && AllDistinct(LiveKeys(c) + PinKeys(c))
    && (forall r :: r in c.liveRepoints ==> r.from == source && r.to == target)
    && (forall p :: p in c.historicalPins ==> p.item == source)
  }

  function Contributors(references: seq<Contribution>): seq<string> {
    seq(|references|, i requires 0 <= i < |references| => references[i].contributor)
  }

  function Guards(references: seq<Contribution>): seq<Id> {
    seq(|references|, i requires 0 <= i < |references| => references[i].guard)
  }

  // What parseProgramVocabularyMutationPlan accepts of a merge.
  predicate Coherent(plan: MergePlan) {
    && plan.source.kind == plan.target.kind && plan.source.id != plan.target.id
    && StrictlyOrdered(Contributors(plan.references)) && AllDistinct(Guards(plan.references))
    && (forall c :: c in plan.references ==> Canonical(c, plan.source, plan.target))
  }

  method AreStrictlyOrdered(keys: seq<string>) returns (ordered: bool)
    ensures ordered <==> StrictlyOrdered(keys)
  {
    for i := 0 to |keys|
      invariant StrictlyOrdered(keys[..i])
    {
      if i > 0 && !Less(keys[i - 1], keys[i]) { return false; }
    }
    return true;
  }

  // new Set(values).size === values.length
  method NoneRepeats<T(==)>(values: seq<T>) returns (distinct: bool)
    ensures distinct <==> AllDistinct(values)
  {
    var seen: set<T> := {};
    for i := 0 to |values|
      invariant AllDistinct(values[..i]) && (forall v :: v in seen <==> v in values[..i])
    {
      if values[i] in seen {
        var j :| 0 <= j < i && values[j] == values[i];
        return false;
      }
      seen := seen + {values[i]};
    }
    assert values[..|values|] == values;
    return true;
  }

  method IsCanonical(c: Contribution, source: Item, target: Item) returns (canonical: bool)
    ensures canonical <==> Canonical(c, source, target)
  {
    var live := AreStrictlyOrdered(LiveKeys(c));
    if !live { return false; }
    var pinned := AreStrictlyOrdered(PinKeys(c));
    if !pinned { return false; }
    var distinct := NoneRepeats(LiveKeys(c) + PinKeys(c));
    if !distinct { return false; }
    for i := 0 to |c.liveRepoints|
      invariant forall j :: 0 <= j < i ==> c.liveRepoints[j].from == source && c.liveRepoints[j].to == target
    {
      if c.liveRepoints[i].from != source || c.liveRepoints[i].to != target { return false; }
    }
    for i := 0 to |c.historicalPins|
      invariant forall j :: 0 <= j < i ==> c.historicalPins[j].item == source
    {
      if c.historicalPins[i].item != source { return false; }
    }
    return true;
  }

  // The whole check of a merge plan's references.
  method ParseMergePlan(plan: MergePlan) returns (accepted: bool)
    ensures accepted <==> Coherent(plan)
  {
    if plan.source.kind != plan.target.kind || plan.source.id == plan.target.id { return false; }
    var ordered := AreStrictlyOrdered(Contributors(plan.references));
    if !ordered { return false; }
    var guardIds: set<Id> := {};
    for i := 0 to |plan.references|
      invariant forall g :: g in guardIds <==> g in Guards(plan.references)[..i]
      invariant AllDistinct(Guards(plan.references)[..i])
      invariant forall j :: 0 <= j < i ==> Canonical(plan.references[j], plan.source, plan.target)
    {
      var c := plan.references[i];
      assert Guards(plan.references)[i] == c.guard;
      if c.guard in guardIds {
        var j :| 0 <= j < i && Guards(plan.references)[j] == c.guard;
        return false;
      }
      guardIds := guardIds + {c.guard};
      var canonical := IsCanonical(c, plan.source, plan.target);
      if !canonical { return false; }
    }
    assert Guards(plan.references)[..|plan.references|] == Guards(plan.references);
    return true;
  }

  // ---- What an accepted plan is ------------------------------------------------------------

  lemma {:induction false} OrderedByText(keys: seq<string>, i: nat, j: nat)
    requires StrictlyOrdered(keys) && i < j < |keys|
    ensures Less(keys[i], keys[j]) && keys[i] != keys[j]
    decreases j
  {
    if i < j - 1 {
      OrderedByText(keys, i, j - 1);
      LessIsTransitive(keys[i], keys[j - 1], keys[j]);
    }
    LessIsIrreflexive(keys[i]);
  }

  predicate DistinctSlots(repoints: seq<Repoint>) {
    forall i, j :: 0 <= i < j < |repoints| ==> repoints[i].key != repoints[j].key
  }

  // An accepted plan names every slot at most once and moves everything from its source to its one
  // target.
  lemma AcceptedPlanNamesSlotsOnce(plan: MergePlan, c: Contribution)
    requires Coherent(plan) && c in plan.references
    ensures DistinctSlots(c.liveRepoints)
    ensures forall r :: r in c.liveRepoints ==> r.from == plan.source && r.to == plan.target && r.to != r.from
  {
    forall i, j | 0 <= i < j < |c.liveRepoints|
      ensures c.liveRepoints[i].key != c.liveRepoints[j].key
    {
      OrderedByText(LiveKeys(c), i, j);
      assert LiveKeys(c)[i] == ReferenceKey(c.liveRepoints[i].key);
      assert LiveKeys(c)[j] == ReferenceKey(c.liveRepoints[j].key);
    }
  }
}
