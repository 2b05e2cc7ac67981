// Model of validateCurrentFormReferences in apps/cloudflare-worker/src/d1-program-vocabulary.ts: the
// reference-slot index must say exactly what the form heads say.
module FormReferences {
  import opened Sets
  import opened Wrappers

  type Id = string

  datatype Kind = Track | Format

  // A slot's key spells out where in which form it sits; `origin` is the item it was created for.
  datatype SlotKey =
    | TargetSlot(form: Id)
    | ExposureSlot(form: Id, field: Id, origin: Id)
    | RuleSlot(form: Id, rule: Id, origin: Id)

  datatype Location = AtTarget | AtExposure(field: Id) | AtRule(rule: Id)

  datatype Slot = Slot(key: SlotKey, fieldId: Option<Id>, kind: Kind, item: Id, version: nat)

  function LocationOf(key: SlotKey): Location {
    match key
    case TargetSlot(_) => AtTarget
    case ExposureSlot(_, field, _) => AtExposure(field)
    case RuleSlot(_, rule, _) => AtRule(rule)
  }

  datatype Condition = SelectedAny(sourceField: Id, choices: seq<Id>) | OtherCondition
  datatype Rule = Rule(id: Id, condition: Condition)
  datatype Category = Category(kind: Kind, item: Id)
  datatype Head = Head(form: Id, version: nat, target: Option<Category>, exposure: map<Id, seq<Id>>, rules: seq<Rule>,
                       updatedAt: int)

  // The registry's fields, removed ones included; Some for those whose options are program items.
  type Registry = map<Id, Option<Kind>>

  predicate Vocabulary(registry: Registry, field: Id) {
    field in registry && registry[field].Some?
  }

  function SetOf(ids: seq<Id>): set<Id> {
    set i | 0 <= i < |ids| :: ids[i]
  }

  // ---- What a head asks for --------------------------------------------------------------

  datatype Want = Want(kind: Kind, ids: set<Id>)

  predicate ExposesVocabulary(head: Head, registry: Registry) {
    forall f :: f in head.exposure ==> Vocabulary(registry, f)
  }

  // The choice condition of a rule over program items; other rules ask for nothing.
  predicate Chooses(rule: Rule, registry: Registry) {
    rule.condition.SelectedAny? && Vocabulary(registry, rule.condition.sourceField)
  }

  // A later rule with the same id replaces an earlier one.
  function RuleWant(rules: seq<Rule>, registry: Registry, id: Id): Option<Want> {
    if rules == [] then None
    else
      var last := rules[|rules| - 1];
      if last.id == id && Chooses(last, registry) then
        Some(Want(registry[last.condition.sourceField].value, SetOf(last.condition.choices)))
      else RuleWant(rules[..|rules| - 1], registry, id)
  }

  function WantAt(head: Head, registry: Registry, l: Location): Option<Want>
    requires ExposesVocabulary(head, registry)
  {
    match l
    case AtTarget =>
      if head.target.Some? then Some(Want(head.target.value.kind, {head.target.value.item})) else None
    case AtExposure(f) =>
      if f in head.exposure then Some(Want(registry[f].value, SetOf(head.exposure[f]))) else None
    case AtRule(r) => RuleWant(head.rules, registry, r)
  }

  // ---- What the slots say ----------------------------------------------------------------

  function SlotsAt(slots: set<Slot>, form: Id, l: Location): set<Slot> {
    set s | s in slots && s.key.form == form && LocationOf(s.key) == l
  }

  function ItemsOf(slots: set<Slot>): set<Id> {
    set s | s in slots :: s.item
  }

  // At one location: no slots where nothing is asked for; otherwise some, all of the asked-for kind,
  // naming exactly the asked-for items.
  predicate Matches(want: Option<Want>, slots: set<Slot>) {
    match want
    case None => slots == {}
    case Some(w) => slots != {} && ItemsOf(slots) == w.ids && forall s :: s in slots ==> s.kind == w.kind
  }

  ghost predicate FormAgrees(head: Head, registry: Registry, slots: set<Slot>) {
    ExposesVocabulary(head, registry) && forall l :: Matches(WantAt(head, registry, l), SlotsAt(slots, head.form, l))
  }

  function FormsOf(heads: seq<Head>): set<Id> {
    set i | 0 <= i < |heads| :: heads[i].form
  }

  // Heads and index agree: form by form, location by location, and no slot of an unknown form.
  ghost predicate Agreement(heads: seq<Head>, registry: Registry, slots: set<Slot>) {
    && (forall i :: 0 <= i < |heads| ==> FormAgrees(heads[i], registry, slots))
    && (forall s :: s in slots ==> s.key.form in FormsOf(heads))
  }

  // ---- The checker -----------------------------------------------------------------------

  function SlotSet(references: seq<Slot>): set<Slot> {
    set i | 0 <= i < |references| :: references[i]
  }

  function OfForm(references: seq<Slot>, form: Id): seq<Slot> {
    if references == [] then []
    else
      var last := references[|references| - 1];
      OfForm(references[..|references| - 1], form) + (if last.key.form == form then [last] else [])
  }

  function FormSlots(slots: set<Slot>, form: Id): set<Slot> {
    set s | s in slots && s.key.form == form
  }

  lemma {:induction false} OfFormSlots(references: seq<Slot>, form: Id)
    ensures SlotSet(OfForm(references, form)) == FormSlots(SlotSet(references), form)
    ensures OfForm(references, form) == [] <==> FormSlots(SlotSet(references), form) == {}
  {
    if references != [] {
      var n := |references| - 1;
      var before, last := references[..n], references[n];
      OfFormSlots(before, form);
      assert references == before + [last];
      AppendSlot(before, last);
      AppendSlot(OfForm(before, form), last);
      assert OfForm(references, form) == if last.key.form == form then OfForm(before, form) + [last] else OfForm(before, form);
      assert FormSlots(SlotSet(before) + {last}, form) ==
             FormSlots(SlotSet(before), form) + (if last.key.form == form then {last} else {});
    }
  }

  lemma AppendSlot(references: seq<Slot>, s: Slot)
    ensures SlotSet(references + [s]) == SlotSet(references) + {s}
  {
    var all := references + [s];
    assert all[|references|] == s;
    assert forall i :: 0 <= i < |references| ==> all[i] == references[i];
  }

  lemma OfFormGrows(references: seq<Slot>, i: nat)
    requires i < |references|
    ensures forall f :: OfForm(references[..i + 1], f) ==
              OfForm(references[..i], f) + (if references[i].key.form == f then [references[i]] else [])
  {
    assert references[..i + 1][..i] == references[..i];
  }

  method GroupByForm(references: seq<Slot>) returns (groups: map<Id, seq<Slot>>)
    ensures forall f :: (f in groups <==> OfForm(references, f) != []) && (f in groups ==> groups[f] == OfForm(references, f))
  {
    groups := map[];
    assert forall f :: OfForm(references[..0], f) == [];
    hide OfForm;
    for i := 0 to |references|
      invariant forall f :: (f in groups <==> OfForm(references[..i], f) != [])
                            && (f in groups ==> groups[f] == OfForm(references[..i], f))
    {
      var reference := references[i];
      var group := if reference.key.form in groups then groups[reference.key.form] else [];
      groups := groups[reference.key.form := group + [reference]];
      OfFormGrows(references, i);
    }
    assert references[..|references|] == references;
  }

  type Wants = map<Location, Want>

  ghost predicate TargetRecorded(wants: Wants, head: Head) {
    && (AtTarget in wants <==> head.target.Some?)
    && (AtTarget in wants ==> wants[AtTarget] == Want(head.target.value.kind, {head.target.value.item}))
  }

  ghost predicate ExposureRecorded(wants: Wants, head: Head, registry: Registry, fields: set<Id>)
    requires fields <= head.exposure.Keys
  {
    forall f :: (AtExposure(f) in wants <==> f in fields)
                && (f in fields ==>
                      Vocabulary(registry, f) && wants[AtExposure(f)] == Want(registry[f].value, SetOf(head.exposure[f])))
  }

  ghost predicate RulesRecorded(wants: Wants, rules: seq<Rule>, registry: Registry) {
    forall r :: (AtRule(r) in wants <==> RuleWant(rules, registry, r).Some?)
                && (AtRule(r) in wants ==> RuleWant(rules, registry, r) == Some(wants[AtRule(r)]))
  }

  method RecordExposure(head: Head, registry: Registry, target: Wants) returns (wants: Option<Wants>)
    requires TargetRecorded(target, head) && forall l :: l in target ==> l == AtTarget
    ensures wants.Some? <==> ExposesVocabulary(head, registry)
    ensures wants.Some? ==> TargetRecorded(wants.value, head) && RulesRecorded(wants.value, [], registry)
                            && ExposureRecorded(wants.value, head, registry, head.exposure.Keys)
  {
    var expected, fields := target, head.exposure.Keys;
    ghost var done: set<Id> := {};
    while fields != {}
      invariant fields + done == head.exposure.Keys && fields !! done
      invariant TargetRecorded(expected, head) && ExposureRecorded(expected, head, registry, done)
      invariant forall l :: l in expected ==> !l.AtRule?
      decreases fields
    {
      var field :| field in fields;
      if !Vocabulary(registry, field) { return None; }
      expected := expected[AtExposure(field) := Want(registry[field].value, SetOf(head.exposure[field]))];
      fields, done := fields - {field}, done + {field};
    }
    return Some(expected);
  }

  // None is the source's data_corrupt: an exposure of a field that has no program items.
  method ExpectedOf(head: Head, registry: Registry) returns (expected: Option<Wants>)
    ensures expected.Some? <==> ExposesVocabulary(head, registry)
    ensures expected.Some? ==> forall l ::
              (l in expected.value <==> WantAt(head, registry, l).Some?)
              && (l in expected.value ==> WantAt(head, registry, l) == Some(expected.value[l]))
  {
    var target: Wants := map[];
    if head.target.Some? {
      target := map[AtTarget := Want(head.target.value.kind, {head.target.value.item})];
    }
    var exposed := RecordExposure(head, registry, target);
    if exposed.None? { return None; }
    var wants := exposed.value;
    for i := 0 to |head.rules|
      invariant TargetRecorded(wants, head) && ExposureRecorded(wants, head, registry, head.exposure.Keys)
      invariant RulesRecorded(wants, head.rules[..i], registry)
    {
      var rule := head.rules[i];
      assert head.rules[..i + 1][..i] == head.rules[..i] && head.rules[..i + 1][i] == rule;
      if Chooses(rule, registry) {
        wants := wants[AtRule(rule.id) := Want(registry[rule.condition.sourceField].value, SetOf(rule.condition.choices))];
      }
    }
    assert head.rules[..|head.rules|] == head.rules;
    return Some(wants);
  }

  function GroupAt(group: seq<Slot>, l: Location): set<Slot> {
    set s | s in SlotSet(group) && LocationOf(s.key) == l
  }

  lemma GroupGrows(group: seq<Slot>, s: Slot, l: Location)
    ensures GroupAt(group + [s], l) == GroupAt(group, l) + (if l == LocationOf(s.key) then {s} else {})
    ensures l == LocationOf(s.key) ==> ItemsOf(GroupAt(group + [s], l)) == ItemsOf(GroupAt(group, l)) + {s.item}
  {
    AppendSlot(group, s);
    assert GroupAt(group + [s], l) == GroupAt(group, l) + (if l == LocationOf(s.key) then {s} else {});
  }

  ghost predicate GroupRecorded(wants: Wants, group: seq<Slot>) {
    forall l :: (l in wants <==> GroupAt(group, l) != {}) && (l in wants ==> Matches(Some(wants[l]), GroupAt(group, l)))
  }

  ghost predicate MixesKinds(group: seq<Slot>) {
    exists s, t :: s in SlotSet(group) && t in SlotSet(group) && LocationOf(s.key) == LocationOf(t.key) && s.kind != t.kind
  }

  lemma GroupRecords(wants: Wants, group: seq<Slot>, s: Slot, ids: set<Id>)
    requires GroupRecorded(wants, group)
    requires LocationOf(s.key) in wants ==> wants[LocationOf(s.key)].kind == s.kind && ids == wants[LocationOf(s.key)].ids
    requires LocationOf(s.key) !in wants ==> ids == {}
    ensures GroupRecorded(wants[LocationOf(s.key) := Want(s.kind, ids + {s.item})], group + [s])
  {
    var after := wants[LocationOf(s.key) := Want(s.kind, ids + {s.item})];
    forall l ensures (l in after <==> GroupAt(group + [s], l) != {})
                     && (l in after ==> Matches(Some(after[l]), GroupAt(group + [s], l)))
    {
      GroupGrows(group, s, l);
    }
  }

  // What one form's slots say; None when one location mixes kinds.
  method ActualOf(group: seq<Slot>) returns (actual: Option<Wants>)
    ensures actual.Some? ==> GroupRecorded(actual.value, group)
    ensures actual.None? ==> MixesKinds(group)
  {
    var wants: Wants := map[];
    for i := 0 to |group|
      invariant GroupRecorded(wants, group[..i])
    {
      var reference := group[i];
      var location := LocationOf(reference.key);
      if location in wants && wants[location].kind != reference.kind {
        ghost var other :| other in GroupAt(group[..i], location);
        assert other in SlotSet(group) && group[i] in SlotSet(group);
        return None;
      }
      var ids := if location in wants then wants[location].ids else {};
      GroupRecords(wants, group[..i], reference, ids);
      assert group[..i + 1] == group[..i] + [reference];
      wants := wants[location := Want(reference.kind, ids + {reference.item})];
    }
    assert group[..|group|] == group;
    return Some(wants);
  }

  // The comparison by sizes and containment is map equality.
  method SameWants(actual: map<Location, Want>, expected: map<Location, Want>) returns (same: bool)
    ensures same <==> actual == expected
  {
    if |actual| != |expected| { return false; }
    var locations := expected.Keys;
    while locations != {}
      invariant locations <= expected.Keys
      invariant forall l :: l in expected && l !in locations ==> l in actual && actual[l] == expected[l]
    {
      var l :| l in locations;
      if l !in actual || actual[l].kind != expected[l].kind || |actual[l].ids| != |expected[l].ids|
         || !(expected[l].ids <= actual[l].ids) {
        return false;
      }
      SubsetOfEqualSize(expected[l].ids, actual[l].ids);
      locations := locations - {l};
    }
    SubsetOfEqualSize(expected.Keys, actual.Keys);
    return true;
  }

  // The expected and the actual map of one form coincide exactly when the form agrees.
  lemma MapsDecide(head: Head, registry: Registry, slots: set<Slot>, group: seq<Slot>, expected: Wants, actual: Wants)
    requires ExposesVocabulary(head, registry) && GroupRecorded(actual, group)
    requires SlotSet(group) == FormSlots(slots, head.form)
    requires forall l :: (l in expected <==> WantAt(head, registry, l).Some?)
                         && (l in expected ==> WantAt(head, registry, l) == Some(expected[l]))
    ensures actual == expected <==> FormAgrees(head, registry, slots)
  {
    forall l ensures SlotsAt(slots, head.form, l) == GroupAt(group, l) {}
    if FormAgrees(head, registry, slots) {
      forall l ensures (l in actual <==> l in expected) && (l in actual ==> actual[l] == expected[l]) {
        assert Matches(WantAt(head, registry, l), SlotsAt(slots, head.form, l));
      }
    } else if actual == expected {
      forall l ensures Matches(WantAt(head, registry, l), SlotsAt(slots, head.form, l)) {
        assert l in actual <==> l in expected;
      }
    }
  }

  lemma MixedKindsDisagree(head: Head, registry: Registry, slots: set<Slot>, group: seq<Slot>)
    requires MixesKinds(group) && SlotSet(group) == FormSlots(slots, head.form)
    ensures !FormAgrees(head, registry, slots)
  {
    var s, t :| s in SlotSet(group) && t in SlotSet(group) && LocationOf(s.key) == LocationOf(t.key) && s.kind != t.kind;
    var l := LocationOf(s.key);
    assert s in SlotsAt(slots, head.form, l) && t in SlotsAt(slots, head.form, l);
    assert FormAgrees(head, registry, slots) ==> Matches(WantAt(head, registry, l), SlotsAt(slots, head.form, l));
  }

  predicate DistinctForms(heads: seq<Head>) {
    forall i, j :: 0 <= i < j < |heads| ==> heads[i].form != heads[j].form
  }

  method FormAgreesNow(head: Head, registry: Registry, group: seq<Slot>, ghost slots: set<Slot>) returns (agrees: bool)
    requires SlotSet(group) == FormSlots(slots, head.form)
    ensures agrees <==> FormAgrees(head, registry, slots)
  {
    var expected := ExpectedOf(head, registry);
    if expected.None? { return false; }
    var actual := ActualOf(group);
    if actual.None? {
      MixedKindsDisagree(head, registry, slots, group);
      return false;
    }
    MapsDecide(head, registry, slots, group, expected.value, actual.value);
    agrees := SameWants(actual.value, expected.value);
  }

  lemma NoForms(heads: seq<Head>)
    ensures FormsOf(heads[..0]) == {}
  {
  }

  lemma FormsGrow(heads: seq<Head>, i: nat)
    requires DistinctForms(heads) && i < |heads|
    ensures FormsOf(heads[..i + 1]) == FormsOf(heads[..i]) + {heads[i].form} && heads[i].form !in FormsOf(heads[..i])
  {
    forall f ensures f in FormsOf(heads[..i + 1]) <==> f in FormsOf(heads[..i]) + {heads[i].form} {
      if f in FormsOf(heads[..i]) {
        var k :| 0 <= k < i && heads[..i][k].form == f;
        assert heads[..i + 1][k].form == f;
      }
      assert heads[..i + 1][i].form == heads[i].form;
    }
  }

  // The checker accepts exactly the agreeing heads and slots. Form ids are the heads' primary key.
  method ValidateCurrentFormReferences(heads: seq<Head>, registry: Registry, references: seq<Slot>)
    returns (accepted: bool)
    requires DistinctForms(heads)
    ensures accepted <==> Agreement(heads, registry, SlotSet(references))
  {
    hide FormAgrees, OfForm, FormSlots, SlotSet, FormsOf, DistinctForms;
    NoForms(heads);
    var byForm := GroupByForm(references);
    ghost var all := byForm;
    ghost var slots := SlotSet(references);
    for i := 0 to |heads|
      invariant forall f :: f in byForm <==> f in all && f !in FormsOf(heads[..i])
      invariant forall f :: f in byForm ==> byForm[f] == all[f]
      invariant forall k :: 0 <= k < i ==> FormAgrees(heads[k], registry, slots)
    {
      var head := heads[i];
      FormsGrow(heads, i);
      var group := if head.form in byForm then byForm[head.form] else [];
      OfFormSlots(references, head.form);
      assert group == OfForm(references, head.form);
      var agrees := FormAgreesNow(head, registry, group, slots);
      if !agrees { return false; }
      byForm := byForm - {head.form};
    }
    assert heads[..|heads|] == heads;
    assert byForm == all - FormsOf(heads);
    NothingLeft(heads, references, all);
    return |byForm| == 0;
  }

  lemma NothingLeft(heads: seq<Head>, references: seq<Slot>, groups: map<Id, seq<Slot>>)
    requires forall f :: f in groups <==> OfForm(references, f) != []
    ensures groups - FormsOf(heads) == map[] <==> forall s :: s in SlotSet(references) ==> s.key.form in FormsOf(heads)
  {
    forall f ensures f in groups <==> FormSlots(SlotSet(references), f) != {} { OfFormSlots(references, f); }
    forall s | s in SlotSet(references) ensures s.key.form in groups {
      assert s in FormSlots(SlotSet(references), s.key.form);
    }
    if groups - FormsOf(heads) == map[] {
      forall s | s in SlotSet(references) ensures s.key.form in FormsOf(heads) {
        assert s.key.form !in groups - FormsOf(heads);
      }
    } else {
      var f :| f in groups - FormsOf(heads);
      var s :| s in FormSlots(SlotSet(references), f);
    }
  }
}
