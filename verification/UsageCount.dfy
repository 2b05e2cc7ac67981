// The reference count of the vocabulary snapshot reader, d1-program-vocabulary.ts: every current
// reference and every historical pin is counted against the item it names, and the session slots are
// checked off against the session heads.
module UsageCount {
  import opened Wrappers
  import opened ProgramTables
  import opened ProgramSafety
  import opened ProgramTheorems

  datatype ItemKey = ItemKey(kind: Kind, id: Id)
  datatype RefKey = Form(key: Id) | Placement(occurrence: Id) | Part(session: Id, kind: Kind) | Pin(key: Id)
  datatype Reference = Reference(key: RefKey, item: ItemKey, pin: bool)
  datatype Tally = Tally(current: nat, historicalPins: nat)

  datatype SessionHead = SessionHead(id: Id, format: Id, track: Option<Id>)
  datatype SlotRow = SlotRow(session: Id, kind: Kind, item: Id)

  // ---- What is counted ------------------------------------------------------------------------

  function Naming(references: set<Reference>, item: ItemKey, pin: bool): set<Reference> {
    set r | r in references && r.item == item && r.pin == pin
  }

  function TallyOf(references: set<Reference>, item: ItemKey): Tally {
    Tally(|Naming(references, item, false)|, |Naming(references, item, true)|)
  }

  function Found(usage: map<ItemKey, Tally>, item: ItemKey): Tally {
    if item in usage then usage[item] else Tally(0, 0)
  }

  class UsageCounter {
    const itemIds: set<ItemKey>
    var usage: map<ItemKey, Tally>
    var referenceKeys: set<RefKey>
    ghost var counted: set<Reference>

    ghost predicate Valid()
      reads this
    {
      && (forall item :: Found(usage, item) == TallyOf(counted, item))
      && (forall r :: r in counted ==> r.key in referenceKeys && r.item in itemIds)
      && (forall key :: key in referenceKeys ==> exists r :: r in counted && r.key == key)
    }

    constructor (itemIds: set<ItemKey>)
      ensures Valid() && counted == {} && referenceKeys == {} && this.itemIds == itemIds
    {
      this.itemIds := itemIds;
      usage, referenceKeys, counted := map[], {}, {};
    }

    // False is the source's data_corrupt: an unknown item or a reference key seen before.
    method AddReference(key: RefKey, item: ItemKey, pin: bool) returns (ok: bool)
      requires Valid()
      modifies this
      ensures Valid()
      ensures ok <==> item in itemIds && key !in old(referenceKeys)
      ensures counted == old(counted) + (if ok then {Reference(key, item, pin)} else {})
      ensures referenceKeys == old(referenceKeys) + (if ok then {key} else {})
    {
      hide TallyOf;
      if item !in itemIds || key in referenceKeys {
        return false;
      }
      referenceKeys := referenceKeys + {key};
      var existing := Found(usage, item);
      var next := if pin then existing.(historicalPins := existing.historicalPins + 1)
                  else existing.(current := existing.current + 1);
      ghost var r := Reference(key, item, pin);
      OneMoreCounted(counted, r);
      usage := usage[item := next];
      counted := counted + {r};
      return true;
    }
  }

  lemma OneMoreCounted(counted: set<Reference>, r: Reference)
    requires r !in counted
    ensures forall item :: TallyOf(counted + {r}, item) ==
                           (var before := TallyOf(counted, item);
                            if item != r.item then before
                            else if r.pin then before.(historicalPins := before.historicalPins + 1)
                            else before.(current := before.current + 1))
  {
    forall item
      ensures TallyOf(counted + {r}, item) ==
              (var before := TallyOf(counted, item);
               if item != r.item then before
               else if r.pin then before.(historicalPins := before.historicalPins + 1)
               else before.(current := before.current + 1))
    {
      OneMoreNamed(counted, r, item, false);
      OneMoreNamed(counted, r, item, true);
    }
  }

  lemma OneMoreNamed(counted: set<Reference>, r: Reference, item: ItemKey, pin: bool)
    requires r !in counted
    ensures |Naming(counted + {r}, item, pin)| == |Naming(counted, item, pin)| + (if item == r.item && pin == r.pin then 1 else 0)
  {
    assert Naming(counted + {r}, item, pin) == Naming(counted, item, pin) + (if item == r.item && pin == r.pin then {r} else {});
  }

  // ---- Session slots against session heads -------------------------------------------------------

  predicate DistinctHeads(heads: seq<SessionHead>) {
    forall i, j :: 0 <= i < j < |heads| ==> heads[i].id != heads[j].id
  }

  function WithParts(parts: map<(Id, Kind), Id>, h: SessionHead): map<(Id, Kind), Id> {
    var format := parts[(h.id, Format) := h.format];
    if h.track.Some? then format[(h.id, Track) := h.track.value] else format
  }

  function Parts(heads: seq<SessionHead>): map<(Id, Kind), Id> {
    if heads == [] then map[] else WithParts(Parts(heads[..|heads| - 1]), heads[|heads| - 1])
  }

  // With distinct heads -- ids are their primary key -- the parts are each head's format and track.
  lemma {:induction false} PartsAreTheHeads(heads: seq<SessionHead>, e: Id, kind: Kind, item: Id)
    requires DistinctHeads(heads)
    ensures ((e, kind) in Parts(heads) && Parts(heads)[(e, kind)] == item) <==>
            exists i :: 0 <= i < |heads| && heads[i].id == e
                        && ((kind == Format && heads[i].format == item) || (kind == Track && heads[i].track == Some(item)))
  {
    if heads != [] {
      var init, last := heads[..|heads| - 1], heads[|heads| - 1];
      PartsAreTheHeads(init, e, kind, item);
      assert forall i :: 0 <= i < |init| ==> init[i] == heads[i];
      if last.id == e {
        PartsNameHeads(init, e, kind);
      }
    }
  }

  lemma {:induction false} PartsNameHeads(heads: seq<SessionHead>, e: Id, kind: Kind)
    ensures (e, kind) in Parts(heads) ==> exists i :: 0 <= i < |heads| && heads[i].id == e
  {
    if heads != [] {
      var init := heads[..|heads| - 1];
      PartsNameHeads(init, e, kind);
      assert forall i :: 0 <= i < |init| ==> init[i] == heads[i];
    }
  }

  function SlotKeys(slots: seq<SlotRow>): set<(Id, Kind)> {
    set i | 0 <= i < |slots| :: (slots[i].session, slots[i].kind)
  }

  // Each part of each head has exactly one slot row, naming its item.
  predicate SlotsMatch(parts: map<(Id, Kind), Id>, slots: seq<SlotRow>) {
    && (forall i :: 0 <= i < |slots| ==>
          (slots[i].session, slots[i].kind) in parts && parts[(slots[i].session, slots[i].kind)] == slots[i].item)
    && (forall i, j :: 0 <= i < j < |slots| ==>
          (slots[i].session, slots[i].kind) != (slots[j].session, slots[j].kind))
  }

  method ExpectedSlots(heads: seq<SessionHead>) returns (expected: map<(Id, Kind), Id>)
    ensures expected == Parts(heads)
  {
    expected := map[];
    var i := 0;
    while i < |heads|
      invariant 0 <= i <= |heads| && expected == Parts(heads[..i])
    {
      assert heads[..i + 1][..i] == heads[..i];
      expected := expected[(heads[i].id, Format) := heads[i].format];
      if heads[i].track.Some? {
        expected := expected[(heads[i].id, Track) := heads[i].track.value];
      }
      i := i + 1;
    }
    assert heads[..i] == heads;
  }

  // ---- The whole count ----------------------------------------------------------------------------

  function SlotReferences(slots: seq<SlotRow>): seq<Reference> {
    seq(|slots|, i requires 0 <= i < |slots| =>
      Reference(Part(slots[i].session, slots[i].kind), ItemKey(slots[i].kind, slots[i].item), false))
  }

  predicate DistinctReferences(references: seq<Reference>) {
    forall i, j :: 0 <= i < j < |references| ==> references[i].key != references[j].key
  }

  // Known items only, every reference key once.
  predicate Countable(itemIds: set<ItemKey>, references: seq<Reference>) {
    DistinctReferences(references) && forall i :: 0 <= i < |references| ==> references[i].item in itemIds
  }

  // Adds a run of references to what `before` already holds.
  method AddAll(counter: UsageCounter, references: seq<Reference>, ghost before: seq<Reference>) returns (ok: bool)
    requires counter.Valid() && Countable(counter.itemIds, before) && counter.counted == Elements(before)
    modifies counter
    ensures counter.Valid()
    ensures ok <==> Countable(counter.itemIds, before + references)
    ensures ok ==> counter.counted == Elements(before + references)
  {
    var i := 0;
    while i < |references|
      invariant 0 <= i <= |references| && counter.Valid()
      invariant Countable(counter.itemIds, before + references[..i])
      invariant counter.counted == Elements(before + references[..i])
    {
      var r := references[i];
      ghost var sofar := before + references[..i];
      AddsExactlyTheCountable(counter, sofar, r);
      assert sofar + [r] == before + references[..i + 1];
      var added := counter.AddReference(r.key, r.item, r.pin);
      if !added {
        PrefixIsCountable(counter.itemIds, before + references, |before| + i + 1);
        assert (before + references)[..|before| + i + 1] == sofar + [r];
        return false;
      }
      i := i + 1;
    }
    assert references[..i] == references;
    return true;
  }

  function Elements(references: seq<Reference>): set<Reference> {
    set r | r in references
  }

  lemma KeysAreCounted(counter: UsageCounter, references: seq<Reference>)
    requires counter.Valid() && counter.counted == Elements(references)
    ensures forall key :: key in counter.referenceKeys <==> exists i :: 0 <= i < |references| && references[i].key == key
  {
    forall key
      ensures key in counter.referenceKeys <==> exists i :: 0 <= i < |references| && references[i].key == key
    {
      if key in counter.referenceKeys {
        var r :| r in counter.counted && r.key == key;
        assert r in references;
      }
      if i :| 0 <= i < |references| && references[i].key == key {
        assert references[i] in counter.counted;
      }
    }
  }

  lemma CountableNext(itemIds: set<ItemKey>, references: seq<Reference>, r: Reference)
    requires Countable(itemIds, references)
    ensures Countable(itemIds, references + [r]) <==>
              r.item in itemIds && forall i :: 0 <= i < |references| ==> references[i].key != r.key
    ensures Elements(references + [r]) == Elements(references) + {r}
  {
    var more := references + [r];
    assert more[|references|] == r && forall i :: 0 <= i < |references| ==> more[i] == references[i];
  }

  lemma AddsExactlyTheCountable(counter: UsageCounter, references: seq<Reference>, r: Reference)
    requires counter.Valid() && counter.counted == Elements(references) && Countable(counter.itemIds, references)
    ensures Countable(counter.itemIds, references + [r]) <==> r.item in counter.itemIds && r.key !in counter.referenceKeys
    ensures Elements(references + [r]) == counter.counted + {r}
  {
    KeysAreCounted(counter, references);
    CountableNext(counter.itemIds, references, r);
  }

  lemma PrefixIsCountable(itemIds: set<ItemKey>, references: seq<Reference>, n: nat)
    requires n <= |references|
    ensures Countable(itemIds, references) ==> Countable(itemIds, references[..n])
  {
  }

  // The slot rows: each must still be expected, is checked off, and counts for its item.
  method CheckOffSlots(counter: UsageCounter, heads: seq<SessionHead>, slots: seq<SlotRow>, ghost before: seq<Reference>)
    returns (ok: bool)
    requires counter.Valid() && Countable(counter.itemIds, before) && counter.counted == Elements(before)
    modifies counter
    ensures counter.Valid()
    ensures ok <==> SlotsMatch(Parts(heads), slots) && SlotKeys(slots) == Parts(heads).Keys
                    && Countable(counter.itemIds, before + SlotReferences(slots))
    ensures ok ==> counter.counted == Elements(before + SlotReferences(slots))
  {
    var expected := ExpectedSlots(heads);
    ghost var parts := Parts(heads);
    assert CheckedOff(parts, slots[..0], expected);
    assert SlotReferences(slots[..0]) == [] && before + [] == before;
    hide CheckedOff, SlotsMatch, SlotKeys, Countable, Elements, SlotReferences;
    var i := 0;
    while i < |slots|
      invariant 0 <= i <= |slots| && counter.Valid()
      invariant CheckedOff(parts, slots[..i], expected)
      invariant Countable(counter.itemIds, before + SlotReferences(slots[..i]))
      invariant counter.counted == Elements(before + SlotReferences(slots[..i]))
    {
      var row := slots[i];
      var key := (row.session, row.kind);
      CheckOffNext(parts, slots, i, expected);
      if key !in expected || expected[key] != row.item {
        return false;
      }
      expected := expected - {key};
      var r := Reference(Part(row.session, row.kind), ItemKey(row.kind, row.item), false);
      SlotReferencesNext(before, slots, i);
      AddsExactlyTheCountable(counter, before + SlotReferences(slots[..i]), r);
      SlotPrefixIsCountable(counter.itemIds, before, slots, i + 1);
      var added := counter.AddReference(r.key, r.item, r.pin);
      if !added {
        return false;
      }
      i := i + 1;
    }
    assert slots[..i] == slots;
    CheckOffEnds(parts, slots, expected);
    ok := |expected| == 0;
  }

  // The rows seen so far match, and what is still expected is the rest of the parts.
  predicate CheckedOff(parts: map<(Id, Kind), Id>, seen: seq<SlotRow>, expected: map<(Id, Kind), Id>) {
    SlotsMatch(parts, seen) && expected == parts - SlotKeys(seen)
  }

  lemma CheckOffNext(parts: map<(Id, Kind), Id>, slots: seq<SlotRow>, i: nat, expected: map<(Id, Kind), Id>)
    requires i < |slots| && CheckedOff(parts, slots[..i], expected)
    ensures var key := (slots[i].session, slots[i].kind);
            if key in expected && expected[key] == slots[i].item then CheckedOff(parts, slots[..i + 1], expected - {key})
            else !SlotsMatch(parts, slots)
  {
    SlotMatchesNext(parts, slots, i);
    hide SlotsMatch, SlotKeys;
  }

  lemma CheckOffEnds(parts: map<(Id, Kind), Id>, slots: seq<SlotRow>, expected: map<(Id, Kind), Id>)
    requires CheckedOff(parts, slots, expected)
    ensures SlotsMatch(parts, slots) && (|expected| == 0 <==> SlotKeys(slots) == parts.Keys)
  {
    assert expected.Keys == parts.Keys - SlotKeys(slots);
    assert |expected| == 0 <==> expected == map[];
    forall key | key in SlotKeys(slots)
      ensures key in parts
    {
      var i :| 0 <= i < |slots| && (slots[i].session, slots[i].kind) == key;
    }
  }

  lemma SlotPrefixIsCountable(itemIds: set<ItemKey>, before: seq<Reference>, slots: seq<SlotRow>, n: nat)
    requires n <= |slots|
    ensures Countable(itemIds, before + SlotReferences(slots)) ==> Countable(itemIds, before + SlotReferences(slots[..n]))
  {
    var all := before + SlotReferences(slots);
    PrefixIsCountable(itemIds, all, |before| + n);
    assert all[..|before| + n] == before + SlotReferences(slots[..n]);
  }

  lemma SlotMatchesNext(parts: map<(Id, Kind), Id>, slots: seq<SlotRow>, i: nat)
    requires i < |slots| && SlotsMatch(parts, slots[..i])
    ensures var key := (slots[i].session, slots[i].kind);
            && SlotKeys(slots[..i + 1]) == SlotKeys(slots[..i]) + {key}
            && (SlotsMatch(parts, slots[..i + 1]) <==>
                  key in parts && parts[key] == slots[i].item && key !in SlotKeys(slots[..i]))
            && (!SlotsMatch(parts, slots[..i + 1]) ==> !SlotsMatch(parts, slots))
  {
    var key, prefix, next := (slots[i].session, slots[i].kind), slots[..i], slots[..i + 1];
    assert next == prefix + [slots[i]];
    assert forall k :: 0 <= k < i ==> next[k] == prefix[k] && next[k] == slots[k];
    assert next[i] == slots[i];
    assert SlotKeys(next) == SlotKeys(prefix) + {key} by {
      forall k | k in SlotKeys(prefix)
        ensures k in SlotKeys(next)
      {
        var j :| 0 <= j < i && (prefix[j].session, prefix[j].kind) == k;
        assert (next[j].session, next[j].kind) == k;
      }
      assert (next[i].session, next[i].kind) == key;
    }
  }

  lemma SlotReferencesNext(before: seq<Reference>, slots: seq<SlotRow>, i: nat)
    requires i < |slots|
    ensures before + SlotReferences(slots[..i + 1]) ==
            before + SlotReferences(slots[..i])
            + [Reference(Part(slots[i].session, slots[i].kind), ItemKey(slots[i].kind, slots[i].item), false)]
  {
  }

  // The reader's count. None is data_corrupt, and it is answered exactly when an item is unknown, a
  // reference key repeats, or slots and session heads disagree; otherwise each item's tally is the
  // number of references that name it.
  method CountUsage(
    itemIds: set<ItemKey>, forms: seq<Reference>, placements: seq<Reference>, heads: seq<SessionHead>, slots: seq<SlotRow>,
    pins: seq<Reference>)
    returns (usage: Option<map<ItemKey, Tally>>)
    ensures usage.Some? <==>
              && SlotsMatch(Parts(heads), slots) && SlotKeys(slots) == Parts(heads).Keys
              && Countable(itemIds, forms + placements + SlotReferences(slots) + pins)
    ensures usage.Some? ==> forall item ::
              Found(usage.value, item) == TallyOf(Elements(forms + placements + SlotReferences(slots) + pins), item)
  {
    var counter := new UsageCounter(itemIds);
    assert [] + forms == forms;
    ghost var all := forms + placements + SlotReferences(slots) + pins;
    PrefixIsCountable(itemIds, all, |forms|);
    assert all[..|forms|] == forms;
    PrefixIsCountable(itemIds, all, |forms| + |placements|);
    assert all[..|forms| + |placements|] == forms + placements;
    PrefixIsCountable(itemIds, all, |forms| + |placements| + |slots|);
    assert all[..|forms| + |placements| + |slots|] == forms + placements + SlotReferences(slots);
    hide Countable, SlotsMatch, SlotReferences;
    var ok := AddAll(counter, forms, []);
    if !ok { return None; }
    ok := AddAll(counter, placements, forms);
    if !ok { return None; }
    ok := CheckOffSlots(counter, heads, slots, forms + placements);
    if !ok { return None; }
    ok := AddAll(counter, pins, forms + placements + SlotReferences(slots));
    if !ok { return None; }
    usage := Some(counter.usage);
  }

  // projectItem: an item may be deleted when nothing refers to it.
  predicate DeleteEligible(tally: Tally) {
    tally.current == 0 && tally.historicalPins == 0
  }

  // ---- The count is the usage of the tables --------------------------------------------------------

  // The references the tables hold, as the reader's queries list them.
  predicate Refers(s: Db, r: Reference) {
    match r.key
    case Form(k) => !r.pin && k in s.intake.rows && r.item == ItemKey(s.intake.rows[k].kind, s.intake.rows[k].item)
    case Placement(o) => !r.pin && o in s.schedule.rows && r.item == ItemKey(Room, s.schedule.rows[o].room)
    case Part(e, Format) => !r.pin && e in s.sessions.rows && r.item == ItemKey(Format, s.sessions.rows[e].format)
    case Part(e, Track) => !r.pin && e in s.sessions.rows && r.item.kind == Track && s.sessions.rows[e].track == Some(r.item.id)
    case Part(_, Room) => false
    case Pin(k) => r.pin && k in s.pins && s.pins[k] == r.item.id
  }

  function PinUse(s: Db, item: Id): set<Id> {
    set k | k in s.pins && s.pins[k] == item
  }

  lemma {:induction false} ImageSize<A, B>(s: set<A>, image: set<B>, f: A -> B)
    requires forall x, y :: x in s && y in s && f(x) == f(y) ==> x == y
    requires image == set x | x in s :: f(x)
    ensures |image| == |s|
    decreases |s|
  {
    if s != {} {
      var x :| x in s;
      ImageSize(s - {x}, image - {f(x)}, f);
    }
  }

  // The references to one item, table by table.
  function FormReferences(s: Db, item: ItemKey): set<Reference> {
    set k | k in SlotUse(s, item.id) :: Reference(Form(k), item, false)
  }

  function PlacementReferences(s: Db, item: ItemKey): set<Reference> {
    set o | o in RoomUse(s, item.id) :: Reference(Placement(o), item, false)
  }

  function FormatReferences(s: Db, item: ItemKey): set<Reference> {
    set e | e in FormatUse(s, item.id) :: Reference(Part(e, Format), item, false)
  }

  function TrackReferences(s: Db, item: ItemKey): set<Reference> {
    set e | e in TrackUse(s, item.id) :: Reference(Part(e, Track), item, false)
  }

  function PinReferences(s: Db, item: ItemKey): set<Reference> {
    set k | k in PinUse(s, item.id) :: Reference(Pin(k), item, true)
  }

  lemma ReferencesPerTable(s: Db, item: ItemKey)
    ensures |FormReferences(s, item)| == |SlotUse(s, item.id)| && |PlacementReferences(s, item)| == |RoomUse(s, item.id)|
    ensures |FormatReferences(s, item)| == |FormatUse(s, item.id)| && |TrackReferences(s, item)| == |TrackUse(s, item.id)|
    ensures |PinReferences(s, item)| == |PinUse(s, item.id)|
  {
    ImageSize(SlotUse(s, item.id), FormReferences(s, item), k => Reference(Form(k), item, false));
    ImageSize(RoomUse(s, item.id), PlacementReferences(s, item), o => Reference(Placement(o), item, false));
    ImageSize(FormatUse(s, item.id), FormatReferences(s, item), e => Reference(Part(e, Format), item, false));
    ImageSize(TrackUse(s, item.id), TrackReferences(s, item), e => Reference(Part(e, Track), item, false));
    ImageSize(PinUse(s, item.id), PinReferences(s, item), k => Reference(Pin(k), item, true));
  }

  lemma TablesAreDisjoint(s: Db, item: ItemKey)
    ensures |FormReferences(s, item) + PlacementReferences(s, item) + FormatReferences(s, item) + TrackReferences(s, item)|
            == |FormReferences(s, item)| + |PlacementReferences(s, item)| + |FormatReferences(s, item)| + |TrackReferences(s, item)|
  {
    var forms, rooms, formats, tracks :=
      FormReferences(s, item), PlacementReferences(s, item), FormatReferences(s, item), TrackReferences(s, item);
    assert forms !! rooms && (forms + rooms) !! formats && (forms + rooms + formats) !! tracks;
  }

  // For an item of the vocabulary, the reader's tally is its usage in every table, and the item is
  // free to be deleted exactly when no row of any table names it.
  lemma TallyIsUsage(s: Db, references: set<Reference>, id: Id)
    requires KindsMatch(s) && id in s.vocabulary.rows
    requires forall r: Reference :: r.item == ItemKey(s.vocabulary.rows[id].kind, id) ==> (r in references <==> Refers(s, r))
    ensures var item := ItemKey(s.vocabulary.rows[id].kind, id);
            && TallyOf(references, item) == Tally(Usage(s, id), |PinUse(s, id)|)
            && (DeleteEligible(TallyOf(references, item)) <==>
                  SlotUse(s, id) == {} && RoomUse(s, id) == {} && FormatUse(s, id) == {} && TrackUse(s, id) == {}
                  && PinUse(s, id) == {})
  {
    var item := ItemKey(s.vocabulary.rows[id].kind, id);
    NamedByTheTables(s, references, id);
    hide KindsMatch, Refers, FormReferences, PlacementReferences, FormatReferences, TrackReferences, PinReferences;
    ReferencesPerTable(s, item);
    TablesAreDisjoint(s, item);
  }

  lemma NamedByTheTables(s: Db, references: set<Reference>, id: Id)
    requires KindsMatch(s) && id in s.vocabulary.rows
    requires forall r: Reference :: r.item == ItemKey(s.vocabulary.rows[id].kind, id) ==> (r in references <==> Refers(s, r))
    ensures var item := ItemKey(s.vocabulary.rows[id].kind, id);
            && Naming(references, item, false) ==
               FormReferences(s, item) + PlacementReferences(s, item) + FormatReferences(s, item) + TrackReferences(s, item)
            && Naming(references, item, true) == PinReferences(s, item)
  {
    var item := ItemKey(s.vocabulary.rows[id].kind, id);
    forall r: Reference | r.item == item
      ensures Refers(s, r) <==>
              || r in FormReferences(s, item) || r in PlacementReferences(s, item) || r in FormatReferences(s, item)
              || r in TrackReferences(s, item) || r in PinReferences(s, item)
    {
      ReferenceOfTheTables(s, id, r);
    }
  }

  lemma ReferenceOfTheTables(s: Db, id: Id, r: Reference)
    requires KindsMatch(s) && id in s.vocabulary.rows && r.item == ItemKey(s.vocabulary.rows[id].kind, id)
    ensures Refers(s, r) <==>
            match r.key
            case Form(k) => !r.pin && k in SlotUse(s, id)
            case Placement(o) => !r.pin && o in RoomUse(s, id)
            case Part(e, Format) => !r.pin && e in FormatUse(s, id)
            case Part(e, Track) => !r.pin && e in TrackUse(s, id)
            case Part(_, Room) => false
            case Pin(k) => r.pin && k in PinUse(s, id)
  {
  }
}
