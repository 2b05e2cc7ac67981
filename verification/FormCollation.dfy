// The id lists of a form head, in the order of the locale's comparison.
module FormCollation {
  import opened FormReferences

  // `a` before `b`.
  type Collation = (Id, Id) -> bool

  ghost predicate Collates(before: Collation) {
    && (forall a :: !before(a, a)) && (forall a, b :: a == b || before(a, b) || before(b, a))
    && (forall a, b, c :: before(a, b) && before(b, c) ==> before(a, c))
  }

  predicate Sorted(ids: seq<Id>, before: Collation) {
    forall i, j :: 0 <= i < j < |ids| ==> before(ids[i], ids[j])
  }

  lemma SortedListsOnce(ids: seq<Id>, before: Collation)
    requires Collates(before) && Sorted(ids, before)
    ensures forall i, j :: 0 <= i < j < |ids| ==> ids[i] != ids[j]
  {
  }

  lemma AppendId(ids: seq<Id>, id: Id)
    ensures SetOf(ids + [id]) == SetOf(ids) + {id}
  {
    var all := ids + [id];
    assert all[|ids|] == id;
    assert forall i :: 0 <= i < |ids| ==> all[i] == ids[i];
  }

  lemma Inserted(sorted: seq<Id>, k: nat, id: Id)
    requires k <= |sorted|
    ensures SetOf(sorted[..k] + [id] + sorted[k..]) == SetOf(sorted) + {id}
  {
    var ids := sorted[..k] + [id] + sorted[k..];
    assert forall j :: k <= j < |sorted| ==> ids[j + 1] == sorted[j];
    forall x ensures x in SetOf(ids) <==> x in SetOf(sorted) + {id} {
      if x in SetOf(sorted) {
        var j :| 0 <= j < |sorted| && sorted[j] == x;
        assert ids[if j < k then j else j + 1] == x;
      }
      if x == id { assert ids[k] == x; }
    }
  }

  lemma InsertedInOrder(sorted: seq<Id>, k: nat, id: Id, before: Collation)
    requires Collates(before) && Sorted(sorted, before) && id !in sorted && k <= |sorted|
    requires forall j :: 0 <= j < k ==> before(sorted[j], id)
    requires k < |sorted| ==> !before(sorted[k], id)
    ensures Sorted(sorted[..k] + [id] + sorted[k..], before)
  {
    var ids := sorted[..k] + [id] + sorted[k..];
    forall j | k <= j < |sorted| ensures before(id, sorted[j]) {
      if j > k { assert before(sorted[k], sorted[j]); }
    }
    assert forall j :: 0 <= j < |ids| ==> ids[j] == if j < k then sorted[j] else if j == k then id else sorted[j - 1];
  }

  method InsertId(id: Id, sorted: seq<Id>, before: Collation) returns (ids: seq<Id>)
    requires Collates(before) && Sorted(sorted, before) && id !in sorted
    ensures Sorted(ids, before) && SetOf(ids) == SetOf(sorted) + {id}
  {
    hide Collates, SetOf;
    var k := 0;
    while k < |sorted| && before(sorted[k], id)
      invariant 0 <= k <= |sorted| && forall j :: 0 <= j < k ==> before(sorted[j], id)
    {
      k := k + 1;
    }
    ids := sorted[..k] + [id] + sorted[k..];
    InsertedInOrder(sorted, k, id, before);
    Inserted(sorted, k, id);
  }

  lemma NotListedYet(ids: seq<Id>, sorted: seq<Id>, i: nat)
    requires (forall j, k :: 0 <= j < k < |ids| ==> ids[j] != ids[k])
    requires i < |ids| && SetOf(sorted) == SetOf(ids[..i])
    ensures ids[i] !in sorted
  {
    assert forall k :: 0 <= k < |sorted| ==> sorted[k] in SetOf(ids[..i]);
  }

  // Array.prototype.sort over distinct ids.
  method SortIds(ids: seq<Id>, before: Collation) returns (sorted: seq<Id>)
    requires Collates(before) && forall i, j :: 0 <= i < j < |ids| ==> ids[i] != ids[j]
    ensures Sorted(sorted, before) && SetOf(sorted) == SetOf(ids)
  {
    sorted := [];
    for i := 0 to |ids|
      invariant Sorted(sorted, before) && SetOf(sorted) == SetOf(ids[..i])
    {
      assert ids[..i + 1] == ids[..i] + [ids[i]];
      AppendId(ids[..i], ids[i]);
      NotListedYet(ids, sorted, i);
      sorted := InsertId(ids[i], sorted, before);
    }
    assert ids[..|ids|] == ids;
  }

  // A set of ids has one sorted list.
  lemma {:induction false} SortedListIsOne(a: seq<Id>, b: seq<Id>, before: Collation)
    requires Collates(before) && Sorted(a, before) && Sorted(b, before) && SetOf(a) == SetOf(b)
    ensures a == b
  {
    assert b != [] ==> b[0] in SetOf(b);
    if a != [] {
      assert a[0] in SetOf(b);
      var k :| 0 <= k < |b| && b[k] == a[0];
      var j :| 0 <= j < |a| && a[j] == b[0];
      assert a[0] == b[0];
      SetOfTail(a, before);
      SetOfTail(b, before);
      SortedListIsOne(a[1..], b[1..], before);
      assert a == [a[0]] + a[1..] && b == [b[0]] + b[1..];
    }
  }

  lemma SetOfTail(ids: seq<Id>, before: Collation)
    requires Collates(before) && Sorted(ids, before) && ids != []
    ensures SetOf(ids[1..]) == SetOf(ids) - {ids[0]}
  {
    forall x ensures x in SetOf(ids[1..]) <==> x in SetOf(ids) - {ids[0]} {
      if x in SetOf(ids) - {ids[0]} {
        var j :| 0 <= j < |ids| && ids[j] == x;
        assert ids[1..][j - 1] == x;
      }
      if x in SetOf(ids[1..]) {
        var j :| 0 <= j < |ids[1..]| && ids[1..][j] == x;
        assert ids[j + 1] == x && before(ids[0], ids[j + 1]);
      }
    }
  }
}
