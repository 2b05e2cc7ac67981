// Limited, ordered selections, and the one page of keys that a cleanup wake is given by the store.
module FileListing {
  import opened Sets
  import opened FileTransfers

  const MAXIMUM_R2_KEYS_PER_WAKE := 1_000

  // ORDER BY ... LIMIT n: the first rows of the table, in its order. Rows that the order does not
  // tell apart may come either way round.
  predicate FirstOf<T(==)>(rows: seq<T>, table: set<T>, before: (T, T) -> bool, n: nat) {
    && NoRepeats(rows) && |rows| == (if n < |table| then n else |table|)
    && (forall r :: r in rows ==> r in table)
    && (forall i, j :: 0 <= i < j < |rows| ==> !before(rows[j], rows[i]))
    && (forall r, s :: r in rows && s in table && s !in rows ==> !before(s, r))
  }

  // A listing is one page: the first thousand keys that are in the store, and no cursor.
  predicate Lists(keys: seq<Key>, objects: set<Key>) {
    FirstOf(keys, objects, Before, MAXIMUM_R2_KEYS_PER_WAKE)
  }

  function Preceding(objects: set<Key>, key: Key): set<Key> {
    set k | k in objects && Before(k, key)
  }

  lemma ListedIsEarly(keys: seq<Key>, objects: set<Key>, n: nat, i: nat)
    requires FirstOf(keys, objects, Before, n) && i < |keys|
    ensures |Preceding(objects, keys[i])| <= i < n
  {
    var k, before := keys[i], keys[..i];
    hide Before;
    forall j | j in Preceding(objects, k)
      ensures j in Members(before)
    {
      BeforeIsStrictAndTotal(k, j, k);
      assert j in keys;
      var n :| 0 <= n < |keys| && keys[n] == j;
      assert before[n] == j;
    }
    SubsetIsSmaller(Preceding(objects, k), Members(before));
  }

  lemma UnlistedIsLate(keys: seq<Key>, objects: set<Key>, n: nat, k: Key)
    requires FirstOf(keys, objects, Before, n) && k in objects && k !in keys
    ensures |Preceding(objects, k)| >= n
  {
    hide Before;
    NoRepeatsCounts(keys);
    forall r | r in keys
      ensures r in Preceding(objects, k)
    {
      BeforeIsStrictAndTotal(r, k, r);
    }
    SubsetIsSmaller(Members(keys), Preceding(objects, k));
    SubsetIsSmaller(Members(keys) + {k}, objects);
  }

  // A key is on the page exactly when fewer than a thousand come before it.
  lemma ListedExactlyWhenEarly(keys: seq<Key>, objects: set<Key>, k: Key)
    requires Lists(keys, objects)
    ensures k in keys <==> k in objects && |Preceding(objects, k)| < 1_000
  {
    hide FirstOf, Preceding;
    if k in keys {
      var i :| 0 <= i < |keys| && keys[i] == k;
      ListedIsEarly(keys, objects, MAXIMUM_R2_KEYS_PER_WAKE, i);
      ListedIsPresent(keys, objects, k);
    } else if k in objects {
      UnlistedIsLate(keys, objects, MAXIMUM_R2_KEYS_PER_WAKE, k);
    }
  }

  lemma ListedIsPresent(keys: seq<Key>, objects: set<Key>, k: Key)
    requires Lists(keys, objects) && k in keys
    ensures k in objects
  {
  }

  // ---- There is a page -------------------------------------------------------------------

  lemma {:induction false} FirstOne(keys: set<Key>) returns (k: Key)
    requires keys != {}
    ensures k in keys && forall j :: j in keys ==> !Before(j, k)
    decreases |keys|
  {
    hide Before;
    var x :| x in keys;
    k := x;
    if keys != {x} {
      var j := FirstOne(keys - {x});
      if Before(j, x) { k := j; }
      BeforeIsStrictAndTotal(x, j, x);
      BeforeIsStrictAndTotal(j, x, j);
      forall i | i in keys ensures !Before(i, k) {
        BeforeIsStrictAndTotal(i, x, j);
      }
    } else {
      BeforeIsStrictAndTotal(x, x, x);
    }
  }

  lemma {:induction false} SomeFirst(objects: set<Key>, n: nat) returns (keys: seq<Key>)
    ensures FirstOf(keys, objects, Before, n)
    decreases n
  {
    if n == 0 || objects == {} {
      keys := [];
    } else {
      hide Before;
      var k := FirstOne(objects);
      var rest := SomeFirst(objects - {k}, n - 1);
      keys := [k] + rest;
      forall i, j | 0 <= i < j < |keys|
        ensures keys[i] != keys[j] && !Before(keys[j], keys[i])
      {
        assert keys[j] == rest[j - 1] && rest[j - 1] in rest;
      }
      assert forall r :: r in keys <==> r == k || r in rest;
    }
  }

  lemma SomeListing(objects: set<Key>) returns (keys: seq<Key>)
    ensures Lists(keys, objects)
  {
    keys := SomeFirst(objects, MAXIMUM_R2_KEYS_PER_WAKE);
  }
}
