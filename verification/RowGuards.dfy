// Count-plus-membership guards: what a repository buffers so that a whole result set, not only the
// rows it saw, is still what it read. Used by d1-api-key-mutation.ts, d1-operator-authority.ts and,
// in the JSON form, by d1-program-vocabulary-merge.ts.
module RowGuards {
  import opened Sets

  // count(*) = n, and one EXISTS per row that was read.
  predicate CountAndEach<T(==)>(read: seq<T>, stored: set<T>) {
    |stored| == |read| && forall i :: 0 <= i < |read| ==> read[i] in stored
  }

  // count(*) = n, and NOT EXISTS a stored row that matches no expected one.
  predicate CountAndEveryStored<T(==)>(expected: seq<T>, stored: set<T>) {
    |stored| == |expected| && forall r :: r in stored ==> r in expected
  }

  lemma CountAndEachDetermineTheTable<T>(read: seq<T>, stored: set<T>)
    requires NoRepeats(read)
    ensures CountAndEach(read, stored) <==> stored == Members(read)
  {
    NoRepeatsCounts(read);
    if CountAndEach(read, stored) {
      SubsetOfEqualSize(Members(read), stored);
    }
  }

  // The JSON form needs no assumption on the expected rows: with a repeated one it cannot hold.
  lemma CountAndEveryStoredDetermineTheTable<T>(expected: seq<T>, stored: set<T>)
    ensures CountAndEveryStored(expected, stored) <==> NoRepeats(expected) && stored == Members(expected)
  {
    NoRepeatsCounts(expected);
    if CountAndEveryStored(expected, stored) {
      SubsetOfEqualSize(stored, Members(expected));
    }
  }

  function KeysOf<K, C>(rows: seq<(K, C)>): seq<K> {
    seq(|rows|, i requires 0 <= i < |rows| => rows[i].0)
  }

  // The rows spell out the map: one row per key.
  predicate Lists<K(==), C(==)>(rows: seq<(K, C)>, m: map<K, C>) {
    && NoRepeats(KeysOf(rows))
    && Members(KeysOf(rows)) == m.Keys
    && forall i :: 0 <= i < |rows| ==> m[KeysOf(rows)[i]] == rows[i].1
  }

  lemma ListsOncePerKey<K, C>(rows: seq<(K, C)>, m: map<K, C>)
    requires Lists(rows, m)
    ensures |m.Keys| == |rows|
  {
    NoRepeatsCounts(KeysOf(rows));
  }

  lemma ListedRowIsStored<K, C>(rows: seq<(K, C)>, m: map<K, C>, i: nat)
    requires Lists(rows, m) && i < |rows|
    ensures rows[i].0 in m && m[rows[i].0] == rows[i].1
  {
    assert KeysOf(rows)[i] == rows[i].0;
  }

  lemma StoredRowIsListed<K, C>(rows: seq<(K, C)>, m: map<K, C>, k: K) returns (i: nat)
    requires Lists(rows, m) && k in m
    ensures i < |rows| && rows[i].0 == k && rows[i].1 == m[k]
  {
    i :| 0 <= i < |rows| && KeysOf(rows)[i] == k;
  }

  // When the count runs over the base table and the EXISTS over a join of it, the guards also say
  // that every base row joins; no foreign key is needed for that.
  lemma CountOfTheBaseAndEachOfTheJoin<K, C>(read: seq<(K, C)>, shown: map<K, C>, base: set<K>, joined: map<K, C>)
    requires Lists(read, shown) && joined.Keys <= base
    ensures |base| == |read| && (forall i :: 0 <= i < |read| ==> read[i].0 in joined && joined[read[i].0] == read[i].1)
            <==> base == joined.Keys && joined == shown
  {
    hide Lists, KeysOf, Members, NoRepeats;
    ListsOncePerKey(read, shown);
    if |base| == |read| && forall i :: 0 <= i < |read| ==> read[i].0 in joined && joined[read[i].0] == read[i].1 {
      forall k | k in shown
        ensures k in joined && joined[k] == shown[k]
      {
        var i := StoredRowIsListed(read, shown, k);
      }
      SubsetOfEqualSize(shown.Keys, base);
    }
    if base == joined.Keys && joined == shown {
      forall i | 0 <= i < |read|
        ensures read[i].0 in joined && joined[read[i].0] == read[i].1
      {
        ListedRowIsStored(read, shown, i);
      }
    }
  }
}
