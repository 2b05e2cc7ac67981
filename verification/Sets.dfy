// Sets and the sequences that list them.
module Sets {
  predicate NoRepeats<T(==)>(rows: seq<T>) {
    forall i, j :: 0 <= i < j < |rows| ==> rows[i] != rows[j]
  }

  function Members<T(==)>(rows: seq<T>): (s: set<T>)
    ensures |s| <= |rows|
    ensures forall r :: r in s ==> r in rows
    ensures forall r :: r in rows ==> r in s
  {
    if rows == [] then {} else Members(rows[..|rows| - 1]) + {rows[|rows| - 1]}
  }

  lemma NoRepeatsByStep<T>(rows: seq<T>)
    requires rows != []
    ensures var init, last := rows[..|rows| - 1], rows[|rows| - 1];
            NoRepeats(rows) <==> NoRepeats(init) && last !in init
  {
    var init, last := rows[..|rows| - 1], rows[|rows| - 1];
    if NoRepeats(rows) {
      assert forall i :: 0 <= i < |init| ==> init[i] == rows[i];
    }
    if NoRepeats(init) && last !in init {
      forall i, j | 0 <= i < j < |rows|
        ensures rows[i] != rows[j]
      {
        assert rows[i] == init[i];
        if j < |init| { assert rows[j] == init[j]; }
      }
    }
  }

  lemma {:induction false} NoRepeatsCounts<T>(rows: seq<T>)
    ensures |Members(rows)| == |rows| <==> NoRepeats(rows)
  {
    if rows != [] {
      hide NoRepeats;
      var init, last := rows[..|rows| - 1], rows[|rows| - 1];
      NoRepeatsCounts(init);
      NoRepeatsByStep(rows);
      if last in init { assert Members(rows) == Members(init); }
    } else {
      assert Members(rows) == {};
    }
  }

  lemma SubsetIsSmaller<T>(a: set<T>, b: set<T>)
    requires a <= b
    ensures |a| <= |b|
  {
    assert |b - a| == |b| - |a|;
  }

  lemma SubsetOfEqualSize<T>(a: set<T>, b: set<T>)
    requires a <= b && |a| >= |b|
    ensures a == b
  {
    assert |b - a| == |b| - |a|;
    assert forall x :: x in b && x !in a ==> x in b - a;
  }

  // An id that is not in use.
  lemma {:induction false} LongerThanAll(ids: set<string>) returns (id: string)
    ensures id !in ids && forall x :: x in ids ==> |x| < |id|
  {
    if ids == {} {
      id := "x";
    } else {
      var x :| x in ids;
      var rest := LongerThanAll(ids - {x});
      id := x + rest + "x";
      forall y | y in ids ensures |y| < |id| {
        if y != x { assert y in ids - {x}; }
      }
    }
  }
}
