/** Strictly increasing sequences of dates: sorting, slicing, and when two of them are equal. */
module Calendar {

  predicate Increasing(a: seq<int>) {
    forall i, j :: 0 <= i < j < |a| ==> a[i] < a[j]
  }

  lemma EmptyOrInhabited(s: set<int>)
    ensures s == {} || exists x :: x in s
  {
    if !exists x :: x in s {
      assert s == {};
    }
  }

  lemma {:induction false} LeastExists(s: set<int>)
    requires s != {}
    ensures exists m :: m in s && forall x :: x in s ==> m <= x
  {
    EmptyOrInhabited(s);
    var x :| x in s;
    if s != {x} {
      var rest := s - {x};
      LeastExists(rest);
      var m :| m in rest && forall y :: y in rest ==> m <= y;
      assert s == rest + {x};
      var least := if m < x then m else x;
      assert least in s && forall y :: y in s ==> least <= y;
    } else {
      assert forall y :: y in s ==> x <= y;
    }
  }

  /** `sorted` of a set of dates. */
  function Sorted(s: set<int>): (r: seq<int>)
    ensures Increasing(r)
    ensures forall x :: x in r <==> x in s
    decreases |s|
  {
    if s == {} then []
    else
      LeastExists(s);
      var m :| m in s && forall x :: x in s ==> m <= x;
      [m] + Sorted(s - {m})
  }

  /** `sorted` of a list of dates; repeated dates stay. */
  function SortedList(a: seq<int>): seq<int> {
    if a == [] then [] else Insert(SortedList(a[..|a| - 1]), a[|a| - 1])
  }

  function Insert(a: seq<int>, x: int): seq<int> {
    if a == [] || x <= a[0] then [x] + a else [a[0]] + Insert(a[1..], x)
  }

  lemma {:induction false} InsertKeeps(a: seq<int>, x: int)
    ensures forall y :: y in Insert(a, x) <==> y == x || y in a
    ensures Increasing(a) && x !in a ==> Increasing(Insert(a, x))
  {
    if a != [] && x > a[0] {
      InsertKeeps(a[1..], x);
      assert a == [a[0]] + a[1..];
      if Increasing(a) && x !in a {
        assert Increasing(Insert(a[1..], x));
        forall i | 0 <= i < |Insert(a[1..], x)| ensures a[0] < Insert(a[1..], x)[i] {
          assert Insert(a[1..], x)[i] in Insert(a[1..], x);
        }
      }
    } else if Increasing(a) && x !in a && a != [] {
      assert x < a[0];
    }
  }

  ghost predicate NoRepeats(a: seq<int>) {
    forall i, j :: 0 <= i < j < |a| ==> a[i] != a[j]
  }

  lemma {:induction false} SortedListKeeps(a: seq<int>)
    ensures forall y :: y in SortedList(a) <==> y in a
    ensures NoRepeats(a) ==> Increasing(SortedList(a))
  {
    if a != [] {
      var init, x := a[..|a| - 1], a[|a| - 1];
      SortedListKeeps(init);
      InsertKeeps(SortedList(init), x);
      assert a == init + [x];
      if NoRepeats(a) {
        assert x !in init;
      }
    }
  }

  /** The calendar rows between two dates, as the frame filter selects them. */
  function Between(cal: seq<int>, lo: int, hi: int): (r: seq<int>)
    ensures forall x :: x in r <==> x in cal && lo <= x <= hi
  {
    if cal == [] then []
    else
      var init, x := cal[..|cal| - 1], cal[|cal| - 1];
      assert forall y :: y in cal <==> y in init || y == x;
      if lo <= x <= hi then Between(init, lo, hi) + [x] else Between(init, lo, hi)
  }

  lemma {:induction false} BetweenIncreasing(cal: seq<int>, lo: int, hi: int)
    requires Increasing(cal)
    ensures Increasing(Between(cal, lo, hi))
  {
    if cal != [] {
      var init, x := cal[..|cal| - 1], cal[|cal| - 1];
      BetweenIncreasing(init, lo, hi);
      IncreasingConcat(Between(init, lo, hi), [x]);
    }
  }

  /** `list.index`. */
  function IndexOf(cal: seq<int>, x: int): (i: nat)
    requires x in cal
    ensures i < |cal| && cal[i] == x
    ensures forall j :: 0 <= j < i ==> cal[j] != x
  {
    if cal[0] == x then 0 else 1 + IndexOf(cal[1..], x)
  }

  lemma IndexUnique(cal: seq<int>, i: nat)
    requires Increasing(cal) && i < |cal|
    ensures IndexOf(cal, cal[i]) == i
  {
  }

  /** Dates appended to a calendar do not move the earlier ones. */
  lemma IndexKept(cal: seq<int>, more: seq<int>, x: int)
    requires Increasing(cal + more) && x in cal
    ensures IndexOf(cal + more, x) == IndexOf(cal, x)
  {
    var i := IndexOf(cal, x);
    assert (cal + more)[i] == x;
    IndexUnique(cal + more, i);
  }

  // ----- equality by elements -----

  /** An increasing sequence inside another is shorter, or the same. */
  lemma {:induction false} SubsequenceShorter(a: seq<int>, b: seq<int>)
    requires Increasing(a) && Increasing(b) && forall x :: x in a ==> x in b
    ensures |a| <= |b|
    ensures |a| == |b| ==> a == b
    decreases |b|
  {
    if a != [] {
      var a', x := a[..|a| - 1], a[|a| - 1];
      assert x in b;
      var b', y := b[..|b| - 1], b[|b| - 1];
      if x == y {
        forall z | z in a' ensures z in b' {
          assert z in a && z in b && z != y;
        }
        SubsequenceShorter(a', b');
        assert a == a' + [x] && b == b' + [y];
      } else {
        forall z | z in a ensures z in b' {
          assert z in b && z <= x < y;
        }
        SubsequenceShorter(a, b');
      }
    }
  }

  lemma SameElements(a: seq<int>, b: seq<int>)
    requires Increasing(a) && Increasing(b) && forall x :: x in a <==> x in b
    ensures a == b
  {
    SubsequenceShorter(a, b);
    SubsequenceShorter(b, a);
  }

  lemma SliceElements(cal: seq<int>, i: nat, j: nat)
    requires Increasing(cal) && i <= j < |cal|
    ensures Increasing(cal[i..j + 1])
    ensures forall x :: x in cal[i..j + 1] <==> x in cal && cal[i] <= x <= cal[j]
  {
    forall x | x in cal && cal[i] <= x <= cal[j] ensures x in cal[i..j + 1] {
      var k := IndexOf(cal, x);
      assert i <= k <= j;
      assert cal[i..j + 1][k - i] == x;
    }
  }

  /** Filtering an increasing calendar selects a contiguous slice. */
  lemma BetweenIsSlice(cal: seq<int>, lo: int, hi: int)
    requires Increasing(cal) && lo in cal && hi in cal && lo <= hi
    ensures IndexOf(cal, lo) <= IndexOf(cal, hi)
    ensures Between(cal, lo, hi) == cal[IndexOf(cal, lo)..IndexOf(cal, hi) + 1]
  {
    hide Between, IndexOf;
    var i, j := IndexOf(cal, lo), IndexOf(cal, hi);
    SliceElements(cal, i, j);
    BetweenIncreasing(cal, lo, hi);
    SameElements(Between(cal, lo, hi), cal[i..j + 1]);
  }

  lemma NextDate(cal: seq<int>, e: nat, x: int)
    requires Increasing(cal) && e + 1 < |cal| && x in cal
    ensures x > cal[e] <==> x >= cal[e + 1]
  {
    var i := IndexOf(cal, x);
    if i <= e {
      assert cal[i] <= cal[e] < cal[e + 1];
    } else {
      assert cal[e] < cal[e + 1] <= cal[i];
    }
  }

  /** The dates of a calendar after one of them, up to another. */
  lemma AfterIsSlice(cal: seq<int>, e: nat, m: nat)
    requires Increasing(cal) && e < |cal| && m < |cal|
    ensures Between(cal, cal[e] + 1, cal[m]) == if e < m then cal[e + 1..m + 1] else []
  {
    var b := Between(cal, cal[e] + 1, cal[m]);
    BetweenIncreasing(cal, cal[e] + 1, cal[m]);
    if e < m {
      SliceElements(cal, e + 1, m);
      forall x ensures x in b <==> x in cal[e + 1..m + 1] {
        if x in cal {
          NextDate(cal, e, x);
        }
      }
      hide Between, Increasing;
      SameElements(b, cal[e + 1..m + 1]);
    } else {
      HeadIsIn(b);
    }
  }

  /** Filtering between any two dates selects a contiguous slice, too. */
  lemma BetweenIsRange(cal: seq<int>, lo: int, hi: int)
    requires Increasing(cal) && Between(cal, lo, hi) != []
    ensures var b := Between(cal, lo, hi);
            && b[0] in cal && b[|b| - 1] in cal
            && IndexOf(cal, b[0]) <= IndexOf(cal, b[|b| - 1])
            && b == cal[IndexOf(cal, b[0])..IndexOf(cal, b[|b| - 1]) + 1]
            && forall x :: x in cal ==> (lo <= x <= hi <==> b[0] <= x <= b[|b| - 1])
  {
    hide Between, IndexOf;
    var b := Between(cal, lo, hi);
    var n := |b| - 1;
    BetweenIncreasing(cal, lo, hi);
    assert b[0] in b && b[n] in b;
    assert b[0] <= b[n];
    forall x | x in cal ensures lo <= x <= hi <==> b[0] <= x <= b[n] {
      if lo <= x <= hi {
        var k :| 0 <= k < |b| && b[k] == x;
      }
    }
    BetweenIsSlice(cal, b[0], b[n]);
    BetweenIncreasing(cal, b[0], b[n]);
    SameElements(b, Between(cal, b[0], b[n]));
  }

  /** Sorting a list keeps every date as often as it occurs, in order. */
  lemma {:induction false} SortedListSorts(a: seq<int>)
    ensures multiset(SortedList(a)) == multiset(a)
    ensures forall i, j :: 0 <= i < j < |SortedList(a)| ==> SortedList(a)[i] <= SortedList(a)[j]
  {
    if a != [] {
      var init, x := a[..|a| - 1], a[|a| - 1];
      SortedListSorts(init);
      InsertSorts(SortedList(init), x);
      assert a == init + [x];
    }
  }

  lemma {:induction false} InsertSorts(a: seq<int>, x: int)
    requires forall i, j :: 0 <= i < j < |a| ==> a[i] <= a[j]
    ensures multiset(Insert(a, x)) == multiset(a) + multiset{x}
    ensures forall i, j :: 0 <= i < j < |Insert(a, x)| ==> Insert(a, x)[i] <= Insert(a, x)[j]
  {
    if a != [] && x > a[0] {
      InsertSorts(a[1..], x);
      assert a == [a[0]] + a[1..];
      InsertKeeps(a[1..], x);
      forall i | 0 <= i < |Insert(a[1..], x)| ensures a[0] <= Insert(a[1..], x)[i] {
        assert Insert(a[1..], x)[i] in Insert(a[1..], x);
      }
    }
  }

  /** An increasing sequence followed by later dates. */
  lemma IncreasingConcat(a: seq<int>, b: seq<int>)
    requires Increasing(a) && Increasing(b)
    requires forall x, y :: x in a && y in b ==> x < y
    ensures Increasing(a + b)
  {
    forall i, j | 0 <= i < j < |a + b| ensures (a + b)[i] < (a + b)[j] {
      if i < |a| <= j {
        assert a[i] in a && b[j - |a|] in b;
      }
    }
  }

  /** What an extended calendar holds up to one of the old dates, the old calendar held already. */
  lemma EarlierInPrefix(cal: seq<int>, later: seq<int>, x: int, y: int)
    requires Increasing(cal + later) && y in cal && x in cal + later && x <= y
    ensures x in cal
  {
    var j := IndexOf(cal, y);
    assert (cal + later)[j] == y;
    assert forall k :: |cal| <= k < |cal + later| ==> y < (cal + later)[k];
    var i := IndexOf(cal + later, x);
    assert (cal + later)[i] == cal[i];
  }

  /** A range of an extended calendar is the old range followed by what lies after its end. */
  lemma BetweenSplits(cal: seq<int>, later: seq<int>, lo: int, end: int, hi: int)
    requires Increasing(cal) && Increasing(cal + later) && lo <= end && end in cal
    ensures Between(cal + later, lo, if hi > end then hi else end)
         == Between(cal, lo, end) + Between(cal + later, end + 1, hi)
  {
    var whole, top := cal + later, if hi > end then hi else end;
    var a, b := Between(cal, lo, end), Between(whole, end + 1, hi);
    BetweenIncreasing(cal, lo, end);
    BetweenIncreasing(whole, end + 1, hi);
    BetweenIncreasing(whole, lo, top);
    IncreasingConcat(a, b);
    forall x ensures x in Between(whole, lo, top) <==> x in a + b {
      assert x in a + b <==> x in a || x in b;
      assert x in whole <==> x in cal || x in later;
      if x in whole && x <= end {
        EarlierInPrefix(cal, later, x, end);
      }
    }
    SameElements(Between(whole, lo, top), a + b);
  }

  lemma {:induction false} BetweenAll(a: seq<int>, lo: int, hi: int)
    requires forall i :: 0 <= i < |a| ==> lo <= a[i] <= hi
    ensures Between(a, lo, hi) == a
  {
    if a != [] {
      assert a == a[..|a| - 1] + [a[|a| - 1]];
      BetweenAll(a[..|a| - 1], lo, hi);
    }
  }

  lemma NoRepeatsAppended(a: seq<int>, x: int)
    requires NoRepeats(a) && x !in a
    ensures NoRepeats(a + [x])
  {
  }

  lemma HeadIsIn(a: seq<int>)
    ensures a == [] || a[0] in a
  {
  }
}
