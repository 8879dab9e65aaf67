/** Filtering, summing and ordering of row sequences: the relational vocabulary the
    queries of the storage layer are written in. */
module Seqs {

  function Filter<T(!new)>(s: seq<T>, keep: T -> bool): (r: seq<T>)
    ensures forall x :: x in r <==> x in s && keep(x)
  {
    if s == [] then [] else (if keep(s[0]) then [s[0]] else []) + Filter(s[1..], keep)
  }

  function SumBy<T>(s: seq<T>, amount: T -> int): int {
    if s == [] then 0 else amount(s[0]) + SumBy(s[1..], amount)
  }

  function SumReal<T>(s: seq<T>, amount: T -> real): real {
    if s == [] then 0.0 else amount(s[0]) + SumReal(s[1..], amount)
  }

  /** ORDER BY: a stable insertion sort under the given comparison. */
  function SortBy<T(!new)>(s: seq<T>, le: (T, T) -> bool): (r: seq<T>) {
    if s == [] then [] else InsertBy(s[0], SortBy(s[1..], le), le)
  }

  function InsertBy<T(!new)>(x: T, s: seq<T>, le: (T, T) -> bool): (r: seq<T>)
    ensures |r| == |s| + 1
  {
    if s == [] || le(x, s[0]) then [x] + s else [s[0]] + InsertBy(x, s[1..], le)
  }

  ghost predicate Sorted<T>(s: seq<T>, le: (T, T) -> bool) {
    forall i, j :: 0 <= i < j < |s| ==> le(s[i], s[j])
  }

  /** A total preorder, as every ORDER BY key gives. */
  ghost predicate Preorder<T(!new)>(le: (T, T) -> bool) {
    && (forall x, y :: le(x, y) || le(y, x))
    && (forall x, y, z :: le(x, y) && le(y, z) ==> le(x, z))
  }

  lemma {:induction false} FilterAppend<T(!new)>(a: seq<T>, b: seq<T>, keep: T -> bool)
    ensures Filter(a + b, keep) == Filter(a, keep) + Filter(b, keep)
  {
    if a == [] {
      assert a + b == b;
    } else {
      assert (a + b)[1..] == a[1..] + b;
      FilterAppend(a[1..], b, keep);
    }
  }

  lemma {:induction false} FilterAll<T(!new)>(s: seq<T>, keep: T -> bool)
    requires forall x :: x in s ==> keep(x)
    ensures Filter(s, keep) == s
  {
    if s != [] {
      FilterAll(s[1..], keep);
    }
  }

  lemma {:induction false} FilterShrinks<T(!new)>(s: seq<T>, keep: T -> bool)
    ensures |Filter(s, keep)| <= |s|
  {
    if s != [] {
      FilterShrinks(s[1..], keep);
    }
  }

  lemma {:induction false} FilterNone<T(!new)>(s: seq<T>, keep: T -> bool)
    requires forall x :: x in s ==> !keep(x)
    ensures Filter(s, keep) == []
  {
    if s != [] {
      FilterNone(s[1..], keep);
    }
  }

  lemma {:induction false} FilterSwap<T(!new)>(s: seq<T>, p: T -> bool, q: T -> bool)
    ensures Filter(Filter(s, p), q) == Filter(Filter(s, q), p)
  {
    if s != [] {
      FilterSwap(s[1..], p, q);
      FilterAppend(if p(s[0]) then [s[0]] else [], Filter(s[1..], p), q);
      FilterAppend(if q(s[0]) then [s[0]] else [], Filter(s[1..], q), p);
    }
  }

  lemma {:induction false} SumAppend<T>(a: seq<T>, b: seq<T>, amount: T -> int)
    ensures SumBy(a + b, amount) == SumBy(a, amount) + SumBy(b, amount)
  {
    if a == [] {
      assert a + b == b;
    } else {
      assert (a + b)[1..] == a[1..] + b;
      SumAppend(a[1..], b, amount);
    }
  }

  lemma {:induction false} SumInsert<T(!new)>(x: T, s: seq<T>, le: (T, T) -> bool, amount: T -> int)
    ensures SumBy(InsertBy(x, s, le), amount) == amount(x) + SumBy(s, amount)
  {
    if s == [] || le(x, s[0]) {
      assert ([x] + s)[1..] == s;
    } else {
      SumInsert(x, s[1..], le, amount);
      assert ([s[0]] + InsertBy(x, s[1..], le))[1..] == InsertBy(x, s[1..], le);
    }
  }

  /** Ordering the rows of a query changes no total. */
  lemma {:induction false} SumSorted<T(!new)>(s: seq<T>, le: (T, T) -> bool, amount: T -> int)
    ensures SumBy(SortBy(s, le), amount) == SumBy(s, amount)
  {
    if s != [] {
      SumSorted(s[1..], le, amount);
      SumInsert(s[0], SortBy(s[1..], le), le, amount);
    }
  }

  lemma {:induction false} InsertMembers<T(!new)>(x: T, s: seq<T>, le: (T, T) -> bool)
    ensures forall y :: y in InsertBy(x, s, le) <==> y == x || y in s
  {
    if s != [] && !le(x, s[0]) {
      InsertMembers(x, s[1..], le);
      assert s == [s[0]] + s[1..];
    }
  }

  lemma {:induction false} SortedMembers<T(!new)>(s: seq<T>, le: (T, T) -> bool)
    ensures |SortBy(s, le)| == |s|
    ensures forall x :: x in SortBy(s, le) <==> x in s
  {
    if s != [] {
      SortedMembers(s[1..], le);
      InsertMembers(s[0], SortBy(s[1..], le), le);
    }
  }

  lemma {:induction false} InsertKeepsOrder<T(!new)>(x: T, s: seq<T>, le: (T, T) -> bool)
    requires Preorder(le) && Sorted(s, le)
    ensures Sorted(InsertBy(x, s, le), le)
  {
    if s == [] || le(x, s[0]) {
    } else {
      InsertKeepsOrder(x, s[1..], le);
      InsertMembers(x, s[1..], le);
      var rest := InsertBy(x, s[1..], le);
      forall j | 0 <= j < |rest|
        ensures le(s[0], rest[j])
      {
        assert rest[j] == x || rest[j] in s[1..];
        assert le(s[0], x);
      }
    }
  }

  lemma {:induction false} SortGivesOrder<T(!new)>(s: seq<T>, le: (T, T) -> bool)
    requires Preorder(le)
    ensures Sorted(SortBy(s, le), le)
  {
    if s != [] {
      SortGivesOrder(s[1..], le);
      InsertKeepsOrder(s[0], SortBy(s[1..], le), le);
    }
  }

  /** Rows already in order come back as they are. */
  lemma {:induction false} SortOrdered<T(!new)>(s: seq<T>, le: (T, T) -> bool)
    requires Sorted(s, le)
    ensures SortBy(s, le) == s
  {
    if s != [] {
      SortOrdered(s[1..], le);
      assert |s| > 1 ==> le(s[0], s[1]);
      assert s == [s[0]] + s[1..];
    }
  }

  /** Once `x` is below one element of `s` it is below the rest. */
  ghost predicate Upward<T(!new)>(x: T, s: seq<T>, le: (T, T) -> bool) {
    s == [] || ((le(x, s[0]) ==> forall y :: y in s ==> le(x, y)) && Upward(x, s[1..], le))
  }

  lemma {:induction false} SortedIsUpward<T(!new)>(x: T, s: seq<T>, le: (T, T) -> bool)
    requires Preorder(le) && Sorted(s, le)
    ensures Upward(x, s, le)
  {
    if s != [] {
      SortedIsUpward(x, s[1..], le);
      if le(x, s[0]) {
        forall j | 0 < j < |s|
          ensures le(x, s[j])
        {
          assert le(s[0], s[j]);
        }
      }
    }
  }

  lemma FilterCons<T(!new)>(x: T, s: seq<T>, keep: T -> bool)
    ensures Filter([x] + s, keep) == (if keep(x) then [x] else []) + Filter(s, keep)
  {
  }

  lemma InsertCons<T(!new)>(x: T, y: T, s: seq<T>, le: (T, T) -> bool)
    ensures InsertBy(x, [y] + s, le) == if le(x, y) then [x, y] + s else [y] + InsertBy(x, s, le)
  {
  }

  lemma {:induction false} FilterInsert<T(!new)>(x: T, s: seq<T>, le: (T, T) -> bool, fine: (T, T) -> bool, keep: T -> bool)
    requires Upward(x, s, le)
    requires forall y :: y in s && keep(x) && keep(y) ==> (le(x, y) <==> fine(x, y))
    ensures Filter(InsertBy(x, s, le), keep)
         == if keep(x) then InsertBy(x, Filter(s, keep), fine) else Filter(s, keep)
  {
    if s == [] {
      FilterCons(x, s, keep);
    } else if le(x, s[0]) {
      FilterCons(x, s, keep);
      var kept := Filter(s, keep);
      if keep(x) && kept != [] {
        assert kept[0] in s;
        assert fine(x, kept[0]);
      }
    } else {
      var y, t := s[0], s[1..];
      assert s == [y] + t;
      FilterInsert(x, t, le, fine, keep);
      InsertCons(x, y, t, le);
      FilterCons(y, InsertBy(x, t, le), keep);
      FilterCons(y, t, keep);
      assert InsertBy(x, s, le) == [y] + InsertBy(x, t, le);
      if keep(y) && keep(x) {
        assert !fine(x, y);
        InsertCons(x, y, Filter(t, keep), fine);
        assert Filter(s, keep) == [y] + Filter(t, keep);
      } else if keep(y) {
        assert Filter(s, keep) == [y] + Filter(t, keep);
      } else {
        assert Filter(s, keep) == Filter(t, keep);
      }
    }
  }

  /** Ordering all rows and then picking one group gives that group in its own order. */
  lemma {:induction false} FilterSorted<T(!new)>(s: seq<T>, le: (T, T) -> bool, fine: (T, T) -> bool, keep: T -> bool)
    requires Preorder(le)
    requires forall a, b :: keep(a) && keep(b) ==> (le(a, b) <==> fine(a, b))
    ensures Filter(SortBy(s, le), keep) == SortBy(Filter(s, keep), fine)
  {
    if s != [] {
      FilterSorted(s[1..], le, fine, keep);
      SortGivesOrder(s[1..], le);
      var rest := SortBy(s[1..], le);
      SortedIsUpward(s[0], rest, le);
      FilterInsert(s[0], rest, le, fine, keep);
      if keep(s[0]) {
        assert Filter(s, keep)[1..] == Filter(s[1..], keep);
      } else {
        assert Filter(s, keep) == Filter(s[1..], keep);
      }
    }
  }
}
