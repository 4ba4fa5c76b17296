/**
 * Stable sorting by a comparator, as JavaScript's `Array.prototype.sort`
 * does it (the language has required a stable sort since ES2019).
 *
 * `le(a, b)` holds when `a` may stay before `b`; for a JavaScript
 * comparator `cmp` it is `cmp(a, b) <= 0`. The reference definition is an
 * insertion sort that works from the right end of the sequence; the lemmas
 * show that it is sorted, a permutation, stable, and that these three
 * properties determine its result, so it stands for any stable sort.
 */
module Sorting {

  /** `le` is total and transitive: a comparator that is consistent. */
  ghost predicate TotalPreorder<T(!new)>(le: (T, T) -> bool) {
    && (forall x, y :: le(x, y) || le(y, x))
    && (forall x, y, z :: le(x, y) && le(y, z) ==> le(x, z))
  }

  /** Every element may stay before every later one. */
  predicate Sorted<T>(s: seq<T>, le: (T, T) -> bool) {
    forall i, j :: 0 <= i < j < |s| ==> le(s[i], s[j])
  }

  /**
   * Inserts `x` after the last element that may stay before it, scanning
   * from the right: the step an insertion sort takes for one new element.
   */
  function Insert<T>(s: seq<T>, x: T, le: (T, T) -> bool): (r: seq<T>)
    ensures |r| == |s| + 1
    decreases |s|
  {
    if s == [] then [x]
    else if le(s[|s| - 1], x) then s + [x]
    else Insert(s[..|s| - 1], x, le) + [s[|s| - 1]]
  }

  /** The reference stable sort. */
  function InsertionSort<T>(s: seq<T>, le: (T, T) -> bool): (r: seq<T>)
    ensures |r| == |s|
    decreases |s|
  {
    if s == [] then []
    else Insert(InsertionSort(s[..|s| - 1], le), s[|s| - 1], le)
  }

  /** Inserting adds exactly `x` to the elements. */
  lemma {:induction false} InsertPermutation<T>(s: seq<T>, x: T, le: (T, T) -> bool)
    ensures multiset(Insert(s, x, le)) == multiset(s) + multiset{x}
    decreases |s|
  {
    if s != [] && !le(s[|s| - 1], x) {
      var init := s[..|s| - 1];
      assert s == init + [s[|s| - 1]];
      InsertPermutation(init, x, le);
    }
  }

  /** The reference sort is a permutation of its input. */
  lemma {:induction false} InsertionSortPermutation<T>(s: seq<T>, le: (T, T) -> bool)
    ensures multiset(InsertionSort(s, le)) == multiset(s)
    decreases |s|
  {
    if s != [] {
      var init := s[..|s| - 1];
      assert s == init + [s[|s| - 1]];
      InsertionSortPermutation(init, le);
      InsertPermutation(InsertionSort(init, le), s[|s| - 1], le);
    }
  }

  /** The elements of `s` that the comparator ranks equal to `y`, in their order in `s`. */
  function EqualRun<T>(s: seq<T>, y: T, le: (T, T) -> bool): (r: seq<T>)
    ensures |r| <= |s|
    decreases |s|
  {
    if s == [] then []
    else EqualRun(s[..|s| - 1], y, le) + (if le(s[|s| - 1], y) && le(y, s[|s| - 1]) then [s[|s| - 1]] else [])
  }

  lemma {:induction false} EqualRunAppend<T>(a: seq<T>, b: seq<T>, y: T, le: (T, T) -> bool)
    ensures EqualRun(a + b, y, le) == EqualRun(a, y, le) + EqualRun(b, y, le)
    decreases |b|
  {
    if b == [] {
      assert a + b == a;
    } else {
      var b' := b[..|b| - 1];
      assert (a + b)[..|a + b| - 1] == a + b';
      EqualRunAppend(a, b', y, le);
    }
  }

  lemma InsertSorted<T(!new)>(s: seq<T>, x: T, le: (T, T) -> bool)
    requires TotalPreorder(le)
    requires Sorted(s, le)
    ensures Sorted(Insert(s, x, le), le)
    decreases |s|
  {
    if s != [] && !le(s[|s| - 1], x) {
      var init, last := s[..|s| - 1], s[|s| - 1];
      InsertSorted(init, x, le);
      var p := Insert(init, x, le);
      InsertPermutation(init, x, le);
      forall i | 0 <= i < |p| ensures le(p[i], last) {
        assert p[i] in multiset(p);
        if p[i] != x {
          assert p[i] in multiset(init);
          var k :| 0 <= k < |init| && init[k] == p[i];
          assert s[k] == p[i];
        }
      }
    }
  }

  /** The reference sort orders its output. */
  lemma {:induction false} InsertionSortSorted<T(!new)>(s: seq<T>, le: (T, T) -> bool)
    requires TotalPreorder(le)
    ensures Sorted(InsertionSort(s, le), le)
    decreases |s|
  {
    if s != [] {
      InsertionSortSorted(s[..|s| - 1], le);
      InsertSorted(InsertionSort(s[..|s| - 1], le), s[|s| - 1], le);
    }
  }

  lemma EqualRunSingle<T>(e: T, y: T, le: (T, T) -> bool)
    ensures EqualRun([e], y, le) == if le(e, y) && le(y, e) then [e] else []
  {
    assert [e][..0] == [];
  }

  /** Two elements of which the first may not stay before the second never rank equal to one `y`. */
  lemma NotBothEqual<T(!new)>(x: T, last: T, y: T, le: (T, T) -> bool)
    requires TotalPreorder(le)
    requires !le(last, x)
    ensures EqualRun([x], y, le) == [] || EqualRun([last], y, le) == []
  {
    EqualRunSingle(x, y, le);
    EqualRunSingle(last, y, le);
  }

  /** Inserting `x` appends it to its own equal run and leaves every other run alone. */
  lemma {:induction false} InsertStable<T(!new)>(s: seq<T>, x: T, y: T, le: (T, T) -> bool)
    requires TotalPreorder(le)
    ensures EqualRun(Insert(s, x, le), y, le) == EqualRun(s, y, le) + EqualRun([x], y, le)
    decreases |s|
  {
    if s == [] {
    } else if le(s[|s| - 1], x) {
      EqualRunAppend(s, [x], y, le);
    } else {
      var init, last := s[..|s| - 1], s[|s| - 1];
      var p := Insert(init, x, le);
      assert Insert(s, x, le) == p + [last];
      assert s == init + [last];
      InsertStable(init, x, y, le);
      EqualRunAppend(p, [last], y, le);
      EqualRunAppend(init, [last], y, le);
      NotBothEqual(x, last, y, le);
    }
  }

  /** The reference sort is stable: each run of equal elements keeps its input order. */
  lemma {:induction false} InsertionSortStable<T(!new)>(s: seq<T>, y: T, le: (T, T) -> bool)
    requires TotalPreorder(le)
    ensures EqualRun(InsertionSort(s, le), y, le) == EqualRun(s, y, le)
    decreases |s|
  {
    if s != [] {
      var init, last := s[..|s| - 1], s[|s| - 1];
      InsertionSortStable(init, y, le);
      InsertStable(InsertionSort(init, le), last, y, le);
      assert [last][..0] == [];
    }
  }

  lemma LastIsGreatest<T(!new)>(r: seq<T>, e: T, le: (T, T) -> bool)
    requires TotalPreorder(le) && Sorted(r, le) && r != []
    requires e in multiset(r)
    ensures le(e, r[|r| - 1])
  {
    var k :| 0 <= k < |r| && r[k] == e;
  }

  lemma EqualRunsGiveMultiset<T(!new)>(r1: seq<T>, r2: seq<T>, e: T, le: (T, T) -> bool)
    requires TotalPreorder(le)
    requires EqualRun(r1, e, le) == EqualRun(r2, e, le)
    requires e in multiset(r1)
    ensures e in multiset(r2)
  {
    EqualRunMembers(r1, e, e, le);
    EqualRunMembers(r2, e, e, le);
    assert e in EqualRun(r1, e, le);
  }

  /** The members of an equal run are the members of `s` that rank equal to `y`. */
  lemma {:induction false} EqualRunMembers<T(!new)>(s: seq<T>, e: T, y: T, le: (T, T) -> bool)
    ensures e in EqualRun(s, y, le) <==> e in s && le(e, y) && le(y, e)
    decreases |s|
  {
    if s != [] {
      EqualRunMembers(s[..|s| - 1], e, y, le);
      assert s == s[..|s| - 1] + [s[|s| - 1]];
    }
  }

  /** A sequence with no equal runs is empty. */
  lemma NoRunsEmpty<T(!new)>(r1: seq<T>, r2: seq<T>, le: (T, T) -> bool)
    requires TotalPreorder(le)
    requires r1 == []
    requires forall y :: EqualRun(r1, y, le) == EqualRun(r2, y, le)
    ensures r2 == []
  {
    if r2 != [] {
      var e := r2[|r2| - 1];
      EqualRunMembers(r2, e, e, le);
      assert false;
    }
  }

  /** Sorted sequences with the same equal runs end in the same element. */
  lemma SameLast<T(!new)>(r1: seq<T>, r2: seq<T>, le: (T, T) -> bool)
    requires TotalPreorder(le)
    requires Sorted(r1, le) && Sorted(r2, le) && r1 != [] && r2 != []
    requires forall y :: EqualRun(r1, y, le) == EqualRun(r2, y, le)
    ensures r1[|r1| - 1] == r2[|r2| - 1]
  {
    var m1, m2 := r1[|r1| - 1], r2[|r2| - 1];
    assert m1 in multiset(r1);
    EqualRunsGiveMultiset(r1, r2, m1, le);
    LastIsGreatest(r2, m1, le);
    assert m2 in multiset(r2);
    EqualRunsGiveMultiset(r2, r1, m2, le);
    LastIsGreatest(r1, m2, le);
    // the two last elements rank equal, so each ends the equal run of m1
    var e1, e2 := EqualRun(r1, m1, le), EqualRun(r2, m1, le);
    assert e1 == EqualRun(r1[..|r1| - 1], m1, le) + [m1];
    assert e2 == EqualRun(r2[..|r2| - 1], m1, le) + [m2];
    assert e1[|e1| - 1] == m1 && e2[|e2| - 1] == m2;
  }

  lemma AppendCancel<T>(a: seq<T>, b: seq<T>, c: seq<T>)
    requires a + c == b + c
    ensures a == b
  {
    assert |a| == |b|;
    assert a == (a + c)[..|a|];
    assert b == (b + c)[..|b|];
  }

  /** Dropping a common last element keeps the equal runs the same. */
  lemma DropSameLast<T(!new)>(i1: seq<T>, i2: seq<T>, m: T, le: (T, T) -> bool)
    requires forall y :: EqualRun(i1 + [m], y, le) == EqualRun(i2 + [m], y, le)
    ensures forall y :: EqualRun(i1, y, le) == EqualRun(i2, y, le)
  {
    forall y ensures EqualRun(i1, y, le) == EqualRun(i2, y, le) {
      EqualRunAppend(i1, [m], y, le);
      EqualRunAppend(i2, [m], y, le);
      AppendCancel(EqualRun(i1, y, le), EqualRun(i2, y, le), EqualRun([m], y, le));
    }
  }

  /**
   * Sorted and stable determine the order completely: two sorted sequences
   * with the same equal runs are the same sequence. So the reference sort
   * agrees with every stable sort by the same comparator.
   */
  lemma {:induction false} StableSortUnique<T(!new)>(r1: seq<T>, r2: seq<T>, le: (T, T) -> bool)
    requires TotalPreorder(le)
    requires Sorted(r1, le) && Sorted(r2, le)
    requires forall y :: EqualRun(r1, y, le) == EqualRun(r2, y, le)
    ensures r1 == r2
    decreases |r1|
  {
    if r1 == [] {
      NoRunsEmpty(r1, r2, le);
    } else if r2 == [] {
      NoRunsEmpty(r2, r1, le);
    } else {
      SameLast(r1, r2, le);
      var m := r1[|r1| - 1];
      var i1, i2 := r1[..|r1| - 1], r2[..|r2| - 1];
      assert r1 == i1 + [m] && r2 == i2 + [m];
      DropSameLast(i1, i2, m, le);
      StableSortUnique(i1, i2, le);
    }
  }

  /** One step of the scan from the right: `x` moves past an element that may not stay before it. */
  lemma InsertPast<T>(q: seq<T>, x: T, le: (T, T) -> bool)
    requires q != [] && !le(q[|q| - 1], x)
    ensures Insert(q, x, le) == Insert(q[..|q| - 1], x, le) + [q[|q| - 1]]
  {
  }

  /** The scan stops: `x` goes at the end of what is left. */
  lemma InsertStop<T>(q: seq<T>, x: T, le: (T, T) -> bool)
    requires q == [] || le(q[|q| - 1], x)
    ensures Insert(q, x, le) == q + [x]
  {
  }

  /** The reference sort of one more element inserts it into the sort of the rest. */
  lemma InsertionSortSnoc<T>(s: seq<T>, i: nat, le: (T, T) -> bool)
    requires i < |s|
    ensures InsertionSort(s[..i + 1], le) == Insert(InsertionSort(s[..i], le), s[i], le)
  {
    assert s[..i + 1][..i] == s[..i];
  }

  /** Overwriting the middle element of a three-part sequence. */
  lemma UpdateMiddle<T>(front: seq<T>, c: T, back: seq<T>, d: T)
    ensures (front + [c] + back)[|front| := d] == front + [d] + back
  {
  }

  /** One shift of the inner loop, on sequences: the gap moves one place left. */
  lemma ShiftStep<T>(p: seq<T>, j: nat, c: T, rest: seq<T>)
    requires 0 < j <= |p|
    ensures (p[..j] + [c] + p[j..] + rest)[j := p[j - 1]] == p[..j - 1] + [p[j - 1]] + p[j - 1..] + rest
  {
    var u := (p[..j] + [c] + p[j..] + rest)[j := p[j - 1]];
    var w := p[..j - 1] + [p[j - 1]] + p[j - 1..] + rest;
    assert |u| == |w|;
    forall k | 0 <= k < |u| ensures u[k] == w[k] {
      if k < j - 1 {
      } else if k == j - 1 || k == j {
      } else if k <= |p| {
        assert u[k] == p[k - 1];
      } else {
        assert u[k] == rest[k - |p| - 1];
      }
    }
  }

  /** The outer loop's state, split at the next element to insert. */
  lemma SortStep<T>(orig: seq<T>, i: nat, cur: seq<T>, le: (T, T) -> bool)
    requires i < |orig| && cur == InsertionSort(orig[..i], le) + orig[i..]
    ensures cur == InsertionSort(orig[..i], le) + [cur[i]] + orig[i + 1..]
    ensures Insert(InsertionSort(orig[..i], le), cur[i], le) + orig[i + 1..] ==
            InsertionSort(orig[..i + 1], le) + orig[i + 1..]
  {
    assert orig[i..] == [orig[i]] + orig[i + 1..];
    assert cur[i] == orig[i];
    InsertionSortSnoc(orig, i, le);
  }

  /**
   * Sorts `a` in place by insertion. Its result is exactly the reference
   * sort of the original contents.
   */
  method SortInPlace<T>(a: array<T>, le: (T, T) -> bool)
    modifies a
    ensures a[..] == InsertionSort(old(a[..]), le)
  {
    ghost var orig := a[..];
    var i := 0;
    assert orig[..0] == [] && orig[0..] == orig;
    while i < a.Length
      invariant 0 <= i <= a.Length
      invariant a[..] == InsertionSort(orig[..i], le) + orig[i..]
    {
      SortStep(orig, i, a[..], le);
      var x := a[i];
      ShiftRight(a, i, x, le, InsertionSort(orig[..i], le), orig[i + 1..]);
      i := i + 1;
    }
    assert orig[..a.Length] == orig;
  }

  /**
   * The inner loop of `SortInPlace`: moves the elements of the sorted prefix
   * `a[..i]` that may not stay before `x` one place right and puts `x` in the gap.
   */
  method ShiftRight<T>(a: array<T>, i: nat, x: T, le: (T, T) -> bool, ghost p: seq<T>, ghost rest: seq<T>)
    requires |p| == i && a[..] == p + [x] + rest
    modifies a
    ensures a[..] == Insert(p, x, le) + rest
  {
    var j := i;
    assert p[..i] == p && p[i..] == [];
    while j > 0 && !le(a[j - 1], x)
      invariant 0 <= j <= i < a.Length
      invariant a[..] == p[..j] + [a[j]] + p[j..] + rest
      invariant Insert(p, x, le) == Insert(p[..j], x, le) + p[j..]
    {
      assert a[j - 1] == p[j - 1];
      assert p[j - 1..] == [p[j - 1]] + p[j..];
      InsertPast(p[..j], x, le);
      assert p[..j][..j - 1] == p[..j - 1];
      ShiftStep(p, j, a[j], rest);
      a[j] := a[j - 1];
      j := j - 1;
    }
    InsertStop(p[..j], x, le);
    UpdateMiddle(p[..j], a[j], p[j..] + rest, x);
    assert p[..j] + [a[j]] + p[j..] + rest == p[..j] + [a[j]] + (p[j..] + rest);
    a[j] := x;
  }

  /** No value occurs twice. */
  predicate NoDuplicates<T(==)>(s: seq<T>) {
    forall i, j :: 0 <= i < j < |s| ==> s[i] != s[j]
  }

  /** In a sequence without duplicates every value occurs at most once. */
  lemma {:induction false} NoDuplicatesCount<T>(s: seq<T>, x: T)
    requires NoDuplicates(s)
    ensures multiset(s)[x] <= 1
    decreases |s|
  {
    if s != [] {
      var init := s[..|s| - 1];
      var last := s[|s| - 1];
      assert s == init + [last];
      assert NoDuplicates(init) by {
        forall i, j | 0 <= i < j < |init| ensures init[i] != init[j] {
          assert init[i] == s[i] && init[j] == s[j];
        }
      }
      NoDuplicatesCount(init, x);
    }
  }

  /** A value found at two positions occurs at least twice. */
  lemma DuplicateCount<T>(s: seq<T>, i: nat, j: nat)
    requires i < j < |s| && s[i] == s[j]
    ensures multiset(s)[s[i]] >= 2
  {
    assert s == s[..j] + [s[j]] + s[j + 1..];
    assert s[..j][i] == s[i];
  }

  /** Reordering a sequence without duplicates gives one without duplicates. */
  lemma PermutationNoDuplicates<T>(a: seq<T>, b: seq<T>)
    requires multiset(a) == multiset(b) && NoDuplicates(a)
    ensures NoDuplicates(b)
  {
    forall i, j | 0 <= i < j < |b| ensures b[i] != b[j] {
      if b[i] == b[j] {
        DuplicateCount(b, i, j);
        NoDuplicatesCount(a, b[i]);
      }
    }
  }
}
