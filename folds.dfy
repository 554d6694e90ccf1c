/** Folds over record lists: the `reduce` sums and `filter` copies that the
    components apply to their arrays of records. */
module Folds {

  /** `s.reduce((acc, x) => acc + f(x), 0)`: a left fold, so it recurses on the prefix. */
  function Sum<T>(s: seq<T>, f: T -> real): (total: real)
    ensures (forall x :: x in s ==> f(x) >= 0.0) ==> total >= 0.0
    decreases |s|
  {
    if s == [] then 0.0 else Sum(s[..|s| - 1], f) + f(s[|s| - 1])
  }

  /** `s.filter(keep)`: the elements that pass, each as often as in `s`. */
  function Filter<T>(s: seq<T>, keep: T -> bool): (r: seq<T>)
    ensures |r| <= |s|
    ensures forall x :: x in r ==> x in s && keep(x)
    ensures forall x :: x in s && keep(x) ==> x in r
    ensures (forall x :: x in s ==> keep(x)) ==> r == s
    ensures (forall x :: x in s ==> !keep(x)) ==> r == []
    decreases |s|
  {
    if s == [] then []
    else
      var init := Filter(s[..|s| - 1], keep);
      if keep(s[|s| - 1]) then init + [s[|s| - 1]] else init
  }

  /** Each element that passes is kept as many times as it occurs; the others are dropped. */
  lemma {:induction false} FilterCount<T>(s: seq<T>, keep: T -> bool, x: T)
    ensures multiset(Filter(s, keep))[x] == if keep(x) then multiset(s)[x] else 0
    decreases |s|
  {
    if s != [] {
      var s', last := s[..|s| - 1], s[|s| - 1];
      assert s == s' + [last];
      FilterCount(s', keep, x);
    }
  }

  /** `s.filter(x => x.id !== id)`: what a delete button leaves behind. */
  function RemoveId<T>(s: seq<T>, idOf: T -> int, id: int): (r: seq<T>)
    ensures forall x :: x in r ==> x in s && idOf(x) != id
    ensures forall x :: x in s && idOf(x) != id ==> x in r
    ensures (forall x :: x in s ==> idOf(x) != id) ==> r == s
  {
    Filter(s, x => idOf(x) != id)
  }

  /** The records that a delete of `id` takes away. */
  function WithId<T>(s: seq<T>, idOf: T -> int, id: int): (r: seq<T>)
    ensures forall x :: x in r ==> x in s && idOf(x) == id
    ensures forall x :: x in s && idOf(x) == id ==> x in r
  {
    Filter(s, x => idOf(x) == id)
  }

  lemma {:induction false} SumAppend<T>(a: seq<T>, b: seq<T>, f: T -> real)
    ensures Sum(a + b, f) == Sum(a, f) + Sum(b, f)
    decreases |b|
  {
    if b == [] {
      assert a + b == a;
    } else {
      var b' := b[..|b| - 1];
      assert (a + b)[..|a + b| - 1] == a + b';
      SumAppend(a, b', f);
    }
  }

  /** One step of the filter, on the last element. */
  lemma FilterSnoc<T>(s: seq<T>, x: T, keep: T -> bool)
    ensures Filter(s + [x], keep) == if keep(x) then Filter(s, keep) + [x] else Filter(s, keep)
  {
    var t := s + [x];
    assert t[..|t| - 1] == s && t[|t| - 1] == x;
  }

  /** Appending to the filtered sequences, over plain sequences. */
  lemma SnocStep<T>(fa: seq<T>, fb: seq<T>, fab: seq<T>, fab': seq<T>, fb': seq<T>, last: T, kept: bool)
    requires fab == fa + fb
    requires fab' == (if kept then fab + [last] else fab)
    requires fb' == (if kept then fb + [last] else fb)
    ensures fab' == fa + fb'
  {
    if kept {
      assert (fa + fb) + [last] == fa + (fb + [last]);
    }
  }

  /** `FilterSnoc` for an element appended to the right operand of a concatenation. */
  lemma FilterSnocRight<T>(a: seq<T>, b: seq<T>, last: T, keep: T -> bool)
    ensures Filter(a + (b + [last]), keep)
         == if keep(last) then Filter(a + b, keep) + [last] else Filter(a + b, keep)
  {
    assert a + (b + [last]) == (a + b) + [last];
    FilterSnoc(a + b, last, keep);
  }

  /** The inductive step of `FilterAppend`: one more element at the end of `b`. */
  lemma FilterAppendStep<T>(a: seq<T>, b: seq<T>, last: T, keep: T -> bool)
    requires Filter(a + b, keep) == Filter(a, keep) + Filter(b, keep)
    ensures Filter(a + (b + [last]), keep) == Filter(a, keep) + Filter(b + [last], keep)
  {
    FilterSnocRight(a, b, last, keep);
    FilterSnoc(b, last, keep);
    SnocStep(Filter(a, keep), Filter(b, keep), Filter(a + b, keep),
             Filter(a + (b + [last]), keep), Filter(b + [last], keep), last, keep(last));
  }

  /** Filtering commutes with concatenation, so the survivors keep their relative order. */
  lemma {:induction false} FilterAppend<T>(a: seq<T>, b: seq<T>, keep: T -> bool)
    ensures Filter(a + b, keep) == Filter(a, keep) + Filter(b, keep)
    decreases |b|
  {
    if b == [] {
      assert a + b == a;
    } else {
      var b', last := b[..|b| - 1], b[|b| - 1];
      assert b == b' + [last];
      FilterAppend(a, b', keep);
      FilterAppendStep(a, b', last, keep);
    }
  }

  /** Two predicates that agree everywhere filter alike. */
  lemma {:induction false} FilterExtensional<T>(s: seq<T>, p: T -> bool, q: T -> bool)
    requires forall x :: p(x) == q(x)
    ensures Filter(s, p) == Filter(s, q)
    decreases |s|
  {
    if s != [] {
      FilterExtensional(s[..|s| - 1], p, q);
    }
  }

  /** A sum splits over a predicate and its complement. */
  lemma {:induction false} SumPartition<T>(s: seq<T>, f: T -> real, keep: T -> bool, drop: T -> bool)
    requires forall x :: drop(x) == !keep(x)
    ensures Sum(s, f) == Sum(Filter(s, keep), f) + Sum(Filter(s, drop), f)
    decreases |s|
  {
    if s != [] {
      var s', last := s[..|s| - 1], s[|s| - 1];
      SumPartition(s', f, keep, drop);
      if keep(last) {
        SumAppend(Filter(s', keep), [last], f);
      } else {
        SumAppend(Filter(s', drop), [last], f);
      }
    }
  }

  /** With non-negative terms, a filtered sum lies between zero and the full sum. */
  lemma {:induction false} SumFilterBounds<T>(s: seq<T>, f: T -> real, keep: T -> bool)
    requires forall x :: x in s ==> f(x) >= 0.0
    ensures 0.0 <= Sum(Filter(s, keep), f) <= Sum(s, f)
    decreases |s|
  {
    if s != [] {
      var s', last := s[..|s| - 1], s[|s| - 1];
      SumFilterBounds(s', f, keep);
      if keep(last) {
        SumAppend(Filter(s', keep), [last], f);
      }
    }
  }

  /** With non-negative terms, the sum is positive exactly when some term is. */
  lemma {:induction false} SumPositiveIff<T>(s: seq<T>, f: T -> real)
    requires forall x :: x in s ==> f(x) >= 0.0
    ensures Sum(s, f) > 0.0 <==> exists x :: x in s && f(x) > 0.0
    decreases |s|
  {
    if s != [] {
      var s', last := s[..|s| - 1], s[|s| - 1];
      assert s == s' + [last];
      SumPositiveIff(s', f);
    }
  }

  /** Deleting by id lowers a total by exactly the removed records' share. */
  lemma SumRemoveId<T>(s: seq<T>, f: T -> real, idOf: T -> int, id: int)
    ensures Sum(RemoveId(s, idOf, id), f) == Sum(s, f) - Sum(WithId(s, idOf, id), f)
  {
    var keep := (x: T) => idOf(x) != id;
    var drop := (x: T) => idOf(x) == id;
    SumPartition(s, f, keep, drop);
    FilterExtensional(s, keep, x => idOf(x) != id);
    FilterExtensional(s, drop, x => idOf(x) == id);
  }

  /** Deleting by id commutes with concatenation: the kept records stay in order. */
  lemma RemoveIdAppend<T>(a: seq<T>, b: seq<T>, idOf: T -> int, id: int)
    ensures RemoveId(a + b, idOf, id) == RemoveId(a, idOf, id) + RemoveId(b, idOf, id)
  {
    FilterAppend(a, b, x => idOf(x) != id);
  }
}
