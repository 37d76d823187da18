/** Sequence facts shared by the model: duplicates, first occurrences, sorting. */
module Seqs {
  import opened Wrappers

  /** No element occurs twice. */
  predicate NoDups<T(==)>(s: seq<T>) {
    forall i, j :: 0 <= i < j < |s| ==> s[i] != s[j]
  }

  /**
   * Appends the elements of `xs` to `acc` in order, skipping each one that is
   * already there: what adding to a JavaScript `Set` (or pushing after a
   * `findIndex` miss) does.
   */
  function AddAll<T(==)>(acc: seq<T>, xs: seq<T>): seq<T>
    decreases |xs|
  {
    if xs == [] then acc
    else AddAll(if xs[0] in acc then acc else acc + [xs[0]], xs[1..])
  }

  /** The distinct elements of `xs` in the order of their first occurrence. */
  function Dedup<T(==)>(xs: seq<T>): seq<T> {
    AddAll([], xs)
  }

  /**
   * Reference definition of the same list: the element at position `i` is
   * kept exactly when it does not occur before `i`.
   */
  function FirstOccurrences<T(==)>(xs: seq<T>): seq<T>
    decreases |xs|
  {
    if xs == [] then []
    else
      var init := xs[..|xs| - 1];
      FirstOccurrences(init) + (if xs[|xs| - 1] in init then [] else [xs[|xs| - 1]])
  }

  lemma {:induction false} AddAllSnoc<T>(acc: seq<T>, xs: seq<T>, x: T)
    ensures AddAll(acc, xs + [x]) == (var r := AddAll(acc, xs); if x in r then r else r + [x])
    decreases |xs|
  {
    if xs == [] {
      assert xs + [x] == [x];
    } else {
      assert (xs + [x])[1..] == xs[1..] + [x];
      AddAllSnoc(if xs[0] in acc then acc else acc + [xs[0]], xs[1..], x);
    }
  }

  lemma {:induction false} AddAllElems<T>(acc: seq<T>, xs: seq<T>, x: T)
    ensures x in AddAll(acc, xs) <==> x in acc || x in xs
    decreases |xs|
  {
    if xs != [] {
      AddAllElems(if xs[0] in acc then acc else acc + [xs[0]], xs[1..], x);
      assert xs == [xs[0]] + xs[1..];
    }
  }

  lemma {:induction false} AddAllNoDups<T>(acc: seq<T>, xs: seq<T>)
    requires NoDups(acc)
    ensures NoDups(AddAll(acc, xs))
    decreases |xs|
  {
    if xs != [] {
      AddAllNoDups(if xs[0] in acc then acc else acc + [xs[0]], xs[1..]);
    }
  }

  lemma {:induction false} AddAllPrefix<T>(acc: seq<T>, xs: seq<T>)
    ensures |acc| <= |AddAll(acc, xs)| && AddAll(acc, xs)[..|acc|] == acc
    decreases |xs|
  {
    if xs != [] {
      var acc' := if xs[0] in acc then acc else acc + [xs[0]];
      AddAllPrefix(acc', xs[1..]);
      assert acc'[..|acc|] == acc;
    }
  }

  /** Adding two lists in turn is adding their concatenation. */
  lemma {:induction false} AddAllAppend<T>(acc: seq<T>, xs: seq<T>, ys: seq<T>)
    ensures AddAll(AddAll(acc, xs), ys) == AddAll(acc, xs + ys)
    decreases |xs|
  {
    if xs == [] {
      assert xs + ys == ys;
    } else {
      assert (xs + ys)[1..] == xs[1..] + ys;
      AddAllAppend(if xs[0] in acc then acc else acc + [xs[0]], xs[1..], ys);
    }
  }

  /** `Dedup` agrees with the first-occurrence reference definition. */
  lemma {:induction false} DedupIsFirstOccurrences<T>(xs: seq<T>)
    ensures Dedup(xs) == FirstOccurrences(xs)
    decreases |xs|
  {
    if xs != [] {
      var init, x := xs[..|xs| - 1], xs[|xs| - 1];
      assert init + [x] == xs;
      DedupIsFirstOccurrences(init);
      AddAllSnoc([], init, x);
      AddAllElems([], init, x);
    }
  }

  /** `Dedup` keeps exactly the elements of `xs`, each once. */
  lemma DedupSpec<T>(xs: seq<T>)
    ensures NoDups(Dedup(xs))
    ensures forall x :: x in Dedup(xs) <==> x in xs
  {
    AddAllNoDups([], xs);
    forall x ensures x in Dedup(xs) <==> x in xs {
      AddAllElems([], xs, x);
    }
  }

  /** A list without duplicates is its own `Dedup`. */
  lemma {:induction false} DedupNoDups<T>(xs: seq<T>)
    requires NoDups(xs)
    ensures Dedup(xs) == xs
    decreases |xs|
  {
    if xs != [] {
      var init, x := xs[..|xs| - 1], xs[|xs| - 1];
      assert init + [x] == xs;
      DedupNoDups(init);
      AddAllSnoc([], init, x);
    }
  }

  /** The concatenation of a list of lists. */
  function Flatten<T>(xss: seq<seq<T>>): seq<T>
    decreases |xss|
  {
    if xss == [] then [] else xss[0] + Flatten(xss[1..])
  }

  lemma {:induction false} FlattenSnoc<T>(xss: seq<seq<T>>, ys: seq<T>)
    ensures Flatten(xss + [ys]) == Flatten(xss) + ys
    decreases |xss|
  {
    if xss == [] {
      assert [] + [ys] == [ys];
    } else {
      assert (xss + [ys])[1..] == xss[1..] + [ys];
      FlattenSnoc(xss[1..], ys);
    }
  }

  // ---- map and filter ------------------------------------------------------

  /** `xs.map(f)` */
  function Map<T, U>(f: T -> U, xs: seq<T>): (r: seq<U>)
    ensures |r| == |xs| && forall k :: 0 <= k < |xs| ==> r[k] == f(xs[k])
    decreases |xs|
  {
    if xs == [] then [] else [f(xs[0])] + Map(f, xs[1..])
  }

  /** Mapping a function that fixes every element changes nothing. */
  lemma MapFixed<T>(f: T -> T, xs: seq<T>)
    requires forall k :: 0 <= k < |xs| ==> f(xs[k]) == xs[k]
    ensures Map(f, xs) == xs
  {
  }

  /** Mapping distributes over appending one element. */
  lemma {:induction false} MapSnoc<T, U>(f: T -> U, xs: seq<T>, x: T)
    ensures Map(f, xs + [x]) == Map(f, xs) + [f(x)]
  {
  }

  /** `xs.filter(p)`, order kept. */
  function Filter<T(==)>(p: T -> bool, xs: seq<T>): (r: seq<T>)
    ensures |r| <= |xs|
    ensures forall k :: 0 <= k < |r| ==> r[k] in xs && p(r[k])
    ensures forall k :: 0 <= k < |xs| && p(xs[k]) ==> xs[k] in r
    decreases |xs|
  {
    if xs == [] then []
    else if p(xs[0]) then [xs[0]] + Filter(p, xs[1..])
    else Filter(p, xs[1..])
  }

  /** Filtering distributes over concatenation, so the order of the kept elements is the input's. */
  lemma {:induction false} FilterAppend<T>(p: T -> bool, xs: seq<T>, ys: seq<T>)
    ensures Filter(p, xs + ys) == Filter(p, xs) + Filter(p, ys)
    decreases |xs|
  {
    if xs != [] {
      assert (xs + ys)[0] == xs[0];
      assert (xs + ys)[1..] == xs[1..] + ys;
      FilterAppend(p, xs[1..], ys);
    } else {
      assert xs + ys == ys;
    }
  }

  /** An element of the input is kept iff it satisfies the predicate. */
  lemma FilterMember<T>(p: T -> bool, xs: seq<T>, x: T)
    requires x in xs
    ensures x in Filter(p, xs) <==> p(x)
  {
    var r := Filter(p, xs);
    if x in r {
      var k :| 0 <= k < |r| && r[k] == x;
    } else {
      var i :| 0 <= i < |xs| && xs[i] == x;
    }
  }

  /** The conjunction of two predicates. */
  function Both<T>(p: T -> bool, q: T -> bool): T -> bool {
    (x: T) => p(x) && q(x)
  }

  /** Filtering twice keeps the elements that satisfy both predicates, in order. */
  lemma {:induction false} FilterFilter<T>(p: T -> bool, q: T -> bool, xs: seq<T>)
    ensures Filter(q, Filter(p, xs)) == Filter(Both(p, q), xs)
    decreases |xs|
  {
    if xs != [] {
      FilterFilter(p, q, xs[1..]);
      if p(xs[0]) {
        var f := Filter(p, xs);
        assert f[0] == xs[0] && f[1..] == Filter(p, xs[1..]);
      }
    }
  }

  /** A predicate every element satisfies keeps the whole input. */
  lemma {:induction false} FilterAll<T>(p: T -> bool, xs: seq<T>)
    requires forall k :: 0 <= k < |xs| ==> p(xs[k])
    ensures Filter(p, xs) == xs
    decreases |xs|
  {
    if xs != [] {
      FilterAll(p, xs[1..]);
    }
  }

  // ---- first match ---------------------------------------------------------

  /** `f` of the first element that satisfies `p`, if any. */
  function FirstWhere<T, U>(xs: seq<T>, p: T -> bool, f: T -> U): Option<U>
    decreases |xs|
  {
    if xs == [] then None
    else if p(xs[0]) then Some(f(xs[0]))
    else FirstWhere(xs[1..], p, f)
  }

  /** Element `i` is the first that satisfies `p`. */
  predicate FirstAt<T>(xs: seq<T>, p: T -> bool, i: nat)
    requires i < |xs|
  {
    p(xs[i]) && forall j :: 0 <= j < i ==> !p(xs[j])
  }

  /** Nothing is found exactly when no element satisfies `p`. */
  lemma {:induction false} FirstWhereNone<T, U>(xs: seq<T>, p: T -> bool, f: T -> U)
    ensures FirstWhere(xs, p, f).None? <==> forall i :: 0 <= i < |xs| ==> !p(xs[i])
    decreases |xs|
  {
    if xs != [] && !p(xs[0]) {
      FirstWhereNone(xs[1..], p, f);
      assert forall i :: 1 <= i < |xs| ==> xs[i] == xs[1..][i - 1];
    }
  }

  /** What is found is `f` of the first element that satisfies `p`. */
  lemma {:induction false} FirstWhereSome<T, U>(xs: seq<T>, p: T -> bool, f: T -> U)
    requires FirstWhere(xs, p, f).Some?
    ensures exists i :: 0 <= i < |xs| && FirstAt(xs, p, i) && FirstWhere(xs, p, f).value == f(xs[i])
    decreases |xs|
  {
    if p(xs[0]) {
      assert FirstAt(xs, p, 0);
    } else {
      var rest := xs[1..];
      FirstWhereSome(rest, p, f);
      var i :| 0 <= i < |rest| && FirstAt(rest, p, i) && FirstWhere(rest, p, f).value == f(rest[i]);
      assert forall j :: 1 <= j <= i + 1 ==> xs[j] == rest[j - 1];
      assert FirstAt(xs, p, i + 1);
    }
  }

  /** The position of the first element that satisfies `p` (`findIndex`, or `findOne` in natural order). */
  function FirstIndex<T>(xs: seq<T>, p: T -> bool): (r: Option<nat>)
    ensures r.None? <==> forall i :: 0 <= i < |xs| ==> !p(xs[i])
    ensures r.Some? ==> r.value < |xs| && FirstAt(xs, p, r.value)
    decreases |xs|
  {
    if xs == [] then None
    else if p(xs[0]) then Some(0)
    else
      var rest := FirstIndex(xs[1..], p);
      assert forall i :: 1 <= i < |xs| ==> xs[i] == xs[1..][i - 1];
      if rest.None? then None else Some(rest.value + 1)
  }

  // ---- a loop that stops at the first error ------------------------------

  /** `for (x of xs) s = step(s, x)` where a step may throw: the first error ends the loop. */
  function FoldResult<S, T, E>(step: (S, T) -> Result<S, E>, s: S, xs: seq<T>): Result<S, E>
    decreases |xs|
  {
    if xs == [] then Ok(s)
    else match FoldResult(step, s, xs[..|xs| - 1])
      case Err(e) => Err(e)
      case Ok(s1) => step(s1, xs[|xs| - 1])
  }

  /** The loop fails at element `i`: the elements before it succeed and it fails. */
  ghost predicate FailsAt<S, T, E>(step: (S, T) -> Result<S, E>, s: S, xs: seq<T>, i: int) {
    0 <= i < |xs| && FoldResult(step, s, xs[..i]).Ok? && step(FoldResult(step, s, xs[..i]).value, xs[i]).Err?
  }

  /** Elements after a failing prefix have no effect. */
  lemma {:induction false} ErrorAbortsRest<S, T, E>(step: (S, T) -> Result<S, E>, s: S, xs: seq<T>, rest: seq<T>)
    requires FoldResult(step, s, xs).Err?
    ensures FoldResult(step, s, xs + rest) == FoldResult(step, s, xs)
    decreases |rest|
  {
    if rest != [] {
      var init := rest[..|rest| - 1];
      ErrorAbortsRest(step, s, xs, init);
      var all := xs + rest;
      assert all != [] && all[..|all| - 1] == xs + init;
    } else {
      assert xs + rest == xs;
    }
  }

  /** The failure of an element after successful ones is the result of the loop. */
  lemma FailureEndsLoop<S, T, E>(step: (S, T) -> Result<S, E>, s: S, xs: seq<T>, i: int)
    requires FailsAt(step, s, xs, i)
    ensures FoldResult(step, s, xs) == step(FoldResult(step, s, xs[..i]).value, xs[i])
  {
    var pre, rest := xs[..i + 1], xs[i + 1..];
    assert pre[..|pre| - 1] == xs[..i] && pre[|pre| - 1] == xs[i];
    ErrorAbortsRest(step, s, pre, rest);
    assert pre + rest == xs;
  }

  /** Whether the loop fails at an earlier element does not depend on the last one. */
  lemma FailsAtPrefix<S, T, E>(step: (S, T) -> Result<S, E>, s: S, xs: seq<T>, i: int)
    requires 0 <= i < |xs| - 1
    ensures FailsAt(step, s, xs, i) == FailsAt(step, s, xs[..|xs| - 1], i)
  {
    assert xs[..|xs| - 1][..i] == xs[..i];
  }

  /** A failed loop has an element where it failed. */
  lemma {:induction false} FailsSomewhere<S, T, E>(step: (S, T) -> Result<S, E>, s: S, xs: seq<T>)
    requires FoldResult(step, s, xs).Err?
    ensures exists i :: FailsAt(step, s, xs, i)
    decreases |xs|
  {
    var init := xs[..|xs| - 1];
    if FoldResult(step, s, init).Err? {
      FailsSomewhere(step, s, init);
      var i :| FailsAt(step, s, init, i);
      FailsAtPrefix(step, s, xs, i);
    } else {
      assert FailsAt(step, s, xs, |init|);
    }
  }

  /**
   * The loop fails exactly when some element fails after the elements before
   * it succeeded, and its result is that element's failure.
   */
  lemma FailsAtFirstFailure<S, T, E>(step: (S, T) -> Result<S, E>, s: S, xs: seq<T>)
    ensures FoldResult(step, s, xs).Err? <==> exists i :: FailsAt(step, s, xs, i)
    ensures forall i :: FailsAt(step, s, xs, i) ==>
      FoldResult(step, s, xs) == step(FoldResult(step, s, xs[..i]).value, xs[i])
  {
    if FoldResult(step, s, xs).Err? {
      FailsSomewhere(step, s, xs);
    }
    forall i | FailsAt(step, s, xs, i)
      ensures FoldResult(step, s, xs) == step(FoldResult(step, s, xs[..i]).value, xs[i])
    {
      FailureEndsLoop(step, s, xs, i);
    }
  }

  // ---- sorting -------------------------------------------------------------

  /** `le` is a total preorder: what `Array.prototype.sort` needs of a comparator. */
  ghost predicate TotalPreorder<T(!new)>(le: (T, T) -> bool) {
    (forall a, b :: le(a, b) || le(b, a)) &&
    (forall a, b, c :: le(a, b) && le(b, c) ==> le(a, c))
  }

  predicate Sorted<T>(s: seq<T>, le: (T, T) -> bool) {
    forall i, j :: 0 <= i < j < |s| ==> le(s[i], s[j])
  }

  function Insert<T>(x: T, s: seq<T>, le: (T, T) -> bool): seq<T>
    decreases |s|
  {
    if s == [] || le(x, s[0]) then [x] + s else [s[0]] + Insert(x, s[1..], le)
  }

  /** Stable insertion sort: the order `Array.prototype.sort` establishes. */
  function Sort<T>(s: seq<T>, le: (T, T) -> bool): seq<T>
    decreases |s|
  {
    if s == [] then [] else Insert(s[0], Sort(s[1..], le), le)
  }

  lemma {:induction false} InsertSpec<T(!new)>(x: T, s: seq<T>, le: (T, T) -> bool)
    requires TotalPreorder(le) && Sorted(s, le)
    ensures Sorted(Insert(x, s, le), le)
    ensures multiset(Insert(x, s, le)) == multiset(s) + multiset{x}
  {
    InsertSorted(x, s, le);
    InsertPermutes(x, s, le);
  }

  /** Inserting adds exactly `x` to the elements. */
  lemma {:induction false} InsertPermutes<T>(x: T, s: seq<T>, le: (T, T) -> bool)
    ensures multiset(Insert(x, s, le)) == multiset(s) + multiset{x}
    decreases |s|
  {
    if s != [] && !le(x, s[0]) {
      InsertPermutes(x, s[1..], le);
      assert s == [s[0]] + s[1..];
    }
  }

  /** Every element of the insertion is `x` or an element of `s`. */
  lemma {:induction false} InsertMembers<T>(x: T, s: seq<T>, le: (T, T) -> bool)
    ensures forall y :: y in Insert(x, s, le) ==> y == x || y in s
    decreases |s|
  {
    if s != [] && !le(x, s[0]) {
      InsertMembers(x, s[1..], le);
    }
  }

  /** Inserting into a sorted list keeps it sorted. */
  lemma {:induction false} InsertSorted<T(!new)>(x: T, s: seq<T>, le: (T, T) -> bool)
    requires TotalPreorder(le) && Sorted(s, le)
    ensures Sorted(Insert(x, s, le), le)
    decreases |s|
  {
    if s != [] && !le(x, s[0]) {
      InsertSorted(x, s[1..], le);
      InsertMembers(x, s[1..], le);
      var r := Insert(x, s[1..], le);
      forall k | 0 <= k < |r| ensures le(s[0], r[k]) {
        assert r[k] in r;
        if r[k] != x {
          var j :| 0 <= j < |s[1..]| && s[1..][j] == r[k];
          assert s[j + 1] == r[k];
        }
      }
      assert Insert(x, s, le) == [s[0]] + r;
    }
  }

  /** The result of `Sort` is ordered and a permutation of the input. */
  lemma {:induction false} SortSpec<T(!new)>(s: seq<T>, le: (T, T) -> bool)
    requires TotalPreorder(le)
    ensures Sorted(Sort(s, le), le)
    ensures multiset(Sort(s, le)) == multiset(s)
    decreases |s|
  {
    if s != [] {
      SortSpec(s[1..], le);
      InsertSpec(s[0], Sort(s[1..], le), le);
      assert s == [s[0]] + s[1..];
    }
  }

  /** In a list without duplicates every element occurs once. */
  lemma {:induction false} NoDupsCount<T>(s: seq<T>, x: T)
    requires NoDups(s)
    ensures multiset(s)[x] <= 1
    decreases |s|
  {
    if s != [] {
      assert s == [s[0]] + s[1..];
      NoDupsCount(s[1..], x);
    }
  }

  /** Reordering keeps a list free of duplicates. */
  lemma PermutationNoDups<T>(a: seq<T>, b: seq<T>)
    requires NoDups(a) && multiset(a) == multiset(b)
    ensures NoDups(b)
  {
    forall i, j | 0 <= i < j < |b|
      ensures b[i] != b[j]
    {
      if b[i] == b[j] {
        var x := b[i];
        assert b == b[..i] + [x] + b[i + 1..j] + [x] + b[j + 1..];
        assert multiset(b)[x] >= 2;
        NoDupsCount(a, x);
      }
    }
  }

  /**
   * `[...new Set(xs)].sort()`: the distinct elements in order. Under a total
   * order the result is strictly increasing and holds exactly the elements of `xs`.
   */
  function SortedDistinct<T(==)>(xs: seq<T>, le: (T, T) -> bool): seq<T> {
    Sort(Dedup(xs), le)
  }

  lemma SortedDistinctSpec<T(!new)>(xs: seq<T>, le: (T, T) -> bool)
    requires TotalPreorder(le)
    ensures Sorted(SortedDistinct(xs, le), le)
    ensures NoDups(SortedDistinct(xs, le))
    ensures forall x :: x in SortedDistinct(xs, le) <==> x in xs
  {
    DedupSpec(xs);
    SortSpec(Dedup(xs), le);
    PermutationNoDups(Dedup(xs), SortedDistinct(xs, le));
    forall x ensures x in SortedDistinct(xs, le) <==> x in xs {
      assert x in SortedDistinct(xs, le) <==> x in multiset(SortedDistinct(xs, le));
      assert x in Dedup(xs) <==> x in multiset(Dedup(xs));
    }
  }
}
