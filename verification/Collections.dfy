/** Sequence vocabulary shared by every module: maps, filters, sums and insertion-ordered grouping.
    JavaScript's `Map` remembers insertion order, so a map the source iterates is modelled here by the
    sequence of its keys in first-occurrence order together with the members of each key. */
module Collections {

  datatype Option<+T> = None | Some(value: T) {
    function GetOr(default: T): T {
      if Some? then value else default
    }
  }

  datatype Result<+T, +E> = Ok(value: T) | Err(error: E)

  ghost predicate NoDuplicates<T>(xs: seq<T>) {
    forall i, j :: 0 <= i < j < |xs| ==> xs[i] != xs[j]
  }

  function Abs(x: int): (r: nat)
    ensures r == x || r == -x
  {
    if x < 0 then -x else x
  }

  function Min(x: int, y: int): int { if x <= y then x else y }

  const WHITESPACE := {' ', '\t', '\n', '\r'}

  /** Nothing but spaces: what the source's `!value.trim()` tests. */
  predicate Blank(s: string) {
    forall c :: c in s ==> c in WHITESPACE
  }

  // ---------------------------------------------------------------- map and filter

  function Map<T, U>(xs: seq<T>, f: T -> U): (ys: seq<U>)
    ensures |ys| == |xs|
    ensures forall i :: 0 <= i < |xs| ==> ys[i] == f(xs[i])
  {
    seq(|xs|, i requires 0 <= i < |xs| => f(xs[i]))
  }

  function Keep<T(!new)>(xs: seq<T>, p: T -> bool): (ys: seq<T>)
    ensures |ys| <= |xs|
  {
    if xs == [] then []
    else
      var rest := Keep(xs[..|xs| - 1], p);
      if p(xs[|xs| - 1]) then rest + [xs[|xs| - 1]] else rest
  }

  lemma {:induction false} KeepExact<T(!new)>(xs: seq<T>, p: T -> bool)
    ensures forall x :: x in Keep(xs, p) <==> x in xs && p(x)
  {
    if xs != [] {
      KeepExact(xs[..|xs| - 1], p);
      assert xs == xs[..|xs| - 1] + [xs[|xs| - 1]];
    }
  }

  lemma MapSnoc<T, U>(xs: seq<T>, x: T, f: T -> U)
    ensures Map(xs + [x], f) == Map(xs, f) + [f(x)]
  {
  }

  lemma KeepSnoc<T(!new)>(xs: seq<T>, x: T, p: T -> bool)
    ensures Keep(xs + [x], p) == if p(x) then Keep(xs, p) + [x] else Keep(xs, p)
  {
    assert (xs + [x])[..|xs|] == xs;
  }

  lemma MapIn<T, U>(xs: seq<T>, x: T, f: T -> U)
    requires x in xs
    ensures f(x) in Map(xs, f)
  {
    var i :| 0 <= i < |xs| && xs[i] == x;
    assert Map(xs, f)[i] == f(x);
  }

  lemma {:induction false} KeepConcat<T(!new)>(xs: seq<T>, ys: seq<T>, p: T -> bool)
    ensures Keep(xs + ys, p) == Keep(xs, p) + Keep(ys, p)
  {
    if ys == [] {
      assert xs + ys == xs;
    } else {
      var init, last := ys[..|ys| - 1], ys[|ys| - 1];
      assert xs + ys == (xs + init) + [last];
      KeepSnoc(xs + init, last, p);
      KeepConcat(xs, init, p);
    }
  }

  /** Two predicates that agree on the elements keep the same elements. */
  lemma {:induction false} KeepCongruence<T(!new)>(xs: seq<T>, p: T -> bool, q: T -> bool)
    requires forall x :: x in xs ==> p(x) == q(x)
    ensures Keep(xs, p) == Keep(xs, q)
  {
    if xs != [] {
      KeepCongruence(xs[..|xs| - 1], p, q);
    }
  }

  lemma {:induction false} KeepNothing<T(!new)>(xs: seq<T>, p: T -> bool)
    ensures Keep(xs, p) == [] <==> forall x :: x in xs ==> !p(x)
  {
    if xs != [] {
      KeepNothing(xs[..|xs| - 1], p);
      assert xs == xs[..|xs| - 1] + [xs[|xs| - 1]];
    }
  }

  /** Filtering twice is filtering by both. */
  lemma {:induction false} KeepTwice<T(!new)>(xs: seq<T>, p: T -> bool, q: T -> bool, both: T -> bool)
    requires forall x :: x in xs ==> both(x) == (p(x) && q(x))
    ensures Keep(Keep(xs, p), q) == Keep(xs, both)
  {
    if xs != [] {
      var init, last := xs[..|xs| - 1], xs[|xs| - 1];
      KeepTwice(init, p, q, both);
      KeepSnoc(Keep(init, p), last, q);
    }
  }

  lemma {:induction false} KeepAll<T(!new)>(xs: seq<T>, p: T -> bool)
    requires forall x :: x in xs ==> p(x)
    ensures Keep(xs, p) == xs
  {
    if xs != [] {
      KeepAll(xs[..|xs| - 1], p);
      assert xs == xs[..|xs| - 1] + [xs[|xs| - 1]];
    }
  }

  /** Removing the one element that fails the predicate closes the gap. */
  lemma {:induction false} KeepAround<T(!new)>(xs: seq<T>, x: T, ys: seq<T>, p: T -> bool)
    requires (forall y :: y in xs ==> p(y)) && !p(x) && (forall y :: y in ys ==> p(y))
    ensures Keep(xs + ([x] + ys), p) == xs + ys
  {
    if ys == [] {
      assert xs + ([x] + ys) == xs + [x];
      KeepSnoc(xs, x, p);
      KeepAll(xs, p);
    } else {
      var init, last := ys[..|ys| - 1], ys[|ys| - 1];
      assert xs + ([x] + ys) == (xs + ([x] + init)) + [last];
      KeepSnoc(xs + ([x] + init), last, p);
      KeepAround(xs, x, init, p);
    }
  }

  /** A filter and its complement split the elements. */
  lemma {:induction false} KeepSplits<T(!new)>(xs: seq<T>, p: T -> bool, q: T -> bool)
    requires forall x :: x in xs ==> p(x) != q(x)
    ensures multiset(Keep(xs, p)) + multiset(Keep(xs, q)) == multiset(xs)
  {
    if xs != [] {
      var init, last := xs[..|xs| - 1], xs[|xs| - 1];
      assert xs == init + [last];
      KeepSplits(init, p, q);
      if p(last) {
        assert Keep(xs, p) == Keep(init, p) + [last] && Keep(xs, q) == Keep(init, q);
      } else {
        assert Keep(xs, q) == Keep(init, q) + [last] && Keep(xs, p) == Keep(init, p);
      }
    }
  }

  lemma MapConcat<T, U>(xs: seq<T>, ys: seq<T>, f: T -> U)
    ensures Map(xs + ys, f) == Map(xs, f) + Map(ys, f)
  {
  }

  /** Mapping respects the reordering of its argument. */
  lemma {:induction false} MapPermutation<T, U>(xs: seq<T>, ys: seq<T>, f: T -> U)
    requires multiset(xs) == multiset(ys)
    ensures multiset(Map(xs, f)) == multiset(Map(ys, f))
  {
    if xs == [] {
      assert |multiset(ys)| == 0;
    } else {
      var j := IndexOf(xs, ys);
      MapPermutation(xs[..|xs| - 1], ys[..j] + ys[j + 1..], f);
      MapRemove(ys, j, f);
      assert Map(xs, f) == Map(xs[..|xs| - 1], f) + [f(xs[|xs| - 1])];
    }
  }

  lemma MapRemove<T, U>(ys: seq<T>, j: nat, f: T -> U)
    requires j < |ys|
    ensures multiset(Map(ys, f)) == multiset(Map(ys[..j] + ys[j + 1..], f)) + multiset{f(ys[j])}
  {
    var front, back := Map(ys[..j], f), Map(ys[j + 1..], f);
    assert Map(ys[..j] + ys[j + 1..], f) == front + back;
    assert Map(ys, f) == front + [f(ys[j])] + back;
  }

  /** Where the last element of `xs` sits in a reordering of it; removing both keeps the reordering. */
  lemma IndexOf<T>(xs: seq<T>, ys: seq<T>) returns (j: nat)
    requires xs != [] && multiset(xs) == multiset(ys)
    ensures j < |ys| && ys[j] == xs[|xs| - 1]
    ensures multiset(xs[..|xs| - 1]) == multiset(ys[..j] + ys[j + 1..])
  {
    var last := xs[|xs| - 1];
    assert xs == xs[..|xs| - 1] + [last];
    assert last in multiset(xs);
    assert last in ys;
    j :| 0 <= j < |ys| && ys[j] == last;
    assert ys == ys[..j] + [last] + ys[j + 1..];
    assert multiset(ys[..j] + [last] + ys[j + 1..]) == multiset(ys[..j]) + multiset{last} + multiset(ys[j + 1..]);
    assert multiset(ys[..j] + ys[j + 1..]) == multiset(ys[..j]) + multiset(ys[j + 1..]);
    assert multiset(xs) == multiset(xs[..|xs| - 1]) + multiset{last};
    assert multiset(xs[..|xs| - 1]) == multiset(xs) - multiset{last};
    assert multiset(ys[..j] + ys[j + 1..]) == multiset(ys) - multiset{last};
  }

  lemma {:induction false} DistinctMeansOnce<T>(xs: seq<T>, x: T)
    requires NoDuplicates(xs)
    ensures multiset(xs)[x] <= 1
  {
    if xs != [] {
      assert xs == xs[..|xs| - 1] + [xs[|xs| - 1]];
      DistinctMeansOnce(xs[..|xs| - 1], x);
    }
  }

  lemma DistinctConcat<T(!new)>(xs: seq<T>, ys: seq<T>)
    ensures NoDuplicates(xs + ys) <==> NoDuplicates(xs) && NoDuplicates(ys) && forall x :: x in xs ==> x !in ys
  {
    var zs := xs + ys;
    assert (forall i :: 0 <= i < |xs| ==> zs[i] == xs[i]) && (forall i :: |xs| <= i < |zs| ==> zs[i] == ys[i - |xs|]);
    if NoDuplicates(zs) {
      forall i, j | 0 <= i < j < |ys| ensures ys[i] != ys[j] {
        assert zs[|xs| + i] != zs[|xs| + j];
      }
      forall i, j | 0 <= i < |xs| && 0 <= j < |ys| ensures xs[i] != ys[j] {
        assert zs[i] != zs[|xs| + j];
      }
    }
    if NoDuplicates(xs) && NoDuplicates(ys) && forall x :: x in xs ==> x !in ys {
      forall i, j | 0 <= i < j < |zs| ensures zs[i] != zs[j] {
        if i < |xs| <= j {
          assert xs[i] in xs;
        }
      }
    }
  }

  lemma RemoveAt<T>(xs: seq<T>, j: nat)
    requires j < |xs|
    ensures multiset(xs[..j] + xs[j + 1..]) + multiset{xs[j]} == multiset(xs)
  {
    assert xs == xs[..j] + [xs[j]] + xs[j + 1..];
  }

  function Flatten<T(!new)>(xss: seq<seq<T>>): seq<T> {
    if xss == [] then [] else Flatten(xss[..|xss| - 1]) + xss[|xss| - 1]
  }

  lemma FlattenSnoc<T(!new)>(xss: seq<seq<T>>, ys: seq<T>)
    ensures Flatten(xss + [ys]) == Flatten(xss) + ys
  {
    assert (xss + [ys])[..|xss|] == xss;
  }

  /** `xs.map(f)` where `f` may throw: the first refusal refuses the whole. */
  function Collect<T, R, E>(xs: seq<T>, f: T -> Result<R, E>): Result<seq<R>, E> {
    if xs == [] then Ok([])
    else
      match Collect(xs[..|xs| - 1], f)
      case Err(e) => Err(e)
      case Ok(rs) =>
        match f(xs[|xs| - 1])
        case Err(e) => Err(e)
        case Ok(r) => Ok(rs + [r])
  }

  lemma {:induction false} CollectExactly<T, R, E>(xs: seq<T>, f: T -> Result<R, E>)
    ensures Collect(xs, f).Ok? <==> forall x :: x in xs ==> f(x).Ok?
    ensures Collect(xs, f).Ok? ==> |Collect(xs, f).value| == |xs|
    ensures Collect(xs, f).Ok? ==> forall i :: 0 <= i < |xs| ==> f(xs[i]) == Ok(Collect(xs, f).value[i])
  {
    if xs != [] {
      var init, last := xs[..|xs| - 1], xs[|xs| - 1];
      CollectExactly(init, f);
      assert xs == init + [last];
    }
  }

  lemma CollectKeys<T, R, E, K>(xs: seq<T>, f: T -> Result<R, E>, key: R -> K, want: T -> K)
    requires Collect(xs, f).Ok? && forall x :: x in xs && f(x).Ok? ==> key(f(x).value) == want(x)
    ensures Map(Collect(xs, f).value, key) == Map(xs, want)
  {
    CollectExactly(xs, f);
    forall i | 0 <= i < |xs| ensures key(Collect(xs, f).value[i]) == want(xs[i]) {
      assert xs[i] in xs && f(xs[i]) == Ok(Collect(xs, f).value[i]);
    }
  }

  lemma CollectSnoc<T, R, E>(xs: seq<T>, i: nat, f: T -> Result<R, E>)
    requires i < |xs|
    ensures Collect(xs[..i + 1], f) ==
      if Collect(xs[..i], f).Err? then Collect(xs[..i], f)
      else match f(xs[i]) { case Err(e) => Err(e) case Ok(r) => Ok(Collect(xs[..i], f).value + [r]) }
  {
    assert xs[..i + 1][..i] == xs[..i];
  }

  lemma {:induction false} CollectStays<T, R, E>(xs: seq<T>, i: nat, f: T -> Result<R, E>)
    requires i <= |xs| && Collect(xs[..i], f).Err?
    ensures Collect(xs, f) == Collect(xs[..i], f)
    decreases |xs| - i
  {
    if i < |xs| {
      CollectSnoc(xs, i, f);
      CollectStays(xs, i + 1, f);
    } else {
      assert xs[..i] == xs;
    }
  }

  /** What the first element that fails a check fails with. */
  function FirstOf<T, E>(xs: seq<T>, check: T -> Option<E>): Option<E> {
    if xs == [] then None
    else
      var before := FirstOf(xs[..|xs| - 1], check);
      if before.Some? then before else check(xs[|xs| - 1])
  }

  lemma FirstOfSnoc<T, E>(xs: seq<T>, i: nat, check: T -> Option<E>)
    requires i < |xs|
    ensures FirstOf(xs[..i + 1], check) == if FirstOf(xs[..i], check).Some? then FirstOf(xs[..i], check)
      else check(xs[i])
  {
    assert xs[..i + 1][..i] == xs[..i];
  }

  lemma {:induction false} FirstOfStays<T, E>(xs: seq<T>, i: nat, check: T -> Option<E>)
    requires i <= |xs| && FirstOf(xs[..i], check).Some?
    ensures FirstOf(xs, check) == FirstOf(xs[..i], check)
    decreases |xs| - i
  {
    if i < |xs| {
      FirstOfSnoc(xs, i, check);
      FirstOfStays(xs, i + 1, check);
    } else {
      assert xs[..i] == xs;
    }
  }

  lemma {:induction false} FirstOfNone<T, E>(xs: seq<T>, check: T -> Option<E>)
    ensures FirstOf(xs, check).None? <==> forall x :: x in xs ==> check(x).None?
  {
    if xs != [] {
      FirstOfNone(xs[..|xs| - 1], check);
      assert xs == xs[..|xs| - 1] + [xs[|xs| - 1]];
    }
  }

  ghost predicate FirstFailing<T, E>(xs: seq<T>, check: T -> Option<E>, i: nat, e: E) {
    i < |xs| && check(xs[i]) == Some(e) && forall j :: 0 <= j < i ==> check(xs[j]).None?
  }

  lemma {:induction false} FirstOfFails<T, E>(xs: seq<T>, check: T -> Option<E>) returns (i: nat)
    requires FirstOf(xs, check).Some?
    ensures FirstFailing(xs, check, i, FirstOf(xs, check).value)
  {
    var init := xs[..|xs| - 1];
    if FirstOf(init, check).Some? {
      i := FirstOfFails(init, check);
    } else {
      FirstOfNone(init, check);
      i := |init|;
      forall j | 0 <= j < i ensures check(xs[j]).None? {
        assert init[j] in init;
      }
    }
  }

  // ---------------------------------------------------------------- sums

  function SumBy<T>(xs: seq<T>, w: T -> int): int {
    if xs == [] then 0 else SumBy(xs[..|xs| - 1], w) + w(xs[|xs| - 1])
  }

  lemma SumSnoc<T>(xs: seq<T>, x: T, w: T -> int)
    ensures SumBy(xs + [x], w) == SumBy(xs, w) + w(x)
  {
    assert (xs + [x])[..|xs|] == xs;
  }

  lemma SumOfOne<T>(x: T, w: T -> int)
    ensures SumBy([x], w) == w(x)
  {
    assert [x] == [] + [x];
    SumSnoc([], x, w);
  }

  lemma {:induction false} SumConcat<T>(xs: seq<T>, ys: seq<T>, w: T -> int)
    ensures SumBy(xs + ys, w) == SumBy(xs, w) + SumBy(ys, w)
  {
    if ys == [] {
      assert xs + ys == xs;
    } else {
      var init, last := ys[..|ys| - 1], ys[|ys| - 1];
      assert xs + ys == (xs + init) + [last];
      SumSnoc(xs + init, last, w);
      SumConcat(xs, init, w);
    }
  }

  lemma {:induction false} SumCongruence<T>(xs: seq<T>, v: T -> int, w: T -> int)
    requires forall x :: x in xs ==> v(x) == w(x)
    ensures SumBy(xs, v) == SumBy(xs, w)
  {
    if xs != [] {
      SumCongruence(xs[..|xs| - 1], v, w);
    }
  }

  lemma {:induction false} SumLinear<T>(xs: seq<T>, u: T -> int, v: T -> int, w: T -> int)
    requires forall x :: x in xs ==> w(x) == u(x) + v(x)
    ensures SumBy(xs, w) == SumBy(xs, u) + SumBy(xs, v)
  {
    if xs != [] {
      SumLinear(xs[..|xs| - 1], u, v, w);
    }
  }

  lemma {:induction false} SumOfMap<T, U>(xs: seq<T>, f: T -> U, w: U -> int, v: T -> int)
    requires forall x :: x in xs ==> w(f(x)) == v(x)
    ensures SumBy(Map(xs, f), w) == SumBy(xs, v)
  {
    if xs != [] {
      var ys := Map(xs, f);
      assert ys[..|ys| - 1] == Map(xs[..|xs| - 1], f);
      SumOfMap(xs[..|xs| - 1], f, w, v);
    }
  }

  lemma {:induction false} SumPointwise<T, U>(xs: seq<T>, ys: seq<U>, v: T -> int, w: U -> int)
    requires |xs| == |ys|
    requires forall i :: 0 <= i < |xs| ==> v(xs[i]) == w(ys[i])
    ensures SumBy(xs, v) == SumBy(ys, w)
  {
    if xs != [] {
      SumPointwise(xs[..|xs| - 1], ys[..|ys| - 1], v, w);
    }
  }

  lemma {:induction false} SumPermutation<T>(xs: seq<T>, ys: seq<T>, w: T -> int)
    requires multiset(xs) == multiset(ys)
    ensures SumBy(xs, w) == SumBy(ys, w)
  {
    if xs == [] {
      assert |multiset(ys)| == 0;
    } else {
      var j := IndexOf(xs, ys);
      var front, back := ys[..j], ys[j + 1..];
      assert ys == front + [ys[j]] + back;
      SumConcat(front + [ys[j]], back, w);
      SumSnoc(front, ys[j], w);
      SumConcat(front, back, w);
      SumPermutation(xs[..|xs| - 1], front + back, w);
    }
  }

  lemma {:induction false} SumPartition<T>(xs: seq<T>, ys: seq<T>, zs: seq<T>, w: T -> int)
    requires multiset(xs) + multiset(ys) == multiset(zs)
    ensures SumBy(xs, w) + SumBy(ys, w) == SumBy(zs, w)
  {
    SumPermutation(xs + ys, zs, w);
    SumConcat(xs, ys, w);
  }

  /** What the kept elements are worth. */
  lemma {:induction false} SumOfKept<T(!new)>(xs: seq<T>, p: T -> bool, w: T -> int, v: T -> int)
    requires forall x :: x in xs ==> v(x) == if p(x) then w(x) else 0
    ensures SumBy(Keep(xs, p), w) == SumBy(xs, v)
  {
    if xs != [] {
      var init, last := xs[..|xs| - 1], xs[|xs| - 1];
      SumOfKept(init, p, w, v);
      assert last in xs;
      if p(last) {
        SumSnoc(Keep(init, p), last, w);
      }
    }
  }

  lemma {:induction false} SumZero<T>(xs: seq<T>, w: T -> int)
    requires forall x :: x in xs ==> w(x) == 0
    ensures SumBy(xs, w) == 0
  {
    if xs != [] {
      SumZero(xs[..|xs| - 1], w);
    }
  }

  lemma {:induction false} SumOnes<T>(xs: seq<T>, w: T -> int)
    requires forall x :: x in xs ==> w(x) == 1
    ensures SumBy(xs, w) == |xs|
  {
    if xs != [] {
      SumOnes(xs[..|xs| - 1], w);
    }
  }

  lemma {:induction false} SumUpdate<T>(xs: seq<T>, i: nat, y: T, w: T -> int)
    requires i < |xs|
    ensures SumBy(xs[i := y], w) == SumBy(xs, w) - w(xs[i]) + w(y)
  {
    var n := |xs| - 1;
    if i == n {
      assert xs[i := y][..n] == xs[..n];
    } else {
      assert xs[i := y][..n] == xs[..n][i := y];
      SumUpdate(xs[..n], i, y, w);
    }
  }

  /** Splitting by a predicate splits the sum. */
  lemma SumSplits<T(!new)>(xs: seq<T>, p: T -> bool, q: T -> bool, w: T -> int)
    requires forall x :: x in xs ==> p(x) != q(x)
    ensures SumBy(xs, w) == SumBy(Keep(xs, p), w) + SumBy(Keep(xs, q), w)
  {
    KeepSplits(xs, p, q);
    SumPermutation(Keep(xs, p) + Keep(xs, q), xs, w);
    SumConcat(Keep(xs, p), Keep(xs, q), w);
  }

  lemma {:induction false} SumSplitsInThree<T(!new)>(xs: seq<T>, p: T -> bool, q: T -> bool, r: T -> bool, w: T -> int)
    requires forall x :: x in xs ==> (p(x) && !q(x) && !r(x)) || (!p(x) && q(x) && !r(x)) || (!p(x) && !q(x) && r(x))
    ensures SumBy(xs, w) == SumBy(Keep(xs, p), w) + SumBy(Keep(xs, q), w) + SumBy(Keep(xs, r), w)
  {
    if xs != [] {
      var init, last := xs[..|xs| - 1], xs[|xs| - 1];
      assert last in xs;
      SumSplitsInThree(init, p, q, r, w);
      SumSnoc(Keep(init, p), last, w);
      SumSnoc(Keep(init, q), last, w);
      SumSnoc(Keep(init, r), last, w);
    }
  }

  lemma {:induction false} SumOfFlatten<T(!new)>(xss: seq<seq<T>>, w: T -> int, s: seq<T> -> int)
    requires forall i :: 0 <= i < |xss| ==> s(xss[i]) == SumBy(xss[i], w)
    ensures SumBy(Flatten(xss), w) == SumBy(xss, s)
  {
    if xss != [] {
      var init, last := xss[..|xss| - 1], xss[|xss| - 1];
      SumOfFlatten(init, w, s);
      SumConcat(Flatten(init), last, w);
    }
  }

  // ---------------------------------------------------------------- insertion-ordered grouping

  /** The distinct keys of `xs` in the order in which a `Map` filled from `xs` lists them. */
  function Keys<T(!new), K(==, !new)>(xs: seq<T>, key: T -> K): (ks: seq<K>)
    ensures NoDuplicates(ks)
  {
    if xs == [] then []
    else
      var ks := Keys(xs[..|xs| - 1], key);
      if key(xs[|xs| - 1]) in ks then ks else ks + [key(xs[|xs| - 1])]
  }

  /** There are as many keys as elements exactly when no key repeats. */
  lemma {:induction false} KeysAllDistinct<T(!new), K(!new)>(xs: seq<T>, key: T -> K)
    ensures |Keys(xs, key)| <= |xs|
    ensures |Keys(xs, key)| == |xs| <==> NoDuplicates(Map(xs, key))
    ensures NoDuplicates(Map(xs, key)) ==> Keys(xs, key) == Map(xs, key)
  {
    if xs != [] {
      var init, last := xs[..|xs| - 1], xs[|xs| - 1];
      var ks := Map(xs, key);
      assert Map(init, key) == ks[..|init|] && ks == ks[..|init|] + [key(last)];
      KeysAllDistinct(init, key);
      KeysExact(init, key, key(last));
      if key(last) in Keys(init, key) {
        var x :| x in init && key(x) == key(last);
        var i :| 0 <= i < |init| && init[i] == x;
        assert ks[i] == ks[|init|];
      } else {
        forall i | 0 <= i < |init| ensures ks[i] != ks[|init|] {
          assert init[i] in init;
        }
      }
    }
  }

  /** The elements filed under `k`, in order. */
  function Members<T(!new), K(==, !new)>(xs: seq<T>, key: T -> K, k: K): seq<T> {
    if xs == [] then []
    else
      var ys := Members(xs[..|xs| - 1], key, k);
      if key(xs[|xs| - 1]) == k then ys + [xs[|xs| - 1]] else ys
  }

  /** The keys are exactly those some element carries. */
  lemma {:induction false} KeysExact<T(!new), K(!new)>(xs: seq<T>, key: T -> K, k: K)
    ensures k in Keys(xs, key) <==> exists x :: x in xs && key(x) == k
  {
    if xs != [] {
      var init, last := xs[..|xs| - 1], xs[|xs| - 1];
      assert xs == init + [last];
      KeysExact(init, key, k);
    }
  }

  /** An element is filed under its own key and no other. */
  lemma {:induction false} MembersExact<T(!new), K(!new)>(xs: seq<T>, key: T -> K, k: K, x: T)
    ensures x in Members(xs, key, k) <==> x in xs && key(x) == k
  {
    if xs != [] {
      var init, last := xs[..|xs| - 1], xs[|xs| - 1];
      assert xs == init + [last];
      MembersExact(init, key, k, x);
    }
  }

  lemma {:induction false} MembersAreKept<T(!new), K(!new)>(xs: seq<T>, key: T -> K, k: K, p: T -> bool)
    requires forall x :: x in xs ==> p(x) == (key(x) == k)
    ensures Members(xs, key, k) == Keep(xs, p)
  {
    if xs != [] {
      var init, last := xs[..|xs| - 1], xs[|xs| - 1];
      assert last in xs;
      MembersAreKept(init, key, k, p);
    }
  }

  lemma {:induction false} MembersEmpty<T(!new), K(!new)>(xs: seq<T>, key: T -> K, k: K)
    ensures Members(xs, key, k) == [] <==> k !in Keys(xs, key)
  {
    if xs != [] {
      MembersEmpty(xs[..|xs| - 1], key, k);
    }
  }

  /** The `Map`'s values, in its iteration order. */
  function Groups<T(!new), K(==, !new)>(xs: seq<T>, key: T -> K): (gs: seq<seq<T>>)
    ensures |gs| == |Keys(xs, key)|
    ensures forall i :: 0 <= i < |gs| ==> gs[i] == Members(xs, key, Keys(xs, key)[i]) && gs[i] != []
  {
    var ks := Keys(xs, key);
    assert forall i :: 0 <= i < |ks| ==> Members(xs, key, ks[i]) != [] by {
      forall i | 0 <= i < |ks| ensures Members(xs, key, ks[i]) != [] {
        MembersEmpty(xs, key, ks[i]);
      }
    }
    seq(|ks|, i requires 0 <= i < |ks| => Members(xs, key, ks[i]))
  }

  lemma KeysSnoc<T(!new), K(!new)>(xs: seq<T>, x: T, key: T -> K)
    ensures Keys(xs + [x], key) == if key(x) in Keys(xs, key) then Keys(xs, key) else Keys(xs, key) + [key(x)]
  {
    assert (xs + [x])[..|xs|] == xs;
  }

  lemma MembersSnoc<T(!new), K(!new)>(xs: seq<T>, x: T, key: T -> K, k: K)
    ensures Members(xs + [x], key, k) == if key(x) == k then Members(xs, key, k) + [x] else Members(xs, key, k)
  {
    assert (xs + [x])[..|xs|] == xs;
  }

  /** The group at each place after filing one more element. */
  lemma GroupAfter<T(!new), K(!new)>(xs: seq<T>, x: T, key: T -> K, i: nat)
    requires i < |Keys(xs + [x], key)|
    ensures i < |Keys(xs, key)| ==>
      Groups(xs + [x], key)[i] == Groups(xs, key)[i] + if Keys(xs, key)[i] == key(x) then [x] else []
    ensures i >= |Keys(xs, key)| ==> Groups(xs + [x], key)[i] == [x]
  {
    KeysSnoc(xs, x, key);
    MembersEmpty(xs, key, key(x));
    MembersSnoc(xs, x, key, Keys(xs + [x], key)[i]);
  }

  lemma GroupExtended<T(!new), K(!new)>(xs: seq<T>, x: T, key: T -> K, i: nat)
    requires i < |Keys(xs, key)| && Keys(xs, key)[i] == key(x)
    ensures Groups(xs + [x], key) == Groups(xs, key)[i := Groups(xs, key)[i] + [x]]
  {
    var before, after := Groups(xs, key), Groups(xs + [x], key);
    KeysSnoc(xs, x, key);
    assert Keys(xs + [x], key) == Keys(xs, key);
    forall j | 0 <= j < |after| ensures after[j] == before[i := before[i] + [x]][j] {
      GroupAfter(xs, x, key, j);
      assert Keys(xs, key)[j] == key(x) <==> j == i;
    }
  }

  lemma GroupOpened<T(!new), K(!new)>(xs: seq<T>, x: T, key: T -> K)
    requires key(x) !in Keys(xs, key)
    ensures Groups(xs + [x], key) == Groups(xs, key) + [[x]]
  {
    var before, after := Groups(xs, key), Groups(xs + [x], key);
    KeysSnoc(xs, x, key);
    assert |after| == |before| + 1;
    forall j | 0 <= j < |after| ensures after[j] == (before + [[x]])[j] {
      GroupAfter(xs, x, key, j);
    }
  }

  /** Filing one more element extends one group or opens a new one at the end. */
  lemma GroupsSnoc<T(!new), K(!new)>(xs: seq<T>, x: T, key: T -> K)
    ensures var ks := Keys(xs, key);
      if key(x) in ks then
        exists i :: 0 <= i < |ks| && ks[i] == key(x) && Groups(xs + [x], key)
            == Groups(xs, key)[i := Groups(xs, key)[i] + [x]]
      else Groups(xs + [x], key) == Groups(xs, key) + [[x]]
  {
    var ks := Keys(xs, key);
    if key(x) in ks {
      var i :| 0 <= i < |ks| && ks[i] == key(x);
      GroupExtended(xs, x, key, i);
    } else {
      GroupOpened(xs, x, key);
    }
  }

  lemma {:induction false} FlattenUpdate<T(!new)>(xss: seq<seq<T>>, i: nat, x: T)
    requires i < |xss|
    ensures multiset(Flatten(xss[i := xss[i] + [x]])) == multiset(Flatten(xss)) + multiset{x}
  {
    var n := |xss| - 1;
    var yss := xss[i := xss[i] + [x]];
    if i == n {
      assert yss[..n] == xss[..n];
      assert Flatten(yss) == Flatten(xss) + [x];
    } else {
      assert yss[..n] == xss[..n][i := xss[..n][i] + [x]];
      FlattenUpdate(xss[..n], i, x);
    }
  }

  /** Filing elements into an insertion-ordered map loses nothing and invents nothing. */
  lemma {:induction false} GroupsPartition<T(!new), K(!new)>(xs: seq<T>, key: T -> K)
    ensures multiset(Flatten(Groups(xs, key))) == multiset(xs)
  {
    if xs != [] {
      var init, last := xs[..|xs| - 1], xs[|xs| - 1];
      assert xs == init + [last];
      GroupsPartition(init, key);
      GroupsSnoc(init, last, key);
      var before := Groups(init, key);
      if key(last) in Keys(init, key) {
        var i :| 0 <= i < |before| && Groups(xs, key) == before[i := before[i] + [last]];
        FlattenUpdate(before, i, last);
      } else {
        assert (before + [[last]])[..|before|] == before;
      }
    }
  }

  /** `[...map.values()]`. */
  method ListInOrder<K(==, !new), V>(order: seq<K>, entries: map<K, V>, ghost f: K -> V) returns (values: seq<V>)
    requires forall k :: k in order ==> k in entries && entries[k] == f(k)
    ensures values == Map(order, f)
  {
    values := [];
    for i := 0 to |order|
      invariant values == Map(order[..i], f)
    {
      assert order[..i + 1] == order[..i] + [order[i]];
      MapSnoc(order[..i], order[i], f);
      values := values + [entries[order[i]]];
    }
    assert order[..|order|] == order;
  }

  /** The loop the source writes as `m.get(k) ?? []`, push, `m.set`: the map's contents and its order. */
  method GroupInto<T(!new), K(==, !new)>(xs: seq<T>, key: T -> K) returns (order: seq<K>, groups: map<K, seq<T>>)
    ensures order == Keys(xs, key)
    ensures forall k :: k in groups <==> k in order
    ensures forall k :: k in groups ==> groups[k] == Members(xs, key, k)
  {
    order, groups := [], map[];
    for i := 0 to |xs|
      invariant order == Keys(xs[..i], key)
      invariant forall k :: k in groups <==> k in order
      invariant forall k :: k in groups ==> groups[k] == Members(xs[..i], key, k)
    {
      var k := key(xs[i]);
      assert xs[..i + 1] == xs[..i] + [xs[i]];
      KeysSnoc(xs[..i], xs[i], key);
      MembersEmpty(xs[..i], key, k);
      ghost var before := groups;
      if k in groups {
        groups := groups[k := groups[k] + [xs[i]]];
      } else {
        groups := groups[k := [xs[i]]];
        order := order + [k];
      }
      forall k' | k' in groups ensures groups[k'] == Members(xs[..i + 1], key, k') {
        MembersSnoc(xs[..i], xs[i], key, k');
      }
    }
    assert xs[..|xs|] == xs;
  }

  /** The first element of every group. */
  function Heads<T>(gs: seq<seq<T>>): (hs: seq<T>)
    requires forall i :: 0 <= i < |gs| ==> gs[i] != []
    ensures |hs| == |gs|
    ensures forall i :: 0 <= i < |gs| ==> hs[i] == gs[i][0]
  {
    seq(|gs|, i requires 0 <= i < |gs| => gs[i][0])
  }

  /** Everything but the first element of every group. */
  function Tails<T>(gs: seq<seq<T>>): (ts: seq<seq<T>>)
    requires forall i :: 0 <= i < |gs| ==> gs[i] != []
    ensures |ts| == |gs|
    ensures forall i :: 0 <= i < |gs| ==> ts[i] == gs[i][1..]
  {
    seq(|gs|, i requires 0 <= i < |gs| => gs[i][1..])
  }

  lemma {:induction false} HeadsAndTails<T(!new)>(gs: seq<seq<T>>)
    requires forall i :: 0 <= i < |gs| ==> gs[i] != []
    ensures multiset(Heads(gs)) + multiset(Flatten(Tails(gs))) == multiset(Flatten(gs))
  {
    if gs != [] {
      var init, last := gs[..|gs| - 1], gs[|gs| - 1];
      HeadsAndTails(init);
      assert Heads(gs) == Heads(init) + [last[0]];
      assert Tails(gs)[..|init|] == Tails(init);
      assert Flatten(Tails(gs)) == Flatten(Tails(init)) + last[1..];
      SplitHead(last);
    }
  }

  lemma SplitHead<T>(xs: seq<T>)
    requires xs != []
    ensures multiset(xs) == multiset{xs[0]} + multiset(xs[1..])
  {
    assert xs == [xs[0]] + xs[1..];
  }

  // ---------------------------------------------------------------- sums per owner

  /** What the listed owners' members are worth, owner by owner. */
  function SumMembers<T(!new), K(==, !new)>(xs: seq<T>, owners: seq<K>, key: T -> K, w: T -> int): int {
    if owners == [] then 0
    else SumMembers(xs, owners[..|owners| - 1], key, w) + SumBy(Members(xs, key, owners[|owners| - 1]), w)
  }

  lemma {:induction false} SumMembersSnoc<T(!new), K(!new)>(xs: seq<T>, x: T, owners: seq<K>, key: T -> K, w: T -> int)
    requires NoDuplicates(owners)
    ensures SumMembers(xs + [x], owners, key, w) == SumMembers(xs, owners, key, w) + if key(x) in owners then w(x)
      else 0
  {
    if owners != [] {
      var init, last := owners[..|owners| - 1], owners[|owners| - 1];
      assert owners == init + [last];
      SumMembersSnoc(xs, x, init, key, w);
      MembersSnoc(xs, x, key, last);
      if key(x) == last {
        assert owners[|owners| - 1] == last;
        assert last !in init;
        SumSnoc(Members(xs, key, last), x, w);
      }
    }
  }

  lemma {:induction false} SumMembersEmpty<T(!new), K(!new)>(owners: seq<K>, key: T -> K, w: T -> int)
    ensures SumMembers([], owners, key, w) == 0
  {
    if owners != [] {
      SumMembersEmpty(owners[..|owners| - 1], key, w);
    }
  }

  /** Summing per owner, over distinct owners that cover every element, sums everything. */
  lemma {:induction false} SumByOwner<T(!new), K(!new)>(xs: seq<T>, owners: seq<K>, key: T -> K, w: T -> int)
    requires NoDuplicates(owners)
    requires forall x :: x in xs ==> key(x) in owners
    ensures SumMembers(xs, owners, key, w) == SumBy(xs, w)
  {
    if xs == [] {
      SumMembersEmpty(owners, key, w);
    } else {
      var init, last := xs[..|xs| - 1], xs[|xs| - 1];
      assert xs == init + [last];
      SumByOwner(init, owners, key, w);
      SumMembersSnoc(init, last, owners, key, w);
    }
  }

  /** When each owner's record shows what its members are worth, the records together show what everything is worth. */
  lemma {:induction false} SumOfRecords<T(!new), K(!new), R>(xs: seq<T>, owners: seq<K>, key: T -> K, w: T -> int,
      record: K -> R, v: R -> int)
    requires forall k :: k in owners ==> v(record(k)) == SumBy(Members(xs, key, k), w)
    ensures SumBy(Map(owners, record), v) == SumMembers(xs, owners, key, w)
  {
    if owners != [] {
      var init, last := owners[..|owners| - 1], owners[|owners| - 1];
      assert owners == init + [last];
      SumOfRecords(xs, init, key, w, record, v);
      MapSnoc(init, last, record);
      SumSnoc(Map(init, record), record(last), v);
    }
  }

  /** `m.get(k) ?? initial`, updated in place, `m.set(k, …)`: one step of a loop that keeps a running record per key.
      `record` gives the record of the elements filed so far, and `step` how one more element changes it. */
  method UpdateRecord<T(!new), K(==, !new), R>(
      order: seq<K>, records: map<K, R>, k: K, initial: R, step: R -> R,
      ghost xs: seq<T>, ghost x: T, ghost key: T -> K, ghost record: (seq<T>, K) -> R)
    returns (order': seq<K>, records': map<K, R>)
    requires key(x) == k && Recorded(xs, key, record, order, records)
    requires initial == record([], k)
    requires forall ys: seq<T> :: record(ys + [x], k) == step(record(ys, k))
    ensures Recorded(xs + [x], key, record, order', records')
  {
    KeysSnoc(xs, x, key);
    MembersEmpty(xs, key, k);
    order', records' := order, records[k := step(if k in records then records[k] else initial)];
    if k !in records {
      order' := order + [k];
    }
    forall k' | k' in records' ensures records'[k'] == record(Members(xs + [x], key, k'), k') {
      MembersSnoc(xs, x, key, k');
    }
  }

  /** The map holds each key's record, and `order` is the order in which the keys were first set. */
  ghost predicate Recorded<T(!new), K(!new), R>(
      xs: seq<T>, key: T -> K, record: (seq<T>, K) -> R, order: seq<K>, records: map<K, R>) {
    && order == Keys(xs, key)
    && (forall k :: k in records <==> k in order)
    && (forall k :: k in records ==> records[k] == record(Members(xs, key, k), k))
  }

  /** The records in the order in which a `Map` lists them. */
  function Records<T(!new), K(==, !new), R>(xs: seq<T>, key: T -> K, record: (seq<T>, K) -> R): (rs: seq<R>)
    ensures |rs| == |Keys(xs, key)|
    ensures forall i :: 0 <= i < |rs| ==> rs[i] == record(Members(xs, key, Keys(xs, key)[i]), Keys(xs, key)[i])
  {
    Map(Keys(xs, key), (k: K) => record(Members(xs, key, k), k))
  }

  /** A figure that every record shows for its members adds up, over all records, to that of all elements. */
  lemma SumOverRecords<T(!new), K(!new), R>(xs: seq<T>, key: T -> K, record: (seq<T>, K) -> R, v: R -> int, w: T -> int)
    requires forall k :: k in Keys(xs, key) ==> v(record(Members(xs, key, k), k)) == SumBy(Members(xs, key, k), w)
    ensures SumBy(Records(xs, key, record), v) == SumBy(xs, w)
  {
    forall x | x in xs ensures key(x) in Keys(xs, key) {
      KeysExact(xs, key, key(x));
    }
    SumOfRecords(xs, Keys(xs, key), key, w, (k: K) => record(Members(xs, key, k), k), v);
    SumByOwner(xs, Keys(xs, key), key, w);
  }

  /** Every record is that of a key some element carries. */
  lemma RecordIn<T(!new), K(!new), R>(xs: seq<T>, key: T -> K, record: (seq<T>, K) -> R, r: R) returns (k: K)
    requires r in Records(xs, key, record)
    ensures r == record(Members(xs, key, k), k)
    ensures k in Keys(xs, key) && exists x :: x in xs && key(x) == k
  {
    var i :| 0 <= i < |Records(xs, key, record)| && Records(xs, key, record)[i] == r;
    k := Keys(xs, key)[i];
    KeysExact(xs, key, k);
  }

  /** Records that carry their keys list them once each, in order. */
  lemma RecordKeys<T(!new), K(!new), R>(xs: seq<T>, key: T -> K, record: (seq<T>, K) -> R, carried: R -> K)
    requires forall k :: k in Keys(xs, key) ==> carried(record(Members(xs, key, k), k)) == k
    ensures Map(Records(xs, key, record), carried) == Keys(xs, key)
  {
    forall i | 0 <= i < |Keys(xs, key)| ensures carried(Records(xs, key, record)[i]) == Keys(xs, key)[i] {
      assert Keys(xs, key)[i] in Keys(xs, key);
    }
  }

  /** The i-th key's record in the map, and the next record of any other kind. */
  lemma RecordAt<T(!new), K(!new), R, Q>(
      xs: seq<T>, key: T -> K, record: (seq<T>, K) -> R, order: seq<K>, records: map<K, R>, other: (seq<T>, K) -> Q,
      i: nat)
    requires Recorded(xs, key, record, order, records) && i < |order|
    ensures order[i] in records && records[order[i]] == record(Members(xs, key, order[i]), order[i])
    ensures i < |Records(xs, key, other)|
    ensures Records(xs, key, other)[..i + 1] == Records(xs, key, other)[..i]
      + [other(Members(xs, key, order[i]), order[i])]
  {
  }

  /** `[...map.values()]` of a map of records. */
  method ReadRecords<T(!new), K(==, !new), R>(
      order: seq<K>, records: map<K, R>, ghost xs: seq<T>, ghost key: T -> K, ghost record: (seq<T>, K) -> R)
    returns (rs: seq<R>)
    requires Recorded(xs, key, record, order, records)
    ensures rs == Records(xs, key, record)
  {
    rs := [];
    for i := 0 to |order|
      invariant |rs| == i && forall j :: 0 <= j < i ==> rs[j] == record(Members(xs, key, order[j]), order[j])
    {
      rs := rs + [records[order[i]]];
    }
  }
}
