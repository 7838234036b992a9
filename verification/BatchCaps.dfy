/** Batch caps: the priced lines of one batch share the scheme's cap in proportion to their prices, the last line
    absorbing the rounding. Lines are updated in place. */
module BatchCaps {
  import opened Collections
  import opened Money
  import Rating

  type Priced = Rating.PricedLine

  datatype Adjustment = Adjustment(batchId: string, gross: int, capped: int, saved: int, transactionCount: nat)

  datatype Error = MixedFeeClasses(batchId: string)

  /** The batch a line is filed under; a missing id and an empty one both mean no batch. */
  function BatchOf(p: Priced): string { p.batchId.GetOr("") }

  predicate HasBatch(p: Priced) { BatchOf(p) != "" }

  // ---------------------------------------------------------------- sharing one cap

  /** One line's proportional share. */
  function ProportionalShare(cap: int, gross: int): int -> int
    requires gross > 0
  {
    (original: int) => DivideHalfUp(original * cap, gross)
  }

  /** Everybody but the last gets the rounded proportion; the last gets what is left of the cap. */
  function Shares(amounts: seq<int>, cap: int, gross: int): (shares: seq<int>)
    requires amounts != [] && gross > 0
    ensures |shares| == |amounts|
  {
    var init := Map(amounts[..|amounts| - 1], ProportionalShare(cap, gross));
    init + [cap - SumBy(init, Itself)]
  }

  function Itself(x: int): int { x }

  /** The shares add up to the cap exactly. */
  lemma SharesAddUpToTheCap(amounts: seq<int>, cap: int, gross: int)
    requires amounts != [] && gross > 0
    ensures SumBy(Shares(amounts, cap, gross), Itself) == cap
  {
    var init := Map(amounts[..|amounts| - 1], ProportionalShare(cap, gross));
    SumSnoc(init, cap - SumBy(init, Itself), Itself);
  }

  lemma {:induction false} ShareIsBetween(original: nat, cap: nat, gross: int)
    requires gross > 0 && cap <= gross
    ensures 0 <= ProportionalShare(cap, gross)(original) <= original
  {
    assert 0 <= original * cap <= original * gross by { MulBounds(original, cap, gross); }
    HalfUpMonotone(original * cap, original * gross, gross);
    HalfUpOfMultiple(original, gross);
  }

  lemma MulBounds(x: nat, a: nat, b: int)
    requires a <= b
    ensures 0 <= x * a <= x * b
  {
    assert x * b - x * a == x * (b - a);
  }

  /** Twice the error of all proportional shares together, in units of the gross. */
  lemma {:induction false} SharesError(amounts: seq<int>, cap: int, gross: int)
    requires gross > 0
    ensures var shared := SumBy(Map(amounts, ProportionalShare(cap, gross)), Itself);
      -(gross * |amounts|) <= 2 * (shared * gross - SumBy(amounts, Itself) * cap) <= gross * |amounts|
  {
    if amounts != [] {
      var init, last := amounts[..|amounts| - 1], amounts[|amounts| - 1];
      var f := ProportionalShare(cap, gross);
      assert Map(amounts, f) == Map(init, f) + [f(last)];
      SharesError(init, cap, gross);
      RoundingError(last * cap, gross);
      SumSnoc(Map(init, f), f(last), Itself);
      AddErrors(SumBy(Map(init, f), Itself), f(last), SumBy(init, Itself), last, cap, gross, |init|);
    }
  }

  lemma AddErrors(s: int, t: int, a: int, b: int, cap: int, gross: int, k: nat)
    requires -(gross * k) <= 2 * (s * gross - a * cap) <= gross * k
    requires -gross <= 2 * (t * gross - b * cap) <= gross
    ensures -(gross * (k + 1)) <= 2 * ((s + t) * gross - (a + b) * cap) <= gross * (k + 1)
  {
    assert (s + t) * gross == s * gross + t * gross;
    assert (a + b) * cap == a * cap + b * cap;
    assert gross * (k + 1) == gross * k + gross;
  }

  /** For a batch over its cap: every line but the last is charged between nothing and its own price, and the last
      line's charge is off its exact proportion by at most half a milli-fil for each other line. */
  lemma {:induction false} CappedSharesAreProportional(amounts: seq<int>, cap: nat, gross: int)
    requires amounts != [] && (forall a :: a in amounts ==> a >= 0) && gross == SumBy(amounts, Itself) > cap
    ensures forall k :: 0 <= k < |amounts| - 1 ==> 0 <= Shares(amounts, cap, gross)[k] <= amounts[k]
    ensures var n, last := |amounts| - 1, amounts[|amounts| - 1];
      -(gross * n) <= 2 * (Shares(amounts, cap, gross)[n] * gross - last * cap) <= gross * n
  {
    forall k | 0 <= k < |amounts| - 1 ensures 0 <= Shares(amounts, cap, gross)[k] <= amounts[k] {
      assert amounts[k] in amounts;
      ShareIsBetween(amounts[k], cap, gross);
    }
    LastShareError(amounts, cap, gross);
  }

  lemma {:induction false} LastShareError(amounts: seq<int>, cap: nat, gross: int)
    requires amounts != [] && gross == SumBy(amounts, Itself) > 0
    ensures var n, last := |amounts| - 1, amounts[|amounts| - 1];
      -(gross * n) <= 2 * (Shares(amounts, cap, gross)[n] * gross - last * cap) <= gross * n
  {
    var n := |amounts| - 1;
    var init := amounts[..n];
    SharesError(init, cap, gross);
    LastIsTheRest(SumBy(Map(init, ProportionalShare(cap, gross)), Itself), SumBy(init, Itself), amounts[n], cap, gross);
  }

  lemma LastIsTheRest(shared: int, before: int, last: int, cap: int, gross: int)
    requires gross == before + last
    ensures (cap - shared) * gross - last * cap == -(shared * gross - before * cap)
  {
    assert (cap - shared) * gross == cap * gross - shared * gross;
    assert cap * gross == cap * before + cap * last;
  }

  /** The last line is never charged less than nothing while its own exact share covers half a milli-fil for each
      other line. */
  lemma {:induction false} LastShareIsNotNegative(amounts: seq<int>, cap: nat, gross: int)
    requires amounts != [] && gross == SumBy(amounts, Itself) > 0
    requires 2 * (amounts[|amounts| - 1] * cap) >= gross * (|amounts| - 1)
    ensures Shares(amounts, cap, gross)[|amounts| - 1] >= 0
  {
    var share := Shares(amounts, cap, gross)[|amounts| - 1];
    LastShareError(amounts, cap, gross);
    if share < 0 {
      NegativeProduct(share, gross);
    }
  }

  lemma NegativeProduct(x: int, d: int)
    requires x < 0 < d
    ensures x * d < 0
  {
  }

  /** What rounding leaves of a line's exact share, in units of the gross: the remainder of its division, counted from
      the nearest multiple. */
  function Rest(cap: int, gross: int): int -> int
    requires gross > 0
  {
    (amount: int) => amount * cap - DivideHalfUp(amount * cap, gross) * gross
  }

  lemma {:induction false} RestsAddUp(amounts: seq<int>, cap: int, gross: int)
    requires gross > 0
    ensures SumBy(amounts, Rest(cap, gross)) == SumBy(amounts, Itself) * cap
      - SumBy(Map(amounts, ProportionalShare(cap, gross)), Itself) * gross
  {
    if amounts != [] {
      var init, last, f := amounts[..|amounts| - 1], amounts[|amounts| - 1], ProportionalShare(cap, gross);
      RestsAddUp(init, cap, gross);
      assert Map(amounts, f) == Map(init, f) + [f(last)];
      SumSnoc(Map(init, f), f(last), Itself);
      Distribute(SumBy(init, Itself), last, cap);
      Distribute(SumBy(Map(init, f), Itself), f(last), gross);
    }
  }

  lemma Distribute(x: int, y: int, k: int)
    ensures (x + y) * k == x * k + y * k
  {
  }

  lemma SignOfProduct(x: int, d: int)
    requires d > 0
    ensures x * d < 0 <==> x < 0
    ensures x * d > 0 <==> x > 0
  {
    if x < 0 {
      NegativeProduct(x, d);
    } else if x > 0 {
      NegativeProduct(-x, d);
      assert (-x) * d == -(x * d);
    }
  }

  /** The last line absorbs every other line's rest. It is charged less than nothing, or more than its own price,
      exactly when the rests outweigh its exact share, or its exact saving. */
  lemma {:induction false} LastShareExactly(amounts: seq<int>, cap: int, gross: int)
    requires amounts != [] && gross == SumBy(amounts, Itself) > 0
    ensures var n := |amounts| - 1;
      var share, last, rests := Shares(amounts, cap, gross)[n], amounts[n], SumBy(amounts[..n], Rest(cap, gross));
      && share * gross == last * cap + rests
      && (share < 0 <==> rests < -(last * cap))
      && (share > last <==> rests > last * (gross - cap))
  {
    var n := |amounts| - 1;
    var init, last := amounts[..n], amounts[n];
    var shared, share := SumBy(Map(init, ProportionalShare(cap, gross)), Itself), Shares(amounts, cap, gross)[n];
    RestsAddUp(init, cap, gross);
    LastIsTheRest(shared, SumBy(init, Itself), last, cap, gross);
    AgainstRests(share, last, cap, gross, SumBy(init, Rest(cap, gross)));
  }

  lemma AgainstRests(share: int, last: int, cap: int, gross: int, rests: int)
    requires gross > 0 && share * gross == last * cap + rests
    ensures share < 0 <==> rests < -(last * cap)
    ensures share > last <==> rests > last * (gross - cap)
  {
    SignOfProduct(share, gross);
    SignOfProduct(share - last, gross);
    assert (share - last) * gross == share * gross - last * gross;
    assert last * (gross - cap) == last * gross - last * cap;
  }

  // ---------------------------------------------------------------- batches of equal prices

  function Repeated(n: nat, price: int): (xs: seq<int>)
    ensures |xs| == n && forall i :: 0 <= i < n ==> xs[i] == price
  {
    seq(n, _ => price)
  }

  lemma {:induction false} SumRepeated(xs: seq<int>, price: int)
    requires forall i :: 0 <= i < |xs| ==> xs[i] == price
    ensures SumBy(xs, Itself) == price * |xs|
  {
    if xs != [] {
      SumRepeated(xs[..|xs| - 1], price);
      assert price * |xs| == price * (|xs| - 1) + price;
    }
  }

  lemma EqualShareBounds(n: int, q: int, r: int)
    ensures (2 * q - 1) * n == 2 * (q * n) - n && (2 * q + 1) * n == 2 * (q * n) + n
      && (2 * q + 3) * n == 2 * (q * n) + 3 * n
  {
  }

  lemma ScaledBounds(lo: int, hi: int, n: int, cap: int, price: int)
    requires lo * n <= 2 * cap < hi * n && price > 0
    ensures lo * (price * n) <= 2 * (price * cap) < hi * (price * n)
  {
    ScaleBounds(lo * n, 2 * cap, hi * n, price);
    assert lo * (price * n) == price * (lo * n) && hi * (price * n) == price * (hi * n);
    assert price * (2 * cap) == 2 * (price * cap);
  }

  lemma ScaleBounds(lo: int, mid: int, hi: int, k: int)
    requires lo <= mid < hi && k > 0
    ensures k * lo <= k * mid < k * hi
  {
    assert k * (mid - lo) >= 0 && k * (hi - mid) > 0;
    assert k * (mid - lo) == k * mid - k * lo && k * (hi - mid) == k * hi - k * mid;
  }

  /** A cap of q·n + r gives each of n equal prices q, rounded up when r is at least half of n. */
  lemma {:induction false} EqualShare(price: int, n: int, q: nat, r: nat, cap: int, gross: int)
    requires price > 0 && gross == price * n && cap == q * n + r && r < n
    ensures gross > 0
    ensures ProportionalShare(cap, gross)(price) == q + if 2 * r >= n then 1 else 0
  {
    var share: int := q + if 2 * r >= n then 1 else 0;
    EqualShareBounds(n, q, r);
    ScaledBounds(2 * share - 1, 2 * share + 1, n, cap, price);
    assert q * n >= 0;
    assert price * cap >= 0 && gross > 0;
    HalfUpExactly(price * cap, gross, share);
  }

  /** What is left of a cap of q·n + r once n − 1 others took q, or q + 1 when the remainder rounds up. */
  lemma WhatIsLeft(n: int, q: int, r: int)
    ensures (q * n + r) - q * (n - 1) == q + r
    ensures (q * n + r) - (q + 1) * (n - 1) == q + r + 1 - n
  {
  }

  /** What the others leave of the cap, given the one share each of them takes. */
  lemma LastShareOfEquals(n: nat, price: int, cap: int, gross: int, share: int)
    requires n > 0 && gross > 0 && ProportionalShare(cap, gross)(price) == share
    ensures Shares(Repeated(n, price), cap, gross)[n - 1] == cap - share * (n - 1)
  {
    SumRepeated(Map(Repeated(n, price)[..n - 1], ProportionalShare(cap, gross)), share);
  }

  lemma {:induction false} LastEqualShare(n: nat, price: int, q: nat, r: nat, cap: int, gross: int)
    requires price > 0 && gross == price * n && cap == q * n + r && r < n
    ensures gross > 0
    ensures Shares(Repeated(n, price), cap, gross)[n - 1] == q + r + if 2 * r >= n then 1 - n else 0
  {
    EqualShare(price, n, q, r, cap, gross);
    LastShareOfEquals(n, price, cap, gross, q + if 2 * r >= n then 1 else 0);
    WhatIsLeft(n, q, r);
  }

  /** When n equal prices share a cap of q·n + r, the last share turns negative exactly when r is at least half of n
      and still too small, together with q, to cover the others' rounding up. */
  lemma LastEqualShareNegativeExactly(n: nat, price: int, q: nat, r: nat, cap: int, gross: int)
    requires price > 0 && gross == price * n && cap == q * n + r && r < n
    ensures gross > 0
    ensures Shares(Repeated(n, price), cap, gross)[n - 1] < 0 <==> 2 * r >= n && q + r + 1 < n
  {
    LastEqualShare(n, price, q, r, cap, gross);
  }

  /** At 25 fils a line under the scheme's cap of 250, a batch of 732 lines charges its last one −2 milli-fils. */
  lemma LastShareCanBeNegative()
    ensures Shares(Repeated(732, 25_000), 250_000, 18_300_000)[731] == -2
  {
    LastEqualShare(732, 25_000, 341, 388, 250_000, 18_300_000);
  }

  lemma CapBelowGross(n: nat, price: int, q: nat, r: nat)
    requires q * n + r < price * n
    ensures q < price
  {
    assert (price - q) * n == price * n - q * n;
  }

  /** When n equal prices share a smaller cap of q·n + r, the last share exceeds the price exactly when r is less than
      half of n, so that the others are rounded down, and what they leave makes up for the difference. */
  lemma LastEqualShareExceedsExactly(n: nat, price: int, q: nat, r: nat, cap: int, gross: int)
    requires price > 0 && gross == price * n && cap == q * n + r && r < n && cap < gross
    ensures Shares(Repeated(n, price), cap, gross)[n - 1] > price <==> 2 * r < n && q + r > price
  {
    LastEqualShare(n, price, q, r, cap, gross);
    CapBelowGross(n, price, q, r);
  }

  /** Whatever the prices, the last line is not charged more than its own while its exact saving covers half a milli-fil
      for each other line. */
  lemma {:induction false} LastShareIsWithinItsPrice(amounts: seq<int>, cap: nat, gross: int)
    requires amounts != [] && gross == SumBy(amounts, Itself) > 0
    requires 2 * (amounts[|amounts| - 1] * (gross - cap)) >= gross * (|amounts| - 1)
    ensures Shares(amounts, cap, gross)[|amounts| - 1] <= amounts[|amounts| - 1]
  {
    LastShareError(amounts, cap, gross);
    WithinItsPrice(Shares(amounts, cap, gross)[|amounts| - 1], amounts[|amounts| - 1], cap, gross,
        gross * (|amounts| - 1));
  }

  lemma WithinItsPrice(share: int, last: int, cap: int, gross: int, slack: int)
    requires gross > 0 && 2 * (share * gross - last * cap) <= slack <= 2 * (last * (gross - cap))
    ensures share <= last
  {
    assert last * (gross - cap) == last * gross - last * cap;
    assert (share - last) * gross == share * gross - last * gross <= 0;
    NoPositiveFactor(share - last, gross);
  }

  lemma NoPositiveFactor(x: int, d: int)
    requires d > 0 && x * d <= 0
    ensures x <= 0
  {
  }

  /** A batch of 55,556 such lines charges its last one 27,780 milli-fils. */
  lemma LastShareCanExceedItsPrice()
    ensures Shares(Repeated(55_556, 25_000), 250_000, 1_388_900_000)[55_555] == 27_780
  {
    LastEqualShare(55_556, 25_000, 4, 27_776, 250_000, 1_388_900_000);
  }

  // ---------------------------------------------------------------- the batches of a list of lines

  /** The cap of a line's fee class, if its rate is flat and carries one. */
  function CapFor(caps: map<string, nat>): Priced -> Option<nat> {
    (p: Priced) => if p.feeClass in caps then Some(caps[p.feeClass]) else None
  }

  datatype Verdict = Uncapped | Mixed | CapAt(cap: nat)

  /** No line of the batch is capped, they do not all share one cap, or one cap governs them all. */
  function VerdictOn(found: seq<Option<nat>>): Verdict {
    if forall c :: c in found ==> c.None? then Uncapped
    else if found[0].None? || exists c :: c in found && c != found[0] then Mixed
    else CapAt(found[0].value)
  }

  function Batch(lines: seq<Priced>, id: string): seq<Priced> {
    Members(lines, BatchOf, id)
  }

  function BatchVerdict(lines: seq<Priced>, caps: map<string, nat>, id: string): Verdict {
    VerdictOn(Map(Batch(lines, id), CapFor(caps)))
  }

  function Gross(lines: seq<Priced>, id: string): int {
    SumBy(Batch(lines, id), Rating.AmountOf)
  }

  /** The batch is governed by one cap and exceeds it. */
  predicate OverCap(lines: seq<Priced>, caps: map<string, nat>, id: string) {
    var verdict := BatchVerdict(lines, caps, id);
    verdict.CapAt? && Gross(lines, id) > verdict.cap
  }

  function BatchIds(lines: seq<Priced>): seq<string> {
    Keys(Keep(lines, HasBatch), BatchOf)
  }

  /** The line's position among the lines of its own batch. */
  function Rank(lines: seq<Priced>, i: nat): (r: nat)
    requires i < |lines|
    ensures r < |Batch(lines, BatchOf(lines[i]))|
  {
    RankIsInside(lines, i, BatchOf(lines[i]));
    |Batch(lines[..i], BatchOf(lines[i]))|
  }

  lemma {:induction false} RankIsInside(lines: seq<Priced>, i: nat, id: string)
    requires i < |lines| && BatchOf(lines[i]) == id
    ensures |Batch(lines[..i], id)| < |Batch(lines, id)|
  {
    var init := lines[..|lines| - 1];
    if i < |init| {
      assert init[..i] == lines[..i];
      RankIsInside(init, i, id);
    }
  }

  /** What the lines of a batch are charged once its cap has been applied. */
  function Charges(lines: seq<Priced>, caps: map<string, nat>, id: string): (charges: seq<int>)
    ensures |charges| == |Batch(lines, id)|
  {
    var amounts := Map(Batch(lines, id), Rating.AmountOf);
    if OverCap(lines, caps, id) && amounts != [] then Shares(amounts, BatchVerdict(lines, caps, id).cap,
        Gross(lines, id)) else amounts
  }

  function CappedLine(lines: seq<Priced>, caps: map<string, nat>, i: nat): Priced
    requires i < |lines|
  {
    var id := BatchOf(lines[i]);
    if HasBatch(lines[i]) && OverCap(lines, caps, id)
    then lines[i].(amount := Charges(lines, caps, id)[Rank(lines, i)], cappedFrom := Some(lines[i].amount))
    else lines[i]
  }

  /** Every line as the caps leave it. */
  function Capped(lines: seq<Priced>, caps: map<string, nat>): (after: seq<Priced>)
    ensures |after| == |lines|
    ensures forall i :: 0 <= i < |lines| ==> after[i] == CappedLine(lines, caps, i)
  {
    seq(|lines|, i requires 0 <= i < |lines| => CappedLine(lines, caps, i))
  }

  function AdjustmentOf(lines: seq<Priced>, caps: map<string, nat>, id: string): Adjustment
    requires BatchVerdict(lines, caps, id).CapAt?
  {
    var gross, cap := Gross(lines, id), BatchVerdict(lines, caps, id).cap;
    Adjustment(id, gross, cap, gross - cap, |Batch(lines, id)|)
  }

  function SavedOf(a: Adjustment): int { a.saved }

  /** The adjustments of the listed batches that exceeded their caps. */
  function AdjustmentsOf(lines: seq<Priced>, caps: map<string, nat>, ids: seq<string>): seq<Adjustment> {
    if ids == [] then []
    else
      var rest, id := AdjustmentsOf(lines, caps, ids[..|ids| - 1]), ids[|ids| - 1];
      if OverCap(lines, caps, id) then rest + [AdjustmentOf(lines, caps, id)] else rest
  }

  // ---------------------------------------------------------------- what capping a list of lines achieves

  /** Where a batch's lines stand in the list. */
  function Positions(lines: seq<Priced>, id: string): seq<nat> {
    if lines == [] then []
    else
      var rest := Positions(lines[..|lines| - 1], id);
      if BatchOf(lines[|lines| - 1]) == id then rest + [|lines| - 1] else rest
  }

  /** A batch's k-th line stands at the k-th position, and that line's rank is k. */
  ghost predicate Located(lines: seq<Priced>, id: string, positions: seq<nat>, k: nat)
    requires k < |positions|
  {
    && positions[k] < |lines|
    && BatchOf(lines[positions[k]]) == id
    && k < |Batch(lines, id)|
    && Batch(lines, id)[k] == lines[positions[k]]
    && Rank(lines, positions[k]) == k
  }

  lemma {:induction false} PositionsLocate(lines: seq<Priced>, id: string, k: nat)
    ensures |Positions(lines, id)| == |Batch(lines, id)|
    ensures k < |Batch(lines, id)| ==> Located(lines, id, Positions(lines, id), k)
  {
    if lines != [] {
      var init := lines[..|lines| - 1];
      PositionsLocate(init, id, k);
      if k < |Batch(init, id)| {
        assert init[..Positions(init, id)[k]] == lines[..Positions(init, id)[k]];
      }
    }
  }

  /** A line's rank leads back to it. */
  lemma {:induction false} RankLeadsBack(lines: seq<Priced>, i: nat)
    requires i < |lines|
    ensures |Positions(lines, BatchOf(lines[i]))| == |Batch(lines, BatchOf(lines[i]))|
    ensures Positions(lines, BatchOf(lines[i]))[Rank(lines, i)] == i
  {
    var init, id := lines[..|lines| - 1], BatchOf(lines[i]);
    PositionsLocate(lines, id, 0);
    PositionsLocate(init, id, 0);
    if i < |init| {
      assert init[..i] == lines[..i];
      RankLeadsBack(init, i);
    }
  }

  lemma {:induction false} PositionsCongruence(lines: seq<Priced>, after: seq<Priced>, id: string)
    requires |lines| == |after| && forall i :: 0 <= i < |lines| ==> BatchOf(after[i]) == BatchOf(lines[i])
    ensures Positions(lines, id) == Positions(after, id)
  {
    if lines != [] {
      PositionsCongruence(lines[..|lines| - 1], after[..|after| - 1], id);
    }
  }

  /** Capping charges each batch its shares, in line order. */
  lemma BatchCharges(lines: seq<Priced>, caps: map<string, nat>, id: string)
    requires id != ""
    ensures Map(Batch(Capped(lines, caps), id), Rating.AmountOf) == Charges(lines, caps, id)
  {
    var after := Capped(lines, caps);
    PositionsCongruence(lines, after, id);
    PositionsLocate(lines, id, 0);
    PositionsLocate(after, id, 0);
    forall k | 0 <= k < |Batch(lines, id)| ensures Batch(after, id)[k].amount == Charges(lines, caps, id)[k] {
      BatchCharge(lines, caps, id, k);
    }
  }

  lemma BatchCharge(lines: seq<Priced>, caps: map<string, nat>, id: string, k: nat)
    requires id != "" && k < |Batch(lines, id)| == |Batch(Capped(lines, caps), id)|
    ensures Batch(Capped(lines, caps), id)[k].amount == Charges(lines, caps, id)[k]
  {
    var after := Capped(lines, caps);
    PositionsCongruence(lines, after, id);
    PositionsLocate(lines, id, k);
    PositionsLocate(after, id, k);
    assert Located(lines, id, Positions(lines, id), k) && Located(after, id, Positions(after, id), k);
    assert Batch(after, id)[k] == CappedLine(lines, caps, Positions(lines, id)[k]);
  }

  /** After capping, a batch over its cap costs exactly the cap and every other batch costs what it did. */
  lemma CappedBatchCostsItsCap(lines: seq<Priced>, caps: map<string, nat>, id: string)
    requires id != ""
    ensures Gross(Capped(lines, caps), id) ==
      if OverCap(lines, caps, id) then BatchVerdict(lines, caps, id).cap else Gross(lines, id)
  {
    var before, after := Batch(lines, id), Batch(Capped(lines, caps), id);
    BatchCharges(lines, caps, id);
    SumOfMap(after, Rating.AmountOf, Itself, Rating.AmountOf);
    SumOfMap(before, Rating.AmountOf, Itself, Rating.AmountOf);
    if OverCap(lines, caps, id) {
      assert before != [];
      SharesAddUpToTheCap(Map(before, Rating.AmountOf), BatchVerdict(lines, caps, id).cap, Gross(lines, id));
    }
  }

  /** The listed batches cost less by what their adjustments saved. */
  lemma {:induction false} BatchesSave(lines: seq<Priced>, caps: map<string, nat>, ids: seq<string>)
    requires "" !in ids
    ensures SumMembers(Capped(lines, caps), ids, BatchOf, Rating.AmountOf)
      == SumMembers(lines, ids, BatchOf, Rating.AmountOf) - SumBy(AdjustmentsOf(lines, caps, ids), SavedOf)
  {
    if ids != [] {
      var init, id := ids[..|ids| - 1], ids[|ids| - 1];
      BatchesSave(lines, caps, init);
      CappedBatchCostsItsCap(lines, caps, id);
      if OverCap(lines, caps, id) {
        SumSnoc(AdjustmentsOf(lines, caps, init), AdjustmentOf(lines, caps, id), SavedOf);
      }
    }
  }

  lemma {:induction false} UnbatchedUnchanged(lines: seq<Priced>, caps: map<string, nat>, k: nat)
    requires k <= |lines|
    ensures Batch(Capped(lines, caps)[..k], "") == Batch(lines[..k], "")
  {
    if k > 0 {
      UnbatchedUnchanged(lines, caps, k - 1);
      assert Capped(lines, caps)[..k] == Capped(lines, caps)[..k - 1] + [CappedLine(lines, caps, k - 1)];
      assert lines[..k] == lines[..k - 1] + [lines[k - 1]];
      MembersSnoc(lines[..k - 1], lines[k - 1], BatchOf, "");
      MembersSnoc(Capped(lines, caps)[..k - 1], CappedLine(lines, caps, k - 1), BatchOf, "");
    }
  }

  lemma BatchIdsExact(lines: seq<Priced>, p: Priced)
    requires p in lines
    ensures BatchOf(p) in BatchIds(lines) + [""]
  {
    KeepExact(lines, HasBatch);
    KeysExact(Keep(lines, HasBatch), BatchOf, BatchOf(p));
  }

  lemma SumOverBatches(lines: seq<Priced>, ids: seq<string>)
    requires ids == BatchIds(lines)
    ensures "" !in ids
    ensures SumBy(lines, Rating.AmountOf) == SumMembers(lines, ids, BatchOf, Rating.AmountOf)
      + SumBy(Batch(lines, ""), Rating.AmountOf)
  {
    NoEmptyId(lines);
    forall p | p in lines ensures BatchOf(p) in ids + [""] {
      BatchIdsExact(lines, p);
    }
    SumByOwner(lines, ids + [""], BatchOf, Rating.AmountOf);
    assert (ids + [""])[..|ids|] == ids;
  }

  lemma {:induction false} BatchIdsUnchanged(lines: seq<Priced>, after: seq<Priced>)
    requires |lines| == |after| && forall i :: 0 <= i < |lines| ==> BatchOf(after[i]) == BatchOf(lines[i])
    ensures BatchIds(lines) == BatchIds(after)
  {
    if lines != [] {
      var n := |lines| - 1;
      BatchIdsUnchanged(lines[..n], after[..n]);
      if HasBatch(lines[n]) {
        KeysSnoc(Keep(lines[..n], HasBatch), lines[n], BatchOf);
        KeysSnoc(Keep(after[..n], HasBatch), after[n], BatchOf);
      }
    }
  }

  /** The run's total falls by exactly what the adjustments report as saved. */
  lemma CappingSavesWhatItReports(lines: seq<Priced>, caps: map<string, nat>)
    ensures SumBy(Capped(lines, caps), Rating.AmountOf)
      == SumBy(lines, Rating.AmountOf) - SumBy(AdjustmentsOf(lines, caps, BatchIds(lines)), SavedOf)
  {
    var after, ids := Capped(lines, caps), BatchIds(lines);
    BatchIdsUnchanged(lines, after);
    SumOverBatches(lines, ids);
    SumOverBatches(after, ids);
    BatchesSave(lines, caps, ids);
    UnbatchedUnchanged(lines, caps, |lines|);
    assert after[..|lines|] == after && lines[..|lines|] == lines;
  }

  // ---------------------------------------------------------------- the loops

  /** The lines once the batches in `ids` are settled, and the first `k` lines of batch `id`. */
  ghost function Progress(lines: seq<Priced>, caps: map<string, nat>, ids: seq<string>, id: string,
      k: nat): (after: seq<Priced>)
    ensures |after| == |lines|
  {
    seq(|lines|, i requires 0 <= i < |lines| =>
      if BatchOf(lines[i]) in ids || (BatchOf(lines[i]) == id && Rank(lines, i) < k) then CappedLine(lines, caps, i)
          else lines[i])
  }

  /** `batches`: each batch's lines, by position, in the order in which the batches first appear. */
  method GroupBatches(priced: array<Priced>) returns (order: seq<string>, batches: map<string, seq<nat>>)
    ensures order == BatchIds(priced[..])
    ensures forall id :: id in order ==> id in batches && batches[id] == Positions(priced[..], id)
  {
    order, batches := [], map[];
    ghost var lines := priced[..];
    for i := 0 to priced.Length
      invariant order == BatchIds(lines[..i])
      invariant forall id :: id in batches <==> id in order
      invariant forall id :: id in order ==> batches[id] == Positions(lines[..i], id)
    {
      assert lines[..i + 1] == lines[..i] + [lines[i]];
      KeepSnoc(lines[..i], lines[i], HasBatch);
      var id := BatchOf(priced[i]);
      NoEmptyId(lines[..i]);
      if id != "" {
        KeysSnoc(Keep(lines[..i], HasBatch), lines[i], BatchOf);
        if id in batches {
          batches := batches[id := batches[id] + [i]];
        } else {
          FirstOfBatch(lines[..i], id);
          batches := batches[id := [i]];
          order := order + [id];
        }
      }
      forall other | other in order ensures batches[other] == Positions(lines[..i + 1], other) {
        PositionsSnoc(lines, i, other);
      }
    }
    assert lines[..priced.Length] == lines;
  }

  lemma PositionsSnoc(lines: seq<Priced>, i: nat, id: string)
    requires i < |lines|
    ensures Positions(lines[..i + 1], id) == Positions(lines[..i], id) + if BatchOf(lines[i]) == id then [i] else []
  {
    assert lines[..i + 1][..i] == lines[..i];
  }

  lemma FirstOfBatch(lines: seq<Priced>, id: string)
    requires id != "" && id !in BatchIds(lines)
    ensures Positions(lines, id) == []
  {
    KeepExact(lines, HasBatch);
    KeysExact(Keep(lines, HasBatch), BatchOf, id);
    KeysExact(lines, BatchOf, id);
    MembersEmpty(lines, BatchOf, id);
    PositionsLocate(lines, id, 0);
  }

  lemma NoEmptyId(lines: seq<Priced>)
    ensures "" !in BatchIds(lines)
  {
    KeepExact(lines, HasBatch);
    KeysExact(Keep(lines, HasBatch), BatchOf, "");
  }

  /** The caps found among a batch's rates: all of them, and the distinct ones. */
  method JudgeBatch(found: seq<Option<nat>>) returns (verdict: Verdict)
    ensures verdict == VerdictOn(found)
  {
    var caps: seq<nat>, distinct: seq<nat> := [], [];
    for i := 0 to |found|
      invariant |caps| <= i
      invariant |caps| == i <==> forall c :: c in found[..i] ==> c.Some?
      invariant forall c :: c in found[..i] && c.Some? ==> c.value in distinct
      invariant forall v :: v in distinct ==> Some(v) in found[..i]
      invariant NoDuplicates(distinct)
    {
      assert found[..i + 1] == found[..i] + [found[i]];
      if found[i].Some? {
        caps := caps + [found[i].value];
        if found[i].value !in distinct {
          distinct := distinct + [found[i].value];
        }
      }
    }
    assert found[..|found|] == found;
    if |distinct| == 0 {
      return Uncapped;
    }
    assert distinct[0] in distinct && Some(distinct[0]) in found;
    if |distinct| != 1 || |caps| != |found| {
      if |distinct| != 1 {
        assert distinct[1] in distinct && Some(distinct[1]) in found && distinct[0] != distinct[1];
      }
      return Mixed;
    }
    assert forall c :: c in found ==> c == Some(distinct[0]);
    assert found[0] in found && !(forall c :: c in found ==> c.None?);
    return CapAt(distinct[0]);
  }

  /** The lines standing at the given positions. */
  method ReadBatch(priced: array<Priced>, positions: seq<nat>, ghost lines: seq<Priced>, ghost id: string)
      returns (batch: seq<Priced>)
    requires positions == Positions(lines, id) && |lines| == priced.Length
    requires forall i :: 0 <= i < |lines| && BatchOf(lines[i]) == id ==> priced[i] == lines[i]
    ensures batch == Batch(lines, id)
  {
    batch := [];
    PositionsLocate(lines, id, 0);
    for k := 0 to |positions|
      invariant batch == Batch(lines, id)[..k]
    {
      PositionsLocate(lines, id, k);
      assert Located(lines, id, positions, k);
      batch := batch + [priced[positions[k]]];
    }
  }

  method SumAmounts(batch: seq<Priced>) returns (sum: int)
    ensures sum == SumBy(batch, Rating.AmountOf)
  {
    sum := 0;
    for k := 0 to |batch|
      invariant sum == SumBy(batch[..k], Rating.AmountOf)
    {
      assert batch[..k + 1] == batch[..k] + [batch[k]];
      SumSnoc(batch[..k], batch[k], Rating.AmountOf);
      sum := sum + batch[k].amount;
    }
    assert batch[..|batch|] == batch;
  }

  /** The share at each place: the rounded proportion, and at the last place what is left. */
  lemma ShareAt(amounts: seq<int>, cap: int, gross: int, k: nat)
    requires k < |amounts| && gross > 0
    ensures Shares(amounts, cap, gross)[k] == if k == |amounts| - 1
      then cap - SumBy(Shares(amounts, cap, gross)[..k], Itself)
      else DivideHalfUp(amounts[k] * cap, gross)
    ensures SumBy(Shares(amounts, cap, gross)[..k + 1], Itself) == SumBy(Shares(amounts, cap, gross)[..k], Itself)
      + Shares(amounts, cap, gross)[k]
  {
    var shares := Shares(amounts, cap, gross);
    assert shares[..k + 1] == shares[..k] + [shares[k]];
    SumSnoc(shares[..k], shares[k], Itself);
    if k == |amounts| - 1 {
      assert shares[..k] == Map(amounts[..k], ProportionalShare(cap, gross));
    }
  }

  /** Settling the next line of the batch is one step of progress. */
  lemma ProgressStep(lines: seq<Priced>, caps: map<string, nat>, ids: seq<string>, id: string, k: nat)
    requires id !in ids && k < |Positions(lines, id)|
    ensures Located(lines, id, Positions(lines, id), k)
    ensures var i := Positions(lines, id)[k];
      && Progress(lines, caps, ids, id, k)[i] == lines[i]
      && Progress(lines, caps, ids, id, k + 1) == Progress(lines, caps, ids, id, k)[i := CappedLine(lines, caps, i)]
  {
    PositionsLocate(lines, id, k);
    var i, before, after := Positions(lines, id)[k], Progress(lines, caps, ids, id, k),
        Progress(lines, caps, ids, id, k + 1);
    assert Located(lines, id, Positions(lines, id), k);
    forall j | 0 <= j < |lines| ensures after[j] == before[i := CappedLine(lines, caps, i)][j] {
      RankLeadsBack(lines, j);
    }
  }

  /** Settling the last line of the batch settles the batch. */
  lemma {:induction false} ProgressDone(lines: seq<Priced>, caps: map<string, nat>, ids: seq<string>, id: string,
      k: nat)
    requires k == |Positions(lines, id)| || (k == 0 && (id == "" || !OverCap(lines, caps, id)))
    ensures forall next :: Progress(lines, caps, ids, id, k) == Progress(lines, caps, ids + [id], next, 0)
  {
    PositionsLocate(lines, id, 0);
    forall next ensures Progress(lines, caps, ids, id, k) == Progress(lines, caps, ids + [id], next, 0) {
    }
  }

  /** One batch over its cap, line by line, in place. */
  method ShareCap(priced: array<Priced>, positions: seq<nat>, cap: nat, gross: int,
                  ghost lines: seq<Priced>, ghost caps: map<string, nat>, ghost ids: seq<string>, ghost id: string)
    requires positions == Positions(lines, id) && id != "" && id !in ids
    requires OverCap(lines, caps, id) && BatchVerdict(lines, caps, id) == CapAt(cap) && gross == Gross(lines, id)
    requires priced[..] == Progress(lines, caps, ids, id, 0)
    modifies priced
    ensures priced[..] == Progress(lines, caps, ids, id, |positions|)
  {
    ghost var amounts := Map(Batch(lines, id), Rating.AmountOf);
    var spent := 0;
    PositionsLocate(lines, id, 0);
    for k := 0 to |positions|
      invariant priced[..] == Progress(lines, caps, ids, id, k)
      invariant spent == SumBy(Charges(lines, caps, id)[..k], Itself)
    {
      var i := positions[k];
      ProgressStep(lines, caps, ids, id, k);
      ShareAt(amounts, cap, gross, k);
      var original := priced[i].amount;
      assert priced[i] == lines[i] && amounts[k] == original;
      var share := if k == |positions| - 1 then cap - spent else DivideHalfUp(original * cap, gross);
      assert share == Charges(lines, caps, id)[k];
      spent := spent + share;
      priced[i] := priced[i].(amount := share, cappedFrom := Some(original));
      assert priced[..] == Progress(lines, caps, ids, id, k)[i := CappedLine(lines, caps, i)];
    }
  }

  /** No batch among `ids` mixes capped fee classes with others. */
  ghost predicate NoneMixed(lines: seq<Priced>, caps: map<string, nat>, ids: seq<string>) {
    forall id :: id in ids ==> !BatchVerdict(lines, caps, id).Mixed?
  }

  /** One batch: refused if it mixes fee classes, settled in place if it exceeds its cap, left alone otherwise. */
  method SettleBatch(priced: array<Priced>, positions: seq<nat>, caps: map<string, nat>, id: string,
                     ghost lines: seq<Priced>, ghost ids: seq<string>)
    returns (result: Result<Option<Adjustment>, Error>)
    requires positions == Positions(lines, id) && id != "" && id !in ids
    requires priced[..] == Progress(lines, caps, ids, "", 0)
    modifies priced
    ensures result == if BatchVerdict(lines, caps, id).Mixed? then Err(MixedFeeClasses(id))
      else if OverCap(lines, caps, id) then Ok(Some(AdjustmentOf(lines, caps, id))) else Ok(None)
    ensures priced[..] == Progress(lines, caps, if result.Ok? then ids + [id] else ids, "", 0)
  {
    var batch := ReadBatch(priced, positions, lines, id);
    var verdict := JudgeBatch(Map(batch, CapFor(caps)));
    if verdict.Mixed? {
      return Err(MixedFeeClasses(id));
    }
    var gross := SumAmounts(batch);
    if verdict.Uncapped? || gross <= verdict.cap {
      ProgressDone(lines, caps, ids, id, 0);
      return Ok(None);
    }
    ShareCap(priced, positions, verdict.cap, gross, lines, caps, ids, id);
    ProgressDone(lines, caps, ids, id, |positions|);
    return Ok(Some(Adjustment(id, gross, verdict.cap, gross - verdict.cap, |batch|)));
  }

  /** Every batch that exceeds its cap is settled in place; the first one that mixes fee classes refuses the run. */
  method ApplyBatchCaps(priced: array<Priced>, caps: map<string, nat>) returns (result: Result<seq<Adjustment>, Error>)
    modifies priced
    ensures result.Ok? <==> NoneMixed(old(priced[..]), caps, BatchIds(old(priced[..])))
    ensures result.Ok? ==>
      && priced[..] == Capped(old(priced[..]), caps)
      && result.value == AdjustmentsOf(old(priced[..]), caps, BatchIds(old(priced[..])))
    ensures result.Err? ==>
      var lines, ids := old(priced[..]), BatchIds(old(priced[..]));
      exists j :: 0 <= j < |ids| && FirstMixed(lines, caps, ids, j) && result.error == MixedFeeClasses(ids[j])
        && priced[..] == Progress(lines, caps, ids[..j], "", 0)
  {
    ghost var lines := priced[..];
    var order, batches := GroupBatches(priced);
    var adjustments: seq<Adjustment> := [];
    NoEmptyId(lines);
    for j := 0 to |order|
      invariant priced[..] == Progress(lines, caps, order[..j], "", 0)
      invariant NoneMixed(lines, caps, order[..j])
      invariant adjustments == AdjustmentsOf(lines, caps, order[..j])
    {
      assert order[..j + 1] == order[..j] + [order[j]];
      var settled := SettleBatch(priced, batches[order[j]], caps, order[j], lines, order[..j]);
      if settled.Err? {
        assert FirstMixed(lines, caps, order, j);
        return Err(settled.error);
      }
      if settled.value.Some? {
        adjustments := adjustments + [settled.value.value];
      }
    }
    assert order[..|order|] == order;
    AllProgress(lines, caps, order);
    result := Ok(adjustments);
  }

  ghost predicate FirstMixed(lines: seq<Priced>, caps: map<string, nat>, ids: seq<string>, j: nat)
    requires j < |ids|
  {
    BatchVerdict(lines, caps, ids[j]).Mixed? && NoneMixed(lines, caps, ids[..j])
  }

  /** Once every batch is settled, every line is as the caps leave it. */
  lemma AllProgress(lines: seq<Priced>, caps: map<string, nat>, ids: seq<string>)
    requires ids == BatchIds(lines)
    ensures Progress(lines, caps, ids, "", 0) == Capped(lines, caps)
  {
    forall i | 0 <= i < |lines| ensures Progress(lines, caps, ids, "", 0)[i] == CappedLine(lines, caps, i) {
      BatchIdsExact(lines, lines[i]);
    }
  }
}
