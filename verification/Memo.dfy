/** The expected collection memo, its comparison with the scheme's own, and the re-rating of a closed period.
    A line reference joins the counterparty and the fee class; the period is the same throughout. */
module Memo {
  import opened Collections
  import Rating

  datatype LineRef = LineRef(tppId: string, feeClass: string)

  datatype ExpectedLine = ExpectedLine(ref: LineRef, units: nat, events: nat, amount: int, value: int)

  datatype SchemeLine = SchemeLine(tppId: string, feeClass: string, units: int, amount: int)

  datatype Presence = Both | ExpectedOnly | MemoOnly

  datatype DiffLine = DiffLine(
    ref: LineRef, expectedUnits: int, memoUnits: int, expected: int, memo: int, variance: int, material: bool,
        presence: Presence)

  datatype MemoDiff = MemoDiff(
    lines: seq<DiffLine>, matched: nat, breaks: nat, expectedTotal: int, memoTotal: int, netVariance: int,
        grossVariance: int)

  datatype Error = BlankCounterparty | NegativeFigure | RepeatedLine(ref: LineRef)

  function RefOf(p: Rating.PricedLine): LineRef { LineRef(p.tppId, p.feeClass) }

  function ExpectedRef(l: ExpectedLine): LineRef { l.ref }

  function SchemeRef(l: SchemeLine): LineRef { LineRef(l.tppId, l.feeClass) }

  function ExpectedAmount(l: ExpectedLine): int { l.amount }

  function SchemeAmount(l: SchemeLine): int { l.amount }

  // ---------------------------------------------------------------- the expectation

  function Added(l: ExpectedLine, p: Rating.PricedLine): ExpectedLine {
    ExpectedLine(l.ref, l.units + p.units, l.events + 1, l.amount + p.amount, l.value + p.value.GetOr(0))
  }

  function LineOf(lines: seq<Rating.PricedLine>, ref: LineRef): ExpectedLine {
    if lines == [] then ExpectedLine(ref, 0, 0, 0, 0) else Added(LineOf(lines[..|lines| - 1], ref), lines[|lines| - 1])
  }

  function LineRecord(): (seq<Rating.PricedLine>, LineRef) -> ExpectedLine {
    (lines: seq<Rating.PricedLine>, ref: LineRef) => LineOf(lines, ref)
  }

  function ExpectedMemo(priced: seq<Rating.PricedLine>): seq<ExpectedLine> {
    Records(Keep(priced, Rating.IsReceivable), RefOf, LineRecord())
  }

  function LineFigure(f: Rating.Figure): ExpectedLine -> int {
    (l: ExpectedLine) =>
      match f
      case Units => l.units
      case Events => l.events
      case Amount => l.amount
      case Value => l.value
  }

  lemma {:induction false} LineOfFigure(lines: seq<Rating.PricedLine>, ref: LineRef, f: Rating.Figure)
    ensures LineFigure(f)(LineOf(lines, ref)) == SumBy(lines, Rating.FigureOf(f)) && LineOf(lines, ref).ref == ref
  {
    if lines != [] {
      LineOfFigure(lines[..|lines| - 1], ref, f);
    }
  }

  /** The memo holds every receivable line once: its units, itself, its amount and its value. */
  lemma {:induction false} MemoConserves(priced: seq<Rating.PricedLine>, f: Rating.Figure)
    ensures SumBy(ExpectedMemo(priced), LineFigure(f)) == SumBy(Keep(priced, Rating.IsReceivable), Rating.FigureOf(f))
  {
    forall ys: seq<Rating.PricedLine>, k: LineRef ensures LineFigure(f)(LineRecord()(ys, k))
        == SumBy(ys, Rating.FigureOf(f)) {
      LineOfFigure(ys, k, f);
    }
    SumOverRecords(Keep(priced, Rating.IsReceivable), RefOf, LineRecord(), LineFigure(f), Rating.FigureOf(f));
  }

  lemma LineSnoc(p: Rating.PricedLine)
    ensures forall ys: seq<Rating.PricedLine> ::
      LineRecord()(ys + [p], RefOf(p)) == Added(LineRecord()(ys, RefOf(p)), p)
  {
    forall ys: seq<Rating.PricedLine> ensures LineRecord()(ys + [p], RefOf(p)) == Added(LineRecord()(ys, RefOf(p)), p) {
      assert (ys + [p])[..|ys|] == ys;
    }
  }

  method BuildExpectedMemo(priced: seq<Rating.PricedLine>) returns (lines: seq<ExpectedLine>, total: int)
    ensures lines == ExpectedMemo(priced)
    ensures total == SumBy(lines, ExpectedAmount)
  {
    var order: seq<LineRef>, grouped: map<LineRef, ExpectedLine> := [], map[];
    for i := 0 to |priced|
      invariant Recorded(Keep(priced[..i], Rating.IsReceivable), RefOf, LineRecord(), order, grouped)
    {
      var p := priced[i];
      assert priced[..i + 1] == priced[..i] + [p];
      KeepSnoc(priced[..i], p, Rating.IsReceivable);
      if p.side.Receivable? {
        LineSnoc(p);
        order, grouped := UpdateRecord(order, grouped, RefOf(p), ExpectedLine(RefOf(p), 0, 0, 0, 0),
            (l: ExpectedLine) => Added(l, p),
                                       Keep(priced[..i], Rating.IsReceivable), p, RefOf, LineRecord());
      }
    }
    assert priced[..|priced|] == priced;
    lines := ReadRecords(order, grouped, Keep(priced, Rating.IsReceivable), RefOf, LineRecord());
    total := SumBy(lines, ExpectedAmount);
  }

  /** The memo expects exactly the receivable total of the rating it was projected from. */
  lemma MemoAgreesWithRating(priced: seq<Rating.PricedLine>, clients: seq<Rating.Client>)
    ensures SumBy(ExpectedMemo(priced), ExpectedAmount) == Rating.Rated(priced, clients).totals.receivable
  {
    MemoConserves(priced, Rating.Amount);
    SumCongruence(ExpectedMemo(priced), LineFigure(Rating.Amount), ExpectedAmount);
    SumCongruence(Keep(priced, Rating.IsReceivable), Rating.FigureOf(Rating.Amount), Rating.AmountOf);
    Rating.RatingConserves(priced, clients);
  }

  lemma MemoLinesAreDistinct(priced: seq<Rating.PricedLine>)
    ensures NoDuplicates(Map(ExpectedMemo(priced), ExpectedRef))
  {
    var kept := Keep(priced, Rating.IsReceivable);
    forall i | 0 <= i < |ExpectedMemo(priced)| ensures ExpectedMemo(priced)[i].ref == Keys(kept, RefOf)[i] {
      LineOfFigure(Members(kept, RefOf, Keys(kept, RefOf)[i]), Keys(kept, RefOf)[i], Rating.Amount);
    }
  }

  // ---------------------------------------------------------------- comparing two keyed lists

  /** `new Map(xs.map(x => [key(x), x])).get(k)`: the last element filed under the key. */
  function Lookup<T(!new), K(==, !new)>(xs: seq<T>, key: T -> K, k: K): Option<T> {
    var ms := Members(xs, key, k);
    if ms == [] then None else Some(ms[|ms| - 1])
  }

  function AmountAt<T(!new), K(==, !new)>(xs: seq<T>, key: T -> K, w: T -> int, k: K): int {
    var found := Lookup(xs, key, k);
    if found.Some? then w(found.value) else 0
  }

  lemma {:induction false} OnlyMember<T(!new), K(!new)>(xs: seq<T>, key: T -> K, k: K)
    requires NoDuplicates(Map(xs, key))
    ensures |Members(xs, key, k)| <= 1
  {
    if xs != [] {
      var init, last := xs[..|xs| - 1], xs[|xs| - 1];
      assert Map(init, key) == Map(xs, key)[..|init|];
      OnlyMember(init, key, k);
      forall i | 0 <= i < |init| ensures key(init[i]) != key(last) {
        assert Map(xs, key)[i] != Map(xs, key)[|init|];
      }
      MembersEmpty(init, key, k);
      KeysExact(init, key, k);
    }
  }

  lemma {:induction false} LookupsByOwner<T(!new), K(!new)>(xs: seq<T>, key: T -> K, w: T -> int, keys: seq<K>)
    requires NoDuplicates(Map(xs, key))
    ensures SumBy(keys, (k: K) => AmountAt(xs, key, w, k)) == SumMembers(xs, keys, key, w)
  {
    if keys != [] {
      var init, last := keys[..|keys| - 1], keys[|keys| - 1];
      LookupsByOwner(xs, key, w, init);
      OnlyMember(xs, key, last);
      var ms := Members(xs, key, last);
      if ms != [] {
        assert ms == [] + [ms[0]];
        SumSnoc([], ms[0], w);
      }
    }
  }

  /** Looking every key up once, over keys that cover a list of distinctly keyed elements, finds everything. */
  lemma LookupsFindEverything<T(!new), K(!new)>(xs: seq<T>, key: T -> K, w: T -> int, keys: seq<K>)
    requires NoDuplicates(Map(xs, key)) && NoDuplicates(keys)
    requires forall x :: x in xs ==> key(x) in keys
    ensures SumBy(keys, (k: K) => AmountAt(xs, key, w, k)) == SumBy(xs, w)
  {
    LookupsByOwner(xs, key, w, keys);
    SumByOwner(xs, keys, key, w);
  }

  // ---------------------------------------------------------------- the comparison with the scheme's memo

  function Same(r: LineRef): LineRef { r }

  /** Every reference on either side, once. */
  function RefsOf(expected: seq<ExpectedLine>, memo: seq<SchemeLine>): seq<LineRef> {
    Keys(Map(expected, ExpectedRef) + Map(memo, SchemeRef), Same)
  }

  function Compare(expected: seq<ExpectedLine>, memo: seq<SchemeLine>, threshold: nat, ref: LineRef): DiffLine {
    var own, scheme := Lookup(expected, ExpectedRef, ref), Lookup(memo, SchemeRef, ref);
    var e, m := if own.Some? then own.value.amount else 0, if scheme.Some? then scheme.value.amount else 0;
    DiffLine(ref, if own.Some? then own.value.units else 0, if scheme.Some? then scheme.value.units else 0, e, m, m - e,
             Abs(m - e) > threshold, if own.Some? && scheme.Some? then Both else if own.Some? then ExpectedOnly
                 else MemoOnly)
  }

  function CompareFor(expected: seq<ExpectedLine>, memo: seq<SchemeLine>, threshold: nat): LineRef -> DiffLine {
    (ref: LineRef) => Compare(expected, memo, threshold, ref)
  }

  function ExpectedOf(l: DiffLine): int { l.expected }

  function MemoOf(l: DiffLine): int { l.memo }

  function VarianceOf(l: DiffLine): int { l.variance }

  function GrossVarianceOf(l: DiffLine): int { Abs(l.variance) }

  predicate IsBreak(l: DiffLine) { l.material }

  predicate IsMatched(l: DiffLine) { !l.material }

  function DiffOf(expected: seq<ExpectedLine>, memo: seq<SchemeLine>, threshold: nat): MemoDiff {
    var lines := Map(RefsOf(expected, memo), CompareFor(expected, memo, threshold));
    MemoDiff(lines, |Keep(lines, IsMatched)|, |Keep(lines, IsBreak)|, SumBy(lines, ExpectedOf), SumBy(lines, MemoOf),
             SumBy(lines, VarianceOf), SumBy(lines, GrossVarianceOf))
  }

  function LineError(before: seq<SchemeLine>, l: SchemeLine): Option<Error> {
    if Blank(l.tppId) then Some(BlankCounterparty)
    else if l.units < 0 || l.amount < 0 then Some(NegativeFigure)
    else if SchemeRef(l) in Map(before, SchemeRef) then Some(RepeatedLine(SchemeRef(l)))
    else None
  }

  function FirstError(lines: seq<SchemeLine>): Option<Error> {
    if lines == [] then None
    else
      var before := FirstError(lines[..|lines| - 1]);
      if before.Some? then before else LineError(lines[..|lines| - 1], lines[|lines| - 1])
  }

  lemma {:induction false} FirstErrorPersists(lines: seq<SchemeLine>, i: nat)
    requires i <= |lines| && FirstError(lines[..i]).Some?
    ensures FirstError(lines) == FirstError(lines[..i])
    decreases |lines| - i
  {
    if i < |lines| {
      assert lines[..i + 1][..i] == lines[..i];
      FirstErrorPersists(lines, i + 1);
    } else {
      assert lines[..i] == lines;
    }
  }

  /** Refused at the first line that is unnamed, negative or already seen. */
  method ValidateMemo(lines: seq<SchemeLine>) returns (refused: Option<Error>)
    ensures refused == FirstError(lines)
  {
    var seen: set<LineRef> := {};
    for i := 0 to |lines|
      invariant FirstError(lines[..i]).None?
      invariant forall r :: r in seen <==> r in Map(lines[..i], SchemeRef)
    {
      var l := lines[i];
      assert lines[..i + 1] == lines[..i] + [l] && lines[..i + 1][..i] == lines[..i];
      MapSnoc(lines[..i], l, SchemeRef);
      if Blank(l.tppId) || l.units < 0 || l.amount < 0 || LineRef(l.tppId, l.feeClass) in seen {
        FirstErrorPersists(lines, i + 1);
        return LineError(lines[..i], l);
      }
      seen := seen + {LineRef(l.tppId, l.feeClass)};
    }
    assert lines[..|lines|] == lines;
    refused := None;
  }

  lemma {:induction false} AcceptedLinesAreDistinct(lines: seq<SchemeLine>)
    requires FirstError(lines).None?
    ensures NoDuplicates(Map(lines, SchemeRef))
  {
    if lines != [] {
      var init := lines[..|lines| - 1];
      AcceptedLinesAreDistinct(init);
      assert Map(lines, SchemeRef) == Map(init, SchemeRef) + [SchemeRef(lines[|lines| - 1])];
    }
  }

  lemma RefsCover(expected: seq<ExpectedLine>, memo: seq<SchemeLine>)
    ensures forall l :: l in expected ==> l.ref in RefsOf(expected, memo)
    ensures forall l :: l in memo ==> SchemeRef(l) in RefsOf(expected, memo)
  {
    var all := Map(expected, ExpectedRef) + Map(memo, SchemeRef);
    forall l | l in expected ensures l.ref in RefsOf(expected, memo) {
      MapIn(expected, l, ExpectedRef);
      assert l.ref in all && Same(l.ref) == l.ref;
      KeysExact(all, Same, l.ref);
    }
    forall l | l in memo ensures SchemeRef(l) in RefsOf(expected, memo) {
      MapIn(memo, l, SchemeRef);
      assert SchemeRef(l) in all && Same(SchemeRef(l)) == SchemeRef(l);
      KeysExact(all, Same, SchemeRef(l));
    }
  }

  lemma {:induction false} GrossCoversNet(lines: seq<DiffLine>)
    requires forall l :: l in lines ==> l.variance == l.memo - l.expected
    ensures SumBy(lines, VarianceOf) == SumBy(lines, MemoOf) - SumBy(lines, ExpectedOf)
    ensures Abs(SumBy(lines, VarianceOf)) <= SumBy(lines, GrossVarianceOf)
  {
    if lines != [] {
      assert lines[|lines| - 1] in lines;
      GrossCoversNet(lines[..|lines| - 1]);
    }
  }

  /** The comparison covers both memos: its totals are theirs, its net variance is their difference, and opposing
      variances do not hide in the gross one. */
  lemma {:induction false} ComparisonCoversBoth(expected: seq<ExpectedLine>, memo: seq<SchemeLine>, threshold: nat)
    requires NoDuplicates(Map(expected, ExpectedRef)) && FirstError(memo).None?
    ensures var d := DiffOf(expected, memo, threshold);
      && d.expectedTotal == SumBy(expected, ExpectedAmount)
      && d.memoTotal == SumBy(memo, SchemeAmount)
      && d.netVariance == SumBy(memo, SchemeAmount) - SumBy(expected, ExpectedAmount)
      && Abs(d.netVariance) <= d.grossVariance
  {
    var refs, compare := RefsOf(expected, memo), CompareFor(expected, memo, threshold);
    var e := (k: LineRef) => AmountAt(expected, ExpectedRef, ExpectedAmount, k);
    var m := (k: LineRef) => AmountAt(memo, SchemeRef, SchemeAmount, k);
    AcceptedLinesAreDistinct(memo);
    RefsCover(expected, memo);
    LookupsFindEverything(expected, ExpectedRef, ExpectedAmount, refs);
    LookupsFindEverything(memo, SchemeRef, SchemeAmount, refs);
    SumOfMap(refs, compare, ExpectedOf, e);
    SumOfMap(refs, compare, MemoOf, m);
    SumCongruence(refs, e, (k: LineRef) => AmountAt(expected, ExpectedRef, ExpectedAmount, k));
    SumCongruence(refs, m, (k: LineRef) => AmountAt(memo, SchemeRef, SchemeAmount, k));
    GrossCoversNet(Map(refs, compare));
  }

  /** The two memos agree at a reference to within the threshold; a missing line is for nothing. */
  ghost predicate CloseAt(expected: seq<ExpectedLine>, memo: seq<SchemeLine>, threshold: nat, r: LineRef) {
    Abs(AmountAt(memo, SchemeRef, SchemeAmount, r) - AmountAt(expected, ExpectedRef, ExpectedAmount, r)) <= threshold
  }

  lemma BreaksAmong(expected: seq<ExpectedLine>, memo: seq<SchemeLine>, threshold: nat, refs: seq<LineRef>)
    ensures Keep(Map(refs, CompareFor(expected, memo, threshold)), IsBreak) == [] <==>
      forall r :: r in refs ==> CloseAt(expected, memo, threshold, r)
  {
    var lines := Map(refs, CompareFor(expected, memo, threshold));
    KeepNothing(lines, IsBreak);
    forall i | 0 <= i < |refs| ensures IsBreak(lines[i]) <==> !CloseAt(expected, memo, threshold, refs[i]) {
    }
    forall r | r in refs ensures Compare(expected, memo, threshold, r) in lines {
      MapIn(refs, r, CompareFor(expected, memo, threshold));
    }
  }

  /** No break is raised exactly when the two memos agree, reference by reference, to within the threshold. */
  lemma NoBreaksExactlyWhenClose(expected: seq<ExpectedLine>, memo: seq<SchemeLine>, threshold: nat)
    ensures DiffOf(expected, memo, threshold).breaks == 0
      <==> forall r: LineRef :: CloseAt(expected, memo, threshold, r)
  {
    BreaksAmong(expected, memo, threshold, RefsOf(expected, memo));
    forall r | r !in RefsOf(expected, memo) ensures CloseAt(expected, memo, threshold, r) {
      AbsentIsNothing(expected, memo, r);
    }
  }

  /** Every reference of either memo is either matched or a break, and counted once. */
  lemma EveryReferenceIsJudgedOnce(expected: seq<ExpectedLine>, memo: seq<SchemeLine>, threshold: nat)
    ensures var d := DiffOf(expected, memo, threshold);
      d.matched + d.breaks == |d.lines| && NoDuplicates(Map(d.lines, DiffRef))
    ensures forall r :: r in Map(DiffOf(expected, memo, threshold).lines, DiffRef) <==>
      r in Map(expected, ExpectedRef) || r in Map(memo, SchemeRef)
  {
    var refs := RefsOf(expected, memo);
    var lines := Map(refs, CompareFor(expected, memo, threshold));
    KeepSplits(lines, IsMatched, IsBreak);
    assert |multiset(Keep(lines, IsMatched)) + multiset(Keep(lines, IsBreak))| == |multiset(lines)|;
    assert Map(lines, DiffRef) == refs;
    forall r ensures r in refs <==> r in Map(expected, ExpectedRef) + Map(memo, SchemeRef) {
      KeysExact(Map(expected, ExpectedRef) + Map(memo, SchemeRef), Same, r);
    }
  }

  function DiffRef(l: DiffLine): LineRef { l.ref }

  /** A compared line says on which side its reference stands. */
  lemma PresenceIsExact(expected: seq<ExpectedLine>, memo: seq<SchemeLine>, threshold: nat, r: LineRef)
    requires r in RefsOf(expected, memo)
    ensures Compare(expected, memo, threshold, r).presence ==
      if r !in Keys(memo, SchemeRef) then ExpectedOnly else if r !in Keys(expected, ExpectedRef) then MemoOnly else Both
  {
    MembersEmpty(expected, ExpectedRef, r);
    MembersEmpty(memo, SchemeRef, r);
    RefIsSomewhere(expected, memo, r);
  }

  lemma RefIsSomewhere(expected: seq<ExpectedLine>, memo: seq<SchemeLine>, r: LineRef)
    requires r in RefsOf(expected, memo)
    ensures r in Keys(expected, ExpectedRef) || r in Keys(memo, SchemeRef)
  {
    KeysExact(Map(expected, ExpectedRef) + Map(memo, SchemeRef), Same, r);
    KeysExact(expected, ExpectedRef, r);
    KeysExact(memo, SchemeRef, r);
    if r in Map(expected, ExpectedRef) {
      var i :| 0 <= i < |expected| && expected[i].ref == r;
      assert expected[i] in expected;
    } else {
      var i :| 0 <= i < |memo| && SchemeRef(memo[i]) == r;
      assert memo[i] in memo;
    }
  }

  lemma AbsentIsNothing(expected: seq<ExpectedLine>, memo: seq<SchemeLine>, r: LineRef)
    ensures r !in RefsOf(expected, memo) ==>
      AmountAt(memo, SchemeRef, SchemeAmount, r) == 0 && AmountAt(expected, ExpectedRef, ExpectedAmount, r) == 0
  {
    RefsCover(expected, memo);
    KeysExact(expected, ExpectedRef, r);
    KeysExact(memo, SchemeRef, r);
    MembersEmpty(expected, ExpectedRef, r);
    MembersEmpty(memo, SchemeRef, r);
  }

  // ---------------------------------------------------------------- re-rating a closed period

  datatype Delta = Delta(ref: LineRef, previous: int, corrected: int, delta: int)

  function DeltaAt(previous: seq<ExpectedLine>, corrected: seq<ExpectedLine>): LineRef -> Delta {
    (r: LineRef) =>
      var p, c := AmountAt(previous, ExpectedRef, ExpectedAmount, r),
          AmountAt(corrected, ExpectedRef, ExpectedAmount, r);
      Delta(r, p, c, c - p)
  }

  /** One delta for every reference of either rating. */
  function Deltas(previous: seq<ExpectedLine>, corrected: seq<ExpectedLine>): seq<Delta> {
    Map(Keys(Map(previous, ExpectedRef) + Map(corrected, ExpectedRef), Same), DeltaAt(previous, corrected))
  }

  function DeltaOf(d: Delta): int { d.delta }

  /** The line deltas of a re-rating add up to the difference of the two totals. */
  lemma DeltasExplainTheTotal(before: seq<Rating.PricedLine>, after: seq<Rating.PricedLine>)
    ensures SumBy(Deltas(ExpectedMemo(before), ExpectedMemo(after)), DeltaOf)
      == SumBy(ExpectedMemo(after), ExpectedAmount) - SumBy(ExpectedMemo(before), ExpectedAmount)
  {
    MemoLinesAreDistinct(before);
    MemoLinesAreDistinct(after);
    DeltasOfDistinct(ExpectedMemo(before), ExpectedMemo(after));
  }

  lemma {:induction false} DeltasOfDistinct(previous: seq<ExpectedLine>, corrected: seq<ExpectedLine>)
    requires NoDuplicates(Map(previous, ExpectedRef)) && NoDuplicates(Map(corrected, ExpectedRef))
    ensures SumBy(Deltas(previous, corrected), DeltaOf) == SumBy(corrected, ExpectedAmount)
      - SumBy(previous, ExpectedAmount)
  {
    var all := Map(previous, ExpectedRef) + Map(corrected, ExpectedRef);
    var refs := Keys(all, Same);
    var p := (k: LineRef) => AmountAt(previous, ExpectedRef, ExpectedAmount, k);
    var c := (k: LineRef) => AmountAt(corrected, ExpectedRef, ExpectedAmount, k);
    var d := (k: LineRef) => DeltaAt(previous, corrected)(k).delta;
    Covered(previous, all);
    Covered(corrected, all);
    LookupsFindEverything(previous, ExpectedRef, ExpectedAmount, refs);
    LookupsFindEverything(corrected, ExpectedRef, ExpectedAmount, refs);
    SumCongruence(refs, p, (k: LineRef) => AmountAt(previous, ExpectedRef, ExpectedAmount, k));
    SumCongruence(refs, c, (k: LineRef) => AmountAt(corrected, ExpectedRef, ExpectedAmount, k));
    SumOfMap(refs, DeltaAt(previous, corrected), DeltaOf, d);
    SumLinear(refs, p, d, c);
  }

  lemma Covered(lines: seq<ExpectedLine>, all: seq<LineRef>)
    requires forall r :: r in Map(lines, ExpectedRef) ==> r in all
    ensures forall l :: l in lines ==> l.ref in Keys(all, Same)
  {
    forall l | l in lines ensures l.ref in Keys(all, Same) {
      MapIn(lines, l, ExpectedRef);
      assert Same(l.ref) == l.ref;
      KeysExact(all, Same, l.ref);
    }
  }
}
