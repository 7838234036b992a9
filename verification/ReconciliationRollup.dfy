/** How the rows of a reconciliation add up to the run, what every break's figures satisfy, and when the query
    window is reported open. */
module ReconciliationRollup {
  import opened Collections
  import opened PayableReconciliation
  import opened ReconciliationTheorems
  import opened ReconciliationVerdicts

  // ---------------------------------------------------------------- a rule for every break of a run

  lemma {:induction false} EveryRefusedBreak(ds: seq<Document>, late: set<string>, p: Break -> bool)
    requires forall d, l :: d in ds && l in d.lines && Refused(d.period, late)(l) ==> p(RefusedBreak(d, late)(l))
    ensures forall b :: b in Flatten(Map(ds, LineBreaks(late))) ==> p(b)
  {
    if ds != [] {
      var n := |ds| - 1;
      assert ds[..n + 1] == ds;
      FlattenMapSnoc(ds, n, LineBreaks(late));
      EveryRefusedBreak(ds[..n], late, p);
      var d := ds[n];
      KeepExact(d.lines, Refused(d.period, late));
      assert LineBreaks(late)(d) == Map(Keep(d.lines, Refused(d.period, late)), RefusedBreak(d, late));
    }
  }

  lemma EveryMapped<T, U(!new)>(xs: seq<T>, f: T -> U, p: U -> bool)
    requires forall x :: x in xs ==> p(f(x))
    ensures forall y :: y in Map(xs, f) ==> p(y)
  {
    forall y | y in Map(xs, f) ensures p(y) {
      var i :| 0 <= i < |xs| && Map(xs, f)[i] == y;
      assert xs[i] in xs;
    }
  }

  lemma EveryProviderBreak(input: Input, w: Work, p: Break -> bool)
    requires forall d :: d in input.documents && d.period != input.period ==> p(PeriodBreak(d))
    requires forall d, l :: d in w.inPeriod && l in d.lines && Refused(d.period, input.latePaidPeriods)(l) ==>
      p(RefusedBreak(d, input.latePaidPeriods)(l))
    requires forall c :: c in w.duplicates ==> p(ChargeBreak(DuplicateCharge)(c))
    ensures forall b :: b in ProviderBreaks(input, w) ==> p(b)
  {
    KeepExact(input.documents, OffPeriod(input.period));
    EveryMapped(Keep(input.documents, OffPeriod(input.period)), PeriodBreak, p);
    EveryRefusedBreak(w.inPeriod, input.latePaidPeriods, p);
    EveryMapped(w.duplicates, ChargeBreak(DuplicateCharge), p);
  }

  lemma EveryMatchBreak(input: Input, w: Work, p: Break -> bool)
    requires input.documents != []
    requires forall q ::
      q in w.pairs && Variance(input.tolerance, q).Some? ==> p(PairBreak(q, Variance(input.tolerance, q).value))
    requires forall q :: q in w.pairing.pairs ==> p(RecipientBreak(q))
    requires forall e :: e in w.pairing.expectedLeft ==>
      p(MissingBreak(input.period, input.categoryMap, Fallback(w.inPeriod, input.documents))(e))
    requires forall c :: c in w.pairing.chargesLeft ==> p(ChargeBreak(UnexpectedCharge)(c))
    ensures forall b :: b in MatchBreaks(input, w) ==> p(b)
  {
    KeepExact(w.pairs, Differs(input.tolerance));
    EveryMapped(Keep(w.pairs, Differs(input.tolerance)), VarianceBreak(input.tolerance), p);
    EveryMapped(w.pairing.pairs, RecipientBreak, p);
    EveryMapped(w.pairing.expectedLeft, MissingBreak(input.period, input.categoryMap,
        Fallback(w.inPeriod, input.documents)), p);
    EveryMapped(w.pairing.chargesLeft, ChargeBreak(UnexpectedCharge), p);
  }

  /** What holds of both halves before judging holds of the reported breaks. */
  lemma EveryBreak(input: Input, w: Work, p: Break -> bool, judged: Break -> bool)
    requires input.documents != []
    requires forall b :: b in ProviderBreaks(input, w) ==> p(b)
    requires forall b :: b in MatchBreaks(input, w) ==> p(b)
    requires forall b :: p(b) ==> judged(Judged(input.materiality)(b))
    ensures forall b :: b in Breaks(input, w) ==> judged(b)
  {
    EveryMapped(RawBreaks(input, w), Judged(input.materiality), judged);
  }

  // ---------------------------------------------------------------- every break's figures

  /** A break's variance is its own two amounts' difference, and a side that asserts nothing states zero. */
  predicate Consistent(b: Break) {
    && b.variance == b.actualNet - b.expectedNet
    && (b.presence == DocumentOnly ==> b.expectedUnits == 0 && b.expectedNet == 0 && b.expectedVat == 0)
    && (b.presence == ExpectedOnly ==> b.actualUnits == 0 && b.actualNet == 0 && b.actualVat == 0)
    && b.lineType == (if b.recipientType == Nebras then NebrasFees else LfiAccessLog)
  }

  ghost predicate AllConsistent(breaks: seq<Break>) {
    forall b :: b in breaks ==> Consistent(b)
  }

  lemma ProviderBreaksConsistent(input: Input, w: Work)
    ensures forall b :: b in ProviderBreaks(input, w) ==> Consistent(b)
  {
    EveryProviderBreak(input, w, Consistent);
  }

  lemma MatchBreaksConsistent(input: Input, w: Work)
    requires input.documents != []
    ensures forall b :: b in MatchBreaks(input, w) ==> Consistent(b)
  {
    EveryMatchBreak(input, w, Consistent);
  }

  lemma ConsistentBreaks(input: Input, w: Work)
    requires input.documents != []
    ensures AllConsistent(Breaks(input, w))
  {
    ProviderBreaksConsistent(input, w);
    MatchBreaksConsistent(input, w);
    EveryBreak(input, w, Consistent, Consistent);
  }

  lemma {:induction false} BreaksAreConsistent(input: Input)
    requires input.documents != []
    ensures forall b :: b in Reconciled(input, WorkOf(input)).breaks ==> Consistent(b)
  {
    ConsistentBreaks(input, WorkOf(input));
  }

  // ---------------------------------------------------------------- rows

  /** The row figure `f` is the sum of `u` over the row's matches and of `v` over its breaks. */
  ghost predicate AddsUp(f: Row -> int, u: Pair -> int, v: Break -> int) {
    forall matched, breaks, d ::
      (f(RowOf(matched, breaks, d)) == SumBy(Members(matched, DocumentOfPair, d.id), u)
          + SumBy(Members(breaks, DocumentOfBreak, d.id), v))
  }

  lemma {:induction false} RowSums(
    ds: seq<Document>, matched: seq<Pair>, breaks: seq<Break>, f: Row -> int, u: Pair -> int, v: Break -> int)
    requires AddsUp(f, u, v)
    ensures SumBy(Map(ds, RowFor(matched, breaks)), f) ==
      SumMembers(matched, Map(ds, IdOf), DocumentOfPair, u) + SumMembers(breaks, Map(ds, IdOf), DocumentOfBreak, v)
  {
    if ds != [] {
      var n := |ds| - 1;
      var rows, ids := Map(ds, RowFor(matched, breaks)), Map(ds, IdOf);
      assert rows[..n] == Map(ds[..n], RowFor(matched, breaks)) && ids[..n] == Map(ds[..n], IdOf);
      RowSums(ds[..n], matched, breaks, f, u, v);
    }
  }

  ghost predicate Known(input: Input, id: string) {
    id in Map(input.documents, IdOf)
  }

  function FiledUnder(ids: seq<string>): Break -> bool {
    (b: Break) => b.documentId in ids
  }

  lemma DocumentKnown(input: Input, d: Document)
    requires d in input.documents
    ensures Known(input, d.id)
  {
    var i :| 0 <= i < |input.documents| && input.documents[i] == d;
    assert Map(input.documents, IdOf)[i] == d.id;
  }

  lemma ChargeKnown(input: Input, c: Charge)
    requires c in WorkOf(input).comparable
    ensures Known(input, c.documentId)
  {
    ComparableExact(WorkOf(input).inPeriod, input.latePaidPeriods, c);
    var d :| d in WorkOf(input).inPeriod && c == ChargeFor(d, PriceableLines(d, input.latePaidPeriods))(c.key);
    KeepExact(input.documents, InPeriod(input.period));
    DocumentKnown(input, d);
  }

  /** Every collection of charges and pairs in a run cites the run's own charges. */
  lemma {:induction false} ChargesKnown(input: Input)
    requires UniqueKeys(input.expectedLines)
    ensures var w := WorkOf(input);
      && (forall c :: c in w.duplicates || c in w.pairing.chargesLeft ==> Known(input, c.documentId))
      && (forall q :: q in w.pairs || q in w.pairing.pairs ==> Known(input, q.claimed.documentId))
  {
    var w := WorkOf(input);
    RunPartitions(input);
    forall c | c in w.duplicates || c in w.unmatchedCharges || c in w.primary ensures Known(input, c.documentId) {
      assert c in multiset(w.primary) || c in multiset(w.duplicates);
      assert c in multiset(w.comparable);
      ChargeKnown(input, c);
    }
    forall c | c in w.pairing.chargesLeft ensures c in w.unmatchedCharges {
      assert c in multiset(w.pairing.chargesLeft);
      assert c in multiset(w.unmatchedCharges);
    }
    forall q | q in w.pairs ensures q.claimed in w.primary {
      ClaimedIn(w.pairs, q);
      assert q.claimed in multiset(w.primary);
    }
    forall q | q in w.pairing.pairs ensures q.claimed in w.unmatchedCharges {
      ClaimedIn(w.pairing.pairs, q);
      assert q.claimed in multiset(w.unmatchedCharges);
    }
  }

  lemma ClaimedIn(ps: seq<Pair>, q: Pair)
    requires q in ps
    ensures q.claimed in multiset(Map(ps, ClaimOf))
  {
    var i :| 0 <= i < |ps| && ps[i] == q;
    assert Map(ps, ClaimOf)[i] == q.claimed;
  }

  lemma BreaksKnown(input: Input)
    requires Refusal(input).None?
    ensures forall b :: b in Breaks(input, WorkOf(input)) ==> Known(input, b.documentId)
  {
    var w, p := WorkOf(input), FiledUnder(Map(input.documents, IdOf));
    ChargesKnown(input);
    KeepExact(input.documents, InPeriod(input.period));
    forall d | d in input.documents ensures Known(input, d.id) { DocumentKnown(input, d); }
    EveryProviderBreak(input, w, p);
    assert Fallback(w.inPeriod, input.documents) in input.documents;
    EveryMatchBreak(input, w, p);
    EveryBreak(input, w, p, p);
  }

  /** Any figure a row adds up from its own matches and breaks adds up over the rows to the run's. */
  lemma {:induction false} RowsAddUp(input: Input, f: Row -> int, u: Pair -> int, v: Break -> int)
    requires Refusal(input).None? && NoDuplicates(Map(input.documents, IdOf))
    requires AddsUp(f, u, v)
    ensures var w := WorkOf(input);
      SumBy(Map(input.documents, RowFor(Matched(input, w), Breaks(input, w))), f) ==
      SumBy(Matched(input, w), u) + SumBy(Breaks(input, w), v)
  {
    var w := WorkOf(input);
    var matched, breaks := Matched(input, w), Breaks(input, w);
    RowSums(input.documents, matched, breaks, f, u, v);
    ChargesKnown(input);
    BreaksKnown(input);
    KeepExact(w.pairs, Agrees(input.tolerance));
    SumByOwner(matched, Map(input.documents, IdOf), DocumentOfPair, u);
    SumByOwner(breaks, Map(input.documents, IdOf), DocumentOfBreak, v);
  }

  function RowExpectedNet(r: Row): int { r.expectedNet }

  function RowActualNet(r: Row): int { r.actualNet }

  function RowMatched(r: Row): int { r.matchedLineCount }

  function RowBreaks(r: Row): int { r.breakCount }

  function RowGross(r: Row): int { r.grossVariance }

  function OnePair(p: Pair): int { 1 }

  function NoPair(p: Pair): int { 0 }

  function OneBreak(b: Break): int { 1 }

  function NoBreak(b: Break): int { 0 }

  lemma RowFiguresAddUp()
    ensures AddsUp(RowExpectedNet, OwnNet, ExpectedNet) && AddsUp(RowActualNet, ClaimedNet, ActualNet)
    ensures AddsUp(RowMatched, OnePair, NoBreak) && AddsUp(RowBreaks, NoPair, OneBreak)
      && AddsUp(RowGross, NoPair, GrossVariance)
  {
    forall matched, breaks, id ensures
      && SumBy(Members(matched, DocumentOfPair, id), OnePair) == |Members(matched, DocumentOfPair, id)|
      && SumBy(Members(matched, DocumentOfPair, id), NoPair) == 0
      && SumBy(Members(breaks, DocumentOfBreak, id), OneBreak) == |Members(breaks, DocumentOfBreak, id)|
      && SumBy(Members(breaks, DocumentOfBreak, id), NoBreak) == 0
    {
      SumOnes(Members(matched, DocumentOfPair, id), OnePair);
      SumZero(Members(matched, DocumentOfPair, id), NoPair);
      SumOnes(Members(breaks, DocumentOfBreak, id), OneBreak);
      SumZero(Members(breaks, DocumentOfBreak, id), NoBreak);
    }
  }

  /** What the providers claim that the run's actual total leaves out: off-period documents and refused lines. */
  function OutsideTotal(input: Input, w: Work): int {
    SumBy(Keep(input.documents, OffPeriod(input.period)), AsWhole(Measure.Net))
        + SumBy(RefusedBreaks(input, w), BreakBilled(Measure.Net))
  }

  /** The expected total restated over the run's matches and breaks. */
  lemma {:induction false} ExpectedRestated(input: Input, w: Work, matched: seq<Pair>, breaks: seq<Break>)
    requires input.documents != [] && Partitions(input, w)
    requires matched == Matched(input, w) && breaks == Breaks(input, w) && AllConsistent(breaks)
    ensures SumBy(matched, OwnNet) + SumBy(breaks, ExpectedNet) == ExpectedTotal(w)
      == SumBy(input.expectedLines, NetOfExpected)
  {
    ExpectedBalance(input, w, NetOfExpected);
    OwnNetSums(matched);
    OwnSideIsExpectedNet(breaks);
    ExpectedTotalIsSum(input, w);
  }

  lemma OwnNetSums(ps: seq<Pair>)
    ensures SumBy(ps, OwnValue(NetOfExpected)) == SumBy(ps, OwnNet)
  {
    forall p: Pair ensures OwnValue(NetOfExpected)(p) == OwnNet(p) {
      assert NetOfExpected(p.own) == p.own.net;
    }
    SumCongruence(ps, OwnValue(NetOfExpected), OwnNet);
  }

  lemma ExpectedTotalIsSum(input: Input, w: Work)
    requires Partitions(input, w)
    ensures ExpectedTotal(w) == SumBy(input.expectedLines, NetOfExpected)
  {
    ExpectedFiled(input, w, NetOfExpected);
    OwnNetSums(w.pairs);
    OwnNetSums(w.pairing.pairs);
  }

  lemma OwnSideIsExpectedNet(breaks: seq<Break>)
    requires AllConsistent(breaks)
    ensures SumBy(breaks, OwnSide(NetOfExpected)) == SumBy(breaks, ExpectedNet)
  {
    forall b | b in breaks ensures OwnSide(NetOfExpected)(b) == ExpectedNet(b) {
      assert Consistent(b);
      assert RestatedLine(b).net == b.expectedNet;
    }
    SumCongruence(breaks, OwnSide(NetOfExpected), ExpectedNet);
  }

  /** The actual total restated over the run's matches and breaks. */
  lemma {:induction false} ActualRestated(input: Input, w: Work, matched: seq<Pair>, breaks: seq<Break>)
    requires input.documents != [] && matched == Matched(input, w) && breaks == Breaks(input, w)
    ensures SumBy(matched, ClaimedNet) + SumBy(breaks, ActualNet) == ActualTotal(w) + OutsideTotal(input, w)
  {
    var net := OfPair(Measure.Net);
    BreaksBilled(input, w, Measure.Net);
    AgreeOrDiffer(w.pairs, input.tolerance, net);
    SumCongruence(w.pairs, net, ClaimedNet);
    SumCongruence(w.pairing.pairs, net, ClaimedNet);
    SumCongruence(matched, net, ClaimedNet);
    SumCongruence(w.duplicates, OfCharge(Measure.Net), NetOfCharge);
    SumCongruence(w.pairing.chargesLeft, OfCharge(Measure.Net), NetOfCharge);
    SumCongruence(breaks, BreakBilled(Measure.Net), ActualNet);
  }

  lemma ExpectedAddsUp(input: Input, w: Work, matched: seq<Pair>, breaks: seq<Break>)
    requires Refusal(input).None? && NoDuplicates(Map(input.documents, IdOf)) && w == WorkOf(input)
    requires matched == Matched(input, w) && breaks == Breaks(input, w)
    ensures SumBy(Map(input.documents, RowFor(matched, breaks)), RowExpectedNet) == ExpectedTotal(w)
      == SumBy(input.expectedLines, NetOfExpected)
  {
    ExpectedOfRun(input, w);
    RowFiguresAddUp();
    RowsAddUp(input, RowExpectedNet, OwnNet, ExpectedNet);
  }

  lemma ExpectedOfRun(input: Input, w: Work)
    requires Refusal(input).None? && w == WorkOf(input)
    ensures SumBy(Matched(input, w), OwnNet) + SumBy(Breaks(input, w), ExpectedNet) == ExpectedTotal(w)
      == SumBy(input.expectedLines, NetOfExpected)
  {
    RunPartitions(input);
    ConsistentBreaks(input, w);
    ExpectedRestated(input, w, Matched(input, w), Breaks(input, w));
  }

  lemma {:induction false} ActualAddsUp(input: Input, w: Work, matched: seq<Pair>, breaks: seq<Break>)
    requires Refusal(input).None? && NoDuplicates(Map(input.documents, IdOf)) && w == WorkOf(input)
    requires matched == Matched(input, w) && breaks == Breaks(input, w)
    ensures SumBy(Map(input.documents, RowFor(matched, breaks)), RowActualNet) == ActualTotal(w)
      + OutsideTotal(input, w)
  {
    ActualRestated(input, w, matched, breaks);
    RowFiguresAddUp();
    RowsAddUp(input, RowActualNet, ClaimedNet, ActualNet);
  }

  /** Over distinct documents the rows add up to the run: expectations, counts and gross variance exactly, and
      actual nets to the run's total plus what that total deliberately leaves out. */
  lemma {:induction false} RowsSumToRun(input: Input)
    requires Refusal(input).None? && NoDuplicates(Map(input.documents, IdOf))
    ensures var w, r := WorkOf(input), Reconciled(input, WorkOf(input));
      && SumBy(r.perDocument, RowExpectedNet) == r.expectedTotalNet == SumBy(input.expectedLines, NetOfExpected)
      && SumBy(r.perDocument, RowActualNet) == r.actualTotalNet + OutsideTotal(input, w)
      && SumBy(r.perDocument, RowMatched) == r.matchedLineCount
      && SumBy(r.perDocument, RowBreaks) == |r.breaks|
      && SumBy(r.perDocument, RowGross) == r.grossVariance
  {
    var w := WorkOf(input);
    ExpectedAddsUp(input, w, Matched(input, w), Breaks(input, w));
    ActualAddsUp(input, w, Matched(input, w), Breaks(input, w));
    CountsAddUp(input, w);
  }

  lemma CountsAddUp(input: Input, w: Work)
    requires Refusal(input).None? && NoDuplicates(Map(input.documents, IdOf)) && w == WorkOf(input)
    ensures var rows := Map(input.documents, RowFor(Matched(input, w), Breaks(input, w)));
      && SumBy(rows, RowMatched) == |Matched(input, w)|
      && SumBy(rows, RowBreaks) == |Breaks(input, w)|
      && SumBy(rows, RowGross) == SumBy(Breaks(input, w), GrossVariance)
  {
    RowFiguresAddUp();
    RowsAddUp(input, RowMatched, OnePair, NoBreak);
    RowsAddUp(input, RowBreaks, NoPair, OneBreak);
    RowsAddUp(input, RowGross, NoPair, GrossVariance);
    SumOnes(Matched(input, w), OnePair);
    SumZero(Matched(input, w), NoPair);
    SumOnes(Breaks(input, w), OneBreak);
    SumZero(Breaks(input, w), NoBreak);
  }

  // ---------------------------------------------------------------- a row's net variance

  function PairVariance(p: Pair): int { p.claimed.net - p.own.net }

  lemma {:induction false} SmallVariances(ps: seq<Pair>, tolerance: int)
    requires forall p :: p in ps ==> Abs(PairVariance(p)) <= tolerance
    ensures -(tolerance * |ps|) <= SumBy(ps, PairVariance) <= tolerance * |ps|
  {
    if ps != [] {
      var init, last := ps[..|ps| - 1], ps[|ps| - 1];
      SmallVariances(init, tolerance);
      assert Abs(PairVariance(last)) <= tolerance;
      assert tolerance * |ps| == tolerance * |init| + tolerance;
    }
  }

  lemma VarianceOfRow(ours: seq<Pair>, mine: seq<Break>, tolerance: int)
    requires forall p :: p in ours ==> Abs(PairVariance(p)) <= tolerance
    requires AllConsistent(mine)
    ensures var net := SumBy(ours, ClaimedNet) + SumBy(mine, ActualNet)
      - (SumBy(ours, OwnNet) + SumBy(mine, ExpectedNet));
      Abs(net - SumBy(mine, NetVariance)) <= tolerance * |ours|
  {
    SmallVariances(ours, tolerance);
    forall b | b in mine ensures Consistent(b) { assert Consistent(b); }
    SumLinear(mine, NetVariance, ExpectedNet, ActualNet);
    SumLinear(ours, PairVariance, OwnNet, ClaimedNet);
  }

  lemma SomeConsistent(breaks: seq<Break>, id: string)
    requires AllConsistent(breaks)
    ensures AllConsistent(Members(breaks, DocumentOfBreak, id))
  {
    forall b | b in Members(breaks, DocumentOfBreak, id) ensures Consistent(b) {
      MembersExact(breaks, DocumentOfBreak, id, b);
    }
  }

  /** The row's net variance is what its own breaks come to, up to the tolerance each of its matches absorbed. */
  ghost predicate Explains(row: Row, breaks: seq<Break>, d: Document, tolerance: int) {
    Abs(row.netVariance - SumBy(Members(breaks, DocumentOfBreak, d.id),
        NetVariance)) <= tolerance * row.matchedLineCount
  }

  lemma RowVariance(matched: seq<Pair>, breaks: seq<Break>, d: Document, tolerance: int)
    requires AllConsistent(breaks) && forall p :: p in matched ==> Abs(PairVariance(p)) <= tolerance
    ensures Explains(RowOf(matched, breaks, d), breaks, d, tolerance)
  {
    var ours := Members(matched, DocumentOfPair, d.id);
    forall p | p in ours ensures Abs(PairVariance(p)) <= tolerance {
      MembersExact(matched, DocumentOfPair, d.id, p);
    }
    SomeConsistent(breaks, d.id);
    VarianceOfRow(ours, Members(breaks, DocumentOfBreak, d.id), tolerance);
  }

  lemma MatchedWithinTolerance(pairs: seq<Pair>, tolerance: int)
    ensures forall p :: p in Keep(pairs, Agrees(tolerance)) ==> Abs(PairVariance(p)) <= tolerance
  {
    KeepExact(pairs, Agrees(tolerance));
  }

  lemma {:induction false} RowVarianceWithin(input: Input, w: Work, d: Document)
    requires input.documents != []
    ensures Explains(RowOf(Matched(input, w), Breaks(input, w), d), Breaks(input, w), d, input.tolerance)
  {
    ConsistentBreaks(input, w);
    MatchedWithinTolerance(w.pairs, input.tolerance);
    RowVariance(Matched(input, w), Breaks(input, w), d, input.tolerance);
  }

  /** Every document's row is explained by its own breaks, up to the tolerance each of its matches absorbed. */
  lemma {:induction false} RowVarianceExplained(input: Input, d: Document)
    requires input.documents != []
    ensures var w := WorkOf(input);
      Explains(RowOf(Matched(input, w), Breaks(input, w), d), Breaks(input, w), d, input.tolerance)
  {
    RowVarianceWithin(input, WorkOf(input), d);
  }

  // ---------------------------------------------------------------- the query window

  lemma {:induction false} EarliestIsLeast(ds: seq<Document>)
    requires ds != []
    ensures (exists d :: d in ds && d.issuedAt == Earliest(ds)) && forall d :: d in ds ==> Earliest(ds) <= d.issuedAt
  {
    var init, last := ds[..|ds| - 1], ds[|ds| - 1];
    assert ds == init + [last];
    if init != [] {
      EarliestIsLeast(init);
    }
  }

  lemma {:induction false} LatestIsGreatest(ds: seq<Document>)
    requires ds != []
    ensures (exists d :: d in ds && d.receivedAt == Latest(ds)) && forall d :: d in ds ==> d.receivedAt <= Latest(ds)
  {
    var init, last := ds[..|ds| - 1], ds[|ds| - 1];
    assert ds == init + [last];
    if init != [] {
      LatestIsGreatest(init);
    }
  }

  /** Every document arrives more than so many days less one before the deadline, and one of them no more than so
      many. */
  ghost predicate DaysRemain(documents: seq<Document>, window: QueryWindow) {
    && (forall d :: d in documents ==> window.deadline - d.receivedAt > 86_400_000 * (window.daysRemaining - 1))
    && (exists d :: d in documents && window.deadline - d.receivedAt <= 86_400_000 * window.daysRemaining)
  }

  /** The deadline counts from the first issue among the documents of the period, or among all when none is; and the
      window is reported open exactly while no document at all arrives a whole day past it. */
  lemma {:induction false} WindowReportedOpen(inPeriod: seq<Document>, documents: seq<Document>, days: int)
    requires documents != []
    ensures var window, anchors := Window(inPeriod, documents, days), if inPeriod != [] then inPeriod else documents;
      && (exists d :: d in anchors && window.deadline == d.issuedAt + days * DAY_MILLISECONDS)
      && (forall d :: d in anchors ==> window.deadline <= d.issuedAt + days * DAY_MILLISECONDS)
      && (window.open <==> forall d :: d in documents ==> d.receivedAt < window.deadline + DAY_MILLISECONDS)
    ensures DaysRemain(documents, Window(inPeriod, documents, days))
  {
    EarliestIsLeast(if inPeriod != [] then inPeriod else documents);
    LatestIsGreatest(documents);
  }

  /** A document received one millisecond after the deadline still leaves the window reported open. */
  lemma WindowOutlivesItsDeadline()
    ensures var d := Document("D1", "NEBRAS", "INV-1", "2026-07", 0, 30 * DAY_MILLISECONDS + 1, []);
      var window := Window([d], [d], 30);
      window.deadline < d.receivedAt && window.open
  {
  }
}
