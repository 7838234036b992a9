/** What a reconciliation reports of a whole run, told by its input and its own breaks. */
module RunFigures {
  import opened Collections
  import opened PayableReconciliation
  import opened ReconciliationTheorems
  import opened ReconciliationRollup

  /** A line that can be held against an expectation: no penalty, and of a known fee class. */
  predicate IsComparable(l: DocumentLine) {
    l.sourceCategory != "Late Payment Penalty" && l.mapped && l.feeClass.Some?
  }

  function ComparableNet(l: DocumentLine): int { if IsComparable(l) then l.net else 0 }

  /** What a document of the period charges net on such lines, and any other nothing. */
  function ChargedNet(period: string): Document -> int {
    (d: Document) => if d.period == period then SumBy(d.lines, ComparableNet) else 0
  }

  lemma ChargesOfDocument(d: Document, late: set<string>)
    ensures SumBy(ChargesOf(late)(d), OfCharge(Measure.Net)) == SumBy(d.lines, ComparableNet)
  {
    AggregateConserves(Measure.Net, d, PriceableLines(d, late));
    SumOfKept(d.lines, Disposed(d.period, late, Priceable), OfLine(Measure.Net, d.id), ComparableNet);
  }

  lemma {:induction false} ChargesOfDocuments(ds: seq<Document>, period: string, late: set<string>)
    ensures SumBy(Flatten(Map(Keep(ds, InPeriod(period)), ChargesOf(late))), OfCharge(Measure.Net))
      == SumBy(ds, ChargedNet(period))
  {
    if ds != [] {
      var init, d := ds[..|ds| - 1], ds[|ds| - 1];
      ChargesOfDocuments(init, period, late);
      ChargesOfDocument(d, late);
      if d.period == period {
        var kept := Keep(init, InPeriod(period));
        MapSnoc(kept, d, ChargesOf(late));
        FlattenSnoc(Map(kept, ChargesOf(late)), ChargesOf(late)(d));
        SumConcat(Flatten(Map(kept, ChargesOf(late))), ChargesOf(late)(d), OfCharge(Measure.Net));
      }
    }
  }

  lemma ActualIsComparable(input: Input, w: Work)
    requires Partitions(input, w)
    ensures ActualTotal(w) == SumBy(w.comparable, OfCharge(Measure.Net))
  {
    ChargesFiled(input, w, Measure.Net);
    SumCongruence(w.duplicates, OfCharge(Measure.Net), NetOfCharge);
    SumCongruence(w.pairs, OfPair(Measure.Net), ClaimedNet);
    SumCongruence(w.pairing.pairs, OfPair(Measure.Net), ClaimedNet);
    SumCongruence(w.pairing.chargesLeft, OfCharge(Measure.Net), NetOfCharge);
  }

  function NetExpected(e: ExpectedLine): int { e.net }

  function Unsigned(b: Break): int { if b.variance < 0 then -b.variance else b.variance }

  /** For every run: the expected total is that of the expected lines, the actual one what the period's documents charge
      on comparable lines, the net variance their difference and the gross one the sum over the breaks. */
  lemma {:induction false} TotalsAreOfTheInput(input: Input)
    requires Refusal(input).None?
    ensures var r := Reconciled(input, WorkOf(input));
      && r.expectedTotalNet == SumBy(input.expectedLines, NetExpected)
      && r.actualTotalNet == SumBy(input.documents, ChargedNet(input.period))
      && r.netVariance == r.actualTotalNet - r.expectedTotalNet
      && r.grossVariance == SumBy(r.breaks, Unsigned)
  {
    var w := WorkOf(input);
    RunPartitions(input);
    ExpectedTotalIsSum(input, w);
    SumCongruence(input.expectedLines, NetOfExpected, NetExpected);
    ActualIsComparable(input, w);
    ChargesOfDocuments(input.documents, input.period, input.latePaidPeriods);
    SumCongruence(Breaks(input, w), GrossVariance, Unsigned);
  }

  function Restates(b: Break): int { if b.presence == DocumentOnly then 0 else 1 }

  function One(): ExpectedLine -> int {
    (e: ExpectedLine) => 1
  }

  lemma EachCountsOne(matched: seq<Pair>, breaks: seq<Break>)
    ensures SumBy(matched, OwnValue(One())) == |matched|
    ensures SumBy(breaks, OwnSide(One())) == SumBy(breaks, Restates)
  {
    SumOnes(matched, OwnValue(One()));
    SumCongruence(breaks, OwnSide(One()), Restates);
  }

  /** For every run: the matched lines and the breaks about an expected line number the expected lines. */
  lemma MatchesAndBreaksNumberTheExpected(input: Input)
    requires Refusal(input).None?
    ensures var r := Reconciled(input, WorkOf(input));
      r.matchedLineCount + SumBy(r.breaks, Restates) == |input.expectedLines|
  {
    var w := WorkOf(input);
    EverythingExpectedIsAccountedForOnce(input, One());
    SumOnes(input.expectedLines, One());
    EachCountsOne(Matched(input, w), Breaks(input, w));
  }

  /** The report is for the period, the tolerance and the documents it was asked about, with one row for each document
      in order, whose variance is the difference of its nets. */
  lemma ReportIsOfTheInput(input: Input, i: nat)
    requires input.documents != [] && i < |input.documents|
    ensures var r := Reconciled(input, WorkOf(input));
      && r.period == input.period && r.tolerance == input.tolerance
      && |r.documentIds| == |r.perDocument| == |input.documents|
      && r.documentIds[i] == r.perDocument[i].documentId == input.documents[i].id
      && r.perDocument[i].documentReference == input.documents[i].reference
      && r.perDocument[i].netVariance == r.perDocument[i].actualNet - r.perDocument[i].expectedNet
  {
  }

  /** A row counts and adds up the breaks that name its document. */
  lemma RowsCountTheirBreaks(input: Input, i: nat)
    requires input.documents != [] && i < |input.documents|
    ensures var r := Reconciled(input, WorkOf(input));
      var mine := Keep(r.breaks, (b: Break) => b.documentId == input.documents[i].id);
      r.perDocument[i].breakCount == |mine| && r.perDocument[i].grossVariance == SumBy(mine, Unsigned)
  {
    var d, breaks := input.documents[i], Breaks(input, WorkOf(input));
    var mine := (b: Break) => b.documentId == input.documents[i].id;
    MembersAreKept(breaks, DocumentOfBreak, d.id, mine);
    KeepCongruence(breaks, mine, (b: Break) => b.documentId == input.documents[i].id);
    SumCongruence(Members(breaks, DocumentOfBreak, d.id), GrossVariance, Unsigned);
  }

  /** Two expected lines are for one counterparty and fee class. */
  ghost predicate Repeats(lines: seq<ExpectedLine>) {
    exists i, j ::
      && 0 <= i < j < |lines| && lines[i].recipientType == lines[j].recipientType
      && lines[i].recipientId == lines[j].recipientId && lines[i].feeClass == lines[j].feeClass
  }

  /** A run is refused exactly for having no document, a negative threshold, no query window or a repeated expectation,
      in that order. */
  lemma {:induction false} RunRefusedExactly(input: Input)
    ensures Refusal(input) ==
      if |input.documents| == 0 then Some(NoDocuments)
      else if input.tolerance < 0 then Some(BadTolerance)
      else if input.materiality < 0 then Some(BadMateriality)
      else if input.queryWindowDays < 1 then Some(BadQueryWindow)
      else if Repeats(input.expectedLines) then Some(DuplicateExpectedLine)
      else None
  {
    var lines := input.expectedLines;
    var keys := Map(lines, KeyOfExpected);
    forall i, j | 0 <= i < j < |lines|
      ensures keys[i] == keys[j]
        <==> (lines[i].recipientType == lines[j].recipientType && lines[i].recipientId == lines[j].recipientId
              && lines[i].feeClass == lines[j].feeClass)
    {
    }
  }
}
