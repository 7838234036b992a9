/** What a payable reconciliation promises: nothing billed and nothing expected is lost or reported twice. */
module ReconciliationTheorems {
  import opened Collections
  import opened PayableReconciliation

  /** Anything countable about a document line. `Citation` counts how often one line of one document is cited. */
  datatype Measure = Units | Net | Vat | Citation(documentId: string, lineRef: string)

  function LineMeasure(m: Measure, documentId: string, l: DocumentLine): int {
    match m
    case Units => l.units
    case Net => l.net
    case Vat => l.vat
    case Citation(d, r) => if documentId == d && l.lineRef == r then 1 else 0
  }

  function ChargeMeasure(m: Measure, c: Charge): int {
    match m
    case Units => c.units
    case Net => c.net
    case Vat => c.vat
    case Citation(d, r) => if c.documentId == d then multiset(c.lineRefs)[r] else 0
  }

  /** What a break says was billed. */
  function BreakMeasure(m: Measure, b: Break): int {
    match m
    case Units => b.actualUnits
    case Net => b.actualNet
    case Vat => b.actualVat
    case Citation(d, r) => if b.documentId == d && b.lineRef.ChargeRef? then multiset(b.lineRef.lineRefs)[r] else 0
  }

  function OfLine(m: Measure, documentId: string): DocumentLine -> int {
    (l: DocumentLine) => LineMeasure(m, documentId, l)
  }

  function OfCharge(m: Measure): Charge -> int {
    (c: Charge) => ChargeMeasure(m, c)
  }

  function OfPair(m: Measure): Pair -> int {
    (p: Pair) => ChargeMeasure(m, p.claimed)
  }

  function BreakBilled(m: Measure): Break -> int {
    (b: Break) => BreakMeasure(m, b)
  }

  function OfDocument(m: Measure): Document -> int {
    (d: Document) => SumBy(d.lines, OfLine(m, d.id))
  }

  /** The penalties of a document that a late payment of ours justifies. */
  function OfAccepted(m: Measure, late: set<string>): Document -> int {
    (d: Document) => SumBy(AcceptedLines(late)(d), OfLine(m, d.id))
  }

  // ---------------------------------------------------------------- lines to charges

  lemma {:induction false} CitationCount(g: seq<DocumentLine>, id: string, r: string)
    ensures multiset(Map(g, RefOfLine))[r] == SumBy(g, OfLine(Citation(id, r), id))
  {
    if g != [] {
      var init, last := g[..|g| - 1], g[|g| - 1];
      CitationCount(init, id, r);
      assert g == init + [last];
      MapSnoc(init, last, RefOfLine);
    }
  }

  lemma {:induction false} NothingCited(g: seq<DocumentLine>, m: Measure, id: string)
    requires m.Citation? && m.documentId != id
    ensures SumBy(g, OfLine(m, id)) == 0
  {
    if g != [] {
      NothingCited(g[..|g| - 1], m, id);
    }
  }

  lemma ChargeMeasures(m: Measure, d: Document, k: Key, g: seq<DocumentLine>)
    ensures OfCharge(m)(ChargeOf(d, k, g)) == SumBy(g, OfLine(m, d.id))
  {
    match m
    case Units => SumCongruence(g, UnitsOfLine, OfLine(m, d.id));
    case Net => SumCongruence(g, NetOfLine, OfLine(m, d.id));
    case Vat => SumCongruence(g, VatOfLine, OfLine(m, d.id));
    case Citation(id, r) =>
      if id == d.id {
        CitationCount(g, id, r);
      } else {
        NothingCited(g, m, d.id);
      }
  }

  /** Aggregating a document's lines by key conserves every measure. */
  lemma {:induction false} AggregateConserves(m: Measure, d: Document, lines: seq<DocumentLine>)
    ensures SumBy(Aggregated(d, lines), OfCharge(m)) == SumBy(lines, OfLine(m, d.id))
  {
    var gs, cs := Groups(lines, KeyOfLine), Aggregated(d, lines);
    var s := (g: seq<DocumentLine>) => SumBy(g, OfLine(m, d.id));
    SumOfFlatten(gs, OfLine(m, d.id), s);
    GroupsPartition(lines, KeyOfLine);
    SumPermutation(Flatten(gs), lines, OfLine(m, d.id));
    forall i | 0 <= i < |gs| ensures OfCharge(m)(cs[i]) == s(gs[i]) {
      ChargeMeasures(m, d, Keys(lines, KeyOfLine)[i], gs[i]);
    }
    SumPointwise(cs, gs, OfCharge(m), s);
  }

  lemma RefusedMeasure(m: Measure, d: Document, late: set<string>, l: DocumentLine)
    ensures BreakBilled(m)(RefusedBreak(d, late)(l)) == OfLine(m, d.id)(l)
  {
    assert multiset([l.lineRef]) == multiset{l.lineRef};
  }

  lemma RefusedConserves(m: Measure, d: Document, late: set<string>)
    ensures SumBy(LineBreaks(late)(d), BreakBilled(m)) == SumBy(Keep(d.lines, Refused(d.period, late)), OfLine(m, d.id))
  {
    forall l ensures BreakBilled(m)(RefusedBreak(d, late)(l)) == OfLine(m, d.id)(l) {
      RefusedMeasure(m, d, late, l);
    }
    SumOfMap(Keep(d.lines, Refused(d.period, late)), RefusedBreak(d, late), BreakBilled(m), OfLine(m, d.id));
  }

  lemma DispositionsPartition(lines: seq<DocumentLine>, period: string, late: set<string>, w: DocumentLine -> int)
    ensures SumBy(lines, w) ==
      SumBy(Keep(lines, Disposed(period, late, AcceptedPenalty)), w) + SumBy(Keep(lines, Refused(period, late)), w)
      + SumBy(Keep(lines, Disposed(period, late, Priceable)), w)
  {
    SumSplitsInThree(lines, Disposed(period, late, AcceptedPenalty), Refused(period, late),
        Disposed(period, late, Priceable), w);
  }

  /** Line triage conserves every measure of a document. */
  lemma {:induction false} TriageConserves(m: Measure, d: Document, late: set<string>)
    ensures OfDocument(m)(d) ==
      OfAccepted(m, late)(d) + SumBy(LineBreaks(late)(d), BreakBilled(m)) + SumBy(ChargesOf(late)(d), OfCharge(m))
  {
    var priceable := PriceableLines(d, late);
    DispositionsPartition(d.lines, d.period, late, OfLine(m, d.id));
    RefusedConserves(m, d, late);
    AggregateConserves(m, d, priceable);
    assert ChargesOf(late)(d) == Aggregated(d, priceable);
    assert AcceptedLines(late)(d) == Keep(d.lines, Disposed(d.period, late, AcceptedPenalty));
    assert OfAccepted(m, late)(d) == SumBy(AcceptedLines(late)(d), OfLine(m, d.id));
    assert OfDocument(m)(d) == SumBy(d.lines, OfLine(m, d.id));
  }

  lemma {:induction false} TriageAllConserves(m: Measure, ds: seq<Document>, late: set<string>)
    ensures SumBy(ds, OfDocument(m)) ==
      SumBy(ds, OfAccepted(m, late)) + SumBy(Flatten(Map(ds, LineBreaks(late))), BreakBilled(m))
      + SumBy(Flatten(Map(ds, ChargesOf(late))), OfCharge(m))
  {
    if ds != [] {
      var n := |ds| - 1;
      TriageAllConserves(m, ds[..n], late);
      TriageConserves(m, ds[n], late);
      assert ds[..n + 1] == ds;
      FlattenMapSnoc(ds, n, LineBreaks(late));
      FlattenMapSnoc(ds, n, ChargesOf(late));
      SumConcat(Flatten(Map(ds[..n], LineBreaks(late))), LineBreaks(late)(ds[n]), BreakBilled(m));
      SumConcat(Flatten(Map(ds[..n], ChargesOf(late))), ChargesOf(late)(ds[n]), OfCharge(m));
    }
  }

  // ---------------------------------------------------------------- charges to primaries and duplicates

  /** No two charges carry the same key. */
  ghost predicate DistinctKeys(cs: seq<Charge>) {
    NoDuplicates(Map(cs, KeyOfCharge))
  }

  /** Each key's first charge is primary, every later one a duplicate, and nothing else happens. */
  lemma DuplicatesPartition(cs: seq<Charge>)
    ensures multiset(Primary(cs)) + multiset(Duplicates(cs)) == multiset(cs)
    ensures Map(Primary(cs), KeyOfCharge) == Keys(cs, KeyOfCharge) && DistinctKeys(Primary(cs))
  {
    var gs, ks := Groups(cs, KeyOfCharge), Keys(cs, KeyOfCharge);
    HeadsAndTails(gs);
    GroupsPartition(cs, KeyOfCharge);
    forall i | 0 <= i < |gs| ensures KeyOfCharge(Primary(cs)[i]) == ks[i] {
      assert gs[i][0] in gs[i];
      MembersExact(cs, KeyOfCharge, ks[i], gs[i][0]);
    }
    assert Map(Primary(cs), KeyOfCharge) == ks;
  }

  lemma RemoveChargeAt(cs: seq<Charge>, j: nat)
    requires DistinctKeys(cs) && j < |cs|
    ensures Keep(cs, OtherKey(cs[j].key)) == cs[..j] + cs[j + 1..]
  {
    var ks := Map(cs, KeyOfCharge);
    assert forall i :: 0 <= i < |cs| && i != j ==> ks[i] != ks[j];
    assert cs == cs[..j] + ([cs[j]] + cs[j + 1..]);
    KeepAround(cs[..j], cs[j], cs[j + 1..], OtherKey(cs[j].key));
  }

  lemma StillDistinct(cs: seq<Charge>, j: nat)
    requires DistinctKeys(cs) && j < |cs|
    ensures DistinctKeys(cs[..j] + cs[j + 1..])
  {
    var ks := Map(cs, KeyOfCharge);
    assert Map(cs[..j] + cs[j + 1..], KeyOfCharge) == ks[..j] + ks[j + 1..];
  }

  lemma RemoveCharge(cs: seq<Charge>, c: Charge)
    requires DistinctKeys(cs) && c in cs
    ensures multiset(Keep(cs, OtherKey(c.key))) + multiset{c} == multiset(cs)
    ensures DistinctKeys(Keep(cs, OtherKey(c.key)))
  {
    var j :| 0 <= j < |cs| && cs[j] == c;
    RemoveChargeAt(cs, j);
    RemoveAt(cs, j);
    StillDistinct(cs, j);
  }

  lemma {:induction false} IndexExact(cs: seq<Charge>)
    requires DistinctKeys(cs)
    ensures forall k :: k in Index(cs) <==> k in KeySet(Map(cs, KeyOfCharge))
    ensures forall k :: k in Index(cs) ==> Index(cs)[k] in cs && Index(cs)[k].key == k
    ensures forall c :: c in cs ==> c.key in Index(cs) && Index(cs)[c.key] == c
  {
    if cs != [] {
      var init, last := cs[..|cs| - 1], cs[|cs| - 1];
      assert cs == init + [last];
      assert Map(cs, KeyOfCharge)[..|init|] == Map(init, KeyOfCharge);
      assert Map(cs, KeyOfCharge) == Map(init, KeyOfCharge) + [last.key];
      IndexExact(init);
      assert last.key !in Map(init, KeyOfCharge);
    }
  }

  // ---------------------------------------------------------------- matching

  function OwnOf(p: Pair): ExpectedLine { p.own }

  function ClaimOf(p: Pair): Charge { p.claimed }

  /** Claiming the charge of a key not seen before takes exactly that charge out. */
  lemma ClaimCharge(primary: seq<Charge>, seen: set<Key>, k: Key)
    requires DistinctKeys(primary) && DistinctKeys(Keep(primary, Unclaimed(seen)))
    requires k in Index(primary) && k !in seen
    ensures var left := Keep(primary, Unclaimed(seen));
      && multiset(Keep(left, OtherKey(k))) + multiset{Index(primary)[k]} == multiset(left)
      && DistinctKeys(Keep(left, OtherKey(k)))
  {
    IndexExact(primary);
    KeepExact(primary, Unclaimed(seen));
    RemoveCharge(Keep(primary, Unclaimed(seen)), Index(primary)[k]);
  }

  /** Key matching files every primary charge on exactly one side. */
  lemma {:induction false} MatchingPartitionsCharges(lines: seq<ExpectedLine>, i: nat, primary: seq<Charge>)
    requires i <= |lines| && UniqueKeys(lines) && DistinctKeys(primary)
    ensures var left := Keep(primary, Unclaimed(KeySet(Map(lines[..i], KeyOfExpected))));
      && multiset(Map(Matches(lines[..i], Index(primary)), ClaimOf)) + multiset(left) == multiset(primary)
      && DistinctKeys(left)
  {
    var index := Index(primary);
    if i == 0 {
      NothingSeen(lines, primary, index);
    } else {
      var own, before := lines[i - 1], Matches(lines[..i - 1], index);
      MatchingPartitionsCharges(lines, i - 1, primary);
      MatchStepCharges(lines, i - 1, primary, index);
      assert lines[..i][..i - 1] == lines[..i - 1];
      if KeyOfExpected(own) in index {
        KeyIsNew(lines, i - 1);
        ClaimCharge(primary, KeySet(Map(lines[..i - 1], KeyOfExpected)), KeyOfExpected(own));
        MapSnoc(before, Pair(own, index[KeyOfExpected(own)]), ClaimOf);
      }
    }
  }

  lemma KeyIsNew(lines: seq<ExpectedLine>, i: nat)
    requires i < |lines| && UniqueKeys(lines)
    ensures KeyOfExpected(lines[i]) !in KeySet(Map(lines[..i], KeyOfExpected))
  {
    var ks := Map(lines, KeyOfExpected);
    assert Map(lines[..i], KeyOfExpected) == ks[..i];
  }

  /** Key matching files every expected line on exactly one side. */
  lemma {:induction false} MatchingPartitionsExpected(lines: seq<ExpectedLine>, index: map<Key, Charge>)
    ensures multiset(Map(Matches(lines, index), OwnOf)) + multiset(Keep(lines, Unbilled(index))) == multiset(lines)
  {
    if lines != [] {
      var init, last := lines[..|lines| - 1], lines[|lines| - 1];
      assert lines == init + [last];
      MatchingPartitionsExpected(init, index);
      if KeyOfExpected(last) in index {
        MapSnoc(Matches(init, index), Pair(last, index[KeyOfExpected(last)]), OwnOf);
      }
    }
  }

  /** Recipient pairing files every leftover on exactly one side. */
  lemma {:induction false} PairingPartitions(own: seq<ExpectedLine>, charges: seq<Charge>)
    requires DistinctKeys(charges)
    ensures var p := PairRecipients(own, charges);
      && multiset(Map(p.pairs, ClaimOf)) + multiset(p.chargesLeft) == multiset(charges)
      && multiset(Map(p.pairs, OwnOf)) + multiset(p.expectedLeft) == multiset(own)
      && DistinctKeys(p.chargesLeft)
  {
    if own != [] {
      var init, e := own[..|own| - 1], own[|own| - 1];
      assert own == init + [e];
      PairingPartitions(init, charges);
      var before := PairRecipients(init, charges);
      var candidates := Keep(before.chargesLeft, SameFeeClass(e.feeClass));
      if |candidates| == 1 {
        KeepExact(before.chargesLeft, SameFeeClass(e.feeClass));
        assert candidates[0] in candidates;
        RemoveCharge(before.chargesLeft, candidates[0]);
        MapSnoc(before.pairs, Pair(e, candidates[0]), ClaimOf);
        MapSnoc(before.pairs, Pair(e, candidates[0]), OwnOf);
      }
    }
  }

  // ---------------------------------------------------------------- the run's partitions

  ghost predicate Partitions(input: Input, w: Work) {
    && multiset(w.primary) + multiset(w.duplicates) == multiset(w.comparable)
    && multiset(Map(w.pairs, ClaimOf)) + multiset(w.unmatchedCharges) == multiset(w.primary)
    && multiset(Map(w.pairs, OwnOf)) + multiset(w.unmatchedExpected) == multiset(input.expectedLines)
    && multiset(Map(w.pairing.pairs, ClaimOf)) + multiset(w.pairing.chargesLeft) == multiset(w.unmatchedCharges)
    && multiset(Map(w.pairing.pairs, OwnOf)) + multiset(w.pairing.expectedLeft) == multiset(w.unmatchedExpected)
  }

  lemma {:induction false} RunPartitions(input: Input)
    requires UniqueKeys(input.expectedLines)
    ensures Partitions(input, WorkOf(input))
    ensures DistinctKeys(WorkOf(input).primary) && DistinctKeys(WorkOf(input).unmatchedCharges)
  {
    var w := WorkOf(input);
    DuplicatesPartition(w.comparable);
    assert input.expectedLines[..|input.expectedLines|] == input.expectedLines;
    MatchingPartitionsCharges(input.expectedLines, |input.expectedLines|, w.primary);
    MatchingPartitionsExpected(input.expectedLines, Index(w.primary));
    PairingPartitions(w.unmatchedExpected, w.unmatchedCharges);
  }

  lemma PairSums(ps: seq<Pair>, w: Charge -> int, v: Pair -> int)
    requires forall p: Pair :: v(p) == w(p.claimed)
    ensures SumBy(Map(ps, ClaimOf), w) == SumBy(ps, v)
  {
    SumOfMap(ps, ClaimOf, w, v);
  }

  /** Every charge is a duplicate, a match, a wrong-recipient pair or an unexpected charge. */
  lemma ChargesFiled(input: Input, w: Work, m: Measure)
    requires Partitions(input, w)
    ensures SumBy(w.comparable, OfCharge(m)) ==
      SumBy(w.duplicates, OfCharge(m)) + SumBy(w.pairs, OfPair(m)) + SumBy(w.pairing.pairs, OfPair(m))
      + SumBy(w.pairing.chargesLeft, OfCharge(m))
  {
    SumPartition(w.primary, w.duplicates, w.comparable, OfCharge(m));
    SumPartition(Map(w.pairs, ClaimOf), w.unmatchedCharges, w.primary, OfCharge(m));
    SumPartition(Map(w.pairing.pairs, ClaimOf), w.pairing.chargesLeft, w.unmatchedCharges, OfCharge(m));
    PairSums(w.pairs, OfCharge(m), OfPair(m));
    PairSums(w.pairing.pairs, OfCharge(m), OfPair(m));
  }

  // ---------------------------------------------------------------- what the breaks add up to

  lemma JudgingKeeps(raw: seq<Break>, materiality: int, v: Break -> int)
    requires forall b: Break :: v(Judged(materiality)(b)) == v(b)
    ensures SumBy(Map(raw, Judged(materiality)), v) == SumBy(raw, v)
  {
    SumOfMap(raw, Judged(materiality), v, v);
  }

  lemma {:induction false} RawSums(input: Input, w: Work, v: Break -> int)
    requires input.documents != []
    ensures SumBy(RawBreaks(input, w), v) == SumBy(ProviderBreaks(input, w), v) + SumBy(MatchBreaks(input, w), v)
    ensures SumBy(ProviderBreaks(input, w), v) ==
      SumBy(PeriodBreaks(input), v) + SumBy(RefusedBreaks(input, w), v)
          + SumBy(Map(w.duplicates, ChargeBreak(DuplicateCharge)), v)
  {
    SumConcat(ProviderBreaks(input, w), MatchBreaks(input, w), v);
    SumConcat(PeriodBreaks(input), RefusedBreaks(input, w), v);
    SumConcat(PeriodBreaks(input) + RefusedBreaks(input, w), Map(w.duplicates, ChargeBreak(DuplicateCharge)), v);
  }

  lemma MatchSums(input: Input, w: Work, v: Break -> int)
    requires input.documents != []
    ensures SumBy(MatchBreaks(input, w), v) ==
      SumBy(Map(Keep(w.pairs, Differs(input.tolerance)), VarianceBreak(input.tolerance)), v)
      + SumBy(Map(w.pairing.pairs, RecipientBreak), v)
      + SumBy(Map(w.pairing.expectedLeft, MissingBreak(input.period, input.categoryMap,
          Fallback(w.inPeriod, input.documents))), v)
      + SumBy(Map(w.pairing.chargesLeft, ChargeBreak(UnexpectedCharge)), v)
  {
    var a := Map(Keep(w.pairs, Differs(input.tolerance)), VarianceBreak(input.tolerance));
    var b := Map(w.pairing.pairs, RecipientBreak);
    var c := Map(w.pairing.expectedLeft, MissingBreak(input.period, input.categoryMap,
        Fallback(w.inPeriod, input.documents)));
    var d := Map(w.pairing.chargesLeft, ChargeBreak(UnexpectedCharge));
    SumConcat(a, b, v);
    SumConcat(a + b, c, v);
    SumConcat(a + b + c, d, v);
  }

  lemma AgreeOrDiffer(pairs: seq<Pair>, tolerance: int, v: Pair -> int)
    ensures SumBy(pairs, v) == SumBy(Keep(pairs, Agrees(tolerance)), v) + SumBy(Keep(pairs, Differs(tolerance)), v)
  {
    SumSplits(pairs, Agrees(tolerance), Differs(tolerance), v);
  }

  // ---------------------------------------------------------------- conservation of what was billed

  /** An off-period document is reported once as a whole; its lines are not cited one by one. */
  function AsWhole(m: Measure): Document -> int {
    (d: Document) => if m.Citation? then 0 else SumBy(d.lines, OfLine(m, d.id))
  }

  lemma PeriodBreakMeasure(m: Measure, d: Document)
    ensures BreakBilled(m)(PeriodBreak(d)) == AsWhole(m)(d)
  {
    match m
    case Units => SumCongruence(d.lines, UnitsOfLine, OfLine(m, d.id));
    case Net => SumCongruence(d.lines, NetOfLine, OfLine(m, d.id));
    case Vat => SumCongruence(d.lines, VatOfLine, OfLine(m, d.id));
    case Citation(id, r) =>
  }

  lemma ProviderBreaksBilled(input: Input, w: Work, m: Measure)
    requires input.documents != []
    ensures SumBy(ProviderBreaks(input, w), BreakBilled(m)) ==
      SumBy(Keep(input.documents, OffPeriod(input.period)), AsWhole(m)) + SumBy(RefusedBreaks(input, w), BreakBilled(m))
      + SumBy(w.duplicates, OfCharge(m))
  {
    RawSums(input, w, BreakBilled(m));
    forall d ensures BreakBilled(m)(PeriodBreak(d)) == AsWhole(m)(d) { PeriodBreakMeasure(m, d); }
    SumOfMap(Keep(input.documents, OffPeriod(input.period)), PeriodBreak, BreakBilled(m), AsWhole(m));
    SumOfMap(w.duplicates, ChargeBreak(DuplicateCharge), BreakBilled(m), OfCharge(m));
  }

  lemma MatchBreaksBilled(input: Input, w: Work, m: Measure)
    requires input.documents != []
    ensures SumBy(MatchBreaks(input, w), BreakBilled(m)) ==
      SumBy(Keep(w.pairs, Differs(input.tolerance)), OfPair(m)) + SumBy(w.pairing.pairs, OfPair(m))
      + SumBy(w.pairing.chargesLeft, OfCharge(m))
  {
    MatchSums(input, w, BreakBilled(m));
    SumOfMap(Keep(w.pairs, Differs(input.tolerance)), VarianceBreak(input.tolerance), BreakBilled(m), OfPair(m));
    SumOfMap(w.pairing.pairs, RecipientBreak, BreakBilled(m), OfPair(m));
    SumOfMap(w.pairing.chargesLeft, ChargeBreak(UnexpectedCharge), BreakBilled(m), OfCharge(m));
    SumZero(Map(w.pairing.expectedLeft, MissingBreak(input.period, input.categoryMap,
        Fallback(w.inPeriod, input.documents))), BreakBilled(m));
  }

  lemma {:induction false} BreaksBilled(input: Input, w: Work, m: Measure)
    requires input.documents != []
    ensures SumBy(Breaks(input, w), BreakBilled(m)) ==
      SumBy(Keep(input.documents, OffPeriod(input.period)), AsWhole(m)) + SumBy(RefusedBreaks(input, w), BreakBilled(m))
      + SumBy(w.duplicates, OfCharge(m)) + SumBy(Keep(w.pairs, Differs(input.tolerance)), OfPair(m))
      + SumBy(w.pairing.pairs, OfPair(m)) + SumBy(w.pairing.chargesLeft, OfCharge(m))
  {
    ProviderBreaksBilled(input, w, m);
    MatchBreaksBilled(input, w, m);
    RawSums(input, w, BreakBilled(m));
    JudgingKeeps(RawBreaks(input, w), input.materiality, BreakBilled(m));
  }

  lemma {:induction false} BilledBalance(input: Input, w: Work, m: Measure)
    requires input.documents != [] && Partitions(input, w)
    requires w.comparable == Flatten(Map(w.inPeriod, ChargesOf(input.latePaidPeriods)))
    ensures SumBy(w.inPeriod, OfDocument(m)) + SumBy(Keep(input.documents, OffPeriod(input.period)), AsWhole(m)) ==
      SumBy(w.inPeriod, OfAccepted(m, input.latePaidPeriods)) + SumBy(Matched(input, w), OfPair(m))
      + SumBy(Breaks(input, w), BreakBilled(m))
  {
    TriageAllConserves(m, w.inPeriod, input.latePaidPeriods);
    ChargesFiled(input, w, m);
    AgreeOrDiffer(w.pairs, input.tolerance, OfPair(m));
    BreaksBilled(input, w, m);
  }

  /** Everything the providers billed is an accepted penalty, part of a match, or in exactly one break:
      the three together add up to the documents, for units, net, VAT and the citations of every line. */
  lemma {:induction false} EverythingBilledIsAccountedForOnce(input: Input, m: Measure)
    requires Refusal(input).None?
    ensures var w := WorkOf(input);
      SumBy(w.inPeriod, OfDocument(m)) + SumBy(Keep(input.documents, OffPeriod(input.period)), AsWhole(m)) ==
      SumBy(w.inPeriod, OfAccepted(m, input.latePaidPeriods)) + SumBy(Matched(input, w), OfPair(m))
      + SumBy(Reconciled(input, w).breaks, BreakBilled(m))
  {
    RunPartitions(input);
    BilledBalance(input, WorkOf(input), m);
  }

  /** For amounts the off-period documents count like any other, so the equation covers every document. */
  lemma {:induction false} AmountsAreConserved(input: Input, m: Measure)
    requires Refusal(input).None? && !m.Citation?
    ensures var w := WorkOf(input);
      SumBy(input.documents, OfDocument(m)) ==
      SumBy(w.inPeriod, OfAccepted(m, input.latePaidPeriods)) + SumBy(Matched(input, w), OfPair(m))
      + SumBy(Reconciled(input, w).breaks, BreakBilled(m))
  {
    EverythingBilledIsAccountedForOnce(input, m);
    SumSplits(input.documents, InPeriod(input.period), OffPeriod(input.period), OfDocument(m));
    SumCongruence(Keep(input.documents, OffPeriod(input.period)), OfDocument(m), AsWhole(m));
  }

  // ---------------------------------------------------------------- conservation of what was expected

  /** The expected line a break restates. */
  function RestatedLine(b: Break): ExpectedLine {
    ExpectedLine(b.recipientType, b.recipientId, b.feeStream.GetOr(Hub), b.feeClass.GetOr(""),
                 b.expectedUnits, b.expectedNet, b.expectedVat, b.eventIds, b.interactionIds)
  }

  function OwnSide(v: ExpectedLine -> int): Break -> int {
    (b: Break) => if b.presence == DocumentOnly then 0 else v(RestatedLine(b))
  }

  function OwnValue(v: ExpectedLine -> int): Pair -> int {
    (p: Pair) => v(p.own)
  }

  lemma {:induction false} RefusedAreDocumentOnly(ds: seq<Document>, late: set<string>)
    ensures forall b :: b in Flatten(Map(ds, LineBreaks(late))) ==> b.presence == DocumentOnly
  {
    if ds != [] {
      var n := |ds| - 1;
      assert ds[..n + 1] == ds;
      FlattenMapSnoc(ds, n, LineBreaks(late));
      RefusedAreDocumentOnly(ds[..n], late);
    }
  }

  lemma ProviderBreaksExpectNothing(input: Input, w: Work, v: ExpectedLine -> int)
    requires input.documents != []
    ensures SumBy(ProviderBreaks(input, w), OwnSide(v)) == 0
  {
    RawSums(input, w, OwnSide(v));
    RefusedAreDocumentOnly(w.inPeriod, input.latePaidPeriods);
    SumZero(PeriodBreaks(input), OwnSide(v));
    SumZero(RefusedBreaks(input, w), OwnSide(v));
    SumZero(Map(w.duplicates, ChargeBreak(DuplicateCharge)), OwnSide(v));
  }

  lemma PairBreakRestates(p: Pair, t: BreakType)
    ensures RestatedLine(PairBreak(p, t)) == p.own
  {
  }

  lemma VarianceRestates(ps: seq<Pair>, tolerance: int, v: ExpectedLine -> int)
    ensures SumBy(Map(ps, VarianceBreak(tolerance)), OwnSide(v)) == SumBy(ps, OwnValue(v))
  {
    forall p: Pair ensures OwnSide(v)(VarianceBreak(tolerance)(p)) == OwnValue(v)(p) {
      PairBreakRestates(p, Variance(tolerance, p).GetOr(RateVariance));
    }
    SumOfMap(ps, VarianceBreak(tolerance), OwnSide(v), OwnValue(v));
  }

  lemma RecipientRestates(ps: seq<Pair>, v: ExpectedLine -> int)
    ensures SumBy(Map(ps, RecipientBreak), OwnSide(v)) == SumBy(ps, OwnValue(v))
  {
    forall p: Pair ensures OwnSide(v)(RecipientBreak(p)) == OwnValue(v)(p) {
      PairBreakRestates(p, WrongRecipient);
    }
    SumOfMap(ps, RecipientBreak, OwnSide(v), OwnValue(v));
  }

  lemma MissingRestates(es: seq<ExpectedLine>, period: string, categoryMap: map<string, string>, d: Document,
      v: ExpectedLine -> int)
    ensures SumBy(Map(es, MissingBreak(period, categoryMap, d)), OwnSide(v)) == SumBy(es, v)
  {
    forall e: ExpectedLine ensures OwnSide(v)(MissingBreak(period, categoryMap, d)(e)) == v(e) {
      assert RestatedLine(MissingBreak(period, categoryMap, d)(e)) == e;
    }
    SumOfMap(es, MissingBreak(period, categoryMap, d), OwnSide(v), v);
  }

  lemma MatchBreaksExpected(input: Input, w: Work, v: ExpectedLine -> int)
    requires input.documents != []
    ensures SumBy(MatchBreaks(input, w), OwnSide(v)) ==
      SumBy(Keep(w.pairs, Differs(input.tolerance)), OwnValue(v)) + SumBy(w.pairing.pairs, OwnValue(v))
      + SumBy(w.pairing.expectedLeft, v)
  {
    MatchSums(input, w, OwnSide(v));
    VarianceRestates(Keep(w.pairs, Differs(input.tolerance)), input.tolerance, v);
    RecipientRestates(w.pairing.pairs, v);
    MissingRestates(w.pairing.expectedLeft, input.period, input.categoryMap, Fallback(w.inPeriod, input.documents), v);
    SumZero(Map(w.pairing.chargesLeft, ChargeBreak(UnexpectedCharge)), OwnSide(v));
  }

  lemma JudgingRestates(raw: seq<Break>, materiality: int, v: ExpectedLine -> int)
    ensures SumBy(Map(raw, Judged(materiality)), OwnSide(v)) == SumBy(raw, OwnSide(v))
  {
    forall b: Break ensures OwnSide(v)(Judged(materiality)(b)) == OwnSide(v)(b) {
      assert RestatedLine(Judged(materiality)(b)) == RestatedLine(b);
    }
    JudgingKeeps(raw, materiality, OwnSide(v));
  }

  lemma {:induction false} BreaksExpected(input: Input, w: Work, v: ExpectedLine -> int)
    requires input.documents != []
    ensures SumBy(Breaks(input, w), OwnSide(v)) ==
      SumBy(Keep(w.pairs, Differs(input.tolerance)), OwnValue(v)) + SumBy(w.pairing.pairs, OwnValue(v))
      + SumBy(w.pairing.expectedLeft, v)
  {
    ProviderBreaksExpectNothing(input, w, v);
    MatchBreaksExpected(input, w, v);
    RawSums(input, w, OwnSide(v));
    JudgingRestates(RawBreaks(input, w), input.materiality, v);
  }

  lemma ExpectedFiled(input: Input, w: Work, v: ExpectedLine -> int)
    requires Partitions(input, w)
    ensures SumBy(input.expectedLines, v) ==
      SumBy(w.pairs, OwnValue(v)) + SumBy(w.pairing.pairs, OwnValue(v)) + SumBy(w.pairing.expectedLeft, v)
  {
    SumPartition(Map(w.pairs, OwnOf), w.unmatchedExpected, input.expectedLines, v);
    SumPartition(Map(w.pairing.pairs, OwnOf), w.pairing.expectedLeft, w.unmatchedExpected, v);
    SumOfMap(w.pairs, OwnOf, v, OwnValue(v));
    SumOfMap(w.pairing.pairs, OwnOf, v, OwnValue(v));
  }

  lemma {:induction false} ExpectedBalance(input: Input, w: Work, v: ExpectedLine -> int)
    requires input.documents != [] && Partitions(input, w)
    ensures SumBy(input.expectedLines, v) == SumBy(Matched(input, w), OwnValue(v)) + SumBy(Breaks(input, w), OwnSide(v))
  {
    ExpectedFiled(input, w, v);
    AgreeOrDiffer(w.pairs, input.tolerance, OwnValue(v));
    BreaksExpected(input, w, v);
  }

  /** Whatever is counted about the expected lines, the matches and the breaks that restate a line
      together count it exactly. */
  lemma {:induction false} EverythingExpectedIsAccountedForOnce(input: Input, v: ExpectedLine -> int)
    requires Refusal(input).None?
    ensures var w := WorkOf(input);
      SumBy(input.expectedLines, v) ==
      SumBy(Matched(input, w), OwnValue(v)) + SumBy(Reconciled(input, w).breaks, OwnSide(v))
  {
    RunPartitions(input);
    ExpectedBalance(input, WorkOf(input), v);
  }

  function Is(e: ExpectedLine): ExpectedLine -> int {
    (x: ExpectedLine) => if x == e then 1 else 0
  }

  lemma {:induction false} CountUnique(lines: seq<ExpectedLine>, e: ExpectedLine)
    requires UniqueKeys(lines)
    ensures SumBy(lines, Is(e)) == if e in lines then 1 else 0
  {
    if lines != [] {
      var init, last := lines[..|lines| - 1], lines[|lines| - 1];
      var ks := Map(lines, KeyOfExpected);
      assert lines == init + [last];
      assert Map(init, KeyOfExpected) == ks[..|init|];
      CountUnique(init, e);
      assert forall i :: 0 <= i < |init| ==> ks[i] != ks[|init|];
      assert last !in init;
    }
  }

  /** Each expected line is either matched or restated by exactly one break, and no break restates a line
      that was not expected. */
  lemma {:induction false} EachExpectedLineExactlyOnce(input: Input, e: ExpectedLine)
    requires Refusal(input).None?
    ensures var w := WorkOf(input);
      SumBy(Matched(input, w), OwnValue(Is(e))) + SumBy(Reconciled(input, w).breaks, OwnSide(Is(e)))
      == if e in input.expectedLines then 1 else 0
  {
    CountUnique(input.expectedLines, e);
    EverythingExpectedIsAccountedForOnce(input, Is(e));
  }
}
