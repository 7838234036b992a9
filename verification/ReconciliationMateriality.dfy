/** Which breaks of a reconciliation hold the close open. */
module ReconciliationMateriality {
  import opened Collections
  import opened PayableReconciliation
  import opened ReconciliationTheorems
  import opened ReconciliationVerdicts
  import opened ReconciliationRollup
  import opened ReconciliationInputs

  // ---------------------------------------------------------------- what both sides assert, and what only one does

  function BlocksWhenTwoSided(tolerance: int): Break -> bool {
    (b: Break) => b.presence == Both ==>
      || b.breakType == WrongRecipient
      || (b.breakType == QuantityVariance && b.actualUnits != b.expectedUnits)
      || (b.breakType == RateVariance && Abs(b.variance) > tolerance)
      || (b.breakType == VatVariance && Abs(b.actualVat - b.expectedVat) > tolerance)
  }

  function MaterialWhenTwoSided(b: Break): bool {
    b.presence == Both ==> b.material
  }

  lemma TwoSidedParts(input: Input, w: Work)
    requires input.documents != []
    ensures forall b ::
      b in ProviderBreaks(input, w) || b in MatchBreaks(input, w) ==> BlocksWhenTwoSided(input.tolerance)(b)
  {
    EveryProviderBreak(input, w, BlocksWhenTwoSided(input.tolerance));
    EveryMatchBreak(input, w, BlocksWhenTwoSided(input.tolerance));
  }

  /** With a materiality no larger than the tolerance, every break that both sides assert blocks the close. */
  lemma {:induction false} TwoSidedBreaksAreMaterial(input: Input)
    requires input.documents != [] && input.materiality <= input.tolerance
    ensures forall b :: b in Reconciled(input, WorkOf(input)).breaks && b.presence == Both ==> b.material
  {
    TwoSidedParts(input, WorkOf(input));
    EveryBreak(input, WorkOf(input), BlocksWhenTwoSided(input.tolerance), MaterialWhenTwoSided);
  }

  function OneSidedType(b: Break): bool {
    b.presence != Both ==> b.breakType !in {WrongRecipient, QuantityVariance, VatVariance, RateVariance}
  }

  function OneSidedJudged(materiality: int): Break -> bool {
    (b: Break) => b.presence != Both ==> (b.material <==> Abs(b.variance) > materiality)
  }

  lemma OneSidedParts(input: Input, w: Work)
    requires input.documents != []
    ensures forall b :: b in ProviderBreaks(input, w) || b in MatchBreaks(input, w) ==> OneSidedType(b)
  {
    EveryProviderBreak(input, w, OneSidedType);
    EveryMatchBreak(input, w, OneSidedType);
  }

  /** A break only one side asserts exists at any amount, and blocks exactly when that amount is material. */
  lemma {:induction false} OneSidedBreaksAreJudgedByAmount(input: Input)
    requires input.documents != []
    ensures forall b :: b in Reconciled(input, WorkOf(input)).breaks && b.presence != Both ==>
      (b.material <==> Abs(b.variance) > input.materiality)
  {
    OneSidedParts(input, WorkOf(input));
    EveryBreak(input, WorkOf(input), OneSidedType, OneSidedJudged(input.materiality));
  }

  // ---------------------------------------------------------------- exactly when every break is material

  ghost predicate AllBlock(breaks: seq<Break>, materiality: int) {
    forall b :: b in breaks ==> IsMaterial(b, materiality)
  }

  lemma AllBlockConcat(xs: seq<Break>, ys: seq<Break>, materiality: int)
    ensures AllBlock(xs + ys, materiality) <==> AllBlock(xs, materiality) && AllBlock(ys, materiality)
  {
    assert forall b :: b in xs + ys <==> b in xs || b in ys;
  }

  lemma AllBlockMapped<T(!new)>(xs: seq<T>, f: T -> Break, materiality: int)
    ensures AllBlock(Map(xs, f), materiality) <==> forall x :: x in xs ==> IsMaterial(f(x), materiality)
  {
    if AllBlock(Map(xs, f), materiality) {
      forall x | x in xs ensures IsMaterial(f(x), materiality) {
        MapIn(xs, x, f);
      }
    }
    if forall x :: x in xs ==> IsMaterial(f(x), materiality) {
      forall y | y in Map(xs, f) ensures IsMaterial(y, materiality) {
        var i :| 0 <= i < |xs| && Map(xs, f)[i] == y;
        assert xs[i] in xs;
      }
    }
  }

  ghost predicate OffPeriodExceed(input: Input) {
    forall d :: d in input.documents && d.period != input.period ==> Abs(SumBy(d.lines, NetOfLine)) > input.materiality
  }

  ghost predicate RefusedExceed(ds: seq<Document>, late: set<string>, materiality: int) {
    forall d, l :: d in ds && l in d.lines && Refused(d.period, late)(l) ==> Abs(l.net) > materiality
  }

  ghost predicate ChargesExceed(cs: seq<Charge>, materiality: int) {
    forall c :: c in cs ==> Abs(c.net) > materiality
  }

  ghost predicate ExpectedExceed(es: seq<ExpectedLine>, materiality: int) {
    forall e :: e in es ==> Abs(e.net) > materiality
  }

  lemma PeriodBreaksBlock(input: Input)
    ensures AllBlock(PeriodBreaks(input), input.materiality) <==> OffPeriodExceed(input)
  {
    KeepExact(input.documents, OffPeriod(input.period));
    AllBlockMapped(Keep(input.documents, OffPeriod(input.period)), PeriodBreak, input.materiality);
  }

  lemma RefusedLinesBlock(d: Document, late: set<string>, materiality: int)
    ensures AllBlock(LineBreaks(late)(d), materiality) <==> RefusedExceed([d], late, materiality)
  {
    var lines := Keep(d.lines, Refused(d.period, late));
    KeepExact(d.lines, Refused(d.period, late));
    AllBlockMapped(lines, RefusedBreak(d, late), materiality);
    forall l: DocumentLine ensures IsMaterial(RefusedBreak(d, late)(l), materiality) <==> Abs(l.net) > materiality {
    }
  }

  lemma {:induction false} RefusedBreaksBlock(ds: seq<Document>, late: set<string>, materiality: int)
    ensures AllBlock(Flatten(Map(ds, LineBreaks(late))), materiality) <==> RefusedExceed(ds, late, materiality)
  {
    if ds != [] {
      var n := |ds| - 1;
      assert ds[..n + 1] == ds && ds == ds[..n] + [ds[n]];
      FlattenMapSnoc(ds, n, LineBreaks(late));
      RefusedBreaksBlock(ds[..n], late, materiality);
      RefusedLinesBlock(ds[n], late, materiality);
      AllBlockConcat(Flatten(Map(ds[..n], LineBreaks(late))), LineBreaks(late)(ds[n]), materiality);
    }
  }

  lemma ChargeBreaksBlock(cs: seq<Charge>, t: BreakType, materiality: int)
    requires t in {DuplicateCharge, UnexpectedCharge}
    ensures AllBlock(Map(cs, ChargeBreak(t)), materiality) <==> ChargesExceed(cs, materiality)
  {
    AllBlockMapped(cs, ChargeBreak(t), materiality);
  }

  lemma MissingBreaksBlock(es: seq<ExpectedLine>, period: string, categoryMap: map<string, string>, fallback: Document,
      materiality: int)
    ensures AllBlock(Map(es, MissingBreak(period, categoryMap, fallback)), materiality)
      <==> ExpectedExceed(es, materiality)
  {
    AllBlockMapped(es, MissingBreak(period, categoryMap, fallback), materiality);
  }

  lemma PairBreaksBlock(pairs: seq<Pair>, paired: seq<Pair>, tolerance: int, materiality: int)
    requires materiality <= tolerance
    ensures AllBlock(Map(Keep(pairs, Differs(tolerance)), VarianceBreak(tolerance)), materiality)
    ensures AllBlock(Map(paired, RecipientBreak), materiality)
  {
    KeepExact(pairs, Differs(tolerance));
    AllBlockMapped(Keep(pairs, Differs(tolerance)), VarianceBreak(tolerance), materiality);
    AllBlockMapped(paired, RecipientBreak, materiality);
  }

  lemma ProviderBreaksBlock(input: Input, w: Work)
    ensures AllBlock(ProviderBreaks(input, w), input.materiality) <==>
      OffPeriodExceed(input) && RefusedExceed(w.inPeriod, input.latePaidPeriods, input.materiality)
          && ChargesExceed(w.duplicates, input.materiality)
  {
    PeriodBreaksBlock(input);
    RefusedBreaksBlock(w.inPeriod, input.latePaidPeriods, input.materiality);
    ChargeBreaksBlock(w.duplicates, DuplicateCharge, input.materiality);
    AllBlockConcat(PeriodBreaks(input), RefusedBreaks(input, w), input.materiality);
    AllBlockConcat(PeriodBreaks(input) + RefusedBreaks(input, w), Map(w.duplicates, ChargeBreak(DuplicateCharge)),
        input.materiality);
  }

  lemma MatchBreaksBlock(input: Input, w: Work)
    requires input.documents != [] && input.materiality <= input.tolerance
    ensures AllBlock(MatchBreaks(input, w), input.materiality) <==>
      ExpectedExceed(w.pairing.expectedLeft, input.materiality)
          && ChargesExceed(w.pairing.chargesLeft, input.materiality)
  {
    var fallback, m := Fallback(w.inPeriod, input.documents), input.materiality;
    var a, b := Map(Keep(w.pairs, Differs(input.tolerance)), VarianceBreak(input.tolerance)),
        Map(w.pairing.pairs, RecipientBreak);
    var c := Map(w.pairing.expectedLeft, MissingBreak(input.period, input.categoryMap, fallback));
    PairBreaksBlock(w.pairs, w.pairing.pairs, input.tolerance, m);
    MissingBreaksBlock(w.pairing.expectedLeft, input.period, input.categoryMap, fallback, m);
    ChargeBreaksBlock(w.pairing.chargesLeft, UnexpectedCharge, m);
    AllBlockConcat(a, b, m);
    AllBlockConcat(a + b, c, m);
    AllBlockConcat(a + b + c, Map(w.pairing.chargesLeft, ChargeBreak(UnexpectedCharge)), m);
  }

  lemma JudgedBlock(raw: seq<Break>, materiality: int)
    ensures (forall b :: b in Map(raw, Judged(materiality)) ==> b.material) <==> AllBlock(raw, materiality)
  {
    if forall b :: b in Map(raw, Judged(materiality)) ==> b.material {
      forall b | b in raw ensures IsMaterial(b, materiality) {
        MapIn(raw, b, Judged(materiality));
      }
    }
  }

  /** What the document bills under the key. */
  function NetUnder(d: Document, late: set<string>, k: Key): int {
    SumBy(Members(PriceableLines(d, late), KeyOfLine, k), NetOfLine)
  }

  /** Every charge of a key that an earlier document has charged exceeds the materiality. */
  ghost predicate LaterExceed(input: Input) {
    var ds, late := Billing(input), input.latePaidPeriods;
    forall i, k :: 0 <= i < |ds| && ChargesAgain(ds, late, i, k) ==> Abs(NetUnder(ds[i], late, k)) > input.materiality
  }

  /** So does every key's first charge that nobody expected, unless its fee class is reassigned. */
  ghost predicate SurplusExceed(input: Input) {
    var ds, late := Billing(input), input.latePaidPeriods;
    forall i, k | 0 <= i < |ds| && ChargesFirst(ds, late, i, k) && !IsExpected(input, k) ::
      !Reassigned(input, k.feeClass) ==> Abs(NetUnder(ds[i], late, k)) > input.materiality
  }

  /** So does every expectation that nobody billed, save the first of a fee class that is reassigned. */
  ghost predicate OverdueExceed(input: Input) {
    forall j :: 0 <= j < |input.expectedLines| && LeftOver(input, j)
        ==> Abs(input.expectedLines[j].net) > input.materiality
  }

  lemma LaterIsDuplicate(input: Input, i: nat, k: Key)
    requires i < |Billing(input)| && ChargesAgain(Billing(input), input.latePaidPeriods, i, k)
    ensures ChargeIn(Billing(input)[i], input.latePaidPeriods, k) in WorkOf(input).duplicates
  {
    var c := ChargeIn(Billing(input)[i], input.latePaidPeriods, k);
    FiledInRun(input, c);
    assert LaterPlace(Billing(input), input.latePaidPeriods, c)(i);
  }

  lemma DuplicateIsLater(input: Input, c: Charge) returns (i: nat)
    requires c in WorkOf(input).duplicates
    ensures i < |Billing(input)| && ChargesAgain(Billing(input), input.latePaidPeriods, i, c.key)
    ensures c == ChargeIn(Billing(input)[i], input.latePaidPeriods, c.key)
  {
    FiledInRun(input, c);
    i :| 0 <= i < |Billing(input)| && LaterPlace(Billing(input), input.latePaidPeriods, c)(i);
  }

  lemma DuplicatesExceed(input: Input)
    ensures ChargesExceed(WorkOf(input).duplicates, input.materiality) <==> LaterExceed(input)
  {
    var duplicates, ds, late := WorkOf(input).duplicates, Billing(input), input.latePaidPeriods;
    if ChargesExceed(duplicates, input.materiality) {
      forall i, k | 0 <= i < |ds| && ChargesAgain(ds, late, i, k)
          ensures Abs(NetUnder(ds[i], late, k)) > input.materiality {
        LaterIsDuplicate(input, i, k);
      }
    }
    if LaterExceed(input) {
      forall c | c in duplicates ensures Abs(c.net) > input.materiality {
        var i := DuplicateIsLater(input, c);
      }
    }
  }

  lemma SurplusIsLeft(input: Input, i: nat, k: Key)
    requires i < |Billing(input)| && ChargesFirst(Billing(input), input.latePaidPeriods, i, k)
    requires !IsExpected(input, k) && !Reassigned(input, k.feeClass)
    ensures ChargeIn(Billing(input)[i], input.latePaidPeriods, k) in WorkOf(input).pairing.chargesLeft
  {
    var c := ChargeIn(Billing(input)[i], input.latePaidPeriods, k);
    FiledInRun(input, c);
    ChargesLeftOfRun(input, c);
    assert FirstPlace(Billing(input), input.latePaidPeriods, c)(i);
  }

  lemma LeftIsSurplus(input: Input, c: Charge) returns (i: nat)
    requires c in WorkOf(input).pairing.chargesLeft
    ensures i < |Billing(input)| && ChargesFirst(Billing(input), input.latePaidPeriods, i, c.key)
    ensures c == ChargeIn(Billing(input)[i], input.latePaidPeriods, c.key)
    ensures !IsExpected(input, c.key) && !Reassigned(input, c.key.feeClass)
  {
    FiledInRun(input, c);
    ChargesLeftOfRun(input, c);
    i :| 0 <= i < |Billing(input)| && FirstPlace(Billing(input), input.latePaidPeriods, c)(i);
  }

  lemma ChargesLeftExceed(input: Input)
    ensures ChargesExceed(WorkOf(input).pairing.chargesLeft, input.materiality) <==> SurplusExceed(input)
  {
    var left, ds, late := WorkOf(input).pairing.chargesLeft, Billing(input), input.latePaidPeriods;
    if ChargesExceed(left, input.materiality) {
      forall i, k | 0 <= i < |ds| && ChargesFirst(ds, late, i, k) && !IsExpected(input, k)
          && !Reassigned(input, k.feeClass)
        ensures Abs(NetUnder(ds[i], late, k)) > input.materiality
      {
        SurplusIsLeft(input, i, k);
      }
    }
    if SurplusExceed(input) {
      forall c | c in left ensures Abs(c.net) > input.materiality {
        var i := LeftIsSurplus(input, c);
      }
    }
  }

  lemma ExpectedLeftExceed(input: Input)
    ensures ExpectedExceed(WorkOf(input).pairing.expectedLeft, input.materiality) <==> OverdueExceed(input)
  {
    var left := WorkOf(input).pairing.expectedLeft;
    if ExpectedExceed(left, input.materiality) {
      forall j | 0 <= j < |input.expectedLines| && LeftOver(input, j)
          ensures Abs(input.expectedLines[j].net) > input.materiality {
        ExpectedLeftOfRun(input, input.expectedLines[j]);
      }
    }
    if OverdueExceed(input) {
      forall e | e in left ensures Abs(e.net) > input.materiality {
        ExpectedLeftOfRun(input, e);
      }
    }
  }

  lemma {:induction false} AllMaterialWhenAllBlock(input: Input)
    requires input.documents != [] && input.materiality <= input.tolerance
    ensures var w, m := WorkOf(input), input.materiality;
      (forall b :: b in Reconciled(input, w).breaks ==> b.material) <==>
        && OffPeriodExceed(input)
        && RefusedExceed(w.inPeriod, input.latePaidPeriods, m)
        && ChargesExceed(w.duplicates, m)
        && ChargesExceed(w.pairing.chargesLeft, m)
        && ExpectedExceed(w.pairing.expectedLeft, m)
  {
    var w := WorkOf(input);
    ProviderBreaksBlock(input, w);
    MatchBreaksBlock(input, w);
    AllBlockConcat(ProviderBreaks(input, w), MatchBreaks(input, w), input.materiality);
    JudgedBlock(RawBreaks(input, w), input.materiality);
  }

  /** With a materiality no larger than the tolerance, as at the defaults, every break blocks the close exactly when
      each of the five kinds of one-sided amount in the documents and the expected lines exceeds the materiality: every
      document of another period, every refused line, every later charge of a key, every charge nobody expected and
      every expectation nobody billed. */
  lemma {:induction false} EveryBreakIsMaterialExactly(input: Input)
    requires input.documents != [] && input.materiality <= input.tolerance
    ensures (forall b :: b in Reconciled(input, WorkOf(input)).breaks ==> b.material) <==>
      && OffPeriodExceed(input)
      && RefusedExceed(Billing(input), input.latePaidPeriods, input.materiality)
      && LaterExceed(input)
      && SurplusExceed(input)
      && OverdueExceed(input)
  {
    AllMaterialWhenAllBlock(input);
    DuplicatesExceed(input);
    ChargesLeftExceed(input);
    ExpectedLeftExceed(input);
  }

  // ---------------------------------------------------------------- a break that does not block at the defaults

  /** No document of the run has a priceable line of the fee class. */
  ghost predicate ClassUnbilled(input: Input, feeClass: string) {
    forall d, l :: d in input.documents && l in PriceableLines(d, input.latePaidPeriods)
        ==> l.feeClass != Some(feeClass)
  }

  lemma PriceableLineOfKey(d: Document, late: set<string>, k: Key)
    requires Charges(d, late, k)
    ensures exists l :: l in PriceableLines(d, late) && l.feeClass == Some(k.feeClass)
  {
    KeysExact(PriceableLines(d, late), KeyOfLine, k);
    var l :| l in PriceableLines(d, late) && KeyOfLine(l) == k;
    KeepExact(d.lines, Disposed(d.period, late, Priceable));
    assert l.feeClass == Some(k.feeClass);
  }

  lemma PrimaryHasLines(input: Input, c: Charge)
    requires c in WorkOf(input).primary
    ensures exists d :: d in input.documents && Charges(d, input.latePaidPeriods, c.key)
  {
    var w := WorkOf(input);
    DuplicatesPartition(w.comparable);
    assert c in multiset(w.primary);
    assert c in multiset(w.comparable);
    ComparableExact(w.inPeriod, input.latePaidPeriods, c);
    KeepExact(input.documents, InPeriod(input.period));
  }

  lemma NoChargeOfClass(input: Input, feeClass: string)
    requires ClassUnbilled(input, feeClass)
    ensures forall c :: c in WorkOf(input).primary ==> c.key.feeClass != feeClass
  {
    forall c | c in WorkOf(input).primary ensures c.key.feeClass != feeClass {
      PrimaryHasLines(input, c);
      var d :| d in input.documents && Charges(d, input.latePaidPeriods, c.key);
      PriceableLineOfKey(d, input.latePaidPeriods, c.key);
    }
  }

  lemma LeftWithoutCharges(own: seq<ExpectedLine>, charges: seq<Charge>, e: ExpectedLine)
    requires DistinctKeys(charges) && e in own && forall c :: c in charges ==> c.key.feeClass != e.feeClass
    ensures e in PairRecipients(own, charges).expectedLeft
  {
    PairingIsExact(own, charges, e.feeClass);
    KeepNothing(charges, SameFeeClass(e.feeClass));
    KeepExact(own, ExpectedOfClass(e.feeClass));
    KeepExact(PairRecipients(own, charges).expectedLeft, ExpectedOfClass(e.feeClass));
    assert e in Keep(own, ExpectedOfClass(e.feeClass));
  }

  lemma UnmatchedOfClass(input: Input, e: ExpectedLine)
    requires UniqueKeys(input.expectedLines) && e in input.expectedLines && forall c ::
      c in WorkOf(input).primary ==> c.key.feeClass != e.feeClass
    ensures e in WorkOf(input).unmatchedExpected && DistinctKeys(WorkOf(input).unmatchedCharges)
    ensures forall c :: c in WorkOf(input).unmatchedCharges ==> c in WorkOf(input).primary
  {
    var w := WorkOf(input);
    DuplicatesPartition(w.comparable);
    IndexExact(w.primary);
    KeepExact(input.expectedLines, Unbilled(Index(w.primary)));
    KeepExact(w.primary, Unclaimed(KeySet(Map(input.expectedLines, KeyOfExpected))));
    RunPartitions(input);
  }

  /** An expected line whose fee class nobody bills is left over. */
  lemma UnbilledClassIsLeft(input: Input, e: ExpectedLine)
    requires UniqueKeys(input.expectedLines) && e in input.expectedLines && ClassUnbilled(input, e.feeClass)
    ensures e in WorkOf(input).pairing.expectedLeft
  {
    var w := WorkOf(input);
    NoChargeOfClass(input, e.feeClass);
    UnmatchedOfClass(input, e);
    LeftWithoutCharges(w.unmatchedExpected, w.unmatchedCharges, e);
  }

  /** An expected line nobody billed is reported. */
  lemma MissingIsReported(input: Input, w: Work, e: ExpectedLine)
    requires input.documents != [] && e in w.pairing.expectedLeft
    ensures Judged(input.materiality)(MissingBreak(input.period, input.categoryMap,
      Fallback(w.inPeriod, input.documents))(e)) in Breaks(input, w)
  {
    var f := MissingBreak(input.period, input.categoryMap, Fallback(w.inPeriod, input.documents));
    MapIn(w.pairing.expectedLeft, e, f);
    assert f(e) in MatchBreaks(input, w);
    MapIn(RawBreaks(input, w), f(e), Judged(input.materiality));
  }

  lemma SmallIsNotMaterial(input: Input, w: Work, e: ExpectedLine)
    requires input.documents != [] && e in w.pairing.expectedLeft && Abs(e.net) <= input.materiality
    ensures exists b :: b in Reconciled(input, w).breaks && !b.material
  {
    MissingIsReported(input, w, e);
    var b := Judged(input.materiality)(MissingBreak(input.period, input.categoryMap,
        Fallback(w.inPeriod, input.documents))(e));
    assert b in Reconciled(input, w).breaks && !b.material;
  }

  /** So a small expected line of an unbilled fee class is a break that does not hold the close open. */
  lemma UnbilledClassCanBeImmaterial(input: Input, e: ExpectedLine)
    requires Refusal(input).None? && e in input.expectedLines && ClassUnbilled(input, e.feeClass)
      && Abs(e.net) <= input.materiality
    ensures exists b :: b in Reconciled(input, WorkOf(input)).breaks && !b.material
  {
    UnbilledClassIsLeft(input, e);
    SmallIsNotMaterial(input, WorkOf(input), e);
  }

  const BILLED := ExpectedLine(Nebras, "NEBRAS", Hub, "hub.standard", 1, 2500, 125, [], [])
  const LINE := DocumentLine("1", "API Hub Fee", Some("hub.standard"), true, Nebras, "NEBRAS", 1, 2500, 125)

  function Overlooked(net: int, vat: int): ExpectedLine {
    ExpectedLine(Nebras, "NEBRAS", Hub, "hub.paired", 1, net, vat, [], [])
  }

  function Invoice(period: string): Document {
    Document("D1", "NEBRAS", "INV-1", period, 0, 0, [LINE])
  }

  /** One line billed to the unit, and one that nobody billed, at the default thresholds. */
  function SmallRun(period: string, net: int, vat: int): Input {
    Input(period, [BILLED, Overlooked(net, vat)], [Invoice(period)], {}, DEFAULT_TOLERANCE, DEFAULT_MATERIALITY, 30,
        map[])
  }

  lemma OneLineBilled(period: string)
    ensures PriceableLines(Invoice(period), {}) == [LINE] && Covers(Invoice(period), {}, BILLED, DEFAULT_TOLERANCE)
  {
    KeepAll([LINE], Disposed(period, {}, Priceable));
    assert Members([LINE], KeyOfLine, KeyOfExpected(BILLED)) == [LINE];
  }

  lemma TwoFeeClasses(net: int, vat: int)
    ensures BILLED.feeClass != Overlooked(net, vat).feeClass
  {
    assert |BILLED.feeClass| != |Overlooked(net, vat).feeClass|;
  }

  lemma SmallRunIsAccepted(input: Input, e: ExpectedLine)
    requires input.expectedLines == [BILLED, e] && BILLED.feeClass != e.feeClass
    requires input.documents != [] && input.tolerance >= 0 && input.materiality >= 0 && input.queryWindowDays > 0
    ensures Refusal(input).None? && e in input.expectedLines
  {
    var ks := Map(input.expectedLines, KeyOfExpected);
    assert ks[0].feeClass != ks[1].feeClass;
    assert input.expectedLines[1] in input.expectedLines;
  }

  lemma SmallRunBillsOneClass(input: Input, period: string, feeClass: string)
    requires input.documents == [Invoice(period)] && input.latePaidPeriods == {} && feeClass != BILLED.feeClass
    ensures ClassUnbilled(input, feeClass)
  {
    OneLineBilled(period);
  }

  /** At the default thresholds, beside a line billed to the unit, an expected charge of up to a fil that nobody billed
      is a break, and it does not block: at the defaults not every break is material. */
  lemma DefaultsLeaveAnImmaterialBreak(input: Input, period: string, net: int, vat: int)
    requires input == SmallRun(period, net, vat) && 0 <= net <= 1000
    ensures Refusal(input).None? && Covers(Invoice(period), {}, BILLED, DEFAULT_TOLERANCE)
    ensures exists b :: b in Reconciled(input, WorkOf(input)).breaks && !b.material
  {
    TwoFeeClasses(net, vat);
    SmallRunIsAccepted(input, Overlooked(net, vat));
    SmallRunBillsOneClass(input, period, Overlooked(net, vat).feeClass);
    OneLineBilled(period);
    UnbilledClassCanBeImmaterial(input, Overlooked(net, vat));
  }
}
