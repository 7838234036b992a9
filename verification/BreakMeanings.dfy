/** What every reported break says, read off the documents and the expected lines: who billed what, who expected what,
    and why that is a break of its type. */
module BreakMeanings {
  import opened Collections
  import opened PayableReconciliation
  import opened ReconciliationTheorems
  import opened ReconciliationVerdicts
  import opened ReconciliationRollup
  import opened ReconciliationInputs

  // ---------------------------------------------------------------- what a document bills under a key

  predicate IsPenalty(l: DocumentLine) {
    l.sourceCategory == "Late Payment Penalty"
  }

  /** The line is billed by the counterparty and for the fee class of the key. */
  function IsRowOf(k: Key): DocumentLine -> bool {
    (l: DocumentLine) =>
      !IsPenalty(l) && l.mapped && l.feeClass == Some(k.feeClass) && l.recipientType == k.recipientType
      && l.recipientId == k.recipientId
  }

  function RowsUnder(d: Document, k: Key): seq<DocumentLine> {
    Keep(d.lines, IsRowOf(k))
  }

  lemma RowsAreMembers(d: Document, late: set<string>, k: Key)
    ensures Members(PriceableLines(d, late), KeyOfLine, k) == RowsUnder(d, k)
    ensures Charges(d, late, k) <==> RowsUnder(d, k) != []
  {
    var lines := PriceableLines(d, late);
    KeepExact(d.lines, Disposed(d.period, late, Priceable));
    MembersAreKept(lines, KeyOfLine, k, IsRowOf(k));
    KeepTwice(d.lines, Disposed(d.period, late, Priceable), IsRowOf(k), IsRowOf(k));
    MembersEmpty(lines, KeyOfLine, k);
  }

  /** The `i`-th document bills the key, and none before it does. */
  ghost predicate BillsFirst(ds: seq<Document>, i: nat, k: Key)
    requires i < |ds|
  {
    RowsUnder(ds[i], k) != [] && forall h :: 0 <= h < i ==> RowsUnder(ds[h], k) == []
  }

  /** The `i`-th document bills the key, and so does one before it. */
  ghost predicate BillsAgain(ds: seq<Document>, i: nat, k: Key)
    requires i < |ds|
  {
    RowsUnder(ds[i], k) != [] && exists h :: 0 <= h < i && RowsUnder(ds[h], k) != []
  }

  lemma BillingPlaces(ds: seq<Document>, late: set<string>, i: nat, k: Key)
    requires i < |ds|
    ensures BillsFirst(ds, i, k) <==> ChargesFirst(ds, late, i, k)
    ensures BillsAgain(ds, i, k) <==> ChargesAgain(ds, late, i, k)
  {
    forall h | 0 <= h < |ds| ensures Charges(ds[h], late, k) <==> RowsUnder(ds[h], k) != [] {
      RowsAreMembers(ds[h], late, k);
    }
  }

  ghost predicate NobodyBills(ds: seq<Document>, k: Key) {
    forall h :: 0 <= h < |ds| ==> RowsUnder(ds[h], k) == []
  }

  lemma NobodyBillsExactly(input: Input, k: Key)
    ensures NobodyBills(Billing(input), k) <==> !IsBilled(input, k)
  {
    forall h | 0 <= h < |Billing(input)|
      ensures Charges(Billing(input)[h], input.latePaidPeriods, k) <==> RowsUnder(Billing(input)[h], k) != []
    {
      RowsAreMembers(Billing(input)[h], input.latePaidPeriods, k);
    }
  }

  // ---------------------------------------------------------------- the two sides of a break

  /** The provider's side is what the document bills under the key: its rows' references and their sums. */
  predicate StatesCharge(b: Break, d: Document, k: Key) {
    var rows := RowsUnder(d, k);
    && b.documentId == d.id && b.documentReference == d.reference
    && b.lineRef == ChargeRef(d.reference, Map(rows, RefOfLine))
    && b.actualUnits == SumBy(rows, UnitsOfLine) && b.actualNet == SumBy(rows, NetOfLine)
    && b.actualVat == SumBy(rows, VatOfLine)
  }

  /** The own side is the expected line. */
  predicate StatesExpected(b: Break, e: ExpectedLine) {
    && b.recipientType == e.recipientType && b.recipientId == e.recipientId
    && b.feeClass == Some(e.feeClass) && b.feeStream == Some(e.feeStream)
    && b.expectedUnits == e.units && b.expectedNet == e.net && b.expectedVat == e.vat
    && b.eventIds == e.eventIds && b.interactionIds == e.interactionIds
  }

  predicate ChargesParty(b: Break, k: Key) {
    b.recipientType == k.recipientType && b.recipientId == k.recipientId && b.feeClass == Some(k.feeClass)
  }

  lemma ChargeStates(d: Document, late: set<string>, k: Key, b: Break)
    requires var c := ChargeIn(d, late, k);
      && b.documentId == c.documentId && b.documentReference == c.documentReference
      && b.lineRef == ChargeRef(c.documentReference, c.lineRefs)
      && b.actualUnits == c.units && b.actualNet == c.net && b.actualVat == c.vat
    ensures StatesCharge(b, d, k)
  {
    RowsAreMembers(d, late, k);
  }

  // ---------------------------------------------------------------- breaks of both sides

  /** The break judges a document's charge against the expectation of the same key. */
  predicate JudgesMatch(b: Break) {
    b.presence == Both && b.breakType != WrongRecipient
  }

  /** Units come first, then the net, then the VAT; a difference within the tolerance is none. */
  predicate TypedByFigures(b: Break, tolerance: int) {
    var unitsDiffer := b.actualUnits != b.expectedUnits;
    var netOff, vatOff := Abs(b.actualNet - b.expectedNet) > tolerance, Abs(b.actualVat - b.expectedVat) > tolerance;
    && (b.breakType == QuantityVariance <==> unitsDiffer)
    && (b.breakType == RateVariance <==> !unitsDiffer && netOff)
    && (b.breakType == VatVariance <==> !unitsDiffer && !netOff && vatOff)
    && (unitsDiffer || netOff || vatOff)
  }

  /** An expected line against the first charge of its own key, which differs from it. */
  ghost predicate SaysMismatch(input: Input, b: Break) {
    && TypedByFigures(b, input.tolerance)
    && exists e, i ::
         && e in input.expectedLines && 0 <= i < |Billing(input)| && BillsFirst(Billing(input), i, KeyOfExpected(e))
         && StatesExpected(b, e) && StatesCharge(b, Billing(input)[i], KeyOfExpected(e))
  }

  /** An expected line nobody billed against a charge nobody expected, of one fee class and another counterparty. */
  ghost predicate SaysWrongRecipient(input: Input, b: Break) {
    exists e, i, k :: e in input.expectedLines && 0 <= i < |Billing(input)| && BillsFirst(Billing(input), i, k)
      && NobodyBills(Billing(input), KeyOfExpected(e)) && !IsExpected(input, k) && k.feeClass == e.feeClass
      && StatesExpected(b, e) && StatesCharge(b, Billing(input)[i], k)
  }

  lemma PairStates(input: Input, q: Pair, t: BreakType, i: nat)
    requires i < |Billing(input)| && q.claimed == ChargeIn(Billing(input)[i], input.latePaidPeriods, q.claimed.key)
    ensures StatesExpected(PairBreak(q, t), q.own)
    ensures StatesCharge(PairBreak(q, t), Billing(input)[i], q.claimed.key)
  {
    ChargeStates(Billing(input)[i], input.latePaidPeriods, q.claimed.key, PairBreak(q, t));
  }

  lemma FirstPlaceOf(input: Input, c: Charge) returns (i: nat)
    requires c in WorkOf(input).primary
    ensures i < |Billing(input)| && BillsFirst(Billing(input), i, c.key)
    ensures c == ChargeIn(Billing(input)[i], input.latePaidPeriods, c.key)
  {
    FiledInRun(input, c);
    i :| 0 <= i < |Billing(input)| && FirstPlace(Billing(input), input.latePaidPeriods, c)(i);
    BillingPlaces(Billing(input), input.latePaidPeriods, i, c.key);
  }

  lemma MismatchIsTyped(q: Pair, tolerance: int)
    requires Variance(tolerance, q).Some?
    ensures TypedByFigures(PairBreak(q, Variance(tolerance, q).value), tolerance)
    ensures JudgesMatch(PairBreak(q, Variance(tolerance, q).value))
  {
  }

  lemma PairsAreOfRun(input: Input, q: Pair)
    requires q in WorkOf(input).pairs
    ensures q.own in input.expectedLines && q.claimed in WorkOf(input).primary && q.claimed.key == KeyOfExpected(q.own)
  {
    var w := WorkOf(input);
    DuplicatesPartition(w.comparable);
    IndexExact(w.primary);
    MatchesExact(input.expectedLines, Index(w.primary), q);
  }

  lemma MismatchIsSaid(input: Input, q: Pair)
    requires q in WorkOf(input).pairs && Variance(input.tolerance, q).Some?
    ensures SaysMismatch(input, PairBreak(q, Variance(input.tolerance, q).value))
  {
    PairsAreOfRun(input, q);
    var i := FirstPlaceOf(input, q.claimed);
    MismatchIsTyped(q, input.tolerance);
    PairStates(input, q, Variance(input.tolerance, q).value, i);
  }

  lemma RecipientsAreOfRun(input: Input, q: Pair)
    requires q in WorkOf(input).pairing.pairs
    ensures q.own in input.expectedLines && q.claimed in WorkOf(input).primary
    ensures !IsBilled(input, KeyOfExpected(q.own)) && !IsExpected(input, q.claimed.key)
    ensures q.own.feeClass == q.claimed.key.feeClass
  {
    var w := WorkOf(input);
    UnmatchedChargesOfRun(input);
    PairedInClass(w.unmatchedExpected, w.unmatchedCharges, q);
    KeepExact(input.expectedLines, Unbilled(Index(w.primary)));
    BilledKeys(input, KeyOfExpected(q.own));
  }

  lemma WrongRecipientIsSaid(input: Input, q: Pair)
    requires q in WorkOf(input).pairing.pairs
    ensures SaysWrongRecipient(input, RecipientBreak(q))
  {
    RecipientsAreOfRun(input, q);
    var i := FirstPlaceOf(input, q.claimed);
    NobodyBillsExactly(input, KeyOfExpected(q.own));
    PairStates(input, q, WrongRecipient, i);
  }

  // ---------------------------------------------------------------- breaks only we assert

  /** A provider's category stands for the fee class. */
  ghost predicate Billable(input: Input, feeClass: string) {
    exists c :: c in input.categoryMap && input.categoryMap[c] == feeClass
  }

  /** Filed under a document of the period, if there is one. */
  ghost predicate FiledSomewhere(input: Input, b: Break) {
    exists d :: d in input.documents && b.documentId == d.id && b.documentReference == d.reference
      && (d.period == input.period || Billing(input) == [])
  }

  /** An expected line left over: missing if the provider has a category for its fee class, and our own gap if not. */
  ghost predicate SaysMissing(input: Input, b: Break) {
    && FiledSomewhere(input, b)
    && exists e ::
         && IsLeftOver(input, e) && StatesExpected(b, e) && b.lineRef == ExpectedRef(input.period, KeyOfExpected(e))
         && (b.breakType == MissingCharge <==> Billable(input, e.feeClass))
  }

  lemma FallbackIsFiled(input: Input, d: Document)
    requires input.documents != [] && d == Fallback(WorkOf(input).inPeriod, input.documents)
    ensures d in input.documents && (d.period == input.period || Billing(input) == [])
  {
    KeepExact(input.documents, InPeriod(input.period));
    if Billing(input) != [] {
      assert d in Billing(input);
    }
  }

  lemma MissingIsSaid(input: Input, e: ExpectedLine, d: Document)
    requires e in WorkOf(input).pairing.expectedLeft
    requires input.documents != [] && d == Fallback(WorkOf(input).inPeriod, input.documents)
    ensures SaysMissing(input, MissingBreak(input.period, input.categoryMap, d)(e))
  {
    ExpectedLeftOfRun(input, e);
    FallbackIsFiled(input, d);
    var b := MissingBreak(input.period, input.categoryMap, d)(e);
    assert FiledSomewhere(input, b) && StatesExpected(b, e);
  }

  // ---------------------------------------------------------------- breaks only the provider asserts

  /** A document of another period, as a whole. */
  ghost predicate SaysOffPeriod(input: Input, b: Break) {
    exists d :: d in input.documents && d.period != input.period
      && b.lineRef == PeriodRef(d.reference) && b.documentId == d.id && b.documentReference == d.reference
      && b.actualUnits == SumBy(d.lines, UnitsOfLine) && b.actualNet == SumBy(d.lines, NetOfLine)
      && b.actualVat == SumBy(d.lines, VatOfLine)
  }

  predicate StatesLine(b: Break, d: Document, l: DocumentLine) {
    && b.documentId == d.id && b.documentReference == d.reference && b.lineRef == ChargeRef(d.reference, [l.lineRef])
    && b.actualUnits == l.units && b.actualNet == l.net && b.actualVat == l.vat
    && b.recipientType == l.recipientType && b.recipientId == l.recipientId && b.feeClass == l.feeClass
  }

  /** A penalty while no payment of ours was late. */
  ghost predicate SaysPenalty(input: Input, b: Break) {
    && input.period !in input.latePaidPeriods
    && exists d, l :: d in Billing(input) && l in d.lines && IsPenalty(l) && StatesLine(b, d, l)
  }

  /** A line whose category the map does not know. */
  ghost predicate SaysUnmapped(input: Input, b: Break) {
    exists d, l :: d in Billing(input) && l in d.lines && !IsPenalty(l) && (!l.mapped || l.feeClass.None?)
      && StatesLine(b, d, l)
  }

  /** A charge of a key that an earlier document has billed. */
  ghost predicate SaysDuplicate(input: Input, b: Break) {
    exists i, k :: 0 <= i < |Billing(input)| && BillsAgain(Billing(input), i, k) && ChargesParty(b, k)
      && StatesCharge(b, Billing(input)[i], k)
  }

  /** The first charge of a key that nobody expected, and that is not reassigned. */
  ghost predicate SaysUnexpected(input: Input, b: Break) {
    exists i, k :: 0 <= i < |Billing(input)| && BillsFirst(Billing(input), i, k) && !IsExpected(input, k)
      && !Reassigned(input, k.feeClass) && ChargesParty(b, k) && StatesCharge(b, Billing(input)[i], k)
  }

  lemma RefusedIsSaid(input: Input, d: Document, l: DocumentLine)
    requires d in Billing(input) && l in d.lines && Refused(d.period, input.latePaidPeriods)(l)
    ensures var b := RefusedBreak(d, input.latePaidPeriods)(l);
      && (b.breakType == UnexpectedCharge ==> SaysPenalty(input, b))
      && (b.breakType == UnmatchedDocumentLine ==> SaysUnmapped(input, b))
      && b.breakType in {UnexpectedCharge, UnmatchedDocumentLine}
  {
    KeepExact(input.documents, InPeriod(input.period));
    assert StatesLine(RefusedBreak(d, input.latePaidPeriods)(l), d, l);
  }

  lemma DuplicateIsSaid(input: Input, c: Charge)
    requires c in WorkOf(input).duplicates
    ensures SaysDuplicate(input, ChargeBreak(DuplicateCharge)(c))
  {
    FiledInRun(input, c);
    var ds, late, b := Billing(input), input.latePaidPeriods, ChargeBreak(DuplicateCharge)(c);
    var i :| 0 <= i < |ds| && LaterPlace(ds, late, c)(i);
    BillingPlaces(ds, late, i, c.key);
    ChargeStates(ds[i], late, c.key, b);
    assert BillsAgain(ds, i, c.key) && ChargesParty(b, c.key) && StatesCharge(b, ds[i], c.key);
  }

  lemma UnexpectedIsSaid(input: Input, c: Charge)
    requires c in WorkOf(input).pairing.chargesLeft
    ensures SaysUnexpected(input, ChargeBreak(UnexpectedCharge)(c))
  {
    ChargesLeftOfRun(input, c);
    var b := ChargeBreak(UnexpectedCharge)(c);
    var i := FirstPlaceOf(input, c);
    ChargeStates(Billing(input)[i], input.latePaidPeriods, c.key, b);
    assert BillsFirst(Billing(input), i, c.key) && ChargesParty(b, c.key) && StatesCharge(b, Billing(input)[i], c.key);
  }

  // ---------------------------------------------------------------- every break of a run

  /** The break says what its type and its presence announce. */
  ghost predicate SaysWhatItIs(input: Input, b: Break) {
    && b.variance == b.actualNet - b.expectedNet
    && match b.breakType
       case PeriodVariance => b.presence == DocumentOnly && SaysOffPeriod(input, b)
       case UnmatchedDocumentLine => b.presence == DocumentOnly && SaysUnmapped(input, b)
       case UnexpectedCharge => b.presence == DocumentOnly && (SaysPenalty(input, b) || SaysUnexpected(input, b))
       case DuplicateCharge => b.presence == DocumentOnly && SaysDuplicate(input, b)
       case WrongRecipient => b.presence == Both && SaysWrongRecipient(input, b)
       case MissingCharge => b.presence == ExpectedOnly && SaysMissing(input, b)
       case UnmatchedExpectedLine => b.presence == ExpectedOnly && SaysMissing(input, b)
       case _ => b.presence == Both && SaysMismatch(input, b)
  }

  lemma PreimageOf<T, U>(xs: seq<T>, f: T -> U, y: U) returns (x: T)
    requires y in Map(xs, f)
    ensures x in xs && f(x) == y
  {
    var i :| 0 <= i < |xs| && Map(xs, f)[i] == y;
    x := xs[i];
  }

  lemma {:induction false} RefusedLineOf(ds: seq<Document>, late: set<string>, b: Break)
      returns (d: Document, l: DocumentLine)
    requires b in Flatten(Map(ds, LineBreaks(late)))
    ensures d in ds && l in d.lines && Refused(d.period, late)(l) && b == RefusedBreak(d, late)(l)
  {
    var n := |ds| - 1;
    assert ds[..n + 1] == ds;
    FlattenMapSnoc(ds, n, LineBreaks(late));
    if b in LineBreaks(late)(ds[n]) {
      d := ds[n];
      KeepExact(d.lines, Refused(d.period, late));
      l := PreimageOf(Keep(d.lines, Refused(d.period, late)), RefusedBreak(d, late), b);
    } else {
      d, l := RefusedLineOf(ds[..n], late, b);
    }
  }

  lemma PeriodBreakSays(input: Input, b: Break)
    requires b in PeriodBreaks(input)
    ensures SaysWhatItIs(input, b)
  {
    var d := PreimageOf(Keep(input.documents, OffPeriod(input.period)), PeriodBreak, b);
    KeepExact(input.documents, OffPeriod(input.period));
    assert SaysOffPeriod(input, b);
  }

  lemma RefusedBreakSays(input: Input, b: Break)
    requires b in RefusedBreaks(input, WorkOf(input))
    ensures SaysWhatItIs(input, b)
  {
    var d, l := RefusedLineOf(Billing(input), input.latePaidPeriods, b);
    RefusedIsSaid(input, d, l);
  }

  lemma DuplicateBreakSays(input: Input, b: Break)
    requires b in Map(WorkOf(input).duplicates, ChargeBreak(DuplicateCharge))
    ensures SaysWhatItIs(input, b)
  {
    var c := PreimageOf(WorkOf(input).duplicates, ChargeBreak(DuplicateCharge), b);
    DuplicateIsSaid(input, c);
  }

  lemma MismatchBreakSays(input: Input, b: Break)
    requires b in Map(Keep(WorkOf(input).pairs, Differs(input.tolerance)), VarianceBreak(input.tolerance))
    ensures SaysWhatItIs(input, b)
  {
    var q := PreimageOf(Keep(WorkOf(input).pairs, Differs(input.tolerance)), VarianceBreak(input.tolerance), b);
    KeepExact(WorkOf(input).pairs, Differs(input.tolerance));
    MismatchIsTyped(q, input.tolerance);
    MismatchIsSaid(input, q);
  }

  lemma RecipientBreakSays(input: Input, b: Break)
    requires b in Map(WorkOf(input).pairing.pairs, RecipientBreak)
    ensures SaysWhatItIs(input, b)
  {
    var q := PreimageOf(WorkOf(input).pairing.pairs, RecipientBreak, b);
    WrongRecipientIsSaid(input, q);
  }

  lemma MissingBreakSays(input: Input, d: Document, b: Break)
    requires input.documents != [] && d == Fallback(WorkOf(input).inPeriod, input.documents)
    requires b in Map(WorkOf(input).pairing.expectedLeft, MissingBreak(input.period, input.categoryMap, d))
    ensures SaysWhatItIs(input, b)
  {
    var e := PreimageOf(WorkOf(input).pairing.expectedLeft, MissingBreak(input.period, input.categoryMap, d), b);
    MissingIsSaid(input, e, d);
  }

  lemma UnexpectedBreakSays(input: Input, b: Break)
    requires b in Map(WorkOf(input).pairing.chargesLeft, ChargeBreak(UnexpectedCharge))
    ensures SaysWhatItIs(input, b)
  {
    var c := PreimageOf(WorkOf(input).pairing.chargesLeft, ChargeBreak(UnexpectedCharge), b);
    UnexpectedIsSaid(input, c);
  }

  lemma RawBreakSays(input: Input, b: Break)
    requires input.documents != [] && b in RawBreaks(input, WorkOf(input))
    ensures SaysWhatItIs(input, b)
  {
    var w, d := WorkOf(input), Fallback(WorkOf(input).inPeriod, input.documents);
    if b in PeriodBreaks(input) {
      PeriodBreakSays(input, b);
    } else if b in RefusedBreaks(input, w) {
      RefusedBreakSays(input, b);
    } else if b in Map(w.duplicates, ChargeBreak(DuplicateCharge)) {
      DuplicateBreakSays(input, b);
    } else if b in Map(Keep(w.pairs, Differs(input.tolerance)), VarianceBreak(input.tolerance)) {
      MismatchBreakSays(input, b);
    } else if b in Map(w.pairing.pairs, RecipientBreak) {
      RecipientBreakSays(input, b);
    } else if b in Map(w.pairing.expectedLeft, MissingBreak(input.period, input.categoryMap, d)) {
      MissingBreakSays(input, d, b);
    } else {
      UnexpectedBreakSays(input, b);
    }
  }

  lemma JudgingSaysNothingNew(input: Input, b: Break, judged: Break)
    requires SaysWhatItIs(input, b) && judged == b.(material := judged.material)
    ensures SaysWhatItIs(input, judged)
  {
  }

  /** Every break of a run says what it is, whether both sides, only the provider or only we assert it. */
  lemma {:induction false} BreakSaysWhatItIs(input: Input, b: Break)
    requires input.documents != [] && b in Reconciled(input, WorkOf(input)).breaks
    ensures SaysWhatItIs(input, b)
  {
    var raw := PreimageOf(RawBreaks(input, WorkOf(input)), Judged(input.materiality), b);
    RawBreakSays(input, raw);
    JudgingSaysNothingNew(input, raw, b);
  }

  lemma MismatchIsWhatIsSaid(input: Input, b: Break)
    requires SaysWhatItIs(input, b) && JudgesMatch(b)
    ensures TypedByFigures(b, input.tolerance)
  {
  }

  /** A match of one key is broken by its units, else by its net, else by its VAT, whichever differs first. */
  lemma {:induction false} MatchBreakIsTypedExactly(input: Input, b: Break)
    requires input.documents != [] && b in Reconciled(input, WorkOf(input)).breaks && JudgesMatch(b)
    ensures b.breakType == QuantityVariance <==> b.actualUnits != b.expectedUnits
    ensures b.breakType == RateVariance <==>
      b.actualUnits == b.expectedUnits && Abs(b.actualNet - b.expectedNet) > input.tolerance
    ensures b.breakType == VatVariance <==>
      && b.actualUnits == b.expectedUnits && Abs(b.actualNet - b.expectedNet) <= input.tolerance
      && Abs(b.actualVat - b.expectedVat) > input.tolerance
  {
    BreakSaysWhatItIs(input, b);
    MismatchIsWhatIsSaid(input, b);
  }

  // ---------------------------------------------------------------- materiality

  /** Another recipient and other units always hold the close open, and otherwise the figure that differs does. */
  predicate BlocksByFigures(b: Break, tolerance: int, materiality: int) {
    var net, vat := Abs(b.actualNet - b.expectedNet), Abs(b.actualVat - b.expectedVat);
    var asserted := b.breakType == WrongRecipient || b.actualUnits != b.expectedUnits;
    var differing := if net > tolerance then net else vat;
    b.material <==> if b.presence != Both then net > materiality else asserted || differing > materiality
  }

  lemma JudgedByFigures(input: Input, b: Break)
    requires SaysWhatItIs(input, b)
    ensures BlocksByFigures(Judged(input.materiality)(b), input.tolerance, input.materiality)
  {
  }

  /** Whatever the thresholds, a break's materiality follows from its own figures. */
  lemma {:induction false} MaterialityByFigures(input: Input, b: Break)
    requires input.documents != [] && b in Reconciled(input, WorkOf(input)).breaks
    ensures BlocksByFigures(b, input.tolerance, input.materiality)
  {
    var raw := PreimageOf(RawBreaks(input, WorkOf(input)), Judged(input.materiality), b);
    RawBreakSays(input, raw);
    JudgedByFigures(input, raw);
  }

  // ---------------------------------------------------------------- accepted penalties

  function PenaltyCount(d: Document): int {
    |Keep(d.lines, (l: DocumentLine) => IsPenalty(l))|
  }

  lemma {:induction false} PenaltiesOfDocuments(ds: seq<Document>, period: string, late: set<string>)
    requires forall d :: d in ds ==> d.period == period
    ensures |Flatten(Map(ds, AcceptedLines(late)))| == if period in late then SumBy(ds, PenaltyCount) else 0
  {
    if ds != [] {
      var n := |ds| - 1;
      assert ds[..n + 1] == ds && ds == ds[..n] + [ds[n]] && ds[n] in ds;
      PenaltiesOfDocuments(ds[..n], period, late);
      FlattenMapSnoc(ds, n, AcceptedLines(late));
      PenaltiesOfDocument(ds[n], late);
    }
  }

  lemma PenaltiesOfDocument(d: Document, late: set<string>)
    ensures |AcceptedLines(late)(d)| == if d.period in late then PenaltyCount(d) else 0
  {
    var p := (l: DocumentLine) => IsPenalty(l);
    if d.period in late {
      KeepTwice(d.lines, p, Disposed(d.period, late, AcceptedPenalty), Disposed(d.period, late, AcceptedPenalty));
      KeepExact(d.lines, p);
      KeepAll(Keep(d.lines, p), Disposed(d.period, late, AcceptedPenalty));
    } else {
      KeepNothing(d.lines, Disposed(d.period, late, AcceptedPenalty));
    }
  }

  /** All penalties of the period's documents are accepted if a payment of ours was late, and none otherwise. */
  lemma {:induction false} PenaltiesAreAcceptedExactly(input: Input)
    requires input.documents != []
    ensures Reconciled(input, WorkOf(input)).penaltyLinesAccepted ==
      if input.period in input.latePaidPeriods then SumBy(Billing(input), PenaltyCount) else 0
  {
    KeepExact(input.documents, InPeriod(input.period));
    PenaltiesOfDocuments(Billing(input), input.period, input.latePaidPeriods);
  }
}
