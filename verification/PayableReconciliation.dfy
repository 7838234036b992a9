/** Three-way payable reconciliation: own expectation against the providers' documents.
    Amounts are integer milli-fils, instants are integer milliseconds, and the joined match key
    `type|id|feeClass` is a record. The methods at the end of the module are the step-by-step algorithm;
    each is proved equal to the specification functions that precede it. */
module PayableReconciliation {
  import opened Collections

  // ---------------------------------------------------------------- data model

  datatype RecipientType = Nebras | UnderlyingLfi

  datatype FeeStream = Hub | LfiPayment | LfiData

  /** A charge meets an expected line of the same counterparty and fee class. */
  datatype Key = Key(recipientType: RecipientType, recipientId: string, feeClass: string)

  datatype DocumentLine = DocumentLine(
    lineRef: string, sourceCategory: string, feeClass: Option<string>, mapped: bool,
    recipientType: RecipientType, recipientId: string, units: int, net: int, vat: int)

  datatype Document = Document(
    id: string, issuerId: string, reference: string, period: string,
    issuedAt: int, receivedAt: int, lines: seq<DocumentLine>)

  datatype ExpectedLine = ExpectedLine(
    recipientType: RecipientType, recipientId: string, feeStream: FeeStream, feeClass: string,
    units: int, net: int, vat: int, eventIds: seq<string>, interactionIds: seq<string>)

  /** What one document bills under one match key, over however many rows. */
  datatype Charge = Charge(
    documentId: string, documentReference: string, lineRefs: seq<string>, sourceCategory: string,
    key: Key, units: int, net: int, vat: int)
  {
    /** One more row of the same category. */
    function Absorb(l: DocumentLine): Charge {
      this.(lineRefs := lineRefs + [l.lineRef], units := units + l.units, net := net + l.net, vat := vat + l.vat)
    }
  }

  datatype BreakType =
    | QuantityVariance | RateVariance | UnexpectedCharge | MissingCharge | WrongRecipient
    | DuplicateCharge | VatVariance | PeriodVariance | UnmatchedDocumentLine | UnmatchedExpectedLine

  datatype LineType = NebrasFees | LfiAccessLog

  datatype Presence = Both | ExpectedOnly | DocumentOnly

  /** The three textual shapes a break's line reference takes. */
  datatype LineRef =
    | PeriodRef(documentReference: string)
    | ChargeRef(documentReference: string, lineRefs: seq<string>)
    | ExpectedRef(period: string, key: Key)

  datatype Break = Break(
    lineRef: LineRef, breakType: BreakType, lineType: LineType, presence: Presence,
    recipientType: RecipientType, recipientId: string, feeClass: Option<string>, feeStream: Option<FeeStream>,
    sourceCategory: Option<string>, documentId: string, documentReference: string,
    expectedUnits: int, actualUnits: int, expectedNet: int, actualNet: int, expectedVat: int, actualVat: int,
    variance: int, material: bool, eventIds: seq<string>, interactionIds: seq<string>)

  datatype Input = Input(
    period: string, expectedLines: seq<ExpectedLine>, documents: seq<Document>, latePaidPeriods: set<string>,
    tolerance: int, materiality: int, queryWindowDays: int, categoryMap: map<string, string>)

  datatype Row = Row(
    documentId: string, documentReference: string, matchedLineCount: nat, breakCount: nat,
    expectedNet: int, actualNet: int, netVariance: int, grossVariance: int)

  datatype QueryWindow = QueryWindow(deadline: int, daysRemaining: int, open: bool)

  datatype Reconciliation = Reconciliation(
    period: string, documentIds: seq<string>, perDocument: seq<Row>, tolerance: int, window: QueryWindow,
    matchedLineCount: nat, breaks: seq<Break>, penaltyLinesAccepted: nat,
    expectedTotalNet: int, actualTotalNet: int, netVariance: int, grossVariance: int)

  datatype Error = NoDocuments | BadTolerance | BadMateriality | BadQueryWindow | DuplicateExpectedLine

  const PENALTY_CATEGORIES: seq<string> := ["Late Payment Penalty"]
  const DEFAULT_TOLERANCE := 1000
  const DEFAULT_MATERIALITY := 1000
  const DAY_MILLISECONDS := 24 * 60 * 60 * 1000

  // ---------------------------------------------------------------- line triage

  datatype Disposition = AcceptedPenalty | RefusedPenalty | Unmapped | Priceable

  function Dispose(period: string, late: set<string>, l: DocumentLine): Disposition {
    if l.sourceCategory in PENALTY_CATEGORIES then
      if period in late then AcceptedPenalty else RefusedPenalty
    else if !l.mapped || l.feeClass.None? then Unmapped
    else Priceable
  }

  function Disposed(period: string, late: set<string>, w: Disposition): DocumentLine -> bool {
    (l: DocumentLine) => Dispose(period, late, l) == w
  }

  function Refused(period: string, late: set<string>): DocumentLine -> bool {
    (l: DocumentLine) => Dispose(period, late, l) in {RefusedPenalty, Unmapped}
  }

  function LineTypeFor(t: RecipientType): LineType {
    if t == Nebras then NebrasFees else LfiAccessLog
  }

  function DocumentOnlyBreak(d: Document, l: DocumentLine, t: BreakType): Break {
    Break(
      ChargeRef(d.reference, [l.lineRef]), t, LineTypeFor(l.recipientType), DocumentOnly, l.recipientType,
          l.recipientId,
      l.feeClass, None, Some(l.sourceCategory), d.id, d.reference, 0, l.units, 0, l.net, 0, l.vat, l.net, false, [], [])
  }

  function RefusedBreak(d: Document, late: set<string>): DocumentLine -> Break {
    (l: DocumentLine) =>
      DocumentOnlyBreak(d, l, if Dispose(d.period, late, l) == RefusedPenalty then UnexpectedCharge
          else UnmatchedDocumentLine)
  }

  function LineBreaks(late: set<string>): Document -> seq<Break> {
    (d: Document) => Map(Keep(d.lines, Refused(d.period, late)), RefusedBreak(d, late))
  }

  function PriceableLines(d: Document, late: set<string>): seq<DocumentLine> {
    Keep(d.lines, Disposed(d.period, late, Priceable))
  }

  function AcceptedLines(late: set<string>): Document -> seq<DocumentLine> {
    (d: Document) => Keep(d.lines, Disposed(d.period, late, AcceptedPenalty))
  }

  // ---------------------------------------------------------------- charges

  function KeyOfLine(l: DocumentLine): Key {
    Key(l.recipientType, l.recipientId, l.feeClass.GetOr(""))
  }

  function RefOfLine(l: DocumentLine): string { l.lineRef }

  function UnitsOfLine(l: DocumentLine): int { l.units }

  function NetOfLine(l: DocumentLine): int { l.net }

  function VatOfLine(l: DocumentLine): int { l.vat }

  /** The one charge that document `d` makes out of the lines `g` of key `k`. */
  function ChargeOf(d: Document, k: Key, g: seq<DocumentLine>): Charge {
    Charge(d.id, d.reference, Map(g, RefOfLine), if g == [] then "" else g[0].sourceCategory, k,
           SumBy(g, UnitsOfLine), SumBy(g, NetOfLine), SumBy(g, VatOfLine))
  }

  function ChargeFor(d: Document, lines: seq<DocumentLine>): Key -> Charge {
    (k: Key) => ChargeOf(d, k, Members(lines, KeyOfLine, k))
  }

  function Aggregated(d: Document, lines: seq<DocumentLine>): seq<Charge> {
    Map(Keys(lines, KeyOfLine), ChargeFor(d, lines))
  }

  function ChargesOf(late: set<string>): Document -> seq<Charge> {
    (d: Document) => Aggregated(d, PriceableLines(d, late))
  }

  function KeyOfCharge(c: Charge): Key { c.key }

  function NetOfCharge(c: Charge): int { c.net }

  /** The first document to charge a key holds the charge; every later one duplicates it. */
  function Primary(cs: seq<Charge>): seq<Charge> {
    Heads(Groups(cs, KeyOfCharge))
  }

  function Duplicates(cs: seq<Charge>): seq<Charge> {
    Flatten(Tails(Groups(cs, KeyOfCharge)))
  }

  /** A break only the provider asserts, for a whole charge. */
  function ChargeBreak(t: BreakType): Charge -> Break {
    (c: Charge) => Break(
      ChargeRef(c.documentReference, c.lineRefs), t, LineTypeFor(c.key.recipientType), DocumentOnly,
      c.key.recipientType, c.key.recipientId, Some(c.key.feeClass), None, Some(c.sourceCategory),
      c.documentId, c.documentReference, 0, c.units, 0, c.net, 0, c.vat, c.net, false, [], [])
  }

  // ---------------------------------------------------------------- matching

  datatype Pair = Pair(own: ExpectedLine, claimed: Charge)

  function KeyOfExpected(e: ExpectedLine): Key {
    Key(e.recipientType, e.recipientId, e.feeClass)
  }

  function KeySet(ks: seq<Key>): set<Key> {
    set k | k in ks
  }

  /** The charge filed under each key. */
  function Index(cs: seq<Charge>): map<Key, Charge> {
    if cs == [] then map[] else Index(cs[..|cs| - 1])[cs[|cs| - 1].key := cs[|cs| - 1]]
  }

  function Unbilled(primary: map<Key, Charge>): ExpectedLine -> bool {
    (e: ExpectedLine) => KeyOfExpected(e) !in primary
  }

  function Unclaimed(expected: set<Key>): Charge -> bool {
    (c: Charge) => c.key !in expected
  }

  function Matches(lines: seq<ExpectedLine>, primary: map<Key, Charge>): seq<Pair> {
    if lines == [] then []
    else
      var rest, e := Matches(lines[..|lines| - 1], primary), lines[|lines| - 1];
      if KeyOfExpected(e) in primary then rest + [Pair(e, primary[KeyOfExpected(e)])] else rest
  }

  /** Units first, then net, then VAT; nothing when no difference exceeds tolerance. */
  function ClassifyVariance(expectedUnits: int, actualUnits: int, netVariance: int, vatVariance: int, tolerance: int)
    : Option<BreakType>
  {
    if actualUnits != expectedUnits then Some(QuantityVariance)
    else if Abs(netVariance) > tolerance then Some(RateVariance)
    else if Abs(vatVariance) > tolerance then Some(VatVariance)
    else None
  }

  function Variance(tolerance: int, p: Pair): Option<BreakType> {
    ClassifyVariance(p.own.units, p.claimed.units, p.claimed.net - p.own.net, p.claimed.vat - p.own.vat, tolerance)
  }

  function Agrees(tolerance: int): Pair -> bool {
    (p: Pair) => Variance(tolerance, p).None?
  }

  function Differs(tolerance: int): Pair -> bool {
    (p: Pair) => Variance(tolerance, p).Some?
  }

  function PairBreak(p: Pair, t: BreakType): Break {
    Break(
      ChargeRef(p.claimed.documentReference, p.claimed.lineRefs), t, LineTypeFor(p.own.recipientType), Both,
      p.own.recipientType, p.own.recipientId, Some(p.own.feeClass), Some(p.own.feeStream),
          Some(p.claimed.sourceCategory),
      p.claimed.documentId, p.claimed.documentReference, p.own.units, p.claimed.units, p.own.net, p.claimed.net,
      p.own.vat, p.claimed.vat, p.claimed.net - p.own.net, false, p.own.eventIds, p.own.interactionIds)
  }

  function VarianceBreak(tolerance: int): Pair -> Break {
    (p: Pair) => PairBreak(p, Variance(tolerance, p).GetOr(RateVariance))
  }

  function RecipientBreak(p: Pair): Break {
    PairBreak(p, WrongRecipient)
  }

  // ---------------------------------------------------------------- wrong recipients

  datatype Pairing = Pairing(pairs: seq<Pair>, expectedLeft: seq<ExpectedLine>, chargesLeft: seq<Charge>)

  function SameFeeClass(feeClass: string): Charge -> bool {
    (c: Charge) => c.key.feeClass == feeClass
  }

  function OtherKey(k: Key): Charge -> bool {
    (c: Charge) => c.key != k
  }

  /** Pair each leftover expectation with the only leftover charge of its fee class, when there is only one. */
  function PairRecipients(own: seq<ExpectedLine>, charges: seq<Charge>): Pairing {
    if own == [] then Pairing([], [], charges)
    else
      var before, e := PairRecipients(own[..|own| - 1], charges), own[|own| - 1];
      var candidates := Keep(before.chargesLeft, SameFeeClass(e.feeClass));
      if |candidates| == 1 then
        Pairing(before.pairs + [Pair(e, candidates[0])], before.expectedLeft,
                Keep(before.chargesLeft, OtherKey(candidates[0].key)))
      else before.(expectedLeft := before.expectedLeft + [e])
  }

  function MissingBreak(period: string, categoryMap: map<string, string>, fallback: Document): ExpectedLine -> Break {
    (e: ExpectedLine) => Break(
      ExpectedRef(period, KeyOfExpected(e)),
      if e.feeClass in categoryMap.Values then MissingCharge else UnmatchedExpectedLine,
      LineTypeFor(e.recipientType), ExpectedOnly, e.recipientType, e.recipientId, Some(e.feeClass), Some(e.feeStream),
      None, fallback.id, fallback.reference, e.units, 0, e.net, 0, e.vat, 0, -e.net, false, e.eventIds,
          e.interactionIds)
  }

  // ---------------------------------------------------------------- document triage

  function InPeriod(period: string): Document -> bool {
    (d: Document) => d.period == period
  }

  function OffPeriod(period: string): Document -> bool {
    (d: Document) => d.period != period
  }

  function PeriodBreak(d: Document): Break {
    var t := if d.lines == [] then Nebras else d.lines[0].recipientType;
    var net := SumBy(d.lines, NetOfLine);
    Break(
      PeriodRef(d.reference), PeriodVariance, LineTypeFor(t), DocumentOnly,
      t, if d.lines == [] then d.issuerId else d.lines[0].recipientId, None, None, None, d.id, d.reference,
      0, SumBy(d.lines, UnitsOfLine), 0, net, 0, SumBy(d.lines, VatOfLine), net, false, [], [])
  }

  // ---------------------------------------------------------------- materiality and the query window

  /** Each type of break is weighed by its own figure: units, VAT or net. */
  function IsMaterial(b: Break, materiality: int): bool {
    match b.breakType
    case WrongRecipient => true
    case QuantityVariance => b.actualUnits != b.expectedUnits || Abs(b.variance) > materiality
    case VatVariance => Abs(b.actualVat - b.expectedVat) > materiality
    case _ => Abs(b.variance) > materiality
  }

  function Judged(materiality: int): Break -> Break {
    (b: Break) => b.(material := IsMaterial(b, materiality))
  }

  function Earliest(documents: seq<Document>): int
    requires documents != []
  {
    var last := documents[|documents| - 1];
    if |documents| == 1 then last.issuedAt
    else
      var m := Earliest(documents[..|documents| - 1]);
      if last.issuedAt < m then last.issuedAt else m
  }

  function Latest(documents: seq<Document>): int
    requires documents != []
  {
    var last := documents[|documents| - 1];
    if |documents| == 1 then last.receivedAt
    else
      var m := Latest(documents[..|documents| - 1]);
      if last.receivedAt > m then last.receivedAt else m
  }

  /** `Math.ceil` of an exact quotient. */
  function CeilDiv(n: int, d: int): int
    requires d > 0
  {
    -((-n) / d)
  }

  function Window(inPeriod: seq<Document>, documents: seq<Document>, days: int): QueryWindow
    requires documents != []
  {
    var deadline := Earliest(if inPeriod != [] then inPeriod else documents) + days * DAY_MILLISECONDS;
    var remaining := CeilDiv(deadline - Latest(documents), DAY_MILLISECONDS);
    QueryWindow(deadline, remaining, remaining >= 0)
  }

  // ---------------------------------------------------------------- the whole run

  /** Every intermediate collection of one run, named as the phases of the algorithm name them. */
  datatype Work = Work(
    inPeriod: seq<Document>, comparable: seq<Charge>, primary: seq<Charge>, duplicates: seq<Charge>,
    pairs: seq<Pair>, unmatchedExpected: seq<ExpectedLine>, unmatchedCharges: seq<Charge>, pairing: Pairing)

  function WorkOf(input: Input): Work {
    var inPeriod := Keep(input.documents, InPeriod(input.period));
    var comparable := Flatten(Map(inPeriod, ChargesOf(input.latePaidPeriods)));
    var primary := Primary(comparable);
    var index := Index(primary);
    var unmatchedExpected := Keep(input.expectedLines, Unbilled(index));
    var unmatchedCharges := Keep(primary, Unclaimed(KeySet(Map(input.expectedLines, KeyOfExpected))));
    Work(inPeriod, comparable, primary, Duplicates(comparable), Matches(input.expectedLines, index),
         unmatchedExpected, unmatchedCharges, PairRecipients(unmatchedExpected, unmatchedCharges))
  }

  function PeriodBreaks(input: Input): seq<Break> {
    Map(Keep(input.documents, OffPeriod(input.period)), PeriodBreak)
  }

  function RefusedBreaks(input: Input, w: Work): seq<Break> {
    Flatten(Map(w.inPeriod, LineBreaks(input.latePaidPeriods)))
  }

  /** What is settled before any expectation is looked at. */
  function ProviderBreaks(input: Input, w: Work): seq<Break> {
    PeriodBreaks(input) + RefusedBreaks(input, w) + Map(w.duplicates, ChargeBreak(DuplicateCharge))
  }

  /** The document that a charge nobody made is filed under. */
  function Fallback(inPeriod: seq<Document>, documents: seq<Document>): Document
    requires documents != []
  {
    if inPeriod != [] then inPeriod[0] else documents[0]
  }

  function MatchBreaks(input: Input, w: Work): seq<Break>
    requires input.documents != []
  {
    var fallback := Fallback(w.inPeriod, input.documents);
    Map(Keep(w.pairs, Differs(input.tolerance)), VarianceBreak(input.tolerance))
    + Map(w.pairing.pairs, RecipientBreak)
    + Map(w.pairing.expectedLeft, MissingBreak(input.period, input.categoryMap, fallback))
    + Map(w.pairing.chargesLeft, ChargeBreak(UnexpectedCharge))
  }

  function RawBreaks(input: Input, w: Work): seq<Break>
    requires input.documents != []
  {
    ProviderBreaks(input, w) + MatchBreaks(input, w)
  }

  function Breaks(input: Input, w: Work): seq<Break>
    requires input.documents != []
  {
    Map(RawBreaks(input, w), Judged(input.materiality))
  }

  function Matched(input: Input, w: Work): seq<Pair> {
    Keep(w.pairs, Agrees(input.tolerance))
  }

  function AcceptedPenalties(input: Input, w: Work): seq<DocumentLine> {
    Flatten(Map(w.inPeriod, AcceptedLines(input.latePaidPeriods)))
  }

  function ExpectedTotal(w: Work): int {
    SumBy(w.pairs, OwnNet) + SumBy(w.pairing.pairs, OwnNet) + SumBy(w.pairing.expectedLeft, NetOfExpected)
  }

  /** The providers' claim for this period, duplicates included. */
  function ActualTotal(w: Work): int {
    SumBy(w.duplicates, NetOfCharge) + SumBy(w.pairs, ClaimedNet) + SumBy(w.pairing.pairs, ClaimedNet)
    + SumBy(w.pairing.chargesLeft, NetOfCharge)
  }

  function NetOfExpected(e: ExpectedLine): int { e.net }

  function OwnNet(p: Pair): int { p.own.net }

  function ClaimedNet(p: Pair): int { p.claimed.net }

  function DocumentOfPair(p: Pair): string { p.claimed.documentId }

  function DocumentOfBreak(b: Break): string { b.documentId }

  function ExpectedNet(b: Break): int { b.expectedNet }

  function ActualNet(b: Break): int { b.actualNet }

  function NetVariance(b: Break): int { b.variance }

  function GrossVariance(b: Break): int { Abs(b.variance) }

  function RowOf(matched: seq<Pair>, breaks: seq<Break>, d: Document): Row {
    var ours, mine := Members(matched, DocumentOfPair, d.id), Members(breaks, DocumentOfBreak, d.id);
    var expected := SumBy(ours, OwnNet) + SumBy(mine, ExpectedNet);
    var actual := SumBy(ours, ClaimedNet) + SumBy(mine, ActualNet);
    Row(d.id, d.reference, |ours|, |mine|, expected, actual, actual - expected, SumBy(mine, GrossVariance))
  }

  function RowFor(matched: seq<Pair>, breaks: seq<Break>): Document -> Row {
    (d: Document) => RowOf(matched, breaks, d)
  }

  function IdOf(d: Document): string { d.id }

  function Report(
    input: Input, window: QueryWindow, rows: seq<Row>, breaks: seq<Break>, matchedLineCount: nat, penalties: nat,
    expectedTotal: int, actualTotal: int): Reconciliation
  {
    Reconciliation(
      input.period, Map(input.documents, IdOf), rows, input.tolerance, window, matchedLineCount, breaks, penalties,
      expectedTotal, actualTotal, actualTotal - expectedTotal, SumBy(breaks, GrossVariance))
  }

  function Reconciled(input: Input, w: Work): Reconciliation
    requires input.documents != []
  {
    Report(
      input, Window(w.inPeriod, input.documents, input.queryWindowDays),
      Map(input.documents, RowFor(Matched(input, w), Breaks(input, w))), Breaks(input, w), |Matched(input, w)|,
      |AcceptedPenalties(input, w)|, ExpectedTotal(w), ActualTotal(w))
  }

  ghost predicate UniqueKeys(lines: seq<ExpectedLine>) {
    NoDuplicates(Map(lines, KeyOfExpected))
  }

  /** What the source refuses, in the order it refuses it. */
  ghost function Refusal(input: Input): Option<Error> {
    if input.documents == [] then Some(NoDocuments)
    else if input.tolerance < 0 then Some(BadTolerance)
    else if input.materiality < 0 then Some(BadMateriality)
    else if input.queryWindowDays <= 0 then Some(BadQueryWindow)
    else if !UniqueKeys(input.expectedLines) then Some(DuplicateExpectedLine)
    else None
  }

  // ---------------------------------------------------------------- the algorithm

  method TriageDocuments(period: string, documents: seq<Document>) returns (inPeriod: seq<Document>, breaks: seq<Break>)
    ensures inPeriod == Keep(documents, InPeriod(period))
    ensures breaks == Map(Keep(documents, OffPeriod(period)), PeriodBreak)
  {
    inPeriod, breaks := [], [];
    for i := 0 to |documents|
      invariant inPeriod == Keep(documents[..i], InPeriod(period))
      invariant breaks == Map(Keep(documents[..i], OffPeriod(period)), PeriodBreak)
    {
      var d := documents[i];
      assert documents[..i + 1] == documents[..i] + [d];
      KeepSnoc(documents[..i], d, InPeriod(period));
      KeepSnoc(documents[..i], d, OffPeriod(period));
      if d.period != period {
        MapSnoc(Keep(documents[..i], OffPeriod(period)), d, PeriodBreak);
        var b := ComputePeriodBreak(d);
        breaks := breaks + [b];
      } else {
        inPeriod := inPeriod + [d];
      }
    }
    assert documents[..|documents|] == documents;
  }

  method ComputePeriodBreak(d: Document) returns (b: Break)
    ensures b == PeriodBreak(d)
  {
    var units, net, vat := 0, 0, 0;
    for i := 0 to |d.lines|
      invariant units == SumBy(d.lines[..i], UnitsOfLine)
      invariant net == SumBy(d.lines[..i], NetOfLine)
      invariant vat == SumBy(d.lines[..i], VatOfLine)
    {
      assert d.lines[..i + 1][..i] == d.lines[..i];
      units, net, vat := units + d.lines[i].units, net + d.lines[i].net, vat + d.lines[i].vat;
    }
    assert d.lines[..|d.lines|] == d.lines;
    var t := if d.lines == [] then Nebras else d.lines[0].recipientType;
    b := Break(
      PeriodRef(d.reference), PeriodVariance, LineTypeFor(t), DocumentOnly,
      t, if d.lines == [] then d.issuerId else d.lines[0].recipientId, None, None, None, d.id, d.reference,
      0, units, 0, net, 0, vat, net, false, [], []);
  }

  function NewCharge(d: Document, l: DocumentLine): Charge {
    Charge(d.id, d.reference, [l.lineRef], l.sourceCategory, KeyOfLine(l), l.units, l.net, l.vat)
  }

  lemma ChargeOfSnoc(d: Document, k: Key, g: seq<DocumentLine>, l: DocumentLine)
    requires k == KeyOfLine(l)
    ensures ChargeOf(d, k, g + [l]) == if g == [] then NewCharge(d, l) else ChargeOf(d, k, g).Absorb(l)
  {
    MapSnoc(g, l, RefOfLine);
    SumSnoc(g, l, UnitsOfLine);
    SumSnoc(g, l, NetOfLine);
    SumSnoc(g, l, VatOfLine);
  }

  /** The map under construction holds, for each key in first-seen order, its charge over the lines so far. */
  ghost predicate Filed(d: Document, lines: seq<DocumentLine>, order: seq<Key>, byKey: map<Key, Charge>) {
    && order == Keys(lines, KeyOfLine)
    && (forall k :: k in byKey <==> k in order)
    && (forall k :: k in byKey ==> byKey[k] == ChargeOf(d, k, Members(lines, KeyOfLine, k)))
  }

  /** One more line: its key's charge absorbs it, or it opens a new one. */
  method FileLine(d: Document, ghost lines: seq<DocumentLine>, l: DocumentLine, order: seq<Key>,
      byKey: map<Key, Charge>)
    returns (order': seq<Key>, byKey': map<Key, Charge>)
    requires Filed(d, lines, order, byKey)
    ensures Filed(d, lines + [l], order', byKey')
  {
    var k := KeyOfLine(l);
    KeysSnoc(lines, l, KeyOfLine);
    MembersEmpty(lines, KeyOfLine, k);
    order' := order;
    if k in byKey {
      byKey' := byKey[k := byKey[k].Absorb(l)];
    } else {
      byKey' := byKey[k := NewCharge(d, l)];
      order' := order + [k];
    }
    forall k' | k' in byKey' ensures byKey'[k'] == ChargeOf(d, k', Members(lines + [l], KeyOfLine, k')) {
      MembersSnoc(lines, l, KeyOfLine, k');
      if k' == k {
        ChargeOfSnoc(d, k, Members(lines, KeyOfLine, k), l);
      }
    }
  }

  /** One charge per key, in the order the keys first appear; repeated keys accumulate. */
  method Aggregate(d: Document, lines: seq<DocumentLine>) returns (charges: seq<Charge>)
    ensures charges == Aggregated(d, lines)
  {
    var byKey: map<Key, Charge>, order: seq<Key> := map[], [];
    for i := 0 to |lines|
      invariant Filed(d, lines[..i], order, byKey)
    {
      order, byKey := FileLine(d, lines[..i], lines[i], order, byKey);
      assert lines[..i + 1] == lines[..i] + [lines[i]];
    }
    assert lines[..|lines|] == lines;
    charges := ListInOrder(order, byKey, ChargeFor(d, lines));
  }

  /** What one more line adds to each of the three triage collections. */
  lemma TriageStep(d: Document, late: set<string>, i: nat)
    requires i < |d.lines|
    ensures var l, w := d.lines[i], Dispose(d.period, late, d.lines[i]);
      && |Keep(d.lines[..i + 1], Disposed(d.period, late, AcceptedPenalty))| ==
         |Keep(d.lines[..i], Disposed(d.period, late, AcceptedPenalty))| + (if w == AcceptedPenalty then 1 else 0)
      && Map(Keep(d.lines[..i + 1], Refused(d.period, late)), RefusedBreak(d, late)) ==
         Map(Keep(d.lines[..i], Refused(d.period, late)), RefusedBreak(d, late))
         + (if w in {RefusedPenalty, Unmapped} then [RefusedBreak(d, late)(l)] else [])
      && Keep(d.lines[..i + 1], Disposed(d.period, late, Priceable)) ==
         Keep(d.lines[..i], Disposed(d.period, late, Priceable)) + (if w == Priceable then [l] else [])
  {
    var l := d.lines[i];
    assert d.lines[..i + 1] == d.lines[..i] + [l];
    KeepSnoc(d.lines[..i], l, Refused(d.period, late));
    KeepSnoc(d.lines[..i], l, Disposed(d.period, late, AcceptedPenalty));
    KeepSnoc(d.lines[..i], l, Disposed(d.period, late, Priceable));
    MapSnoc(Keep(d.lines[..i], Refused(d.period, late)), l, RefusedBreak(d, late));
  }

  method TriageDocumentLines(d: Document, late: set<string>)
    returns (accepted: nat, breaks: seq<Break>, charges: seq<Charge>)
    ensures accepted == |AcceptedLines(late)(d)|
    ensures breaks == LineBreaks(late)(d)
    ensures charges == ChargesOf(late)(d)
  {
    accepted, breaks := 0, [];
    var priceable: seq<DocumentLine> := [];
    for i := 0 to |d.lines|
      invariant accepted == |Keep(d.lines[..i], Disposed(d.period, late, AcceptedPenalty))|
      invariant breaks == Map(Keep(d.lines[..i], Refused(d.period, late)), RefusedBreak(d, late))
      invariant priceable == Keep(d.lines[..i], Disposed(d.period, late, Priceable))
    {
      TriageStep(d, late, i);
      var l := d.lines[i];
      if l.sourceCategory in PENALTY_CATEGORIES {
        if d.period in late {
          accepted := accepted + 1;
        } else {
          breaks := breaks + [DocumentOnlyBreak(d, l, UnexpectedCharge)];
        }
      } else if !l.mapped || l.feeClass.None? {
        breaks := breaks + [DocumentOnlyBreak(d, l, UnmatchedDocumentLine)];
      } else {
        priceable := priceable + [l];
      }
    }
    assert d.lines[..|d.lines|] == d.lines;
    charges := Aggregate(d, priceable);
  }

  method TriageLines(inPeriod: seq<Document>, late: set<string>)
    returns (accepted: nat, breaks: seq<Break>, comparable: seq<Charge>)
    ensures accepted == |Flatten(Map(inPeriod, AcceptedLines(late)))|
    ensures breaks == Flatten(Map(inPeriod, LineBreaks(late)))
    ensures comparable == Flatten(Map(inPeriod, ChargesOf(late)))
  {
    accepted, breaks, comparable := 0, [], [];
    for i := 0 to |inPeriod|
      invariant accepted == |Flatten(Map(inPeriod[..i], AcceptedLines(late)))|
      invariant breaks == Flatten(Map(inPeriod[..i], LineBreaks(late)))
      invariant comparable == Flatten(Map(inPeriod[..i], ChargesOf(late)))
    {
      FlattenMapSnoc(inPeriod, i, AcceptedLines(late));
      FlattenMapSnoc(inPeriod, i, LineBreaks(late));
      FlattenMapSnoc(inPeriod, i, ChargesOf(late));
      var a, b, c := TriageDocumentLines(inPeriod[i], late);
      accepted, breaks, comparable := accepted + a, breaks + b, comparable + c;
    }
    assert inPeriod[..|inPeriod|] == inPeriod;
  }

  lemma FlattenMapSnoc<T(!new), U(!new)>(xs: seq<T>, i: nat, f: T -> seq<U>)
    requires i < |xs|
    ensures Flatten(Map(xs[..i + 1], f)) == Flatten(Map(xs[..i], f)) + f(xs[i])
  {
    assert xs[..i + 1] == xs[..i] + [xs[i]];
    MapSnoc(xs[..i], xs[i], f);
    var ys := Map(xs[..i], f) + [f(xs[i])];
    assert ys[..|ys| - 1] == Map(xs[..i], f);
  }

  /** Every charge of a bucket after the first. */
  method DuplicateBreaks(bucket: seq<Charge>) returns (breaks: seq<Break>, net: int)
    requires bucket != []
    ensures breaks == Map(bucket[1..], ChargeBreak(DuplicateCharge))
    ensures net == SumBy(bucket[1..], NetOfCharge)
  {
    breaks, net := [], 0;
    for j := 1 to |bucket|
      invariant breaks == Map(bucket[1..j], ChargeBreak(DuplicateCharge))
      invariant net == SumBy(bucket[1..j], NetOfCharge)
    {
      assert bucket[1..j + 1] == bucket[1..j] + [bucket[j]];
      MapSnoc(bucket[1..j], bucket[j], ChargeBreak(DuplicateCharge));
      SumSnoc(bucket[1..j], bucket[j], NetOfCharge);
      net := net + bucket[j].net;
      breaks := breaks + [ChargeBreak(DuplicateCharge)(bucket[j])];
    }
    assert bucket[1..|bucket|] == bucket[1..];
  }

  lemma TailsStep(gs: seq<seq<Charge>>, i: nat)
    requires forall j :: 0 <= j < |gs| ==> gs[j] != []
    requires i < |gs|
    ensures Heads(gs[..i + 1]) == Heads(gs[..i]) + [gs[i][0]]
    ensures Flatten(Tails(gs[..i + 1])) == Flatten(Tails(gs[..i])) + gs[i][1..]
  {
    assert Tails(gs[..i + 1])[..i] == Tails(gs[..i]);
  }

  method SplitDuplicates(comparable: seq<Charge>) returns (primary: seq<Charge>, breaks: seq<Break>, duplicateNet: int)
    ensures primary == Primary(comparable)
    ensures breaks == Map(Duplicates(comparable), ChargeBreak(DuplicateCharge))
    ensures duplicateNet == SumBy(Duplicates(comparable), NetOfCharge)
  {
    var order, buckets := GroupInto(comparable, KeyOfCharge);
    ghost var gs := Groups(comparable, KeyOfCharge);
    primary, breaks, duplicateNet := [], [], 0;
    for i := 0 to |order|
      invariant primary == Heads(gs[..i])
      invariant breaks == Map(Flatten(Tails(gs[..i])), ChargeBreak(DuplicateCharge))
      invariant duplicateNet == SumBy(Flatten(Tails(gs[..i])), NetOfCharge)
    {
      assert order[i] in order;
      var bucket := buckets[order[i]];
      TailsStep(gs, i);
      MapConcat(Flatten(Tails(gs[..i])), gs[i][1..], ChargeBreak(DuplicateCharge));
      SumConcat(Flatten(Tails(gs[..i])), gs[i][1..], NetOfCharge);
      var more, net := DuplicateBreaks(bucket);
      primary, breaks, duplicateNet := primary + [bucket[0]], breaks + more, duplicateNet + net;
    }
    assert gs[..|order|] == gs;
  }

  /** The source's `expectedByKey` loop: it refuses a repeated key. */
  method HasUniqueKeys(lines: seq<ExpectedLine>) returns (unique: bool)
    ensures unique <==> UniqueKeys(lines)
  {
    var seen: set<Key> := {};
    for i := 0 to |lines|
      invariant seen == KeySet(Map(lines[..i], KeyOfExpected))
      invariant UniqueKeys(lines[..i])
    {
      var k := KeyOfExpected(lines[i]);
      assert lines[..i + 1] == lines[..i] + [lines[i]];
      MapSnoc(lines[..i], lines[i], KeyOfExpected);
      if k in seen {
        ghost var ks := Map(lines, KeyOfExpected);
        assert Map(lines[..i], KeyOfExpected) == ks[..i];
        assert k in ks[..i] && ks[i] == k;
        return false;
      }
      seen := seen + {k};
    }
    assert lines[..|lines|] == lines;
    return true;
  }

  method BuildIndex(cs: seq<Charge>) returns (index: map<Key, Charge>)
    ensures index == Index(cs)
  {
    index := map[];
    for i := 0 to |cs|
      invariant index == Index(cs[..i])
    {
      assert cs[..i + 1][..i] == cs[..i];
      index := index[cs[i].key := cs[i]];
    }
    assert cs[..|cs|] == cs;
  }

  function OtherExpected(k: Key): ExpectedLine -> bool {
    (e: ExpectedLine) => KeyOfExpected(e) != k
  }

  /** Deleting the key just matched leaves the unbilled lines so far and the lines still to come. */
  lemma DeleteExpected(lines: seq<ExpectedLine>, i: nat, before: seq<ExpectedLine>)
    requires i < |lines| && UniqueKeys(lines)
    requires forall e :: e in before ==> e in lines[..i]
    ensures Keep(before + lines[i..], OtherExpected(KeyOfExpected(lines[i]))) == before + lines[i + 1..]
  {
    var ks := Map(lines, KeyOfExpected);
    assert forall j :: 0 <= j < |lines| && j != i ==> ks[j] != ks[i];
    assert lines[i..] == [lines[i]] + lines[i + 1..];
    KeepAround(before, lines[i], lines[i + 1..], OtherExpected(KeyOfExpected(lines[i])));
  }

  lemma DeleteCharge(primary: seq<Charge>, keys: set<Key>, k: Key)
    ensures Keep(Keep(primary, Unclaimed(keys)), OtherKey(k)) == Keep(primary, Unclaimed(keys + {k}))
  {
    KeepTwice(primary, Unclaimed(keys), OtherKey(k), Unclaimed(keys + {k}));
  }

  datatype Tally = Tally(count: nat, expected: int, actual: int)

  function TallyOf(ps: seq<Pair>): Tally {
    Tally(|ps|, SumBy(ps, OwnNet), SumBy(ps, ClaimedNet))
  }

  /** What `matchedByDocument` holds once the given pairs have matched. */
  ghost predicate Tallied(tallies: map<string, Tally>, matched: seq<Pair>) {
    && (forall id :: id in tallies <==> id in Keys(matched, DocumentOfPair))
    && (forall id :: id in tallies ==> tallies[id] == TallyOf(Members(matched, DocumentOfPair, id)))
  }

  lemma TallySnoc(ps: seq<Pair>, p: Pair)
    ensures TallyOf(ps + [p]) == Tally(|ps| + 1, TallyOf(ps).expected + p.own.net, TallyOf(ps).actual + p.claimed.net)
  {
    SumSnoc(ps, p, OwnNet);
    SumSnoc(ps, p, ClaimedNet);
  }

  method AddTally(tallies: map<string, Tally>, p: Pair, ghost matched: seq<Pair>) returns (updated: map<string, Tally>)
    requires Tallied(tallies, matched)
    ensures Tallied(updated, matched + [p])
  {
    var id := p.claimed.documentId;
    var t := if id in tallies then tallies[id] else Tally(0, 0, 0);
    updated := tallies[id := Tally(t.count + 1, t.expected + p.own.net, t.actual + p.claimed.net)];
    KeysSnoc(matched, p, DocumentOfPair);
    MembersEmpty(matched, DocumentOfPair, id);
    forall d | d in updated ensures updated[d] == TallyOf(Members(matched + [p], DocumentOfPair, d)) {
      MembersSnoc(matched, p, DocumentOfPair, d);
      TallySnoc(Members(matched, DocumentOfPair, d), p);
    }
  }

  /** The state of the matching loop after the first `i` expected lines. */
  ghost predicate MatchedUpTo(
    lines: seq<ExpectedLine>, i: nat, primary: seq<Charge>, index: map<Key, Charge>,
    unmatchedExpected: seq<ExpectedLine>, unmatchedCharges: seq<Charge>, pairs: seq<Pair>)
    requires i <= |lines|
  {
    && unmatchedExpected == Keep(lines[..i], Unbilled(index)) + lines[i..]
    && unmatchedCharges == Keep(primary, Unclaimed(KeySet(Map(lines[..i], KeyOfExpected))))
    && pairs == Matches(lines[..i], index)
  }

  method MatchExpected(lines: seq<ExpectedLine>, primary: seq<Charge>)
    returns (unmatchedExpected: seq<ExpectedLine>, unmatchedCharges: seq<Charge>, pairs: seq<Pair>)
    requires UniqueKeys(lines)
    ensures unmatchedExpected == Keep(lines, Unbilled(Index(primary)))
    ensures unmatchedCharges == Keep(primary, Unclaimed(KeySet(Map(lines, KeyOfExpected))))
    ensures pairs == Matches(lines, Index(primary))
  {
    var index := BuildIndex(primary);
    unmatchedExpected, unmatchedCharges, pairs := MatchLoop(lines, primary, index);
    assert lines[..|lines|] == lines;
  }

  method MatchLoop(lines: seq<ExpectedLine>, primary: seq<Charge>, index: map<Key, Charge>)
    returns (unmatchedExpected: seq<ExpectedLine>, unmatchedCharges: seq<Charge>, pairs: seq<Pair>)
    requires UniqueKeys(lines) && index == Index(primary)
    ensures MatchedUpTo(lines, |lines|, primary, index, unmatchedExpected, unmatchedCharges, pairs)
  {
    unmatchedExpected, unmatchedCharges, pairs := lines, primary, [];
    NothingSeen(lines, primary, index);
    for i := 0 to |lines|
      invariant MatchedUpTo(lines, i, primary, index, unmatchedExpected, unmatchedCharges, pairs)
    {
      var k := KeyOfExpected(lines[i]);
      MatchStep(lines, i, primary, index);
      if k in index {
        unmatchedExpected := Keep(unmatchedExpected, OtherExpected(k));
        unmatchedCharges := Keep(unmatchedCharges, OtherKey(k));
        pairs := pairs + [Pair(lines[i], index[k])];
      }
    }
  }

  lemma NothingSeen(lines: seq<ExpectedLine>, primary: seq<Charge>, index: map<Key, Charge>)
    ensures Keep(lines[..0], Unbilled(index)) + lines[0..] == lines
    ensures Keep(primary, Unclaimed(KeySet(Map(lines[..0], KeyOfExpected)))) == primary
  {
    assert KeySet(Map(lines[..0], KeyOfExpected)) == {};
    KeepAll(primary, Unclaimed({}));
  }

  /** What looking up one more expected line does to the three collections. */
  lemma MatchStep(lines: seq<ExpectedLine>, i: nat, primary: seq<Charge>, index: map<Key, Charge>)
    requires i < |lines| && UniqueKeys(lines) && index == Index(primary)
    ensures var own, k, rest := lines[i], KeyOfExpected(lines[i]), Keep(lines[..i], Unbilled(index)) + lines[i..];
      && Keep(lines[..i + 1], Unbilled(index)) + lines[i + 1..]
        == (if k in index then Keep(rest, OtherExpected(k)) else rest)
      && Matches(lines[..i + 1], index) == Matches(lines[..i], index)
        + (if k in index then [Pair(own, index[k])] else [])
    ensures var k, left := KeyOfExpected(lines[i]), Keep(primary, Unclaimed(KeySet(Map(lines[..i], KeyOfExpected))));
      Keep(primary, Unclaimed(KeySet(Map(lines[..i + 1], KeyOfExpected))))
          == (if k in index then Keep(left, OtherKey(k)) else left)
  {
    MatchStepExpected(lines, i, index);
    MatchStepCharges(lines, i, primary, index);
    assert lines[..i + 1][..i] == lines[..i];
  }

  lemma KeptUpTo(lines: seq<ExpectedLine>, i: nat, index: map<Key, Charge>)
    requires i < |lines|
    ensures Keep(lines[..i + 1], Unbilled(index)) ==
      if KeyOfExpected(lines[i]) in index then Keep(lines[..i], Unbilled(index))
          else Keep(lines[..i], Unbilled(index)) + [lines[i]]
  {
    assert lines[..i + 1] == lines[..i] + [lines[i]];
    KeepSnoc(lines[..i], lines[i], Unbilled(index));
  }

  lemma Shift(xs: seq<ExpectedLine>, lines: seq<ExpectedLine>, i: nat)
    requires i < |lines|
    ensures xs + lines[i..] == (xs + [lines[i]]) + lines[i + 1..]
  {
  }

  lemma MatchStepExpected(lines: seq<ExpectedLine>, i: nat, index: map<Key, Charge>)
    requires i < |lines| && UniqueKeys(lines)
    ensures var k, rest := KeyOfExpected(lines[i]), Keep(lines[..i], Unbilled(index)) + lines[i..];
      Keep(lines[..i + 1], Unbilled(index)) + lines[i + 1..] == if k in index then Keep(rest, OtherExpected(k))
          else rest
  {
    KeptUpTo(lines, i, index);
    if KeyOfExpected(lines[i]) in index {
      KeepExact(lines[..i], Unbilled(index));
      DeleteExpected(lines, i, Keep(lines[..i], Unbilled(index)));
    } else {
      Shift(Keep(lines[..i], Unbilled(index)), lines, i);
    }
  }

  lemma MatchStepCharges(lines: seq<ExpectedLine>, i: nat, primary: seq<Charge>, index: map<Key, Charge>)
    requires i < |lines| && index == Index(primary)
    ensures var k, left := KeyOfExpected(lines[i]), Keep(primary, Unclaimed(KeySet(Map(lines[..i], KeyOfExpected))));
      Keep(primary, Unclaimed(KeySet(Map(lines[..i + 1], KeyOfExpected)))) == if k in index then Keep(left, OtherKey(k))
          else left
  {
    var k, seen := KeyOfExpected(lines[i]), KeySet(Map(lines[..i], KeyOfExpected));
    assert Map(lines[..i + 1], KeyOfExpected) == Map(lines[..i], KeyOfExpected) + [k];
    assert KeySet(Map(lines[..i + 1], KeyOfExpected)) == seen + {k};
    if k in index {
      DeleteCharge(primary, seen, k);
    } else {
      NotIndexed(primary, k);
      KeepCongruence(primary, Unclaimed(seen), Unclaimed(seen + {k}));
    }
  }

  lemma {:induction false} NotIndexed(cs: seq<Charge>, k: Key)
    requires k !in Index(cs)
    ensures forall c :: c in cs ==> c.key != k
  {
    if cs != [] {
      NotIndexed(cs[..|cs| - 1], k);
      assert cs == cs[..|cs| - 1] + [cs[|cs| - 1]];
    }
  }

  /** Classify every match: agreements are tallied per document, the rest become breaks. */
  method JudgeMatches(pairs: seq<Pair>, tolerance: int)
    returns (matchedLineCount: nat, tallies: map<string, Tally>, breaks: seq<Break>, expectedNet: int, actualNet: int)
    ensures matchedLineCount == |Keep(pairs, Agrees(tolerance))|
    ensures Tallied(tallies, Keep(pairs, Agrees(tolerance)))
    ensures breaks == Map(Keep(pairs, Differs(tolerance)), VarianceBreak(tolerance))
    ensures expectedNet == SumBy(pairs, OwnNet) && actualNet == SumBy(pairs, ClaimedNet)
  {
    var v := Verdicts(0, map[], [], 0, 0);
    assert pairs[..0] == [];
    for i := 0 to |pairs|
      invariant JudgedSoFar(pairs[..i], tolerance, v)
    {
      v := JudgeMatch(pairs[..i], pairs[i], tolerance, v);
      assert pairs[..i + 1] == pairs[..i] + [pairs[i]];
    }
    assert pairs[..|pairs|] == pairs;
    return v.matchedLineCount, v.tallies, v.breaks, v.expectedNet, v.actualNet;
  }

  /** What the loop over matched pairs keeps. */
  datatype Verdicts = Verdicts(matchedLineCount: nat, tallies: map<string, Tally>, breaks: seq<Break>, expectedNet: int,
      actualNet: int)

  ghost predicate JudgedSoFar(pairs: seq<Pair>, tolerance: int, v: Verdicts) {
    && v.matchedLineCount == |Keep(pairs, Agrees(tolerance))|
    && Tallied(v.tallies, Keep(pairs, Agrees(tolerance)))
    && v.breaks == Map(Keep(pairs, Differs(tolerance)), VarianceBreak(tolerance))
    && v.expectedNet == SumBy(pairs, OwnNet) && v.actualNet == SumBy(pairs, ClaimedNet)
  }

  method JudgeMatch(ghost before: seq<Pair>, p: Pair, tolerance: int, v: Verdicts) returns (v': Verdicts)
    requires JudgedSoFar(before, tolerance, v)
    ensures JudgedSoFar(before + [p], tolerance, v')
  {
    JudgeStep(before, p, tolerance);
    v' := v.(expectedNet := v.expectedNet + p.own.net, actualNet := v.actualNet + p.claimed.net);
    var t := ClassifyVariance(p.own.units, p.claimed.units, p.claimed.net - p.own.net, p.claimed.vat - p.own.vat,
        tolerance);
    if t.None? {
      var tallies := AddTally(v.tallies, p, Keep(before, Agrees(tolerance)));
      v' := v'.(matchedLineCount := v.matchedLineCount + 1, tallies := tallies);
    } else {
      v' := v'.(breaks := v.breaks + [PairBreak(p, t.value)]);
    }
  }

  lemma JudgeStep(pairs: seq<Pair>, p: Pair, tolerance: int)
    ensures Keep(pairs + [p], Agrees(tolerance))
      == if Variance(tolerance, p).None? then Keep(pairs, Agrees(tolerance)) + [p] else Keep(pairs, Agrees(tolerance))
    ensures Map(Keep(pairs + [p], Differs(tolerance)), VarianceBreak(tolerance)) ==
      if Variance(tolerance, p).None? then Map(Keep(pairs, Differs(tolerance)), VarianceBreak(tolerance))
      else Map(Keep(pairs, Differs(tolerance)), VarianceBreak(tolerance)) + [PairBreak(p, Variance(tolerance, p).value)]
    ensures SumBy(pairs + [p], OwnNet) == SumBy(pairs, OwnNet) + p.own.net
    ensures SumBy(pairs + [p], ClaimedNet) == SumBy(pairs, ClaimedNet) + p.claimed.net
  {
    KeepSnoc(pairs, p, Agrees(tolerance));
    KeepSnoc(pairs, p, Differs(tolerance));
    MapSnoc(Keep(pairs, Differs(tolerance)), p, VarianceBreak(tolerance));
    SumSnoc(pairs, p, OwnNet);
    SumSnoc(pairs, p, ClaimedNet);
  }

  /** The wrong-recipient loop over a snapshot of the unmatched expectations. */
  method MatchRecipients(own: seq<ExpectedLine>, charges: seq<Charge>)
    returns (pairing: Pairing, breaks: seq<Break>, expectedNet: int, actualNet: int)
    ensures pairing == PairRecipients(own, charges)
    ensures breaks == Map(pairing.pairs, RecipientBreak)
    ensures expectedNet == SumBy(pairing.pairs, OwnNet) && actualNet == SumBy(pairing.pairs, ClaimedNet)
  {
    var pairs: seq<Pair>, expectedLeft: seq<ExpectedLine>, chargesLeft := [], [], charges;
    breaks, expectedNet, actualNet := [], 0, 0;
    for i := 0 to |own|
      invariant PairRecipients(own[..i], charges) == Pairing(pairs, expectedLeft, chargesLeft)
      invariant breaks == Map(pairs, RecipientBreak)
      invariant expectedNet == SumBy(pairs, OwnNet) && actualNet == SumBy(pairs, ClaimedNet)
    {
      assert own[..i + 1][..i] == own[..i];
      var candidates := Keep(chargesLeft, SameFeeClass(own[i].feeClass));
      if |candidates| == 1 {
        var p := Pair(own[i], candidates[0]);
        MapSnoc(pairs, p, RecipientBreak);
        SumSnoc(pairs, p, OwnNet);
        SumSnoc(pairs, p, ClaimedNet);
        chargesLeft := Keep(chargesLeft, OtherKey(p.claimed.key));
        pairs, breaks := pairs + [p], breaks + [RecipientBreak(p)];
        expectedNet, actualNet := expectedNet + p.own.net, actualNet + p.claimed.net;
      } else {
        expectedLeft := expectedLeft + [own[i]];
      }
    }
    assert own[..|own|] == own;
    pairing := Pairing(pairs, expectedLeft, chargesLeft);
  }

  method ReportMissing(period: string, categoryMap: map<string, string>, fallback: Document, left: seq<ExpectedLine>)
    returns (breaks: seq<Break>, expectedNet: int)
    ensures breaks == Map(left, MissingBreak(period, categoryMap, fallback))
    ensures expectedNet == SumBy(left, NetOfExpected)
  {
    breaks, expectedNet := [], 0;
    for i := 0 to |left|
      invariant breaks == Map(left[..i], MissingBreak(period, categoryMap, fallback))
      invariant expectedNet == SumBy(left[..i], NetOfExpected)
    {
      assert left[..i + 1] == left[..i] + [left[i]];
      MapSnoc(left[..i], left[i], MissingBreak(period, categoryMap, fallback));
      SumSnoc(left[..i], left[i], NetOfExpected);
      breaks, expectedNet := breaks + [MissingBreak(period, categoryMap, fallback)(left[i])], expectedNet + left[i].net;
    }
    assert left[..|left|] == left;
  }

  method ReportUnexpected(left: seq<Charge>) returns (breaks: seq<Break>, actualNet: int)
    ensures breaks == Map(left, ChargeBreak(UnexpectedCharge))
    ensures actualNet == SumBy(left, NetOfCharge)
  {
    breaks, actualNet := [], 0;
    for i := 0 to |left|
      invariant breaks == Map(left[..i], ChargeBreak(UnexpectedCharge))
      invariant actualNet == SumBy(left[..i], NetOfCharge)
    {
      assert left[..i + 1] == left[..i] + [left[i]];
      MapSnoc(left[..i], left[i], ChargeBreak(UnexpectedCharge));
      SumSnoc(left[..i], left[i], NetOfCharge);
      breaks, actualNet := breaks + [ChargeBreak(UnexpectedCharge)(left[i])], actualNet + left[i].net;
    }
    assert left[..|left|] == left;
  }

  /** The single pass that decides materiality, overwriting each entry's placeholder. */
  method JudgeMateriality(raw: seq<Break>, materiality: int) returns (breaks: seq<Break>)
    ensures breaks == Map(raw, Judged(materiality))
  {
    breaks := raw;
    for i := 0 to |breaks|
      invariant |breaks| == |raw|
      invariant breaks == Map(raw[..i], Judged(materiality)) + raw[i..]
    {
      breaks := breaks[i := breaks[i].(material := IsMaterial(breaks[i], materiality))];
    }
  }

  /** `mine`, and what it adds up to. */
  method SumBreaksOf(id: string, breaks: seq<Break>) returns (count: nat, expected: int, actual: int, gross: int)
    ensures var mine := Members(breaks, DocumentOfBreak, id);
      && count == |mine| && expected == SumBy(mine, ExpectedNet) && actual == SumBy(mine, ActualNet)
      && gross == SumBy(mine, GrossVariance)
  {
    count, expected, actual, gross := 0, 0, 0, 0;
    for i := 0 to |breaks|
      invariant count == |Members(breaks[..i], DocumentOfBreak, id)|
      invariant expected == SumBy(Members(breaks[..i], DocumentOfBreak, id), ExpectedNet)
      invariant actual == SumBy(Members(breaks[..i], DocumentOfBreak, id), ActualNet)
      invariant gross == SumBy(Members(breaks[..i], DocumentOfBreak, id), GrossVariance)
    {
      ghost var mine := Members(breaks[..i], DocumentOfBreak, id);
      assert breaks[..i + 1] == breaks[..i] + [breaks[i]];
      MembersSnoc(breaks[..i], breaks[i], DocumentOfBreak, id);
      if breaks[i].documentId == id {
        SumSnoc(mine, breaks[i], ExpectedNet);
        SumSnoc(mine, breaks[i], ActualNet);
        SumSnoc(mine, breaks[i], GrossVariance);
        count, expected, actual, gross :=
          count + 1, expected + breaks[i].expectedNet, actual + breaks[i].actualNet, gross + Abs(breaks[i].variance);
      }
    }
    assert breaks[..|breaks|] == breaks;
  }

  method RollUpDocument(d: Document, tallies: map<string, Tally>, breaks: seq<Break>, ghost matched: seq<Pair>)
      returns (row: Row)
    requires Tallied(tallies, matched)
    ensures row == RowOf(matched, breaks, d)
  {
    var t := if d.id in tallies then tallies[d.id] else Tally(0, 0, 0);
    MembersEmpty(matched, DocumentOfPair, d.id);
    var count, expected, actual, gross := SumBreaksOf(d.id, breaks);
    var expectedNet, actualNet := t.expected + expected, t.actual + actual;
    row := Row(d.id, d.reference, t.count, count, expectedNet, actualNet, actualNet - expectedNet, gross);
  }

  method RollUp(documents: seq<Document>, tallies: map<string, Tally>, breaks: seq<Break>, ghost matched: seq<Pair>)
      returns (rows: seq<Row>)
    requires Tallied(tallies, matched)
    ensures rows == Map(documents, RowFor(matched, breaks))
  {
    rows := [];
    for i := 0 to |documents|
      invariant rows == Map(documents[..i], RowFor(matched, breaks))
    {
      assert documents[..i + 1] == documents[..i] + [documents[i]];
      MapSnoc(documents[..i], documents[i], RowFor(matched, breaks));
      var row := RollUpDocument(documents[i], tallies, breaks, matched);
      rows := rows + [row];
    }
    assert documents[..|documents|] == documents;
  }

  method FirstIssue(ds: seq<Document>) returns (t: int)
    requires ds != []
    ensures t == Earliest(ds)
  {
    t := ds[0].issuedAt;
    for i := 1 to |ds|
      invariant t == Earliest(ds[..i])
    {
      assert ds[..i + 1][..i] == ds[..i];
      if ds[i].issuedAt < t { t := ds[i].issuedAt; }
    }
    assert ds[..|ds|] == ds;
  }

  method LastReceipt(ds: seq<Document>) returns (t: int)
    requires ds != []
    ensures t == Latest(ds)
  {
    t := ds[0].receivedAt;
    for i := 1 to |ds|
      invariant t == Latest(ds[..i])
    {
      assert ds[..i + 1][..i] == ds[..i];
      if ds[i].receivedAt > t { t := ds[i].receivedAt; }
    }
    assert ds[..|ds|] == ds;
  }

  method ComputeWindow(inPeriod: seq<Document>, documents: seq<Document>, days: int) returns (w: QueryWindow)
    requires documents != []
    ensures w == Window(inPeriod, documents, days)
  {
    var anchor := FirstIssue(if inPeriod != [] then inPeriod else documents);
    var ingest := LastReceipt(documents);
    var deadline := anchor + days * DAY_MILLISECONDS;
    var remaining := CeilDiv(deadline - ingest, DAY_MILLISECONDS);
    w := QueryWindow(deadline, remaining, remaining >= 0);
  }

  /** Document triage, line triage and duplicate detection. */
  method CollectCharges(input: Input, ghost w: Work)
    returns (inPeriod: seq<Document>, primary: seq<Charge>, breaks: seq<Break>, penalties: nat, duplicateNet: int)
    requires w == WorkOf(input)
    ensures inPeriod == w.inPeriod && primary == w.primary
    ensures breaks == ProviderBreaks(input, w)
    ensures penalties == |AcceptedPenalties(input, w)|
    ensures duplicateNet == SumBy(w.duplicates, NetOfCharge)
  {
    var periodBreaks, refusedBreaks, duplicateBreaks, comparable;
    inPeriod, periodBreaks := TriageDocuments(input.period, input.documents);
    penalties, refusedBreaks, comparable := TriageLines(inPeriod, input.latePaidPeriods);
    primary, duplicateBreaks, duplicateNet := SplitDuplicates(comparable);
    breaks := periodBreaks + refusedBreaks + duplicateBreaks;
  }

  /** Key matching, recipient pairing and what is left over on either side. */
  method CompareCharges(input: Input, inPeriod: seq<Document>, primary: seq<Charge>, ghost w: Work)
    returns (breaks: seq<Break>, matchedLineCount: nat, tallies: map<string, Tally>, expectedNet: int, actualNet: int)
    requires input.documents != [] && UniqueKeys(input.expectedLines)
    requires w == WorkOf(input) && inPeriod == w.inPeriod && primary == w.primary
    ensures breaks == MatchBreaks(input, w)
    ensures matchedLineCount == |Matched(input, w)| && Tallied(tallies, Matched(input, w))
    ensures expectedNet == ExpectedTotal(w)
    ensures actualNet == ActualTotal(w) - SumBy(w.duplicates, NetOfCharge)
  {
    var unmatchedExpected, unmatchedCharges, pairs := MatchExpected(input.expectedLines, primary);
    var varianceBreaks, pairedExpected, pairedActual;
    matchedLineCount, tallies, varianceBreaks, pairedExpected, pairedActual := JudgeMatches(pairs, input.tolerance);
    var pairing, recipientBreaks, wrongExpected, wrongActual := MatchRecipients(unmatchedExpected, unmatchedCharges);
    var fallback := Fallback(inPeriod, input.documents);
    var missingBreaks, missingNet := ReportMissing(input.period, input.categoryMap, fallback, pairing.expectedLeft);
    var unexpectedBreaks, unexpectedNet := ReportUnexpected(pairing.chargesLeft);
    breaks := varianceBreaks + recipientBreaks + missingBreaks + unexpectedBreaks;
    expectedNet, actualNet := pairedExpected + wrongExpected + missingNet, pairedActual + wrongActual + unexpectedNet;
  }

  /** The query window, the per-document rollup and the run's totals. */
  method Summarise(
    input: Input, inPeriod: seq<Document>, breaks: seq<Break>, matchedLineCount: nat, tallies: map<string, Tally>,
    penalties: nat, expectedTotal: int, actualTotal: int, ghost matched: seq<Pair>) returns (r: Reconciliation)
    requires input.documents != []
    requires Tallied(tallies, matched)
    ensures r == Report(
      input, Window(inPeriod, input.documents, input.queryWindowDays), Map(input.documents, RowFor(matched, breaks)),
      breaks, matchedLineCount, penalties, expectedTotal, actualTotal)
  {
    var window := ComputeWindow(inPeriod, input.documents, input.queryWindowDays);
    var rows := RollUp(input.documents, tallies, breaks, matched);
    r := Report(input, window, rows, breaks, matchedLineCount, penalties, expectedTotal, actualTotal);
  }

  method ReconcileAccepted(input: Input, ghost w: Work) returns (r: Reconciliation)
    requires input.documents != [] && UniqueKeys(input.expectedLines) && w == WorkOf(input)
    ensures r == Reconciled(input, w)
  {
    var inPeriod, primary, providerBreaks, penalties, duplicateNet := CollectCharges(input, w);
    var matchBreaks, matchedLineCount, tallies, expectedTotal,
        comparedNet := CompareCharges(input, inPeriod, primary, w);
    var breaks := JudgeMateriality(providerBreaks + matchBreaks, input.materiality);
    r := Summarise(input, inPeriod, breaks, matchedLineCount, tallies, penalties, expectedTotal,
                   duplicateNet + comparedNet, Matched(input, w));
  }

  /** The whole run. A refused input yields the source's error; any other yields the specified result. */
  method ReconcilePayable(input: Input) returns (r: Result<Reconciliation, Error>)
    ensures Refusal(input).Some? ==> r == Err(Refusal(input).value)
    ensures Refusal(input).None? ==> r == Ok(Reconciled(input, WorkOf(input)))
  {
    if input.documents == [] { return Err(NoDocuments); }
    if input.tolerance < 0 { return Err(BadTolerance); }
    if input.materiality < 0 { return Err(BadMateriality); }
    if input.queryWindowDays <= 0 { return Err(BadQueryWindow); }
    var unique := HasUniqueKeys(input.expectedLines);
    if !unique { return Err(DuplicateExpectedLine); }
    var accepted := ReconcileAccepted(input, WorkOf(input));
    r := Ok(accepted);
  }
}
