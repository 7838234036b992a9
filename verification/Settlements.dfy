/** One scheme cash movement: its decomposition into receivables and payables, the journal that books it, and the
    break raised when the cash is not explained. */
module Settlements {
  import opened Collections
  import opened Money
  import opened Journals

  datatype Role = Receivable | Payable

  datatype SettlementLine = SettlementLine(role: Role, sourceId: string, counterpartyId: string, signed: int,
      ledgerRef: string)

  datatype Residue = Residue(amount: int, receivableRefs: seq<string>, payableRefs: seq<string>)

  /** `residue` is what the cash leaves unexplained; `broken` is set when that exceeds the tolerance. */
  datatype Decomposition = Decomposition(
    reference: string, period: string, received: int, expectedNet: int, residue: int, tolerance: int,
    lines: seq<SettlementLine>, broken: Option<Residue>)

  datatype Item = Item(sourceId: string, counterpartyId: string, amount: int, ledgerRef: string)

  datatype SettlementInput = SettlementInput(reference: string, period: string, received: int, tolerance: int,
      receivables: seq<Item>, payables: seq<Item>)

  datatype Error = NoReference | NegativeTolerance | Repeated | BlankSource | NegativeItem

  function SourceIdOf(i: Item): string { i.sourceId }

  function LedgerRefOf(i: Item): string { i.ledgerRef }

  function ItemAmount(i: Item): int { i.amount }

  function SignedOf(l: SettlementLine): int { l.signed }

  function RefOf(l: SettlementLine): string { l.ledgerRef }

  predicate IsReceivable(l: SettlementLine) { l.role.Receivable? }

  predicate IsPayable(l: SettlementLine) { l.role.Payable? }

  function ReceivableLine(i: Item): SettlementLine {
    SettlementLine(Receivable, i.sourceId, i.counterpartyId, i.amount, i.ledgerRef)
  }

  function PayableLine(i: Item): SettlementLine {
    SettlementLine(Payable, i.sourceId, i.counterpartyId, -i.amount, i.ledgerRef)
  }

  /** Ids must not repeat and must not be blank. */
  function CheckIds(ids: seq<string>): Result<(), Error> {
    if |Keys(ids, (id: string) => id)| != |ids| then Err(Repeated)
    else if exists id :: id in ids && Blank(id) then Err(BlankSource)
    else Ok(())
  }

  function FirstError(checks: seq<Result<(), Error>>): Result<(), Error> {
    if checks == [] then Ok(()) else if checks[0].Err? then checks[0] else FirstError(checks[1..])
  }

  predicate NonNegative(items: seq<Item>) {
    forall i :: i in items ==> i.amount >= 0
  }

  /** In the order in which they are made. */
  function Checks(input: SettlementInput): seq<Result<(), Error>> {
    [if Blank(input.reference) then Err(NoReference) else Ok(()),
     if input.tolerance < 0 then Err(NegativeTolerance) else Ok(()),
     CheckIds(Map(input.receivables, SourceIdOf)),
     CheckIds(Map(input.payables, SourceIdOf)),
     CheckIds(Map(input.receivables, LedgerRefOf)),
     CheckIds(Map(input.payables, LedgerRefOf)),
     if NonNegative(input.receivables) then Ok(()) else Err(NegativeItem),
     if NonNegative(input.payables) then Ok(()) else Err(NegativeItem)]
  }

  function Decompose(input: SettlementInput): Result<Decomposition, Error> {
    match FirstError(Checks(input))
    case Err(e) => Err(e)
    case Ok(_) =>
      var lines := LinesOf(input.receivables, input.payables);
      var expectedNet := SumBy(lines, SignedOf);
      var residue := input.received - expectedNet;
      Ok(Decomposition(input.reference, input.period, input.received, expectedNet, residue, input.tolerance, lines,
        if Abs(residue) > input.tolerance then
          Some(Residue(residue, Map(input.receivables, LedgerRefOf), Map(input.payables, LedgerRefOf))) else None))
  }

  // ---------------------------------------------------------------- the three figures that are booked

  function ReceivableSum(lines: seq<SettlementLine>): int {
    SumBy(Keep(lines, IsReceivable), SignedOf)
  }

  function PayableSum(lines: seq<SettlementLine>): int {
    -SumBy(Keep(lines, IsPayable), SignedOf)
  }

  /** Each component is rounded to fils before the subtraction. */
  function ResidueFils(d: Decomposition): int {
    ToFils(d.received) - (ToFils(ReceivableSum(d.lines)) - ToFils(PayableSum(d.lines)))
  }

  lemma NetIsReceivableLessPayable(lines: seq<SettlementLine>)
    ensures SumBy(lines, SignedOf) == ReceivableSum(lines) - PayableSum(lines)
  {
    SumSplits(lines, IsReceivable, IsPayable, SignedOf);
  }

  lemma {:induction false} SumNonNegative<T>(xs: seq<T>, w: T -> int)
    requires forall x :: x in xs ==> w(x) >= 0
    ensures SumBy(xs, w) >= 0
  {
    if xs != [] {
      SumNonNegative(xs[..|xs| - 1], w);
    }
  }

  function LinesOf(receivables: seq<Item>, payables: seq<Item>): seq<SettlementLine> {
    Map(receivables, ReceivableLine) + Map(payables, PayableLine)
  }

  lemma KeepSides(receivables: seq<Item>, payables: seq<Item>)
    ensures Keep(LinesOf(receivables, payables), IsReceivable) == Map(receivables, ReceivableLine)
    ensures Keep(LinesOf(receivables, payables), IsPayable) == Map(payables, PayableLine)
  {
    var rs, ps := Map(receivables, ReceivableLine), Map(payables, PayableLine);
    KeepConcat(rs, ps, IsReceivable);
    KeepConcat(rs, ps, IsPayable);
    KeepAll(rs, IsReceivable);
    KeepAll(ps, IsPayable);
    KeepNothing(rs, IsPayable);
    KeepNothing(ps, IsReceivable);
  }

  lemma {:induction false} SumSides(receivables: seq<Item>, payables: seq<Item>)
    ensures ReceivableSum(LinesOf(receivables, payables)) == SumBy(receivables, ItemAmount)
    ensures PayableSum(LinesOf(receivables, payables)) == SumBy(payables, ItemAmount)
  {
    KeepSides(receivables, payables);
    SumOfMap(receivables, ReceivableLine, SignedOf, ItemAmount);
    PayablesAreNegated(payables);
  }

  /** A decomposition keeps the two sides apart: its lines' receivables and payables are the input's, both
      non-negative, and its residue is what the cash leaves once their difference is taken off. */
  lemma DecompositionSeparatesSides(input: SettlementInput)
    requires Decompose(input).Ok?
    ensures var d := Decompose(input).value;
      && ReceivableSum(d.lines) == SumBy(input.receivables, ItemAmount) >= 0
      && PayableSum(d.lines) == SumBy(input.payables, ItemAmount) >= 0
      && d.residue == d.received - (ReceivableSum(d.lines) - PayableSum(d.lines))
      && (d.broken.Some? <==> Abs(d.residue) > input.tolerance)
  {
    NetIsReceivableLessPayable(Decompose(input).value.lines);
    SumSides(input.receivables, input.payables);
    AcceptedIsNonNegative(input);
    SumNonNegative(input.receivables, ItemAmount);
    SumNonNegative(input.payables, ItemAmount);
  }

  lemma {:induction false} PayablesAreNegated(items: seq<Item>)
    ensures SumBy(Map(items, PayableLine), SignedOf) == -SumBy(items, ItemAmount)
  {
    if items != [] {
      var init := items[..|items| - 1];
      PayablesAreNegated(init);
      assert Map(items, PayableLine)[..|init|] == Map(init, PayableLine);
    }
  }

  lemma AcceptedIsNonNegative(input: SettlementInput)
    requires FirstError(Checks(input)).Ok?
    ensures NonNegative(input.receivables) && NonNegative(input.payables)
  {
    NoErrorAnywhere(Checks(input), 6);
    NoErrorAnywhere(Checks(input), 7);
  }

  lemma {:induction false} NoErrorAnywhere(checks: seq<Result<(), Error>>, i: nat)
    requires FirstError(checks).Ok? && i < |checks|
    ensures checks[i].Ok?
  {
    if i > 0 {
      NoErrorAnywhere(checks[1..], i - 1);
    }
  }

  // ---------------------------------------------------------------- the breaks

  datatype ResidueBreak = ResidueBreak(reference: string, amountFils: int, receivableRefs: seq<string>,
      payableRefs: seq<string>)

  predicate IsBroken(d: Decomposition) { d.broken.Some? }

  /** The amount is derived the way the ledger derives it, not by rounding the residue. */
  function BreakOf(d: Decomposition): ResidueBreak {
    match d.broken
    case Some(b) => ResidueBreak(d.reference, ResidueFils(d), b.receivableRefs, b.payableRefs)
    case None => ResidueBreak(d.reference, 0, [], [])
  }

  method RaiseBreaks(settlements: seq<Decomposition>) returns (breaks: seq<ResidueBreak>)
    ensures breaks == Map(Keep(settlements, IsBroken), BreakOf)
  {
    breaks := [];
    for i := 0 to |settlements|
      invariant breaks == Map(Keep(settlements[..i], IsBroken), BreakOf)
    {
      BreaksSnoc(settlements, i);
      if settlements[i].broken.Some? {
        var b := RaiseBreak(settlements[i]);
        breaks := breaks + [b];
      }
    }
    assert settlements[..|settlements|] == settlements;
  }

  method RaiseBreak(d: Decomposition) returns (b: ResidueBreak)
    requires d.broken.Some?
    ensures b == BreakOf(d)
  {
    var receivable := SumSide(d.lines, IsReceivable);
    var payable := SumSide(d.lines, IsPayable);
    var residueFils := ToFils(d.received) - (ToFils(receivable) - ToFils(-payable));
    b := ResidueBreak(d.reference, residueFils, d.broken.value.receivableRefs, d.broken.value.payableRefs);
  }

  lemma BreaksSnoc(settlements: seq<Decomposition>, i: nat)
    requires i < |settlements|
    ensures Map(Keep(settlements[..i + 1], IsBroken), BreakOf)
      == Map(Keep(settlements[..i], IsBroken), BreakOf) + if IsBroken(settlements[i]) then [BreakOf(settlements[i])]
          else []
  {
    assert settlements[..i + 1] == settlements[..i] + [settlements[i]];
    KeepSnoc(settlements[..i], settlements[i], IsBroken);
    MapSnoc(Keep(settlements[..i], IsBroken), settlements[i], BreakOf);
  }

  method SumSide(lines: seq<SettlementLine>, side: SettlementLine -> bool) returns (sum: int)
    ensures sum == SumBy(Keep(lines, side), SignedOf)
  {
    sum := 0;
    for i := 0 to |lines|
      invariant sum == SumBy(Keep(lines[..i], side), SignedOf)
    {
      SideSnoc(lines, i, side);
      if side(lines[i]) {
        sum := sum + lines[i].signed;
      }
    }
    assert lines[..|lines|] == lines;
  }

  lemma SideSnoc(lines: seq<SettlementLine>, i: nat, side: SettlementLine -> bool)
    requires i < |lines|
    ensures SumBy(Keep(lines[..i + 1], side), SignedOf)
      == SumBy(Keep(lines[..i], side), SignedOf) + if side(lines[i]) then lines[i].signed else 0
  {
    assert lines[..i + 1] == lines[..i] + [lines[i]];
    KeepSnoc(lines[..i], lines[i], side);
    SumSnoc(Keep(lines[..i], side), lines[i], SignedOf);
  }

  /** What is booked as residue is within 1,499 milli-fils of the residue itself: three roundings of at most half a
      fil, two of which cannot round down by the full half. */
  lemma BookedResidueIsClose(received: int, receivable: nat, payable: nat)
    ensures Abs(MF_PER_FIL * (ToFils(received) - (ToFils(receivable) - ToFils(payable)))
      - (received - (receivable - payable))) <= 1499
  {
    HalfFil(Abs(received));
    HalfFil(receivable);
    HalfFil(payable);
  }

  lemma HalfFil(n: nat)
    ensures -500 < MF_PER_FIL * ToFils(n) - n <= 500
  {
  }

  /** Whatever decomposition raises it, a break is for nothing exactly when the two sides of the lines, each in whole
      fils, differ by the cash in whole fils. */
  lemma BreakIsForNothingExactly(d: Decomposition)
    requires d.broken.Some?
    ensures BreakOf(d).amountFils == 0 <==>
      ToFils(d.received) == ToFils(ReceivableSum(d.lines)) - ToFils(PayableSum(d.lines))
  {
  }

  /** For a list of items on each side: exactly when the cash and the two totals tie in whole fils. */
  lemma BreakBooksNothingExactly(input: SettlementInput)
    requires Decompose(input).Ok? && Decompose(input).value.broken.Some?
    ensures BreakOf(Decompose(input).value).amountFils == 0 <==>
      ToFils(input.received) == ToFils(SumBy(input.receivables, ItemAmount)) - ToFils(SumBy(input.payables, ItemAmount))
  {
    DecompositionSeparatesSides(input);
    BreakIsForNothingExactly(Decompose(input).value);
  }

  /** A break of such a settlement whose tolerance is at least 1,499 milli-fils always books something. */
  lemma BreakBooksSomething(input: SettlementInput)
    requires Decompose(input).Ok? && Decompose(input).value.broken.Some? && input.tolerance >= 1499
    ensures BreakOf(Decompose(input).value).amountFils != 0
  {
    var d := Decompose(input).value;
    DecompositionSeparatesSides(input);
    BookedResidueIsClose(d.received, ReceivableSum(d.lines), PayableSum(d.lines));
  }

  function Unexplained(tolerance: nat): SettlementInput {
    SettlementInput("X", "2026-06", 500, tolerance, [Item("I", "T", 2499, "R")], [Item("P", "L", 500, "S")])
  }

  /** With any smaller tolerance, the usual one fil included, some settlement raises a break of nothing: 500 received
      against a receivable of 2,499 and a payable of 500 leaves −1,499 unexplained and books no residue. */
  lemma BreakCanBookNothing(tolerance: nat)
    requires tolerance < 1499
    ensures Decompose(Unexplained(tolerance)).Ok? && Decompose(Unexplained(tolerance)).value.broken.Some?
    ensures BreakOf(Decompose(Unexplained(tolerance)).value).amountFils == 0
  {
    var input := Unexplained(tolerance);
    var receivable, payable := input.receivables[0], input.payables[0];
    NotBlank("X");
    NotBlank("I");
    NotBlank("R");
    NotBlank("P");
    NotBlank("S");
    OneIdPasses(receivable);
    OneIdPasses(payable);
    AllPass(Checks(input));
    SumOfOne(receivable, ItemAmount);
    SumOfOne(payable, ItemAmount);
    SumSides([receivable], [payable]);
    NetIsReceivableLessPayable(LinesOf([receivable], [payable]));
  }

  lemma NotBlank(s: string)
    requires s != "" && s[0] !in WHITESPACE
    ensures !Blank(s)
  {
    assert s[0] in s;
  }

  lemma OneIdPasses(i: Item)
    requires !Blank(i.sourceId) && !Blank(i.ledgerRef)
    ensures CheckIds(Map([i], SourceIdOf)).Ok? && CheckIds(Map([i], LedgerRefOf)).Ok?
  {
    assert Map([i], SourceIdOf) == [i.sourceId] && Map([i], LedgerRefOf) == [i.ledgerRef];
    KeysAllDistinct([i.sourceId], (id: string) => id);
    KeysAllDistinct([i.ledgerRef], (id: string) => id);
  }

  lemma {:induction false} AllPass(checks: seq<Result<(), Error>>)
    requires forall c :: c in checks ==> c.Ok?
    ensures FirstError(checks).Ok?
  {
    if checks != [] {
      AllPass(checks[1..]);
    }
  }
}
