/** The general ledger's batch: invoice, Hub payable and settlement journals, and the close pack that reads them
    back. */
module Accounting {
  import opened Collections
  import opened Money
  import opened Journals
  import Settlements
  import Invoicing

  datatype AccountMap = AccountMap(
    approved: bool, profileRef: string, receivableControl: string, schemePayable: string, cash: string,
        outputVat: string,
    settlementSuspense: string, revenue: map<string, string>, hubExpense: map<string, string>)

  datatype Split = Split(feeClass: string, net: int)

  datatype InvoiceInput = InvoiceInput(document: Invoicing.Document, splits: seq<Split>)

  datatype PayableInput = PayableInput(sourceId: string, feeClass: string, amount: int)

  datatype BatchInput = BatchInput(
    period: string, accounts: AccountMap, invoices: seq<InvoiceInput>, payables: seq<PayableInput>,
    settlements: seq<Settlements.Decomposition>)

  function NetOf(s: Split): int { s.net }

  function Lookup(accounts: map<string, string>, feeClass: string): string {
    if feeClass in accounts then accounts[feeClass] else ""
  }

  predicate Configured(accounts: AccountMap) {
    && !Blank(accounts.receivableControl) && !Blank(accounts.schemePayable) && !Blank(accounts.cash)
    && !Blank(accounts.outputVat) && !Blank(accounts.settlementSuspense)
  }

  // ---------------------------------------------------------------- invoices and credit notes

  function Reverse(side: Side): Side {
    if side.Debit? then Credit else Debit
  }

  /** An invoice debits the receivable; a credit note does the opposite throughout. */
  function ReceivableSide(d: Invoicing.Document): Side {
    if d.documentType.CreditNote? then Credit else Debit
  }

  function RevenueLine(d: Invoicing.Document, accounts: AccountMap): Split -> Line {
    (s: Split) => Line(Lookup(accounts.revenue, s.feeClass), Reverse(ReceivableSide(d)), s.net, Fee(s.feeClass),
        [d.documentId] + Refs(d))
  }

  function Refs(d: Invoicing.Document): seq<string> { Map(d.lines, Invoicing.RefOf) }

  function ReceivableLine(d: Invoicing.Document, accounts: AccountMap): Line {
    Line(accounts.receivableControl, ReceivableSide(d), d.gross, SettlementClearing, [d.documentId])
  }

  function VatLine(d: Invoicing.Document, accounts: AccountMap): Line {
    Line(accounts.outputVat, Reverse(ReceivableSide(d)), d.vat, OutputVat, [d.documentId])
  }

  function InvoiceLines(input: InvoiceInput, accounts: AccountMap): seq<Line> {
    [ReceivableLine(input.document, accounts)] + Map(input.splits, RevenueLine(input.document, accounts))
        + [VatLine(input.document, accounts)]
  }

  /** The checks on the document and its revenue splits, before any line is drafted. */
  function CheckInvoice(input: InvoiceInput, period: string): Option<Error> {
    var d := input.document;
    if d.period != period then Some(WrongPeriod)
    else if d.gross < 0 || d.net < 0 || d.vat < 0 then Some(NegativeAmount)
    else if d.gross != d.net + d.vat then Some(TotalsDoNotTie)
    else if d.category.Z? != (d.vat == 0) then Some(CategoryDisagrees)
    else if exists s :: s in input.splits && s.net < 0 then Some(NegativeAmount)
    else if SumBy(input.splits, NetOf) != d.net then Some(SplitsDoNotTie)
    else None
  }

  function SplitError(accounts: AccountMap, s: Split): Option<Error> {
    var account := Lookup(accounts.revenue, s.feeClass);
    if account == "" then Some(NoAccount) else if s.net != 0 && Blank(account) then Some(NotConfigured) else None
  }

  function SplitCheck(accounts: AccountMap): Split -> Option<Error> {
    (s: Split) => SplitError(accounts, s)
  }

  function InvoiceJournal(input: InvoiceInput, period: string, accounts: AccountMap): Result<Journal, Error> {
    var d := input.document;
    if CheckInvoice(input, period).Some? then Err(CheckInvoice(input, period).value)
    else if FirstOf(input.splits, SplitCheck(accounts)).Some?
        then Err(FirstOf(input.splits, SplitCheck(accounts)).value)
    else Assemble(if d.documentType.CreditNote? then "pint_ae_credit_note" else "pint_ae_invoice", d.documentId,
        InvoiceLines(input, accounts))
  }

  // ---------------------------------------------------------------- Hub payables

  function PayableLines(input: PayableInput, accounts: AccountMap): seq<Line> {
    [Line(Lookup(accounts.hubExpense, input.feeClass), Debit, input.amount, Fee(input.feeClass), [input.sourceId]),
     Line(accounts.schemePayable, Credit, input.amount, Fee(input.feeClass), [input.sourceId])]
  }

  function PayableJournal(input: PayableInput, accounts: AccountMap): Result<Journal, Error> {
    if input.amount < 0 then Err(NegativeAmount)
    else if Lookup(accounts.hubExpense, input.feeClass) == "" then Err(NoAccount)
    else if input.amount != 0 && Blank(Lookup(accounts.hubExpense, input.feeClass)) then Err(NotConfigured)
    else Assemble("hub_payable", input.sourceId, PayableLines(input, accounts))
  }

  // ---------------------------------------------------------------- settlements

  function SettlementRefs(lines: seq<Settlements.SettlementLine>,
      side: Settlements.SettlementLine -> bool): seq<string> {
    Map(Keep(lines, side), Settlements.RefOf)
  }

  /** The cash, the two sides it settles, and what is left over; each on the side its sign calls for. */
  function LinesToDraft(d: Settlements.Decomposition, accounts: AccountMap, received: int, receivable: int,
      payable: int): seq<Line> {
    var residue := received - (receivable - payable);
    var receivables, payables := SettlementRefs(d.lines, Settlements.IsReceivable),
        SettlementRefs(d.lines, Settlements.IsPayable);
    [Line(accounts.cash, if received >= 0 then Debit else Credit, Abs(received), SettlementCash, [d.reference]),
     Line(accounts.schemePayable, Debit, payable, SettlementClearing, payables),
     Line(accounts.receivableControl, Credit, receivable, SettlementClearing, receivables),
     Line(accounts.settlementSuspense, if residue < 0 then Debit else Credit, Abs(residue), SettlementResidue,
          [d.reference] + receivables + payables)]
  }

  function SettlementLines(d: Settlements.Decomposition, accounts: AccountMap): seq<Line> {
    LinesToDraft(d, accounts, ToFils(d.received), ToFils(Settlements.ReceivableSum(d.lines)),
        ToFils(Settlements.PayableSum(d.lines)))
  }

  function SettlementJournal(d: Settlements.Decomposition, period: string, accounts: AccountMap)
      : Result<Journal, Error> {
    if d.period != period then Err(WrongPeriod)
    else if ToFils(Settlements.PayableSum(d.lines)) < 0
        || ToFils(Settlements.ReceivableSum(d.lines)) < 0 then Err(NegativeAmount)
    else Assemble("net_settlement", d.reference, SettlementLines(d, accounts))
  }

  // ---------------------------------------------------------------- the journals as they are drafted

  method DraftSplits(draft: Draft, d: Invoicing.Document, splits: seq<Split>, accounts: AccountMap)
      returns (refused: Option<Error>)
    requires forall s :: s in splits ==> s.net >= 0
    modifies draft
    ensures refused == FirstOf(splits, SplitCheck(accounts))
    ensures refused.None? ==> draft.lines == old(draft.lines) + Keep(Map(splits, RevenueLine(d, accounts)), NonZero)
  {
    refused := None;
    ghost var before := draft.lines;
    for i := 0 to |splits|
      invariant refused.None? && FirstOf(splits[..i], SplitCheck(accounts)).None?
      invariant draft.lines == before + Keep(Map(splits[..i], RevenueLine(d, accounts)), NonZero)
    {
      FirstOfSnoc(splits, i, SplitCheck(accounts));
      RevenueSnoc(d, accounts, splits, i);
      assert splits[i] in splits;
      var l := RevenueLine(d, accounts)(splits[i]);
      if l.account == "" {
        refused := Some(NoAccount);
      } else {
        refused := draft.AddLine(l);
      }
      if refused.Some? {
        FirstOfStays(splits, i + 1, SplitCheck(accounts));
        return;
      }
    }
    assert splits[..|splits|] == splits;
  }

  lemma RevenueSnoc(d: Invoicing.Document, accounts: AccountMap, splits: seq<Split>, i: nat)
    requires i < |splits|
    ensures Keep(Map(splits[..i + 1], RevenueLine(d, accounts)), NonZero)
      == Keep(Map(splits[..i], RevenueLine(d, accounts)), NonZero) + Kept(RevenueLine(d, accounts)(splits[i]))
  {
    var l := RevenueLine(d, accounts)(splits[i]);
    assert splits[..i + 1] == splits[..i] + [splits[i]];
    MapSnoc(splits[..i], splits[i], RevenueLine(d, accounts));
    KeepSnoc(Map(splits[..i], RevenueLine(d, accounts)), l, NonZero);
  }

  method DraftInvoice(input: InvoiceInput, accounts: AccountMap) returns (result: Result<seq<Line>, Error>)
    requires Configured(accounts)
    requires input.document.gross >= 0 && input.document.vat >= 0 && forall s :: s in input.splits ==> s.net >= 0
    ensures result == if FirstOf(input.splits, SplitCheck(accounts)).Some?
      then Err(FirstOf(input.splits, SplitCheck(accounts)).value)
      else Ok(Keep(InvoiceLines(input, accounts), NonZero))
  {
    var draft := new Draft();
    var first, last := ReceivableLine(input.document, accounts), VatLine(input.document, accounts);
    ghost var revenue := Map(input.splits, RevenueLine(input.document, accounts));
    var refused := draft.AddLine(first);
    assert draft.lines == Kept(first);
    refused := DraftSplits(draft, input.document, input.splits, accounts);
    if refused.Some? { return Err(refused.value); }
    assert draft.lines == Kept(first) + Keep(revenue, NonZero);
    refused := draft.AddLine(last);
    assert draft.lines == Kept(first) + Keep(revenue, NonZero) + Kept(last);
    KeepInThree(first, revenue, last);
    result := Ok(draft.lines);
  }

  method BuildInvoiceJournal(input: InvoiceInput, period: string, accounts: AccountMap)
      returns (result: Result<Journal, Error>)
    requires Configured(accounts)
    ensures result == InvoiceJournal(input, period, accounts)
  {
    var d := input.document;
    var refused := CheckInvoice(input, period);
    if refused.Some? { return Err(refused.value); }
    var drafted := DraftInvoice(input, accounts);
    if drafted.Err? { return Err(drafted.error); }
    result := Post(if d.documentType.CreditNote? then "pint_ae_credit_note" else "pint_ae_invoice", d.documentId,
        drafted.value);
  }

  lemma KeepInThree(first: Line, middle: seq<Line>, last: Line)
    ensures Keep([first] + middle + [last], NonZero) == Kept(first) + Keep(middle, NonZero) + Kept(last)
  {
    KeepConcat([first] + middle, [last], NonZero);
    KeepConcat([first], middle, NonZero);
    KeepOne(first);
    KeepOne(last);
  }

  method BuildPayableJournal(input: PayableInput, accounts: AccountMap) returns (result: Result<Journal, Error>)
    requires Configured(accounts)
    ensures result == PayableJournal(input, accounts)
  {
    if input.amount < 0 { return Err(NegativeAmount); }
    var expense := Lookup(accounts.hubExpense, input.feeClass);
    if expense == "" { return Err(NoAccount); }
    var draft := new Draft();
    var debit := Line(expense, Debit, input.amount, Fee(input.feeClass), [input.sourceId]);
    var credit := Line(accounts.schemePayable, Credit, input.amount, Fee(input.feeClass), [input.sourceId]);
    var refused := draft.AddLine(debit);
    if refused.Some? { return Err(refused.value); }
    refused := draft.AddLine(credit);
    KeepInThree(debit, [], credit);
    assert [debit] + [] + [credit] == PayableLines(input, accounts);
    assert draft.lines == Keep(PayableLines(input, accounts), NonZero);
    result := Post("hub_payable", input.sourceId, draft.lines);
  }

  lemma LinesToDraftAreNamed(d: Settlements.Decomposition, accounts: AccountMap)
    requires Configured(accounts)
    ensures var lines := SettlementLines(d, accounts);
      && |lines| == 4 && (forall l :: l in lines ==> !Blank(l.account)) && lines[0].amount >= 0 && lines[3].amount >= 0
      && lines[1].amount == ToFils(Settlements.PayableSum(d.lines))
        && lines[2].amount == ToFils(Settlements.ReceivableSum(d.lines))
  {
  }

  method BuildSettlementJournal(d: Settlements.Decomposition, period: string, accounts: AccountMap)
      returns (result: Result<Journal, Error>)
    requires Configured(accounts)
    ensures result == SettlementJournal(d, period, accounts)
  {
    if d.period != period { return Err(WrongPeriod); }
    var receivable := Settlements.SumSide(d.lines, Settlements.IsReceivable);
    var payable := Settlements.SumSide(d.lines, Settlements.IsPayable);
    var lines := LinesToDraft(d, accounts, ToFils(d.received), ToFils(receivable), ToFils(-payable));
    LinesToDraftAreNamed(d, accounts);
    assert lines == SettlementLines(d, accounts);
    var drafted := DraftFour(lines[0], lines[1], lines[2], lines[3]);
    if drafted.Err? { return Err(drafted.error); }
    assert lines == [lines[0], lines[1], lines[2], lines[3]];
    result := Post("net_settlement", d.reference, drafted.value);
  }

  method DraftFour(first: Line, second: Line, third: Line, fourth: Line) returns (result: Result<seq<Line>, Error>)
    requires !Blank(first.account) && !Blank(second.account) && !Blank(third.account) && !Blank(fourth.account)
    ensures result == if first.amount < 0 || second.amount < 0 || third.amount < 0
      || fourth.amount < 0 then Err(NegativeAmount)
      else Ok(Keep([first, second, third, fourth], NonZero))
  {
    var draft := new Draft();
    var refused := DraftTwo(draft, first, second);
    if refused.Some? { return Err(refused.value); }
    refused := DraftTwo(draft, third, fourth);
    if refused.Some? { return Err(refused.value); }
    KeepInFour(first, second, third, fourth);
    assert draft.lines == Kept(first) + Kept(second) + Kept(third) + Kept(fourth);
    result := Ok(draft.lines);
  }

  /** Two lines on named accounts, refused if either is negative. */
  method DraftTwo(draft: Draft, first: Line, second: Line) returns (refused: Option<Error>)
    requires !Blank(first.account) && !Blank(second.account)
    modifies draft
    ensures refused == if first.amount < 0 || second.amount < 0 then Some(NegativeAmount) else None
    ensures refused.None? ==> draft.lines == old(draft.lines) + (Kept(first) + Kept(second))
  {
    refused := draft.AddLine(first);
    if refused.Some? { return; }
    refused := draft.AddLine(second);
  }

  lemma KeepInFour(a: Line, b: Line, c: Line, d: Line)
    ensures Keep([a, b, c, d], NonZero) == Kept(a) + Kept(b) + Kept(c) + Kept(d)
  {
    assert [a, b, c, d] == [a] + [b, c] + [d] && [b, c] == [b] + [] + [c];
    KeepInThree(a, [b, c], d);
    KeepInThree(b, [], c);
  }

  // ---------------------------------------------------------------- the batch and its close pack

  datatype Batch = Batch(period: string, profileRef: string, journals: seq<Journal>, debit: int, credit: int)

  datatype ClosePack = ClosePack(balanced: bool, journalCount: nat, debit: int, credit: int, outputVat: int,
      residue: int, documentIds: seq<string>, payableIds: seq<string>, settlementRefs: seq<string>)

  function LinesOf(j: Journal): seq<Line> { j.lines }

  function DebitTotal(j: Journal): int { j.debit }

  function CreditTotal(j: Journal): int { j.credit }

  function SourceKey(j: Journal): (string, string) { (j.sourceType, j.sourceId) }

  function InvoiceIn(period: string, accounts: AccountMap): InvoiceInput -> Result<Journal, Error> {
    (i: InvoiceInput) => InvoiceJournal(i, period, accounts)
  }

  function PayableIn(accounts: AccountMap): PayableInput -> Result<Journal, Error> {
    (p: PayableInput) => PayableJournal(p, accounts)
  }

  function SettlementIn(period: string, accounts: AccountMap): Settlements.Decomposition -> Result<Journal, Error> {
    (d: Settlements.Decomposition) => SettlementJournal(d, period, accounts)
  }

  /** Every journal of the batch, or the first refusal. */
  function JournalsOf(input: BatchInput): Result<seq<Journal>, Error> {
    match Collect(input.invoices, InvoiceIn(input.period, input.accounts))
    case Err(e) => Err(e)
    case Ok(invoices) =>
      match Collect(input.payables, PayableIn(input.accounts))
      case Err(e) => Err(e)
      case Ok(payables) =>
        match Collect(input.settlements, SettlementIn(input.period, input.accounts))
        case Err(e) => Err(e)
        case Ok(settlements) => Ok(invoices + payables + settlements)
  }

  function BuildBatch(input: BatchInput): Result<Batch, Error> {
    if !input.accounts.approved then Err(NotApproved)
    else if Blank(input.accounts.profileRef) || !Configured(input.accounts) then Err(NotConfigured)
    else
      match JournalsOf(input)
      case Err(e) => Err(e)
      case Ok(journals) =>
        var debit, credit := SumBy(journals, DebitTotal), SumBy(journals, CreditTotal);
        if |Keys(journals, SourceKey)| != |journals| then Err(RepeatedSource)
        else if debit != credit then Err(Unbalanced)
        else if !Named(input.accounts.profileRef) then Err(Unnamed)
        else Ok(Batch(input.period, input.accounts.profileRef, journals, debit, credit))
  }

  /** What lines of one fee class come to, credits positive. */
  function SignedFor(feeClass: FeeClass): Line -> int {
    (l: Line) => if l.feeClass == feeClass then -SignedOf(l) else 0
  }

  function Signed(lines: seq<Line>, feeClass: FeeClass): int {
    SumBy(lines, SignedFor(feeClass))
  }

  function SourceIdOf(j: Journal): string { j.sourceId }

  predicate IsDocument(j: Journal) { j.sourceType == "pint_ae_invoice" || j.sourceType == "pint_ae_credit_note" }

  predicate IsHubPayable(j: Journal) { j.sourceType == "hub_payable" }

  predicate IsSettlement(j: Journal) { j.sourceType == "net_settlement" }

  function BuildClosePack(batch: Batch): ClosePack {
    var lines := Flatten(Map(batch.journals, LinesOf));
    ClosePack(batch.debit == batch.credit, |batch.journals|, batch.debit, batch.credit,
              Signed(lines, OutputVat), Signed(lines, SettlementResidue),
              Map(Keep(batch.journals, IsDocument), SourceIdOf), Map(Keep(batch.journals, IsHubPayable), SourceIdOf),
              Map(Keep(batch.journals, IsSettlement), SourceIdOf))
  }
}
