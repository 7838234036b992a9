/** When the general ledger posts a document, a payable, a settlement or a batch, and what the close pack counts, told
    by the fields of what it was handed. */
module BatchFigures {
  import opened Collections
  import opened Money
  import opened Journals
  import opened Accounting
  import opened AccountingTheorems
  import Settlements
  import Invoicing

  // ---------------------------------------------------------------- documents

  /** The revenue account of a split's fee class, if it has a usable one. */
  predicate HasRevenueAccount(accounts: AccountMap, s: Split) {
    && s.feeClass in accounts.revenue && accounts.revenue[s.feeClass] != ""
    && (s.net != 0 ==> !Blank(accounts.revenue[s.feeClass]))
  }

  /** Of the batch's period, not negative, tying, with VAT exactly when it is not an export. */
  predicate SoundDocument(d: Invoicing.Document, period: string) {
    && d.period == period && d.net >= 0 && d.vat >= 0 && d.gross == d.net + d.vat
    && (d.category == Invoicing.Z <==> d.vat == 0)
  }

  ghost predicate SoundSplits(accounts: AccountMap, splits: seq<Split>, net: int) {
    && (forall s :: s in splits ==> s.net >= 0 && HasRevenueAccount(accounts, s))
    && SumBy(splits, (s: Split) => s.net) == net
  }

  lemma CheckedExactly(input: InvoiceInput, period: string, accounts: AccountMap)
    ensures CheckInvoice(input, period).None? && FirstOf(input.splits, SplitCheck(accounts)).None? <==>
      SoundDocument(input.document, period) && SoundSplits(accounts, input.splits, input.document.net)
  {
    FirstOfNone(input.splits, SplitCheck(accounts));
    SumCongruence(input.splits, NetOf, (s: Split) => s.net);
    assert Blank("");
    forall s | s in input.splits ensures SplitCheck(accounts)(s).None? <==> HasRevenueAccount(accounts, s) {
    }
  }

  /** A document is posted exactly when it and its revenue splits are sound, it is for something and its id has a letter
      or digit. */
  lemma {:induction false} DocumentPostedExactly(input: InvoiceInput, period: string, accounts: AccountMap)
    ensures InvoiceJournal(input, period, accounts).Ok? <==>
      && SoundDocument(input.document, period) && SoundSplits(accounts, input.splits, input.document.net)
      && input.document.gross > 0 && Named(input.document.documentId)
  {
    CheckedExactly(input, period, accounts);
    if SoundDocument(input.document, period) && SoundSplits(accounts, input.splits, input.document.net) {
      SumCongruence(input.splits, NetOf, (s: Split) => s.net);
      InvoiceLinesBalance(input, accounts);
      AssembledExactly(if input.document.documentType.CreditNote? then "pint_ae_credit_note" else "pint_ae_invoice",
                       input.document.documentId, InvoiceLines(input, accounts));
      if input.document.gross != 0 {
        InvoiceCarriesMoney(input, accounts);
      } else {
        NothingOnNothing(input, accounts);
      }
    }
  }

  // ---------------------------------------------------------------- payables and settlements

  /** A Hub payable is posted exactly when it is for something, its fee class has an expense account and its source has
      a letter or digit. */
  lemma PayablePostedExactly(input: PayableInput, accounts: AccountMap)
    ensures PayableJournal(input, accounts).Ok? <==>
      && input.amount > 0 && input.feeClass in accounts.hubExpense && !Blank(accounts.hubExpense[input.feeClass])
      && Named(input.sourceId)
    ensures PayableJournal(input, accounts) == Err(NegativeAmount) <==> input.amount < 0
  {
    var lines := PayableLines(input, accounts);
    assert Blank("");
    AssembledExactly("hub_payable", input.sourceId, lines);
    SumOfTwo(lines[0], lines[1], SignedOf);
    assert lines[0] in lines;
  }

  /** A settlement is posted exactly when it is of the period, neither side of it is negative in whole fils, it moves
      something and its reference has a letter or digit. */
  lemma SettlementPostedExactly(d: Settlements.Decomposition, period: string, accounts: AccountMap)
    ensures SettlementJournal(d, period, accounts).Ok? <==>
      && d.period == period
      && Settlements.ReceivableSum(d.lines) > -500 && Settlements.PayableSum(d.lines) > -500
      && (Abs(d.received) >= 500 || Settlements.ReceivableSum(d.lines) >= 500 || Settlements.PayableSum(d.lines) >= 500)
      && Named(d.reference)
  {
    SettlementLinesBalance(d, accounts);
    SettlementCarriesMoney(d, accounts);
    AssembledExactly("net_settlement", d.reference, SettlementLines(d, accounts));
  }

  // ---------------------------------------------------------------- what a journal's lines cite

  lemma {:induction false} KeptIn(lines: seq<Line>, l: Line)
    requires l in Keep(lines, NonZero)
    ensures l in lines && l.amount != 0
  {
    KeepExact(lines, NonZero);
  }

  /** Every line of a document's journal is for money and cites the document; revenue also cites the lines it was billed
      on. The journal is filed under the document's type and id. */
  lemma {:induction false} DocumentIsCited(input: InvoiceInput, period: string, accounts: AccountMap, l: Line)
    requires InvoiceJournal(input, period, accounts).Ok?
    ensures var d, j := input.document, InvoiceJournal(input, period, accounts).value;
      && j.sourceId == d.documentId
      && j.sourceType == (if d.documentType == Invoicing.CreditNote then "pint_ae_credit_note" else "pint_ae_invoice")
      && (l in j.lines ==>
            l.amount > 0 && l.sourceRefs == [d.documentId]
              + if l.feeClass.Fee? then Map(d.lines, (x: Invoicing.DocumentLine) => x.sourceRef) else [])
  {
    var d, lines := input.document, InvoiceLines(input, accounts);
    DocumentPostedExactly(input, period, accounts);
    if l in InvoiceJournal(input, period, accounts).value.lines {
      KeptIn(lines, l);
      assert Refs(d) == Map(d.lines, (x: Invoicing.DocumentLine) => x.sourceRef);
      assert [d.documentId] + [] == [d.documentId];
      if l in Map(input.splits, RevenueLine(d, accounts)) {
        var i :| 0 <= i < |input.splits| && RevenueLine(d, accounts)(input.splits[i]) == l;
        assert input.splits[i] in input.splits;
      }
    }
  }

  /** A Hub payable's journal is filed under its source, and both its lines cite it and its fee class. */
  lemma {:induction false} PayableIsCited(input: PayableInput, accounts: AccountMap, l: Line)
    requires PayableJournal(input, accounts).Ok?
    ensures var j := PayableJournal(input, accounts).value;
      && j.sourceType == "hub_payable" && j.sourceId == input.sourceId
      && (l in j.lines ==>
            l.amount == input.amount && l.feeClass == Fee(input.feeClass) && l.sourceRefs == [input.sourceId])
  {
    if l in PayableJournal(input, accounts).value.lines {
      KeptIn(PayableLines(input, accounts), l);
    }
  }

  /** The ledger references of one side of a settlement. */
  function CitedBy(d: Settlements.Decomposition, role: Settlements.Role): seq<string> {
    Map(Keep(d.lines, (l: Settlements.SettlementLine) => l.role == role),
        (l: Settlements.SettlementLine) => l.ledgerRef)
  }

  lemma SidesAreCited(d: Settlements.Decomposition)
    ensures SettlementRefs(d.lines, Settlements.IsReceivable) == CitedBy(d, Settlements.Receivable)
    ensures SettlementRefs(d.lines, Settlements.IsPayable) == CitedBy(d, Settlements.Payable)
  {
    SameKept(d, Settlements.Receivable);
    SameKept(d, Settlements.Payable);
  }

  lemma SameKept(d: Settlements.Decomposition, role: Settlements.Role)
    ensures CitedBy(d, role) == if role.Receivable? then SettlementRefs(d.lines, Settlements.IsReceivable)
      else SettlementRefs(d.lines, Settlements.IsPayable)
  {
    var p := (l: Settlements.SettlementLine) => l.role == role;
    KeepCongruence(d.lines, p, (l: Settlements.SettlementLine) => l.role == role);
    if role.Receivable? {
      KeepCongruence(d.lines, p, Settlements.IsReceivable);
    } else {
      KeepCongruence(d.lines, p, Settlements.IsPayable);
    }
  }

  predicate CitesItsSide(d: Settlements.Decomposition, l: Line) {
    l.sourceRefs ==
      if l.feeClass == SettlementCash then [d.reference]
      else if l.feeClass == SettlementResidue
      then [d.reference] + CitedBy(d, Settlements.Receivable) + CitedBy(d, Settlements.Payable)
      else if l.side == Credit then CitedBy(d, Settlements.Receivable)
      else CitedBy(d, Settlements.Payable)
  }

  /** A settlement's journal is filed under its reference. The cash cites it, the receivables and the payables cite
      their own side's references, and the residue cites everything. */
  lemma {:induction false} SettlementIsCited(d: Settlements.Decomposition, period: string, accounts: AccountMap,
      l: Line)
    requires SettlementJournal(d, period, accounts).Ok?
    ensures var j := SettlementJournal(d, period, accounts).value;
      && j.sourceType == "net_settlement" && j.sourceId == d.reference
      && (l in j.lines ==> l.amount > 0 && CitesItsSide(d, l))
  {
    SidesAreCited(d);
    if l in SettlementJournal(d, period, accounts).value.lines {
      KeptIn(SettlementLines(d, accounts), l);
    }
  }

  function BookedAs(name: string): Line -> int {
    (l: Line) => if l.feeClass == Fee(name) then -SignedOf(l) else 0
  }

  function SplitAs(name: string): Split -> int {
    (s: Split) => if s.feeClass == name then s.net else 0
  }

  lemma {:induction false} RevenueByFeeClass(d: Invoicing.Document, accounts: AccountMap, splits: seq<Split>,
      name: string)
    ensures SumBy(Map(splits, RevenueLine(d, accounts)), BookedAs(name))
      == if d.documentType.CreditNote? then -SumBy(splits, SplitAs(name)) else SumBy(splits, SplitAs(name))
  {
    if splits != [] {
      var init, s := splits[..|splits| - 1], splits[|splits| - 1];
      RevenueByFeeClass(d, accounts, init, name);
      assert splits == init + [s];
      MapSnoc(init, s, RevenueLine(d, accounts));
      SumSnoc(Map(init, RevenueLine(d, accounts)), RevenueLine(d, accounts)(s), BookedAs(name));
    }
  }

  lemma RevenueOfLines(input: InvoiceInput, accounts: AccountMap, name: string)
    ensures SumBy(InvoiceLines(input, accounts), BookedAs(name))
      == if input.document.documentType.CreditNote? then -SumBy(input.splits, SplitAs(name))
         else SumBy(input.splits, SplitAs(name))
  {
    var d := input.document;
    SumOfThreeParts(ReceivableLine(d, accounts), Map(input.splits, RevenueLine(d, accounts)), VatLine(d, accounts),
      BookedAs(name));
    RevenueByFeeClass(d, accounts, input.splits, name);
  }

  /** What a document's journal books under a fee class is what its splits say, taken back for a credit note. */
  lemma {:induction false} RevenueIsBookedByFeeClass(input: InvoiceInput, period: string, accounts: AccountMap,
      name: string)
    requires InvoiceJournal(input, period, accounts).Ok?
    ensures SumBy(InvoiceJournal(input, period, accounts).value.lines, BookedAs(name))
      == if input.document.documentType == Invoicing.CreditNote then -SumBy(input.splits, SplitAs(name))
         else SumBy(input.splits, SplitAs(name))
  {
    ZeroLinesCountNothing(InvoiceLines(input, accounts), BookedAs(name));
    RevenueOfLines(input, accounts, name);
  }

  // ---------------------------------------------------------------- batches

  /** Every input of the batch can be posted. */
  ghost predicate AllPosted(input: BatchInput) {
    && (forall i :: i in input.invoices ==> InvoiceJournal(i, input.period, input.accounts).Ok?)
    && (forall p :: p in input.payables ==> PayableJournal(p, input.accounts).Ok?)
    && (forall d :: d in input.settlements ==> SettlementJournal(d, input.period, input.accounts).Ok?)
  }

  lemma JournalsMadeExactly(input: BatchInput)
    ensures JournalsOf(input).Ok? <==> AllPosted(input)
    ensures JournalsOf(input).Ok? ==>
      |JournalsOf(input).value| == |input.invoices| + |input.payables| + |input.settlements|
  {
    CollectExactly(input.invoices, InvoiceIn(input.period, input.accounts));
    CollectExactly(input.payables, PayableIn(input.accounts));
    CollectExactly(input.settlements, SettlementIn(input.period, input.accounts));
  }

  /** A batch is made exactly when the map is approved and names its profile and its five accounts, every input can be
      posted, no two journals share a source and the profile has a letter or digit. */
  lemma {:induction false} BatchMadeExactly(input: BatchInput)
    ensures BuildBatch(input).Ok? <==>
      && input.accounts.approved && Named(input.accounts.profileRef)
      && !Blank(input.accounts.receivableControl) && !Blank(input.accounts.schemePayable) && !Blank(input.accounts.cash)
      && !Blank(input.accounts.outputVat) && !Blank(input.accounts.settlementSuspense)
      && AllPosted(input) && (JournalsOf(input).Ok? ==> NoDuplicates(Map(JournalsOf(input).value, SourceKey)))
  {
    JournalsMadeExactly(input);
    if Named(input.accounts.profileRef) {
      NamedIsNotBlank(input.accounts.profileRef);
    }
    if input.accounts.approved && !Blank(input.accounts.profileRef) && Configured(input.accounts)
        && JournalsOf(input).Ok? {
      BatchRefusedExactly(input);
    }
  }

  lemma NamedIsNotBlank(s: string)
    requires Named(s)
    ensures !Blank(s)
  {
    var c :| c in s && Alphanumeric(c);
    assert c !in WHITESPACE;
  }

  lemma {:induction false} DebitsAddUp(journals: seq<Journal>)
    requires forall j :: j in journals ==> DebitsItsLines(j)
    ensures SumBy(journals, DebitTotal) == SumBy(Flatten(Map(journals, LinesOf)), DebitOf)
  {
    if journals != [] {
      var init, j := journals[..|journals| - 1], journals[|journals| - 1];
      assert journals == init + [j] && j in journals;
      DebitsAddUp(init);
      JournalsSnoc(init, j);
      SumConcat(Flatten(Map(init, LinesOf)), j.lines, DebitOf);
    }
  }

  lemma {:induction false} PostedDebits<T>(xs: seq<T>, f: T -> Result<Journal, Error>)
    requires Collect(xs, f).Ok?
    requires forall x :: f(x).Ok? ==> DebitsItsLines(f(x).value)
    ensures forall j :: j in Collect(xs, f).value ==> DebitsItsLines(j)
  {
    if xs != [] {
      PostedDebits(xs[..|xs| - 1], f);
    }
  }

  lemma InThree<T>(xs: seq<T>, ys: seq<T>, zs: seq<T>, x: T)
    ensures x in xs + ys + zs <==> x in xs || x in ys || x in zs
  {
  }

  predicate DebitsItsLines(j: Journal) {
    j.debit == SumBy(j.lines, DebitOf)
  }

  lemma InvoiceDebits(input: BatchInput)
    requires Collect(input.invoices, InvoiceIn(input.period, input.accounts)).Ok?
    ensures forall j ::
      j in Collect(input.invoices, InvoiceIn(input.period, input.accounts)).value ==> DebitsItsLines(j)
  {
    PostedDebits(input.invoices, InvoiceIn(input.period, input.accounts));
  }

  lemma PayableDebits(input: BatchInput)
    requires Collect(input.payables, PayableIn(input.accounts)).Ok?
    ensures forall j :: j in Collect(input.payables, PayableIn(input.accounts)).value ==> DebitsItsLines(j)
  {
    PostedDebits(input.payables, PayableIn(input.accounts));
  }

  lemma SettlementDebits(input: BatchInput)
    requires Collect(input.settlements, SettlementIn(input.period, input.accounts)).Ok?
    ensures forall j :: j in Collect(input.settlements, SettlementIn(input.period, input.accounts)).value ==>
      DebitsItsLines(j)
  {
    PostedDebits(input.settlements, SettlementIn(input.period, input.accounts));
  }

  lemma JournalDebits(input: BatchInput, j: Journal)
    requires JournalsOf(input).Ok? && j in JournalsOf(input).value
    ensures DebitsItsLines(j)
  {
    InvoiceDebits(input);
    PayableDebits(input);
    SettlementDebits(input);
    InThree(Collect(input.invoices, InvoiceIn(input.period, input.accounts)).value,
      Collect(input.payables, PayableIn(input.accounts)).value,
      Collect(input.settlements, SettlementIn(input.period, input.accounts)).value, j);
  }

  lemma BatchDebits(input: BatchInput)
    requires JournalsOf(input).Ok?
    ensures SumBy(JournalsOf(input).value, DebitTotal) == SumBy(Posted(input), DebitOf)
  {
    forall j | j in JournalsOf(input).value ensures DebitsItsLines(j) {
      JournalDebits(input, j);
    }
    DebitsAddUp(JournalsOf(input).value);
  }

  lemma BatchIsOfItsJournals(input: BatchInput)
    requires BuildBatch(input).Ok?
    ensures JournalsOf(input).Ok?
    ensures var batch := BuildBatch(input).value;
      && batch.journals == JournalsOf(input).value && batch.period == input.period
      && batch.profileRef == input.accounts.profileRef
      && batch.debit == batch.credit == SumBy(JournalsOf(input).value, DebitTotal)
  {
  }

  /** The close pack counts one journal for each input, and its two totals are what the batch debits. */
  lemma ClosePackCounts(input: BatchInput)
    requires BuildBatch(input).Ok?
    ensures BuildBatch(input).value.period == input.period
    ensures BuildClosePack(BuildBatch(input).value).journalCount
      == |input.invoices| + |input.payables| + |input.settlements|
    ensures BuildClosePack(BuildBatch(input).value).debit == BuildClosePack(BuildBatch(input).value).credit
      == SumBy(Posted(input), DebitOf)
  {
    BatchIsOfItsJournals(input);
    JournalsMadeExactly(input);
    BatchDebits(input);
  }

  // ---------------------------------------------------------------- what the close pack lists

  predicate OfKind(j: Journal, kind: int) {
    (IsDocument(j) <==> kind == 0) && (IsHubPayable(j) <==> kind == 1) && (IsSettlement(j) <==> kind == 2)
  }

  lemma SourceTypesDiffer()
    ensures "hub_payable" != "pint_ae_invoice" && "hub_payable" != "pint_ae_credit_note"
    ensures "net_settlement" != "pint_ae_invoice" && "net_settlement" != "pint_ae_credit_note"
    ensures "hub_payable" != "net_settlement"
  {
    assert |"hub_payable"| != |"pint_ae_invoice"| && |"hub_payable"| != |"pint_ae_credit_note"|;
    assert |"net_settlement"| != |"pint_ae_invoice"| && |"net_settlement"| != |"pint_ae_credit_note"|;
    assert |"hub_payable"| != |"net_settlement"|;
  }

  /** Of three lists, the one whose journals are of a kind, when the others have none of it. */
  lemma KeptOfThree(xs: seq<Journal>, ys: seq<Journal>, zs: seq<Journal>, p: Journal -> bool)
    ensures Keep(xs + ys + zs, p) == Keep(xs, p) + Keep(ys, p) + Keep(zs, p)
  {
    KeepConcat(xs + ys, zs, p);
    KeepConcat(xs, ys, p);
  }

  lemma AllOrNone(xs: seq<Journal>, p: Journal -> bool)
    ensures (forall j :: j in xs ==> p(j)) ==> Keep(xs, p) == xs
    ensures (forall j :: j in xs ==> !p(j)) ==> Keep(xs, p) == []
  {
    KeepNothing(xs, p);
    if forall j :: j in xs ==> p(j) {
      KeepAll(xs, p);
    }
  }

  lemma OneKind(js: seq<Journal>, kind: int)
    requires forall j :: j in js ==> OfKind(j, kind)
    ensures Keep(js, IsDocument) == if kind == 0 then js else []
    ensures Keep(js, IsHubPayable) == if kind == 1 then js else []
    ensures Keep(js, IsSettlement) == if kind == 2 then js else []
  {
    AllOrNone(js, IsDocument);
    AllOrNone(js, IsHubPayable);
    AllOrNone(js, IsSettlement);
  }

  lemma KindsApart(xs: seq<Journal>, ys: seq<Journal>, zs: seq<Journal>)
    requires (forall j :: j in xs ==> OfKind(j, 0)) && (forall j :: j in ys ==> OfKind(j, 1))
      && forall j :: j in zs ==> OfKind(j, 2)
    ensures Keep(xs + ys + zs, IsDocument) == xs && Keep(xs + ys + zs, IsHubPayable) == ys
      && Keep(xs + ys + zs, IsSettlement) == zs
  {
    KeptOfThree(xs, ys, zs, IsDocument);
    KeptOfThree(xs, ys, zs, IsHubPayable);
    KeptOfThree(xs, ys, zs, IsSettlement);
    OneKind(xs, 0);
    OneKind(ys, 1);
    OneKind(zs, 2);
  }

  lemma {:induction false} CollectedKind<T>(xs: seq<T>, f: T -> Result<Journal, Error>, kind: int, id: T -> string)
    requires Collect(xs, f).Ok?
    requires forall x :: x in xs && f(x).Ok? ==> OfKind(f(x).value, kind) && f(x).value.sourceId == id(x)
    ensures forall j :: j in Collect(xs, f).value ==> OfKind(j, kind)
    ensures Map(Collect(xs, f).value, SourceIdOf) == Map(xs, id)
  {
    CollectExactly(xs, f);
    var js := Collect(xs, f).value;
    forall i | 0 <= i < |xs| ensures OfKind(js[i], kind) && js[i].sourceId == id(xs[i]) {
      assert xs[i] in xs && f(xs[i]) == Ok(js[i]);
    }
  }

  function DocumentId(i: InvoiceInput): string { i.document.documentId }

  function PayableId(p: PayableInput): string { p.sourceId }

  function SettlementRef(d: Settlements.Decomposition): string { d.reference }

  lemma KindsOfInvoices(input: BatchInput)
    requires Collect(input.invoices, InvoiceIn(input.period, input.accounts)).Ok?
    ensures var js := Collect(input.invoices, InvoiceIn(input.period, input.accounts)).value;
      (forall j :: j in js ==> OfKind(j, 0)) && Map(js, SourceIdOf) == Map(input.invoices, DocumentId)
  {
    SourceTypesDiffer();
    CollectedKind(input.invoices, InvoiceIn(input.period, input.accounts), 0, DocumentId);
  }

  lemma KindsOfPayables(input: BatchInput)
    requires Collect(input.payables, PayableIn(input.accounts)).Ok?
    ensures var js := Collect(input.payables, PayableIn(input.accounts)).value;
      (forall j :: j in js ==> OfKind(j, 1)) && Map(js, SourceIdOf) == Map(input.payables, PayableId)
  {
    SourceTypesDiffer();
    CollectedKind(input.payables, PayableIn(input.accounts), 1, PayableId);
  }

  lemma SettlementKind(d: Settlements.Decomposition, period: string, accounts: AccountMap)
    requires SettlementJournal(d, period, accounts).Ok?
    ensures OfKind(SettlementJournal(d, period, accounts).value, 2)
      && SettlementJournal(d, period, accounts).value.sourceId == d.reference
  {
    SourceTypesDiffer();
  }

  lemma KindsOfSettlements(input: BatchInput)
    requires Collect(input.settlements, SettlementIn(input.period, input.accounts)).Ok?
    ensures var js := Collect(input.settlements, SettlementIn(input.period, input.accounts)).value;
      (forall j :: j in js ==> OfKind(j, 2)) && Map(js, SourceIdOf) == Map(input.settlements, SettlementRef)
  {
    var f := SettlementIn(input.period, input.accounts);
    forall d | d in input.settlements && f(d).Ok?
      ensures OfKind(f(d).value, 2) && f(d).value.sourceId == SettlementRef(d)
    {
      SettlementKind(d, input.period, input.accounts);
    }
    CollectedKind(input.settlements, f, 2, SettlementRef);
  }

  /** The close pack lists the batch's documents, payables and settlements, each in order. */
  lemma {:induction false} ClosePackListsItsInputs(input: BatchInput)
    requires BuildBatch(input).Ok?
    ensures var pack := BuildClosePack(BuildBatch(input).value);
      && pack.documentIds == Map(input.invoices, DocumentId) && pack.payableIds == Map(input.payables, PayableId)
      && pack.settlementRefs == Map(input.settlements, SettlementRef)
  {
    KindsOfInvoices(input);
    KindsOfPayables(input);
    KindsOfSettlements(input);
    KindsApart(Collect(input.invoices, InvoiceIn(input.period, input.accounts)).value,
      Collect(input.payables, PayableIn(input.accounts)).value,
      Collect(input.settlements, SettlementIn(input.period, input.accounts)).value);
  }
}
