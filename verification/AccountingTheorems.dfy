/** What the general ledger's journals refuse, and what the close pack reads back from a batch. */
module AccountingTheorems {
  import opened Collections
  import opened Money
  import opened Journals
  import opened Accounting
  import Settlements
  import NetSettlements
  import Invoicing
  import InvoicingTheorems

  // ---------------------------------------------------------------- settlements

  lemma SumOfFour<T>(a: T, b: T, c: T, d: T, w: T -> int)
    ensures SumBy([a, b, c, d], w) == w(a) + w(b) + w(c) + w(d)
  {
    assert [a, b, c, d] == [a, b] + [c, d];
    SumConcat([a, b], [c, d], w);
    SumOfTwo(a, b, w);
    SumOfTwo(c, d, w);
  }

  lemma SettlementLinesBalance(d: Settlements.Decomposition, accounts: AccountMap)
    ensures TrialBalance(SettlementLines(d, accounts)) == 0
  {
    var lines := SettlementLines(d, accounts);
    SumOfFour(lines[0], lines[1], lines[2], lines[3], SignedOf);
    assert lines == [lines[0], lines[1], lines[2], lines[3]];
  }

  /** Some line of the settlement journal carries money exactly when one of the three booked figures does: the residue
      cannot be the only one. */
  lemma SettlementCarriesMoney(d: Settlements.Decomposition, accounts: AccountMap)
    ensures (exists l :: l in SettlementLines(d, accounts) && NonZero(l)) <==>
      ToFils(d.received) != 0 || ToFils(Settlements.PayableSum(d.lines)) != 0
          || ToFils(Settlements.ReceivableSum(d.lines)) != 0
  {
    var lines := SettlementLines(d, accounts);
    assert lines[0] in lines && lines[1] in lines && lines[2] in lines;
    assert NonZero(lines[0]) <==> ToFils(d.received) != 0;
    assert forall l :: l in lines ==> l == lines[0] || l == lines[1] || l == lines[2] || l == lines[3];
  }

  lemma RoundsToNothing(x: int)
    ensures ToFils(x) == 0 <==> Abs(x) < 500
  {
  }

  /** Whatever was received, in or out, the journal of a decomposition whose two sides are not negative balances; it is
      refused exactly when the receipt and both sides of the lines all round to nothing, or the reference has no letter
      or digit. */
  lemma {:induction false} JournalRefusedExactly(d: Settlements.Decomposition, accounts: AccountMap)
    requires Settlements.ReceivableSum(d.lines) >= 0 && Settlements.PayableSum(d.lines) >= 0
    ensures SettlementJournal(d, d.period, accounts).Err? <==>
      || (Abs(d.received) < 500 && Settlements.ReceivableSum(d.lines) < 500 && Settlements.PayableSum(d.lines) < 500)
      || !Named(d.reference)
  {
    SettlementLinesBalance(d, accounts);
    SettlementCarriesMoney(d, accounts);
    AssembledExactly("net_settlement", d.reference, SettlementLines(d, accounts));
    RoundsToNothing(d.received);
    RoundsToNothing(Settlements.PayableSum(d.lines));
    RoundsToNothing(Settlements.ReceivableSum(d.lines));
  }

  /** For a list of items on each side, in terms of their totals. */
  lemma {:induction false} SettlementJournalRefusedExactly(input: Settlements.SettlementInput, period: string,
      accounts: AccountMap)
    requires Settlements.Decompose(input).Ok? && input.period == period
    ensures SettlementJournal(Settlements.Decompose(input).value, period, accounts).Err? <==>
      || (Abs(input.received) < 500 && SumBy(input.receivables, Settlements.ItemAmount) < 500
          && SumBy(input.payables, Settlements.ItemAmount) < 500)
      || !Named(input.reference)
  {
    Settlements.DecompositionSeparatesSides(input);
    JournalRefusedExactly(Settlements.Decompose(input).value, accounts);
  }

  /** For a net settlement, in terms of what its lines carry of its positions: positions that cite nothing can have the
      journal of a large settlement refused. */
  lemma NetJournalRefusedExactly(input: NetSettlements.NetInput, accounts: AccountMap)
    requires NetSettlements.NetOf(input).Ok?
    ensures SettlementJournal(NetSettlements.AsDecomposition(NetSettlements.NetOf(input).value), input.period,
      accounts).Err? <==>
      || (Abs(input.received) < 500 && NetSettlements.OwedOnLines(input) < 500
        && NetSettlements.OwingOnLines(input) < 500)
      || !Named(input.reference)
  {
    NetSettlements.LinesCarry(input.positions);
    NetSettlements.NetResidueFils(input);
    JournalRefusedExactly(NetSettlements.AsDecomposition(NetSettlements.NetOf(input).value), accounts);
  }

  lemma SignedOfKept(lines: seq<Line>, feeClass: FeeClass)
    ensures Signed(Keep(lines, NonZero), feeClass) == Signed(lines, feeClass)
  {
    ZeroLinesCountNothing(lines, SignedFor(feeClass));
  }

  lemma SettlementSigned(d: Settlements.Decomposition, period: string, accounts: AccountMap)
    requires SettlementJournal(d, period, accounts).Ok?
    ensures var lines := SettlementJournal(d, period, accounts).value.lines;
      Signed(lines, SettlementResidue) == Settlements.ResidueFils(d) && Signed(lines, OutputVat) == 0
  {
    var lines := SettlementLines(d, accounts);
    assert lines == [lines[0], lines[1], lines[2], lines[3]];
    SumOfFour(lines[0], lines[1], lines[2], lines[3], SignedFor(SettlementResidue));
    SumOfFour(lines[0], lines[1], lines[2], lines[3], SignedFor(OutputVat));
    SignedOfKept(lines, SettlementResidue);
    SignedOfKept(lines, OutputVat);
  }

  /** A break reports exactly what the ledger booked as residue, sign included. */
  lemma BreakIsWhatIsBooked(d: Settlements.Decomposition, period: string, accounts: AccountMap)
    requires SettlementJournal(d, period, accounts).Ok? && d.broken.Some?
    ensures Settlements.BreakOf(d).amountFils == Signed(SettlementJournal(d, period, accounts).value.lines,
      SettlementResidue)
  {
    SettlementSigned(d, period, accounts);
  }

  // ---------------------------------------------------------------- invoices

  lemma {:induction false} RevenueBalances(d: Invoicing.Document, accounts: AccountMap, splits: seq<Split>)
    ensures TrialBalance(Map(splits, RevenueLine(d, accounts)))
      == if d.documentType.CreditNote? then SumBy(splits, NetOf) else -SumBy(splits, NetOf)
  {
    if splits != [] {
      var init, s := splits[..|splits| - 1], splits[|splits| - 1];
      RevenueBalances(d, accounts, init);
      assert splits == init + [s];
      MapSnoc(init, s, RevenueLine(d, accounts));
      SumSnoc(Map(init, RevenueLine(d, accounts)), RevenueLine(d, accounts)(s), SignedOf);
    }
  }

  lemma SumOfThreeParts<T>(a: T, xs: seq<T>, b: T, w: T -> int)
    ensures SumBy([a] + xs + [b], w) == w(a) + SumBy(xs, w) + w(b)
  {
    SumSnoc([a] + xs, b, w);
    SumConcat([a], xs, w);
    assert [a] == [] + [a];
    SumSnoc([], a, w);
  }

  lemma InvoiceLinesBalance(input: InvoiceInput, accounts: AccountMap)
    requires input.document.gross == input.document.net + input.document.vat
      && SumBy(input.splits, NetOf) == input.document.net
    ensures TrialBalance(InvoiceLines(input, accounts)) == 0
  {
    var d := input.document;
    RevenueBalances(d, accounts, input.splits);
    SumOfThreeParts(ReceivableLine(d, accounts), Map(input.splits, RevenueLine(d, accounts)), VatLine(d, accounts),
        SignedOf);
  }

  lemma InvoiceCarriesMoney(input: InvoiceInput, accounts: AccountMap)
    requires input.document.gross != 0
    ensures exists l :: l in InvoiceLines(input, accounts) && NonZero(l)
  {
    assert InvoiceLines(input, accounts)[0] == ReceivableLine(input.document, accounts);
    assert InvoiceLines(input, accounts)[0] in InvoiceLines(input, accounts)
        && NonZero(InvoiceLines(input, accounts)[0]);
  }

  /** Every fee class on the splits has a revenue account. */
  predicate HaveAccounts(accounts: AccountMap, splits: seq<Split>) {
    forall s :: s in splits ==> !Blank(Lookup(accounts.revenue, s.feeClass))
  }

  /** A document whose totals tie, with splits that make up its net, is refused by the ledger exactly when its tax
      category and its VAT disagree, it is for nothing or its id has no letter or digit. */
  lemma InvoiceJournalRefusedExactly(input: InvoiceInput, accounts: AccountMap)
    requires input.document.gross == input.document.net + input.document.vat
    requires input.document.net >= 0 && input.document.vat >= 0
    requires SumBy(input.splits, NetOf) == input.document.net && forall s :: s in input.splits ==> s.net >= 0
    requires HaveAccounts(accounts, input.splits)
    ensures InvoiceJournal(input, input.document.period, accounts).Err? <==>
      input.document.category.Z? != (input.document.vat == 0) || input.document.gross == 0
          || !Named(input.document.documentId)
  {
    FirstOfNone(input.splits, SplitCheck(accounts));
    InvoiceLinesBalance(input, accounts);
    AssembledExactly(if input.document.documentType.CreditNote? then "pint_ae_credit_note" else "pint_ae_invoice",
                     input.document.documentId, InvoiceLines(input, accounts));
    if input.document.gross != 0 {
      InvoiceCarriesMoney(input, accounts);
    } else {
      NothingOnNothing(input, accounts);
    }
  }

  lemma {:induction false} ZeroParts(splits: seq<Split>)
    requires SumBy(splits, NetOf) == 0 && forall s :: s in splits ==> s.net >= 0
    ensures forall s :: s in splits ==> s.net == 0
  {
    if splits != [] {
      var init, s := splits[..|splits| - 1], splits[|splits| - 1];
      assert splits == init + [s];
      assert s in splits;
      Settlements.SumNonNegative(init, NetOf);
      ZeroParts(init);
    }
  }

  lemma NothingOnNothing(input: InvoiceInput, accounts: AccountMap)
    requires input.document.gross == input.document.net == input.document.vat == 0
    requires SumBy(input.splits, NetOf) == 0 && forall s :: s in input.splits ==> s.net >= 0
    ensures forall l :: l in InvoiceLines(input, accounts) ==> !NonZero(l)
  {
    ZeroParts(input.splits);
    forall l | l in InvoiceLines(input, accounts) ensures !NonZero(l) {
      var d := input.document;
      if l in Map(input.splits, RevenueLine(d, accounts)) {
        var i :| 0 <= i < |input.splits| && l == RevenueLine(d, accounts)(input.splits[i]);
        assert input.splits[i] in input.splits;
      }
    }
  }

  function SplitOf(l: Invoicing.DocumentLine): Split { Split(l.feeClass, l.net) }

  lemma SplitsMakeUpTheNet(lines: seq<Invoicing.DocumentLine>)
    ensures SumBy(Map(lines, SplitOf), NetOf) == SumBy(lines, Invoicing.NetOf)
  {
    SumOfMap(lines, SplitOf, NetOf, Invoicing.NetOf);
  }

  /** A document as invoicing makes it, with one revenue split per line. */
  function AsPosted(documentType: Invoicing.DocumentType, period: string, buyer: Invoicing.Buyer,
      lines: seq<Invoicing.DocumentLine>, suffix: string): InvoiceInput {
    var d := Invoicing.MakeDocument(documentType, period, buyer, lines, suffix);
    InvoiceInput(d, Map(d.lines, SplitOf))
  }

  lemma TaxedIsNonNegative(category: Invoicing.Category, lines: seq<Invoicing.DocumentLine>)
    requires forall l :: l in lines ==> l.gross >= 0
    ensures forall l :: l in Map(lines, Invoicing.Taxed(category)) ==> l.net >= 0 && l.vat >= 0 && l.gross >= 0
  {
    forall l | l in Map(lines, Invoicing.Taxed(category)) ensures l.net >= 0 && l.vat >= 0 && l.gross >= 0 {
      var i :| 0 <= i < |lines| && l == Invoicing.Taxed(category)(lines[i]);
      assert lines[i] in lines;
      CarvedOutStaysPositive(lines[i].gross);
    }
  }

  lemma CarvedOutStaysPositive(gross: nat)
    ensures 0 <= Invoicing.Extract(gross).vat <= gross
  {
  }

  lemma {:induction false} GrossIsNothingExactly(lines: seq<Invoicing.DocumentLine>)
    requires forall l :: l in lines ==> l.gross >= 0
    ensures SumBy(lines, Invoicing.GrossOf) >= 0
    ensures SumBy(lines, Invoicing.GrossOf) == 0 <==> forall l :: l in lines ==> l.gross == 0
  {
    if lines != [] {
      var init, last := lines[..|lines| - 1], lines[|lines| - 1];
      assert lines == init + [last];
      assert last in lines;
      GrossIsNothingExactly(init);
    }
  }

  lemma PostedIsWellFormed(documentType: Invoicing.DocumentType, period: string, buyer: Invoicing.Buyer,
                           lines: seq<Invoicing.DocumentLine>, suffix: string)
    requires forall l :: l in lines ==> l.gross >= 0
    ensures var input := AsPosted(documentType, period, buyer, lines, suffix);
      && input.document.gross == input.document.net + input.document.vat == SumBy(lines, Invoicing.GrossOf)
      && input.document.net >= 0 && input.document.vat >= 0
      && SumBy(input.splits, NetOf) == input.document.net
      && (forall s :: s in input.splits ==> s.net >= 0)
  {
    var d := Invoicing.MakeDocument(documentType, period, buyer, lines, suffix);
    InvoicingTheorems.DocumentTies(documentType, period, buyer, lines, suffix);
    SplitsMakeUpTheNet(d.lines);
    TaxedIsNonNegative(d.category, lines);
    Settlements.SumNonNegative(d.lines, Invoicing.NetOf);
    Settlements.SumNonNegative(d.lines, Invoicing.VatOf);
    forall s | s in Map(d.lines, SplitOf) ensures s.net >= 0 {
      var i :| 0 <= i < |d.lines| && s == SplitOf(d.lines[i]);
      assert d.lines[i] in d.lines;
    }
  }

  lemma MadeDocumentIsNamed(documentType: Invoicing.DocumentType, period: string, buyer: Invoicing.Buyer,
                            lines: seq<Invoicing.DocumentLine>, suffix: string)
    ensures Named(Invoicing.MakeDocument(documentType, period, buyer, lines, suffix).documentId)
  {
    var id := Invoicing.MakeDocument(documentType, period, buyer, lines, suffix).documentId;
    assert id[0] in id && Alphanumeric(id[0]);
  }

  /** The ledger refuses a document that invoicing made exactly when it is a domestic one whose lines are all of ten
      fils or less, which carry no VAT under category S, or an export for nothing. */
  lemma {:induction false} MadeDocumentRefusedExactly(documentType: Invoicing.DocumentType, period: string,
      buyer: Invoicing.Buyer, lines: seq<Invoicing.DocumentLine>, suffix: string, accounts: AccountMap)
    requires forall l :: l in lines ==> l.gross >= 0
    requires HaveAccounts(accounts, AsPosted(documentType, period, buyer, lines, suffix).splits)
    ensures InvoiceJournal(AsPosted(documentType, period, buyer, lines, suffix), period, accounts).Err? <==>
      forall l :: l in lines ==> l.gross <= if buyer.country == "AE" then 10 else 0
  {
    PostedIsWellFormed(documentType, period, buyer, lines, suffix);
    MadeDocumentIsNamed(documentType, period, buyer, lines, suffix);
    InvoiceJournalRefusedExactly(AsPosted(documentType, period, buyer, lines, suffix), accounts);
    GrossIsNothingExactly(lines);
    InvoicingTheorems.NoVatExactly(lines);
    InvoicingTheorems.DocumentTies(documentType, period, buyer, lines, suffix);
    if Invoicing.CategoryOf(buyer).S? && SumBy(lines, Invoicing.GrossOf) == 0 {
      assert forall l :: l in lines ==> l.gross <= 10;
    }
  }

  lemma {:induction false} RevenueIsNeither(d: Invoicing.Document, accounts: AccountMap, splits: seq<Split>,
      feeClass: FeeClass)
    requires !feeClass.Fee?
    ensures Signed(Map(splits, RevenueLine(d, accounts)), feeClass) == 0
  {
    if splits != [] {
      var init, s := splits[..|splits| - 1], splits[|splits| - 1];
      RevenueIsNeither(d, accounts, init, feeClass);
      assert splits == init + [s];
      MapSnoc(init, s, RevenueLine(d, accounts));
      SumSnoc(Map(init, RevenueLine(d, accounts)), RevenueLine(d, accounts)(s), SignedFor(feeClass));
    }
  }

  /** What an invoice adds to output VAT: its VAT, or minus it for a credit note. */
  function OutputVatOf(input: InvoiceInput): int {
    if input.document.documentType.CreditNote? then -input.document.vat else input.document.vat
  }

  lemma InvoiceSigned(input: InvoiceInput, period: string, accounts: AccountMap)
    requires InvoiceJournal(input, period, accounts).Ok?
    ensures var lines := InvoiceJournal(input, period, accounts).value.lines;
      Signed(lines, OutputVat) == OutputVatOf(input) && Signed(lines, SettlementResidue) == 0
  {
    var d, lines := input.document, InvoiceLines(input, accounts);
    var revenue := Map(input.splits, RevenueLine(d, accounts));
    SignedOfKept(lines, OutputVat);
    SignedOfKept(lines, SettlementResidue);
    RevenueIsNeither(d, accounts, input.splits, OutputVat);
    RevenueIsNeither(d, accounts, input.splits, SettlementResidue);
    SumOfThreeParts(ReceivableLine(d, accounts), revenue, VatLine(d, accounts), SignedFor(OutputVat));
    SumOfThreeParts(ReceivableLine(d, accounts), revenue, VatLine(d, accounts), SignedFor(SettlementResidue));
  }

  lemma {:induction false} PayableSigned(input: PayableInput, accounts: AccountMap)
    requires PayableJournal(input, accounts).Ok?
    ensures var lines := PayableJournal(input, accounts).value.lines;
      Signed(lines, OutputVat) == 0 && Signed(lines, SettlementResidue) == 0
  {
    var lines := PayableLines(input, accounts);
    SignedOfKept(lines, OutputVat);
    SignedOfKept(lines, SettlementResidue);
    SumOfTwo(lines[0], lines[1], SignedFor(OutputVat));
    SumOfTwo(lines[0], lines[1], SignedFor(SettlementResidue));
  }

  // ---------------------------------------------------------------- the batch and its close pack

  /** Whatever lines are measured by, the collected journals' lines measure up to what their sources are worth. */
  lemma {:induction false} MeasureOfJournals<T>(xs: seq<T>, f: T -> Result<Journal, Error>, m: Line -> int, w: T -> int)
    requires Collect(xs, f).Ok?
    requires forall x :: x in xs && f(x).Ok? ==> SumBy(f(x).value.lines, m) == w(x)
    ensures SumBy(Flatten(Map(Collect(xs, f).value, LinesOf)), m) == SumBy(xs, w)
  {
    if xs != [] {
      var init, x := xs[..|xs| - 1], xs[|xs| - 1];
      MeasureOfJournals(init, f, m, w);
      assert x in xs;
      JournalsSnoc(Collect(init, f).value, f(x).value);
      SumConcat(Flatten(Map(Collect(init, f).value, LinesOf)), f(x).value.lines, m);
    }
  }

  lemma JournalsSnoc(journals: seq<Journal>, j: Journal)
    ensures Flatten(Map(journals + [j], LinesOf)) == Flatten(Map(journals, LinesOf)) + j.lines
  {
    MapSnoc(journals, j, LinesOf);
    FlattenSnoc(Map(journals, LinesOf), j.lines);
  }

  lemma {:induction false} FlattenConcat(xs: seq<Journal>, ys: seq<Journal>)
    ensures Flatten(Map(xs + ys, LinesOf)) == Flatten(Map(xs, LinesOf)) + Flatten(Map(ys, LinesOf))
  {
    if ys == [] {
      assert xs + ys == xs;
    } else {
      var init, j := ys[..|ys| - 1], ys[|ys| - 1];
      assert xs + ys == (xs + init) + [j] && ys == init + [j];
      FlattenConcat(xs, init);
      JournalsSnoc(xs + init, j);
      JournalsSnoc(init, j);
    }
  }

  lemma {:induction false} JournalsBalance(journals: seq<Journal>)
    requires forall j :: j in journals ==> j.debit == j.credit
    ensures SumBy(journals, DebitTotal) == SumBy(journals, CreditTotal)
  {
    if journals != [] {
      assert journals[|journals| - 1] in journals;
      JournalsBalance(journals[..|journals| - 1]);
    }
  }

  lemma {:induction false} CollectedBalance<T>(xs: seq<T>, f: T -> Result<Journal, Error>)
    requires Collect(xs, f).Ok?
    requires forall x :: f(x).Ok? ==> f(x).value.debit == f(x).value.credit
    ensures forall j :: j in Collect(xs, f).value ==> j.debit == j.credit
  {
    if xs != [] {
      CollectedBalance(xs[..|xs| - 1], f);
    }
  }

  /** A batch of journals that were all accepted is never out of balance: it is refused exactly when a source repeats or
      the profile has no letter or digit. */
  lemma BatchRefusedExactly(input: BatchInput)
    requires input.accounts.approved && !Blank(input.accounts.profileRef) && Configured(input.accounts)
      && JournalsOf(input).Ok?
    ensures BuildBatch(input).Err? <==>
      !NoDuplicates(Map(JournalsOf(input).value, SourceKey)) || !Named(input.accounts.profileRef)
  {
    CollectedBalance(input.invoices, InvoiceIn(input.period, input.accounts));
    CollectedBalance(input.payables, PayableIn(input.accounts));
    CollectedBalance(input.settlements, SettlementIn(input.period, input.accounts));
    JournalsBalance(JournalsOf(input).value);
    KeysAllDistinct(JournalsOf(input).value, SourceKey);
  }

  lemma {:induction false} MeasureOfBatch(input: BatchInput, m: Line -> int, w: InvoiceInput -> int,
      u: PayableInput -> int, v: Settlements.Decomposition -> int)
    requires JournalsOf(input).Ok?
    requires forall i :: i in input.invoices && InvoiceJournal(i, input.period, input.accounts).Ok? ==>
      SumBy(InvoiceJournal(i, input.period, input.accounts).value.lines, m) == w(i)
    requires forall p :: p in input.payables && PayableJournal(p, input.accounts).Ok? ==>
      SumBy(PayableJournal(p, input.accounts).value.lines, m) == u(p)
    requires forall d :: d in input.settlements && SettlementJournal(d, input.period, input.accounts).Ok? ==>
      SumBy(SettlementJournal(d, input.period, input.accounts).value.lines, m) == v(d)
    ensures SumBy(Posted(input), m) == SumBy(input.invoices, w) + SumBy(input.payables, u) + SumBy(input.settlements, v)
  {
    var i, p, d := InvoiceIn(input.period, input.accounts), PayableIn(input.accounts),
        SettlementIn(input.period, input.accounts);
    MeasureOfJournals(input.invoices, i, m, w);
    MeasureOfJournals(input.payables, p, m, u);
    MeasureOfJournals(input.settlements, d, m, v);
    MeasureOfThree(Collect(input.invoices, i).value, Collect(input.payables, p).value,
        Collect(input.settlements, d).value, m);
  }

  /** Every line a batch posts. */
  function Posted(input: BatchInput): seq<Line>
    requires JournalsOf(input).Ok?
  {
    Flatten(Map(JournalsOf(input).value, LinesOf))
  }

  lemma MeasureOfThree(xs: seq<Journal>, ys: seq<Journal>, zs: seq<Journal>, m: Line -> int)
    ensures SumBy(Flatten(Map(xs + ys + zs, LinesOf)), m)
      == SumBy(Flatten(Map(xs, LinesOf)), m) + SumBy(Flatten(Map(ys, LinesOf)), m) + SumBy(Flatten(Map(zs, LinesOf)), m)
  {
    FlattenConcat(xs + ys, zs);
    FlattenConcat(xs, ys);
    SumConcat(Flatten(Map(xs + ys, LinesOf)), Flatten(Map(zs, LinesOf)), m);
    SumConcat(Flatten(Map(xs, LinesOf)), Flatten(Map(ys, LinesOf)), m);
  }

  /** The close pack of an accepted batch balances; its output VAT is the invoices' VAT less the credit notes', and its
      residue is the sum of what the settlements booked. */
  lemma {:induction false} ClosePackReadsBack(input: BatchInput)
    requires BuildBatch(input).Ok?
    ensures var pack := BuildClosePack(BuildBatch(input).value);
      && pack.balanced
      && pack.outputVat == SumBy(input.invoices, OutputVatOf)
      && pack.residue == SumBy(input.settlements, Settlements.ResidueFils)
  {
    forall i | i in input.invoices && InvoiceJournal(i, input.period, input.accounts).Ok?
      ensures Signed(InvoiceJournal(i, input.period, input.accounts).value.lines, OutputVat) == OutputVatOf(i)
      ensures Signed(InvoiceJournal(i, input.period, input.accounts).value.lines, SettlementResidue) == 0
    {
      InvoiceSigned(i, input.period, input.accounts);
    }
    forall p | p in input.payables && PayableJournal(p, input.accounts).Ok?
      ensures Signed(PayableJournal(p, input.accounts).value.lines, OutputVat) == 0
      ensures Signed(PayableJournal(p, input.accounts).value.lines, SettlementResidue) == 0
    {
      PayableSigned(p, input.accounts);
    }
    forall d | d in input.settlements && SettlementJournal(d, input.period, input.accounts).Ok?
      ensures Signed(SettlementJournal(d, input.period, input.accounts).value.lines, OutputVat) == 0
      ensures Signed(SettlementJournal(d, input.period, input.accounts).value.lines, SettlementResidue)
        == Settlements.ResidueFils(d)
    {
      SettlementSigned(d, input.period, input.accounts);
    }
    var noVat := (d: Settlements.Decomposition) => 0;
    var noResidue := (i: InvoiceInput) => 0;
    var nothing := (p: PayableInput) => 0;
    MeasureOfBatch(input, SignedFor(OutputVat), OutputVatOf, nothing, noVat);
    MeasureOfBatch(input, SignedFor(SettlementResidue), noResidue, nothing, Settlements.ResidueFils);
    SumZero(input.settlements, noVat);
    SumZero(input.invoices, noResidue);
    SumZero(input.payables, nothing);
  }

  // ---------------------------------------------------------------- what a batch leaves on every account

  /** A document's sign: a credit note undoes what an invoice does. */
  function Sign(d: Invoicing.Document): int { if d.documentType.CreditNote? then -1 else 1 }

  function RevenueOn(accounts: AccountMap, a: string): Split -> int {
    (s: Split) => At(a, Lookup(accounts.revenue, s.feeClass), s.net)
  }

  /** The receivable at gross, against revenue at net and VAT. */
  function InvoiceEffect(accounts: AccountMap, a: string): InvoiceInput -> int {
    (i: InvoiceInput) => Sign(i.document) *
      (At(a, accounts.receivableControl, i.document.gross) - SumBy(i.splits, RevenueOn(accounts, a))
          - At(a, accounts.outputVat, i.document.vat))
  }

  /** The cost, against the scheme payable. */
  function PayableEffect(accounts: AccountMap, a: string): PayableInput -> int {
    (p: PayableInput) => At(a, Lookup(accounts.hubExpense, p.feeClass), p.amount)
        - At(a, accounts.schemePayable, p.amount)
  }

  /** The cash, whichever way it went, against both sides it settles and what is left over. */
  function SettlementEffect(accounts: AccountMap, a: string): Settlements.Decomposition -> int {
    (d: Settlements.Decomposition) =>
      At(a, accounts.cash, ToFils(d.received)) + At(a, accounts.schemePayable, ToFils(Settlements.PayableSum(d.lines)))
      - At(a, accounts.receivableControl, ToFils(Settlements.ReceivableSum(d.lines)))
          - At(a, accounts.settlementSuspense, Settlements.ResidueFils(d))
  }

  lemma {:induction false} RevenueBalance(d: Invoicing.Document, accounts: AccountMap, splits: seq<Split>, a: string)
    ensures Balance(Map(splits, RevenueLine(d, accounts)), a) == -(Sign(d) * SumBy(splits, RevenueOn(accounts, a)))
  {
    if splits != [] {
      var init, s := splits[..|splits| - 1], splits[|splits| - 1];
      RevenueBalance(d, accounts, init, a);
      assert splits == init + [s];
      MapSnoc(init, s, RevenueLine(d, accounts));
      SumSnoc(Map(init, RevenueLine(d, accounts)), RevenueLine(d, accounts)(s), OnAccount(a));
      OneMoreTerm(Sign(d), SumBy(init, RevenueOn(accounts, a)), RevenueOn(accounts, a)(s));
    }
  }

  lemma OneMoreTerm(sign: int, x: int, y: int)
    ensures -(sign * (x + y)) == -(sign * x) - sign * y
  {
  }

  lemma InvoiceBalance(i: InvoiceInput, period: string, accounts: AccountMap, a: string)
    requires InvoiceJournal(i, period, accounts).Ok?
    ensures Balance(InvoiceJournal(i, period, accounts).value.lines, a) == InvoiceEffect(accounts, a)(i)
  {
    var d, revenue := i.document, Map(i.splits, RevenueLine(i.document, accounts));
    AssembledBalance(InvoiceLines(i, accounts), a);
    SumOfThreeParts(ReceivableLine(d, accounts), revenue, VatLine(d, accounts), OnAccount(a));
    RevenueBalance(d, accounts, i.splits, a);
  }

  lemma PayableBalance(p: PayableInput, accounts: AccountMap, a: string)
    requires PayableJournal(p, accounts).Ok?
    ensures Balance(PayableJournal(p, accounts).value.lines, a) == PayableEffect(accounts, a)(p)
  {
    var lines := PayableLines(p, accounts);
    AssembledBalance(lines, a);
    SumOfTwo(lines[0], lines[1], OnAccount(a));
  }

  lemma SettlementLinesLeave(lines: seq<Line>, a: string)
    requires |lines| == 4
    ensures Balance(lines, a) == OnAccount(a)(lines[0]) + OnAccount(a)(lines[1]) + OnAccount(a)(lines[2])
      + OnAccount(a)(lines[3])
  {
    SumOfFour(lines[0], lines[1], lines[2], lines[3], OnAccount(a));
    assert lines == [lines[0], lines[1], lines[2], lines[3]];
  }

  lemma SignedByItself(account: string, x: int, up: Side, down: Side, feeClass: FeeClass, refs: seq<string>, a: string)
    requires up != down
    ensures OnAccount(a)(Line(account, if x >= 0 then up else down, Abs(x), feeClass, refs))
      == At(a, account, if up.Debit? then x else -x)
  {
  }

  lemma SettlementBalance(d: Settlements.Decomposition, period: string, accounts: AccountMap, a: string)
    requires SettlementJournal(d, period, accounts).Ok?
    ensures Balance(SettlementJournal(d, period, accounts).value.lines, a) == SettlementEffect(accounts, a)(d)
  {
    var lines := SettlementLines(d, accounts);
    AssembledBalance(lines, a);
    SettlementLinesLeave(lines, a);
    SignedByItself(accounts.cash, ToFils(d.received), Debit, Credit, lines[0].feeClass, lines[0].sourceRefs, a);
    SignedByItself(accounts.settlementSuspense, Settlements.ResidueFils(d), Credit, Debit, lines[3].feeClass,
        lines[3].sourceRefs, a);
  }

  /** Whatever the account map, a batch leaves on each account exactly what its documents, payables and settlements
      account for, roles that share an account adding up. */
  lemma {:induction false} BatchIsExplained(input: BatchInput, a: string)
    requires JournalsOf(input).Ok?
    ensures Balance(Posted(input), a) == SumBy(input.invoices, InvoiceEffect(input.accounts, a))
      + SumBy(input.payables, PayableEffect(input.accounts, a))
          + SumBy(input.settlements, SettlementEffect(input.accounts, a))
  {
    var accounts := input.accounts;
    forall i | i in input.invoices && InvoiceJournal(i, input.period, accounts).Ok?
      ensures SumBy(InvoiceJournal(i, input.period, accounts).value.lines, OnAccount(a))
        == InvoiceEffect(accounts, a)(i)
    {
      InvoiceBalance(i, input.period, accounts, a);
    }
    forall p | p in input.payables && PayableJournal(p, accounts).Ok?
      ensures SumBy(PayableJournal(p, accounts).value.lines, OnAccount(a)) == PayableEffect(accounts, a)(p)
    {
      PayableBalance(p, accounts, a);
    }
    forall d | d in input.settlements && SettlementJournal(d, input.period, accounts).Ok?
      ensures SumBy(SettlementJournal(d, input.period, accounts).value.lines, OnAccount(a))
        == SettlementEffect(accounts, a)(d)
    {
      SettlementBalance(d, input.period, accounts, a);
    }
    MeasureOfBatch(input, OnAccount(a), InvoiceEffect(accounts, a), PayableEffect(accounts, a),
        SettlementEffect(accounts, a));
  }

  /** What an invoice adds to what is owed to the institution, a credit note taking it back. */
  function OwedOn(i: InvoiceInput): int { Sign(i.document) * i.document.gross }

  function Collected(d: Settlements.Decomposition): int { -ToFils(Settlements.ReceivableSum(d.lines)) }

  /** When the receivable account plays no other part, it holds the invoices at gross less the credit notes and less
      what the settlements collected. */
  lemma ReceivableIsWhatIsOwed(input: BatchInput)
    requires JournalsOf(input).Ok?
    requires var r, m := input.accounts.receivableControl, input.accounts;
      && r !in {m.schemePayable, m.cash, m.outputVat, m.settlementSuspense}
      && (forall feeClass :: feeClass in m.revenue ==> m.revenue[feeClass] != r)
      && (forall feeClass :: feeClass in m.hubExpense ==> m.hubExpense[feeClass] != r) && r != ""
    ensures Balance(Posted(input), input.accounts.receivableControl) == SumBy(input.invoices, OwedOn)
      + SumBy(input.settlements, Collected)
  {
    var m, r := input.accounts, input.accounts.receivableControl;
    BatchIsExplained(input, r);
    forall i | i in input.invoices ensures InvoiceEffect(m, r)(i) == OwedOn(i) {
      SumZero(i.splits, RevenueOn(m, r));
    }
    SumCongruence(input.invoices, InvoiceEffect(m, r), OwedOn);
    SumZero(input.payables, PayableEffect(m, r));
    SumCongruence(input.settlements, SettlementEffect(m, r), Collected);
  }
}
