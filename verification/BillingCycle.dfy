/** One period's billing from invoicing to the ledger: when the documents of one run can be booked in one batch. */
module BillingCycle {
  import opened Collections
  import opened Journals
  import opened Accounting
  import opened AccountingTheorems
  import Invoicing

  function PostedAs(d: Invoicing.Document): InvoiceInput {
    InvoiceInput(d, Map(d.lines, SplitOf))
  }

  function DocumentsOf(request: Invoicing.Request): seq<Invoicing.Document> {
    Invoicing.IssuedFor(request).documents
  }

  function CycleBatch(request: Invoicing.Request, accounts: AccountMap): BatchInput {
    BatchInput(request.period, accounts, Map(DocumentsOf(request), PostedAs), [], [])
  }

  /** Domestic with no line above ten fils, so that no line carries VAT, or an export for nothing. */
  predicate TooSmall(d: Invoicing.Document) {
    forall l :: l in d.lines ==> l.gross <= if d.category.S? then 10 else 0
  }

  lemma MadeIsBooked(documentType: Invoicing.DocumentType, period: string, buyer: Invoicing.Buyer,
                     lines: seq<Invoicing.DocumentLine>, suffix: string, accounts: AccountMap)
    requires forall l :: l in lines ==> l.gross >= 0
    requires HaveAccounts(accounts, PostedAs(Invoicing.MakeDocument(documentType, period, buyer, lines, suffix)).splits)
    ensures var d := Invoicing.MakeDocument(documentType, period, buyer, lines, suffix);
      InvoiceJournal(PostedAs(d), period, accounts).Err? <==> TooSmall(d)
  {
    var d := Invoicing.MakeDocument(documentType, period, buyer, lines, suffix);
    var taxed := Invoicing.Taxed(Invoicing.CategoryOf(buyer));
    MadeDocumentRefusedExactly(documentType, period, buyer, lines, suffix, accounts);
    assert d.lines == Map(lines, taxed) && forall l: Invoicing.DocumentLine :: taxed(l).gross == l.gross;
    if TooSmall(d) {
      forall l | l in lines ensures l.gross <= if d.category.S? then 10 else 0 {
        MapIn(lines, l, taxed);
      }
    }
  }

  function InvoiceTo(request: Invoicing.Request, id: string): Invoicing.Document {
    Invoicing.InvoiceFor(request.period, Invoicing.DiffIndex(request.diff), Invoicing.BuyerIndex(request.buyers),
        Invoicing.Kept(request))(id)
  }

  function CreditNoteOf(request: Invoicing.Request, c: Invoicing.Credit): Invoicing.Document {
    Invoicing.CreditNoteFor(request.period, Invoicing.BuyerIndex(request.buyers))(c)
  }

  predicate BookedUnlessTooSmall(request: Invoicing.Request, accounts: AccountMap, d: Invoicing.Document) {
    InvoiceJournal(PostedAs(d), request.period, accounts).Err? <==> TooSmall(d)
  }

  lemma InvoiceIsBooked(request: Invoicing.Request, accounts: AccountMap, id: string)
    requires Invoicing.Refusal(request).None? && HaveAccounts(accounts, PostedAs(InvoiceTo(request, id)).splits)
    ensures BookedUnlessTooSmall(request, accounts, InvoiceTo(request, id))
  {
    var lines := Map(Members(Invoicing.Kept(request), Invoicing.TppOf, id),
        Invoicing.DocumentLineOf(Invoicing.DiffIndex(request.diff)));
    InvoicedLinesAreUnsigned(request, id);
    MadeIsBooked(Invoicing.Invoice, request.period, Invoicing.BuyerFor(Invoicing.BuyerIndex(request.buyers), id), lines,
        "", accounts);
  }

  lemma CreditIsBooked(request: Invoicing.Request, accounts: AccountMap, c: Invoicing.Credit)
    requires Invoicing.Refusal(request).None? && c in request.credits
    requires HaveAccounts(accounts, PostedAs(CreditNoteOf(request, c)).splits)
    ensures BookedUnlessTooSmall(request, accounts, CreditNoteOf(request, c))
  {
    CreditsAreUnsigned(request, c);
    MadeIsBooked(Invoicing.CreditNote, request.period,
        Invoicing.BuyerFor(Invoicing.BuyerIndex(request.buyers), c.buyerId),
                 [Invoicing.CreditLine(c)], "-" + Invoicing.Slug(c.precedingInvoice), accounts);
  }

  /** Whom the run invoices. */
  function Billed(request: Invoicing.Request): seq<string> {
    Keys(Invoicing.Kept(request), Invoicing.TppOf)
  }

  function NotesOf(request: Invoicing.Request): seq<Invoicing.Document> {
    Map(request.credits, Invoicing.CreditNoteFor(request.period, Invoicing.BuyerIndex(request.buyers)))
  }

  /** Every document of the run is an invoice to one counterparty or a credit note. */
  lemma InvoicesThenNotes(request: Invoicing.Request)
    ensures DocumentsOf(request) == Invoicing.Invoices(request) + NotesOf(request)
    ensures |Invoicing.Invoices(request)| == |Billed(request)|
    ensures forall i :: 0 <= i < |Billed(request)| ==>
      Invoicing.Invoices(request)[i] == InvoiceTo(request, Billed(request)[i])
    ensures forall i :: 0 <= i < |request.credits| ==> NotesOf(request)[i] == CreditNoteOf(request, request.credits[i])
  {
  }

  predicate HaveAllAccounts(ds: seq<Invoicing.Document>, accounts: AccountMap) {
    forall d :: d in ds ==> HaveAccounts(accounts, PostedAs(d).splits)
  }

  predicate AllBooked(request: Invoicing.Request, accounts: AccountMap, ds: seq<Invoicing.Document>) {
    forall i :: 0 <= i < |ds| ==> BookedUnlessTooSmall(request, accounts, ds[i])
  }

  lemma InvoicesAreBooked(request: Invoicing.Request, accounts: AccountMap, invoices: seq<Invoicing.Document>)
    requires Invoicing.Refusal(request).None? && invoices == Invoicing.Invoices(request)
      && HaveAllAccounts(invoices, accounts)
    ensures AllBooked(request, accounts, invoices)
  {
    InvoicesThenNotes(request);
    forall i | 0 <= i < |invoices| ensures BookedUnlessTooSmall(request, accounts, invoices[i]) {
      assert invoices[i] in invoices;
      InvoiceIsBooked(request, accounts, Billed(request)[i]);
    }
  }

  lemma NotesAreBooked(request: Invoicing.Request, accounts: AccountMap, notes: seq<Invoicing.Document>)
    requires Invoicing.Refusal(request).None? && notes == NotesOf(request) && HaveAllAccounts(notes, accounts)
    ensures AllBooked(request, accounts, notes)
  {
    InvoicesThenNotes(request);
    forall i | 0 <= i < |notes| ensures BookedUnlessTooSmall(request, accounts, notes[i]) {
      assert notes[i] in notes;
      CreditIsBooked(request, accounts, request.credits[i]);
    }
  }

  lemma DocumentsAreBooked(request: Invoicing.Request, accounts: AccountMap)
    requires Invoicing.Refusal(request).None? && HaveAllAccounts(DocumentsOf(request), accounts)
    ensures AllBooked(request, accounts, DocumentsOf(request))
  {
    var invoices, notes := Invoicing.Invoices(request), NotesOf(request);
    InvoicesThenNotes(request);
    assert forall d :: d in invoices + notes <==> d in invoices || d in notes;
    InvoicesAreBooked(request, accounts, invoices);
    NotesAreBooked(request, accounts, notes);
  }

  lemma InvoicedLinesAreUnsigned(request: Invoicing.Request, id: string)
    requires Invoicing.Refusal(request).None?
    ensures var diff := Invoicing.DiffIndex(request.diff);
      forall l :: l in Map(Members(Invoicing.Kept(request), Invoicing.TppOf, id), Invoicing.DocumentLineOf(diff))
          ==> l.gross >= 0
  {
    var diff, kept := Invoicing.DiffIndex(request.diff), Invoicing.Kept(request);
    var mine := Members(kept, Invoicing.TppOf, id);
    FirstOfNone(request.expected, Invoicing.LineCheck(diff, Invoicing.BuyerIndex(request.buyers)));
    forall i | 0 <= i < |mine| ensures Invoicing.DocumentLineOf(diff)(mine[i]).gross >= 0 {
      assert mine[i] in mine;
      MembersExact(kept, Invoicing.TppOf, id, mine[i]);
      KeepExact(request.expected, Invoicing.InvoicedIn(diff));
      assert Invoicing.LineCheck(diff, Invoicing.BuyerIndex(request.buyers))(mine[i]).None?;
    }
  }

  lemma CreditsAreUnsigned(request: Invoicing.Request, c: Invoicing.Credit)
    requires Invoicing.Refusal(request).None? && c in request.credits
    ensures Invoicing.CreditLine(c).gross >= 0
  {
    FirstOfNone(request.credits, Invoicing.CreditCheck(Invoicing.BuyerIndex(request.buyers)));
    assert Invoicing.CreditCheck(Invoicing.BuyerIndex(request.buyers))(c).None?;
  }

  // ---------------------------------------------------------------- which documents collide

  function JournalKey(d: Invoicing.Document): (string, string) {
    (if d.documentType.CreditNote? then "pint_ae_credit_note" else "pint_ae_invoice", d.documentId)
  }

  /** A credit note is named after its buyer and the invoice it credits, whatever it credits it for. */
  function CreditId(c: Invoicing.Credit): string {
    Invoicing.Slug(c.buyerId) + ("-" + Invoicing.Slug(c.precedingInvoice))
  }

  lemma {:induction false} BuyersHaveTheirIds(buyers: seq<Invoicing.Buyer>, id: string)
    ensures Invoicing.BuyerFor(Invoicing.BuyerIndex(buyers), id).id == id
  {
    if buyers != [] {
      BuyersHaveTheirIds(buyers[..|buyers| - 1], id);
    }
  }

  lemma SamePrefix(prefix: string, x: string, y: string)
    ensures prefix + x == prefix + y <==> x == y
  {
    assert (prefix + x)[|prefix|..] == x && (prefix + y)[|prefix|..] == y;
  }

  lemma JournalTypesDiffer()
    ensures "pint_ae_credit_note" != "pint_ae_invoice"
  {
    assert |"pint_ae_credit_note"| != |"pint_ae_invoice"|;
  }

  lemma InvoiceKey(request: Invoicing.Request, id: string)
    ensures JournalKey(InvoiceTo(request, id)) == ("pint_ae_invoice",
      "INV-" + request.period + "-" + Invoicing.Slug(id))
  {
    BuyersHaveTheirIds(request.buyers, id);
    var name := "INV-" + request.period + "-" + Invoicing.Slug(id);
    assert name + "" == name && InvoiceTo(request, id).documentId == name + "";
  }

  lemma CreditNoteKey(request: Invoicing.Request, c: Invoicing.Credit)
    ensures JournalKey(CreditNoteOf(request, c)) == ("pint_ae_credit_note", "CRN-" + request.period + "-" + CreditId(c))
  {
    BuyersHaveTheirIds(request.buyers, c.buyerId);
    Associates("CRN-" + request.period + "-", Invoicing.Slug(c.buyerId), "-" + Invoicing.Slug(c.precedingInvoice));
  }

  lemma Associates(x: string, y: string, z: string)
    ensures x + y + z == x + (y + z)
  {
  }

  lemma KeysOfTwoTypes(
    a: seq<(string, string)>, b: seq<(string, string)>, xs: seq<string>, ys: seq<string>, p: string, q: string)
    requires |a| == |xs| && |b| == |ys|
    requires forall i :: 0 <= i < |a| ==> a[i] == ("pint_ae_invoice", p + xs[i])
    requires forall i :: 0 <= i < |b| ==> b[i] == ("pint_ae_credit_note", q + ys[i])
    ensures NoDuplicates(a + b) <==> NoDuplicates(xs) && NoDuplicates(ys)
  {
    JournalTypesDiffer();
    forall i, j | 0 <= i < j < |a| ensures a[i] == a[j] <==> xs[i] == xs[j] { SamePrefix(p, xs[i], xs[j]); }
    forall i, j | 0 <= i < j < |b| ensures b[i] == b[j] <==> ys[i] == ys[j] { SamePrefix(q, ys[i], ys[j]); }
    DistinctConcat(a, b);
  }

  lemma InvoiceKeys(request: Invoicing.Request, invoices: seq<Invoicing.Document>)
    requires invoices == Invoicing.Invoices(request)
    ensures |invoices| == |Billed(request)|
    ensures forall i :: 0 <= i < |invoices| ==>
      JournalKey(invoices[i]) == ("pint_ae_invoice", "INV-" + request.period + "-" + Invoicing.Slug(Billed(request)[i]))
  {
    InvoicesThenNotes(request);
    forall i | 0 <= i < |invoices|
      ensures JournalKey(invoices[i]) == ("pint_ae_invoice",
        "INV-" + request.period + "-" + Invoicing.Slug(Billed(request)[i]))
    {
      InvoiceKey(request, Billed(request)[i]);
    }
  }

  lemma NoteKeys(request: Invoicing.Request, notes: seq<Invoicing.Document>)
    requires notes == NotesOf(request)
    ensures forall i :: 0 <= i < |notes| ==>
      JournalKey(notes[i]) == ("pint_ae_credit_note", "CRN-" + request.period + "-" + CreditId(request.credits[i]))
  {
    InvoicesThenNotes(request);
    forall i | 0 <= i < |notes|
      ensures JournalKey(notes[i]) == ("pint_ae_credit_note",
        "CRN-" + request.period + "-" + CreditId(request.credits[i]))
    {
      CreditNoteKey(request, request.credits[i]);
    }
  }

  /** No two counterparties invoiced, and no two credits of a buyer against an invoice, share what their ids keep. */
  ghost predicate NamesDiffer(request: Invoicing.Request) {
    NoDuplicates(Map(Billed(request), Invoicing.Slug)) && NoDuplicates(Map(request.credits, CreditId))
  }

  lemma DocumentsCollideExactly(request: Invoicing.Request)
    ensures NoDuplicates(Map(DocumentsOf(request), JournalKey)) <==> NamesDiffer(request)
  {
    var invoices, notes := Invoicing.Invoices(request), NotesOf(request);
    InvoiceKeys(request, invoices);
    NoteKeys(request, notes);
    assert DocumentsOf(request) == invoices + notes;
    MapConcat(invoices, notes, JournalKey);
    KeysOfTwoTypes(Map(invoices, JournalKey), Map(notes, JournalKey), Map(Billed(request), Invoicing.Slug),
                   Map(request.credits, CreditId), "INV-" + request.period + "-", "CRN-" + request.period + "-");
  }

  function KeyOfInput(i: InvoiceInput): (string, string) { JournalKey(i.document) }

  lemma InputsAreBooked(request: Invoicing.Request, accounts: AccountMap)
    requires Invoicing.Refusal(request).None? && HaveAllAccounts(DocumentsOf(request), accounts)
    ensures var inputs := Map(DocumentsOf(request), PostedAs);
      (forall x :: x in inputs ==> InvoiceIn(request.period, accounts)(x).Ok?)
          <==> forall d :: d in DocumentsOf(request) ==> !TooSmall(d)
  {
    var ds, inputs, f := DocumentsOf(request), Map(DocumentsOf(request), PostedAs), InvoiceIn(request.period, accounts);
    DocumentsAreBooked(request, accounts);
    forall i | 0 <= i < |ds| ensures inputs[i] in inputs && ds[i] in ds && (f(inputs[i]).Err? <==> TooSmall(ds[i])) {
      assert BookedUnlessTooSmall(request, accounts, ds[i]);
    }
  }

  lemma JournalsOfCycle(request: Invoicing.Request, accounts: AccountMap)
    requires Invoicing.Refusal(request).None? && HaveAllAccounts(DocumentsOf(request), accounts)
    ensures JournalsOf(CycleBatch(request, accounts)).Ok? <==> forall d :: d in DocumentsOf(request) ==> !TooSmall(d)
    ensures JournalsOf(CycleBatch(request, accounts)).Ok? ==>
      Map(JournalsOf(CycleBatch(request, accounts)).value, SourceKey) == Map(DocumentsOf(request), JournalKey)
  {
    var inputs, f := Map(DocumentsOf(request), PostedAs), InvoiceIn(request.period, accounts);
    InputsAreBooked(request, accounts);
    CollectExactly(inputs, f);
    if Collect(inputs, f).Ok? {
      forall x | x in inputs && f(x).Ok? ensures SourceKey(f(x).value) == KeyOfInput(x) {
        BookedUnderItsKey(x, request.period, accounts);
      }
      CollectKeys(inputs, f, SourceKey, KeyOfInput);
      assert Map(inputs, KeyOfInput) == Map(DocumentsOf(request), JournalKey);
      assert Collect(inputs, f).value + [] + [] == Collect(inputs, f).value;
    }
  }

  lemma BookedUnderItsKey(i: InvoiceInput, period: string, accounts: AccountMap)
    requires InvoiceJournal(i, period, accounts).Ok?
    ensures SourceKey(InvoiceJournal(i, period, accounts).value) == KeyOfInput(i)
  {
  }

  /** With the accounts in order, the documents of one invoicing run are refused as a batch exactly when one of them is
      too small to be booked, two counterparties have ids that differ only in what document ids drop, or two credits go
      to one buyer against one invoice, whatever they credit it for. */
  lemma CycleRefusedExactly(request: Invoicing.Request, accounts: AccountMap)
    requires Invoicing.Refusal(request).None? && HaveAllAccounts(DocumentsOf(request), accounts)
    requires accounts.approved && !Blank(accounts.profileRef) && Named(accounts.profileRef) && Configured(accounts)
    ensures BuildBatch(CycleBatch(request, accounts)).Err? <==>
      (exists d :: d in DocumentsOf(request) && TooSmall(d)) || !NamesDiffer(request)
  {
    JournalsOfCycle(request, accounts);
    if JournalsOf(CycleBatch(request, accounts)).Ok? {
      BatchRefusedExactly(CycleBatch(request, accounts));
      DocumentsCollideExactly(request);
    }
  }

  /** Two credits of a buyer against one invoice: the documents are made, and the whole batch is refused. */
  lemma TwoCreditsRefuseTheBatch(request: Invoicing.Request, accounts: AccountMap, i: nat, j: nat)
    requires Invoicing.Refusal(request).None? && HaveAllAccounts(DocumentsOf(request), accounts)
    requires accounts.approved && !Blank(accounts.profileRef) && Named(accounts.profileRef) && Configured(accounts)
    requires i < j < |request.credits| && request.credits[i].buyerId == request.credits[j].buyerId
    requires request.credits[i].precedingInvoice == request.credits[j].precedingInvoice
    ensures BuildBatch(CycleBatch(request, accounts)).Err?
  {
    CycleRefusedExactly(request, accounts);
    assert Map(request.credits, CreditId)[i] == Map(request.credits, CreditId)[j];
  }
}
