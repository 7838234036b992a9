/** What every document of an invoicing run says, told by the request: its buyer's country, the expected lines and the
    disputes about them, and the credits. */
module IssuedDocuments {
  import opened Collections
  import opened Money
  import opened Invoicing

  // ---------------------------------------------------------------- VAT by the buyer's country

  predicate DomesticLine(l: DocumentLine) {
    l.net + l.vat == l.gross && 2 * Abs(105 * l.vat - 5 * l.gross) <= 105
  }

  predicate ExportLine(l: DocumentLine) {
    l.net == l.gross && l.vat == 0
  }

  /** Buyers in the Emirates are charged 5/105 of each line's gross, to the nearest fil, and everybody else nothing. */
  predicate TaxedFor(country: string, d: Document) {
    if country == "AE" then d.category == S && forall l :: l in d.lines ==> DomesticLine(l)
    else d.category == Z && forall l :: l in d.lines ==> ExportLine(l)
  }

  /** The totals are those of the lines. */
  ghost predicate AddsUp(d: Document) {
    && d.gross == SumBy(d.lines, (l: DocumentLine) => l.gross)
    && d.net == SumBy(d.lines, (l: DocumentLine) => l.net)
    && d.vat == SumBy(d.lines, (l: DocumentLine) => l.vat)
  }

  lemma TaxedLine(category: Category, l: DocumentLine)
    ensures if category.Z? then ExportLine(Taxed(category)(l)) else DomesticLine(Taxed(category)(l))
  {
    RoundingError(l.gross * 5, 105);
  }

  lemma MadeIsTaxed(documentType: DocumentType, period: string, buyer: Buyer, lines: seq<DocumentLine>, suffix: string)
    ensures var d := MakeDocument(documentType, period, buyer, lines, suffix);
      TaxedFor(buyer.country, d) && AddsUp(d) && d.documentType == documentType && d.period == period
      && d.buyerId == buyer.id
  {
    var d := MakeDocument(documentType, period, buyer, lines, suffix);
    forall l | l in d.lines ensures if d.category.Z? then ExportLine(l) else DomesticLine(l) {
      var i :| 0 <= i < |lines| && d.lines[i] == l;
      TaxedLine(d.category, lines[i]);
    }
    SumCongruence(d.lines, GrossOf, (l: DocumentLine) => l.gross);
    SumCongruence(d.lines, NetOf, (l: DocumentLine) => l.net);
    SumCongruence(d.lines, VatOf, (l: DocumentLine) => l.vat);
  }

  // ---------------------------------------------------------------- indexes

  ghost predicate DistinctBuyers(buyers: seq<Buyer>) {
    forall i, j :: 0 <= i < j < |buyers| ==> buyers[i].id != buyers[j].id
  }

  lemma {:induction false} IndexedExactly(buyers: seq<Buyer>, id: string)
    ensures id in BuyerIndex(buyers) <==> exists b :: b in buyers && b.id == id
  {
    if buyers != [] {
      var init, last := buyers[..|buyers| - 1], buyers[|buyers| - 1];
      assert buyers == init + [last];
      IndexedExactly(init, id);
    }
  }

  lemma LastRepeats(buyers: seq<Buyer>)
    requires buyers != []
    ensures var init, last := buyers[..|buyers| - 1], buyers[|buyers| - 1];
      DistinctBuyers(buyers) <==> DistinctBuyers(init) && last.id !in BuyerIndex(init)
  {
    var init, last := buyers[..|buyers| - 1], buyers[|buyers| - 1];
    IndexedExactly(init, last.id);
    if last.id in BuyerIndex(init) {
      var b :| b in init && b.id == last.id;
      var i :| 0 <= i < |init| && init[i] == b;
      assert buyers[i].id == buyers[|init|].id;
    } else {
      forall i | 0 <= i < |init| ensures buyers[i].id != last.id {
        assert init[i] in init;
      }
    }
  }

  lemma {:induction false} AllIndexedExactly(buyers: seq<Buyer>)
    ensures |BuyerIndex(buyers)| <= |buyers|
    ensures |BuyerIndex(buyers)| == |buyers| <==> DistinctBuyers(buyers)
  {
    if buyers != [] {
      var init, last := buyers[..|buyers| - 1], buyers[|buyers| - 1];
      AllIndexedExactly(init);
      LastRepeats(buyers);
      if last.id in BuyerIndex(init) {
        assert BuyerIndex(buyers).Keys == BuyerIndex(init).Keys;
      } else {
        assert BuyerIndex(buyers).Keys == BuyerIndex(init).Keys + {last.id};
      }
    }
  }

  lemma {:induction false} IndexedAsThemselves(buyers: seq<Buyer>, b: Buyer)
    requires DistinctBuyers(buyers) && b in buyers
    ensures b.id in BuyerIndex(buyers) && BuyerIndex(buyers)[b.id] == b
  {
    var init, last := buyers[..|buyers| - 1], buyers[|buyers| - 1];
    assert buyers == init + [last];
    if b in init {
      LastRepeats(buyers);
      IndexedExactly(init, b.id);
      IndexedAsThemselves(init, b);
    }
  }

  /** What the comparison last said about a line. */
  function Dispute(diff: seq<DiffLine>, lineRef: string): Option<DiffLine> {
    if diff == [] then None
    else if diff[|diff| - 1].lineRef == lineRef then Some(diff[|diff| - 1])
    else Dispute(diff[..|diff| - 1], lineRef)
  }

  lemma {:induction false} DisputesAreIndexed(diff: seq<DiffLine>, lineRef: string)
    ensures lineRef in DiffIndex(diff) <==> Dispute(diff, lineRef).Some?
    ensures lineRef in DiffIndex(diff) ==> Dispute(diff, lineRef) == Some(DiffIndex(diff)[lineRef])
  {
    if diff != [] {
      DisputesAreIndexed(diff[..|diff| - 1], lineRef);
    }
  }

  /** What is in dispute about a line: a material variance of either sign, but no more than the line is for. */
  function Disputed(diff: seq<DiffLine>, l: ExpectedLine): int {
    match Dispute(diff, l.lineRef)
    case None => 0
    case Some(d) => if !d.material then 0 else if Abs(d.variance) < l.amount then Abs(d.variance) else l.amount
  }

  lemma HeldIsDisputed(diff: seq<DiffLine>, l: ExpectedLine)
    ensures Hold(DiffIndex(diff), l) == Disputed(diff, l)
  {
    DisputesAreIndexed(diff, l.lineRef);
  }

  // ---------------------------------------------------------------- refusal

  ghost predicate HasBuyer(request: Request, id: string) {
    exists b :: b in request.buyers && b.id == id
  }

  /** Nothing is left to bill, or something is and there is somebody to bill it to. */
  ghost predicate CanBeBilled(request: Request, l: ExpectedLine) {
    var billable := l.amount - Disputed(request.diff, l);
    billable == 0 || (billable > 0 && HasBuyer(request, l.tppId))
  }

  ghost predicate CanBeCredited(request: Request, c: Credit) {
    c.amount > 0 && !Blank(c.reason) && !Blank(c.precedingInvoice) && HasBuyer(request, c.buyerId)
  }

  /** A request is met exactly when its buyers are distinct, every line can be billed and every credit credited. */
  lemma {:induction false} RequestRefusedExactly(request: Request)
    ensures Refusal(request).None? <==>
      && DistinctBuyers(request.buyers)
      && (forall l :: l in request.expected ==> CanBeBilled(request, l))
      && (forall c :: c in request.credits ==> CanBeCredited(request, c))
  {
    var diff, buyers := DiffIndex(request.diff), BuyerIndex(request.buyers);
    AllIndexedExactly(request.buyers);
    FirstOfNone(request.expected, LineCheck(diff, buyers));
    FirstOfNone(request.credits, CreditCheck(buyers));
    forall l | l in request.expected ensures LineCheck(diff, buyers)(l).None? <==> CanBeBilled(request, l) {
      LineIsBillableExactly(request, l);
    }
    forall c | c in request.credits ensures CreditCheck(buyers)(c).None? <==> CanBeCredited(request, c) {
      CreditIsSoundExactly(request, c);
    }
  }

  lemma LineIsBillableExactly(request: Request, l: ExpectedLine)
    ensures LineError(DiffIndex(request.diff), BuyerIndex(request.buyers), l).None? <==> CanBeBilled(request, l)
  {
    HeldIsDisputed(request.diff, l);
    IndexedExactly(request.buyers, l.tppId);
  }

  lemma CreditIsSoundExactly(request: Request, c: Credit)
    ensures CreditError(BuyerIndex(request.buyers), c).None? <==> CanBeCredited(request, c)
  {
    IndexedExactly(request.buyers, c.buyerId);
  }

  ghost predicate FirstUnbillable(request: Request, i: nat, e: Error) {
    && i < |request.expected| && !CanBeBilled(request, request.expected[i])
    && (forall j :: 0 <= j < i ==> CanBeBilled(request, request.expected[j]))
    && e == (if HasBuyer(request, request.expected[i].tppId) then NegativeAmount
             else MissingBuyer(request.expected[i].tppId))
  }

  ghost predicate FirstUncreditable(request: Request, i: nat, e: Error) {
    && i < |request.credits| && !CanBeCredited(request, request.credits[i])
    && (forall j :: 0 <= j < i ==> CanBeCredited(request, request.credits[j]))
    && var c := request.credits[i];
       e == (if c.amount <= 0 then CreditNotPositive
             else if Blank(c.reason) || Blank(c.precedingInvoice) then NoReason
             else MissingBuyer(c.buyerId))
  }

  lemma LineRefusal(request: Request)
    requires FirstOf(request.expected, LineCheck(DiffIndex(request.diff), BuyerIndex(request.buyers))).Some?
    ensures exists i: nat :: FirstUnbillable(request, i,
      FirstOf(request.expected, LineCheck(DiffIndex(request.diff), BuyerIndex(request.buyers))).value)
  {
    var check := LineCheck(DiffIndex(request.diff), BuyerIndex(request.buyers));
    var i := FirstOfFails(request.expected, check);
    forall j | 0 <= j <= i ensures check(request.expected[j]).None? <==> CanBeBilled(request, request.expected[j]) {
      LineIsBillableExactly(request, request.expected[j]);
    }
    IndexedExactly(request.buyers, request.expected[i].tppId);
    assert FirstUnbillable(request, i, FirstOf(request.expected, check).value);
  }

  lemma CreditRefusal(request: Request)
    requires FirstOf(request.credits, CreditCheck(BuyerIndex(request.buyers))).Some?
    ensures exists i: nat :: FirstUncreditable(request, i,
      FirstOf(request.credits, CreditCheck(BuyerIndex(request.buyers))).value)
  {
    var check := CreditCheck(BuyerIndex(request.buyers));
    var i := FirstOfFails(request.credits, check);
    forall j | 0 <= j <= i ensures check(request.credits[j]).None? <==> CanBeCredited(request, request.credits[j]) {
      CreditIsSoundExactly(request, request.credits[j]);
    }
    assert FirstUncreditable(request, i, FirstOf(request.credits, check).value);
  }

  /** A refusal is for repeated buyers, or else names the first line that cannot be billed, or else the first credit
      that cannot be made, and why. */
  lemma {:induction false} RefusalNamesTheFirst(request: Request)
    requires Refusal(request).Some?
    ensures if !DistinctBuyers(request.buyers) then Refusal(request) == Some(RepeatedBuyer)
      else if exists l :: l in request.expected && !CanBeBilled(request, l)
      then exists i: nat :: FirstUnbillable(request, i, Refusal(request).value)
      else exists i: nat :: FirstUncreditable(request, i, Refusal(request).value)
  {
    var check := LineCheck(DiffIndex(request.diff), BuyerIndex(request.buyers));
    AllIndexedExactly(request.buyers);
    if DistinctBuyers(request.buyers) {
      FirstOfNone(request.expected, check);
      forall l | l in request.expected ensures check(l).None? <==> CanBeBilled(request, l) {
        LineIsBillableExactly(request, l);
      }
      if FirstOf(request.expected, check).Some? {
        LineRefusal(request);
      } else {
        CreditRefusal(request);
      }
    }
  }

  // ---------------------------------------------------------------- what is withheld

  /** Exactly the disputed part of every line is withheld, in order. */
  lemma {:induction false} WithheldIsWhatIsDisputed(diff: seq<DiffLine>, lines: seq<ExpectedLine>)
    ensures WithheldFor(DiffIndex(diff), lines)
      == Map(Keep(lines, (l: ExpectedLine) => Disputed(diff, l) > 0),
             (l: ExpectedLine) => Withheld(l.lineRef, l.tppId, Disputed(diff, l)))
  {
    var index, p := DiffIndex(diff), (l: ExpectedLine) => Disputed(diff, l) > 0;
    forall l | l in lines ensures HeldIn(index)(l) == p(l) {
      HeldIsDisputed(diff, l);
    }
    KeepCongruence(lines, HeldIn(index), p);
    KeepCongruence(lines, p, (l: ExpectedLine) => Disputed(diff, l) > 0);
    var kept := Keep(lines, p);
    forall i | 0 <= i < |kept|
      ensures WithheldOf(index)(kept[i]) == Withheld(kept[i].lineRef, kept[i].tppId, Disputed(diff, kept[i]))
    {
      HeldIsDisputed(diff, kept[i]);
    }
  }

  // ---------------------------------------------------------------- invoices

  /** What is left of a line once its dispute is withheld, if it is half a fil or more. */
  function BilledTo(request: Request, id: string): ExpectedLine -> bool {
    (l: ExpectedLine) => l.tppId == id && l.amount - Disputed(request.diff, l) >= 500
  }

  /** The invoice line bills the expected line, within half a fil of what is left of it. */
  predicate Bills(request: Request, e: ExpectedLine, l: DocumentLine) {
    && l.feeClass == e.feeClass && l.units == e.units && l.sourceRef == e.lineRef
    && Abs(1000 * l.gross - (e.amount - Disputed(request.diff, e))) <= 500
  }

  ghost predicate BillsAll(request: Request, es: seq<ExpectedLine>, ls: seq<DocumentLine>) {
    |ls| == |es| && forall k :: 0 <= k < |es| ==> Bills(request, es[k], ls[k])
  }

  lemma OwnLines(request: Request, id: string)
    requires forall l :: l in request.expected ==> CanBeBilled(request, l)
    ensures Members(Kept(request), TppOf, id) == Keep(request.expected, BilledTo(request, id))
  {
    var diff := DiffIndex(request.diff);
    var own := (l: ExpectedLine) => l.tppId == id;
    MembersAreKept(Kept(request), TppOf, id, own);
    forall l | l in request.expected ensures BilledTo(request, id)(l) == (InvoicedIn(diff)(l) && own(l)) {
      HeldIsDisputed(request.diff, l);
      assert CanBeBilled(request, l);
    }
    KeepTwice(request.expected, InvoicedIn(diff), own, BilledTo(request, id));
  }

  lemma LineBills(request: Request, category: Category, e: ExpectedLine)
    ensures Bills(request, e, Taxed(category)(DocumentLineOf(DiffIndex(request.diff))(e)))
  {
    HeldIsDisputed(request.diff, e);
    RoundingError(e.amount - Disputed(request.diff, e), MF_PER_FIL);
  }

  lemma InvoiceOf(request: Request, d: Document) returns (id: string)
    requires Refusal(request).None? && d in Invoices(request)
    ensures id in Keys(Kept(request), TppOf) && d.buyerId == id
    ensures d.documentType == Invoice && d.period == request.period
    ensures BillsAll(request, Keep(request.expected, BilledTo(request, id)), d.lines)
  {
    var i :| 0 <= i < |Invoices(request)| && Invoices(request)[i] == d;
    id := Keys(Kept(request), TppOf)[i];
    RequestRefusedExactly(request);
    InvoiceBillsItsBuyer(request, id);
  }

  /** Every invoice bills, in order, what is left of its buyer's own lines. */
  lemma EveryInvoiceBillsItsBuyer(request: Request, d: Document)
    requires Refusal(request).None? && d in Invoices(request)
    ensures d.documentType == Invoice && d.period == request.period
    ensures BillsAll(request, Keep(request.expected, BilledTo(request, d.buyerId)), d.lines)
  {
    var id := InvoiceOf(request, d);
  }

  function BuyerOf(d: Document): string { d.buyerId }

  /** Exactly the counterparties that anything is left to bill to have an invoice, one each. */
  lemma {:induction false} InvoicesAreForWhoIsBilled(request: Request, id: string)
    requires Refusal(request).None?
    ensures NoDuplicates(Map(Invoices(request), BuyerOf))
    ensures id in Map(Invoices(request), BuyerOf) <==> exists e :: e in request.expected && BilledTo(request, id)(e)
  {
    var ids := Keys(Kept(request), TppOf);
    RequestRefusedExactly(request);
    forall i | 0 <= i < |ids| ensures Invoices(request)[i].buyerId == ids[i] {
      IndexedUnderItsId(request.buyers, ids[i]);
    }
    assert Map(Invoices(request), BuyerOf) == ids;
    MembersEmpty(Kept(request), TppOf, id);
    OwnLines(request, id);
    KeepNothing(request.expected, BilledTo(request, id));
  }

  lemma InvoiceBillsItsBuyer(request: Request, id: string)
    requires forall l :: l in request.expected ==> CanBeBilled(request, l)
    ensures var d := InvoiceFor(request.period, DiffIndex(request.diff), BuyerIndex(request.buyers), Kept(request))(id);
      && d.buyerId == id && d.documentType == Invoice && d.period == request.period
      && BillsAll(request, Keep(request.expected, BilledTo(request, id)), d.lines)
  {
    var diff, buyers := DiffIndex(request.diff), BuyerIndex(request.buyers);
    var mine := Members(Kept(request), TppOf, id);
    OwnLines(request, id);
    var category := CategoryOf(BuyerFor(buyers, id));
    forall k | 0 <= k < |mine|
      ensures Bills(request, mine[k], Taxed(category)(DocumentLineOf(diff)(mine[k])))
    {
      LineBills(request, category, mine[k]);
    }
    IndexedUnderItsId(request.buyers, id);
  }

  lemma {:induction false} IndexedUnderItsId(buyers: seq<Buyer>, id: string)
    ensures BuyerFor(BuyerIndex(buyers), id).id == id
  {
    if buyers != [] {
      IndexedUnderItsId(buyers[..|buyers| - 1], id);
    }
  }

  // ---------------------------------------------------------------- credit notes

  /** A credit note has one line for the amount credited, within half a fil, and cites the invoice it credits. */
  predicate Credits(request: Request, c: Credit, d: Document) {
    && d.documentType == CreditNote && d.buyerId == c.buyerId && d.period == request.period
    && |d.lines| == 1 && CreditsLine(c, d.lines[0])
  }

  predicate CreditsLine(c: Credit, l: DocumentLine) {
    && l.feeClass == c.feeClass && l.units == 1 && Abs(1000 * l.gross - c.amount) <= 500
    && l.sourceRef == "credit|" + c.precedingInvoice + "|" + c.feeClass
  }

  lemma NoteCredits(request: Request, c: Credit)
    ensures Credits(request, c, CreditNoteFor(request.period, BuyerIndex(request.buyers))(c))
  {
    IndexedUnderItsId(request.buyers, c.buyerId);
    RoundingError(c.amount, MF_PER_FIL);
  }

  function NotesOf(request: Request): seq<Document> {
    Map(request.credits, CreditNoteFor(request.period, BuyerIndex(request.buyers)))
  }

  lemma NotesCredit(request: Request, notes: seq<Document>)
    requires notes == NotesOf(request)
    ensures |notes| == |request.credits|
    ensures forall k :: 0 <= k < |notes| ==> Credits(request, request.credits[k], notes[k])
  {
    forall k | 0 <= k < |notes| ensures Credits(request, request.credits[k], notes[k]) {
      NoteCredits(request, request.credits[k]);
    }
  }

  /** The documents are the invoices and then one credit note for each credit, in order. */
  lemma CreditNotesCreditTheirBuyers(request: Request)
    ensures |IssuedFor(request).documents| == |Invoices(request)| + |request.credits|
    ensures IssuedFor(request).documents[..|Invoices(request)|] == Invoices(request)
    ensures forall k :: 0 <= k < |request.credits| ==>
      Credits(request, request.credits[k], IssuedFor(request).documents[|Invoices(request)|..][k])
  {
    var invoices, notes := Invoices(request), NotesOf(request);
    assert IssuedFor(request).documents == invoices + notes;
    assert (invoices + notes)[|invoices|..] == notes;
    NotesCredit(request, notes);
  }

  // ---------------------------------------------------------------- every document

  lemma InvoiceIsOfABuyer(request: Request, d: Document)
    requires Refusal(request).None? && d in Invoices(request)
    ensures d.buyerId in BuyerIndex(request.buyers)
    ensures TaxedFor(BuyerIndex(request.buyers)[d.buyerId].country, d) && AddsUp(d)
  {
    var diff, buyers, kept := DiffIndex(request.diff), BuyerIndex(request.buyers), Kept(request);
    KeptHaveBuyers(request);
    var i :| 0 <= i < |Invoices(request)| && Invoices(request)[i] == d;
    var id := Keys(kept, TppOf)[i];
    OwnerHasBuyer(kept, buyers, id);
    IndexedUnderItsId(request.buyers, id);
    MadeIsTaxed(Invoice, request.period, buyers[id], Map(Members(kept, TppOf, id), DocumentLineOf(diff)), "");
  }

  lemma CreditNoteIsOfABuyer(request: Request, c: Credit)
    requires Refusal(request).None? && c in request.credits
    ensures var d := CreditNoteFor(request.period, BuyerIndex(request.buyers))(c);
      && d.buyerId in BuyerIndex(request.buyers)
      && TaxedFor(BuyerIndex(request.buyers)[d.buyerId].country, d) && AddsUp(d)
  {
    var buyers := BuyerIndex(request.buyers);
    RequestRefusedExactly(request);
    assert CanBeCredited(request, c);
    IndexedExactly(request.buyers, c.buyerId);
    IndexedUnderItsId(request.buyers, c.buyerId);
    MadeIsTaxed(CreditNote, request.period, buyers[c.buyerId], [CreditLine(c)], "-" + Slug(c.precedingInvoice));
  }

  lemma DocumentIsOfABuyer(request: Request, d: Document)
    requires Refusal(request).None? && d in IssuedFor(request).documents
    ensures d.buyerId in BuyerIndex(request.buyers)
    ensures TaxedFor(BuyerIndex(request.buyers)[d.buyerId].country, d) && AddsUp(d)
  {
    if d in Invoices(request) {
      InvoiceIsOfABuyer(request, d);
    } else {
      var notes := Map(request.credits, CreditNoteFor(request.period, BuyerIndex(request.buyers)));
      var i :| 0 <= i < |notes| && notes[i] == d;
      CreditNoteIsOfABuyer(request, request.credits[i]);
    }
  }

  /** Every invoice and credit note is addressed to a buyer of the request and taxed by that buyer's country: 5/105 of
      each line's gross, within half a fil, in the Emirates, and nothing anywhere else. Its totals are its lines'. */
  lemma EveryDocumentIsTaxedByCountry(request: Request, d: Document, b: Buyer)
    requires Refusal(request).None? && d in IssuedFor(request).documents
    requires b in request.buyers && b.id == d.buyerId
    ensures TaxedFor(b.country, d) && AddsUp(d)
  {
    DocumentIsOfABuyer(request, d);
    RequestRefusedExactly(request);
    IndexedAsThemselves(request.buyers, b);
  }

  lemma EveryDocumentHasABuyer(request: Request, d: Document)
    requires Refusal(request).None? && d in IssuedFor(request).documents
    ensures exists b :: b in request.buyers && b.id == d.buyerId
  {
    DocumentIsOfABuyer(request, d);
    IndexedExactly(request.buyers, d.buyerId);
  }
}
