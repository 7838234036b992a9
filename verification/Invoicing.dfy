/** Invoices from an expected memo: disputed amounts are withheld, the rest is rounded to fils once per line and
    invoiced to each line's counterparty; credit notes follow. */
module Invoicing {
  import opened Collections
  import opened Money
  import Vat

  datatype ExpectedLine = ExpectedLine(lineRef: string, tppId: string, feeClass: string, units: nat, amount: int)

  datatype DiffLine = DiffLine(lineRef: string, variance: int, material: bool)

  datatype Buyer = Buyer(id: string, country: string)

  datatype Credit = Credit(buyerId: string, feeClass: string, amount: int, reason: string, precedingInvoice: string)

  datatype DocumentLine = DocumentLine(feeClass: string, units: nat, gross: int, net: int, vat: int, sourceRef: string)

  datatype Category = S | Z

  datatype DocumentType = Invoice | CreditNote

  datatype Document = Document(
    documentId: string, documentType: DocumentType, buyerId: string, period: string, category: Category,
    gross: int, net: int, vat: int, lines: seq<DocumentLine>)

  datatype Withheld = Withheld(lineRef: string, tppId: string, amount: int)

  datatype Request = Request(period: string, expected: seq<ExpectedLine>, diff: seq<DiffLine>, buyers: seq<Buyer>,
      credits: seq<Credit>)

  datatype Issued = Issued(documents: seq<Document>, withheld: seq<Withheld>)

  datatype Error = RepeatedBuyer | MissingBuyer(id: string) | NegativeAmount | CreditNotPositive | NoReason

  const DOMESTIC := "AE"

  // ---------------------------------------------------------------- documents

  function Extract(gross: int): Vat.Split { Vat.SplitInclusive(gross) }

  /** Exports are zero-rated on the full gross; domestic lines carve 5/105 out of theirs. */
  function Taxed(category: Category): DocumentLine -> DocumentLine {
    (l: DocumentLine) =>
      if category.Z? then l.(net := l.gross, vat := 0) else l.(net := Extract(l.gross).net, vat := Extract(l.gross).vat)
  }

  function CategoryOf(buyer: Buyer): Category {
    if buyer.country != DOMESTIC then Z else S
  }

  function GrossOf(l: DocumentLine): int { l.gross }

  function NetOf(l: DocumentLine): int { l.net }

  function VatOf(l: DocumentLine): int { l.vat }

  function RefOf(l: DocumentLine): string { l.sourceRef }

  function Upper(c: char): char {
    if 'a' <= c <= 'z' then (c as int - 32) as char else c
  }

  /** In capitals, with a dash for each run of other characters. */
  function Dashed(id: string): string {
    if id == "" then ""
    else
      var before, c := Dashed(id[..|id| - 1]), Upper(id[|id| - 1]);
      if 'A' <= c <= 'Z' || '0' <= c <= '9' then before + [c]
      else if before != "" && before[|before| - 1] == '-' then before
      else before + "-"
  }

  /** What document ids carry of an id: no dash at either end, and at most 36 characters. */
  function Slug(id: string): string {
    var dashed := Dashed(id);
    var left := if dashed != "" && dashed[0] == '-' then dashed[1..] else dashed;
    var slug := if left != "" && left[|left| - 1] == '-' then left[..|left| - 1] else left;
    if |slug| > 36 then slug[..36] else slug
  }

  function MakeDocument(documentType: DocumentType, period: string, buyer: Buyer, lines: seq<DocumentLine>,
      suffix: string): Document {
    var category := CategoryOf(buyer);
    var taxed := Map(lines, Taxed(category));
    Document((if documentType.Invoice? then "INV-" else "CRN-") + period + "-" + Slug(buyer.id) + suffix, documentType,
        buyer.id, period,
             category, SumBy(taxed, GrossOf), SumBy(taxed, NetOf), SumBy(taxed, VatOf), taxed)
  }

  // ---------------------------------------------------------------- lines

  /** What is held back of a line: a material variance, up to the line's amount. */
  function Hold(diff: map<string, DiffLine>, l: ExpectedLine): int {
    if l.lineRef in diff && diff[l.lineRef].material then
      var v := Abs(diff[l.lineRef].variance);
      if v <= l.amount then v else l.amount
    else 0
  }

  predicate IsHeld(diff: map<string, DiffLine>, l: ExpectedLine) { Hold(diff, l) > 0 }

  function HeldIn(diff: map<string, DiffLine>): ExpectedLine -> bool { (l: ExpectedLine) => IsHeld(diff, l) }

  function WithheldOf(diff: map<string, DiffLine>): ExpectedLine -> Withheld {
    (l: ExpectedLine) => Withheld(l.lineRef, l.tppId, Hold(diff, l))
  }

  function Billable(diff: map<string, DiffLine>, l: ExpectedLine): int { l.amount - Hold(diff, l) }

  predicate IsInvoiced(diff: map<string, DiffLine>, l: ExpectedLine) { ToFils(Billable(diff, l)) != 0 }

  function InvoicedIn(diff: map<string, DiffLine>): ExpectedLine -> bool { (l: ExpectedLine) => IsInvoiced(diff, l) }

  function DocumentLineOf(diff: map<string, DiffLine>): ExpectedLine -> DocumentLine {
    (l: ExpectedLine) =>
      var split := Extract(ToFils(Billable(diff, l)));
      DocumentLine(l.feeClass, l.units, split.gross, split.net, split.vat, l.lineRef)
  }

  function TppOf(l: ExpectedLine): string { l.tppId }

  function LineError(diff: map<string, DiffLine>, buyers: map<string, Buyer>, l: ExpectedLine): Option<Error> {
    if Billable(diff, l) == 0 then None
    else if l.tppId !in buyers then Some(MissingBuyer(l.tppId))
    else if Billable(diff, l) < 0 then Some(NegativeAmount)
    else None
  }

  function LineCheck(diff: map<string, DiffLine>, buyers: map<string, Buyer>): ExpectedLine -> Option<Error> {
    (l: ExpectedLine) => LineError(diff, buyers, l)
  }

  // ---------------------------------------------------------------- indexes

  /** `new Map(lines.map(l => [l.lineRef, l]))`: a later line replaces an earlier one. */
  function DiffIndex(lines: seq<DiffLine>): map<string, DiffLine> {
    if lines == [] then map[] else DiffIndex(lines[..|lines| - 1])[lines[|lines| - 1].lineRef := lines[|lines| - 1]]
  }

  function BuyerIndex(buyers: seq<Buyer>): map<string, Buyer> {
    if buyers == [] then map[] else BuyerIndex(buyers[..|buyers| - 1])[buyers[|buyers| - 1].id := buyers[|buyers| - 1]]
  }

  // ---------------------------------------------------------------- the whole run

  function Kept(request: Request): seq<ExpectedLine> {
    Keep(request.expected, InvoicedIn(DiffIndex(request.diff)))
  }

  function BuyerFor(buyers: map<string, Buyer>, id: string): Buyer {
    if id in buyers then buyers[id] else Buyer(id, "")
  }

  function InvoiceFor(period: string, diff: map<string, DiffLine>, buyers: map<string, Buyer>,
      kept: seq<ExpectedLine>): string -> Document {
    (id: string) => MakeDocument(Invoice, period, BuyerFor(buyers, id),
        Map(Members(kept, TppOf, id), DocumentLineOf(diff)), "")
  }

  function CreditLine(c: Credit): DocumentLine {
    var split := Extract(ToFils(c.amount));
    DocumentLine(c.feeClass, 1, split.gross, split.net, split.vat, "credit|" + c.precedingInvoice + "|" + c.feeClass)
  }

  function CreditNoteFor(period: string, buyers: map<string, Buyer>): Credit -> Document {
    (c: Credit) => MakeDocument(CreditNote, period, BuyerFor(buyers, c.buyerId), [CreditLine(c)],
        "-" + Slug(c.precedingInvoice))
  }

  function CreditError(buyers: map<string, Buyer>, c: Credit): Option<Error> {
    if c.amount <= 0 then Some(CreditNotPositive)
    else if Blank(c.reason) || Blank(c.precedingInvoice) then Some(NoReason)
    else if c.buyerId !in buyers then Some(MissingBuyer(c.buyerId))
    else None
  }

  function CreditCheck(buyers: map<string, Buyer>): Credit -> Option<Error> {
    (c: Credit) => CreditError(buyers, c)
  }

  function Refusal(request: Request): Option<Error> {
    var diff, buyers := DiffIndex(request.diff), BuyerIndex(request.buyers);
    if |buyers| != |request.buyers| then Some(RepeatedBuyer)
    else if FirstOf(request.expected, LineCheck(diff, buyers)).Some?
        then FirstOf(request.expected, LineCheck(diff, buyers))
    else FirstOf(request.credits, CreditCheck(buyers))
  }

  function Invoices(request: Request): seq<Document> {
    var diff, buyers, kept := DiffIndex(request.diff), BuyerIndex(request.buyers), Kept(request);
    Map(Keys(kept, TppOf), InvoiceFor(request.period, diff, buyers, kept))
  }

  function IssuedFor(request: Request): Issued {
    var diff, buyers := DiffIndex(request.diff), BuyerIndex(request.buyers);
    Issued(Invoices(request) + Map(request.credits, CreditNoteFor(request.period, buyers)),
           WithheldFor(diff, request.expected))
  }

  function WithheldFor(diff: map<string, DiffLine>, lines: seq<ExpectedLine>): seq<Withheld> {
    Map(Keep(lines, HeldIn(diff)), WithheldOf(diff))
  }

  // ---------------------------------------------------------------- the loops

  method IndexDiff(lines: seq<DiffLine>) returns (index: map<string, DiffLine>)
    ensures index == DiffIndex(lines)
  {
    index := map[];
    for i := 0 to |lines|
      invariant index == DiffIndex(lines[..i])
    {
      assert lines[..i + 1][..i] == lines[..i];
      index := index[lines[i].lineRef := lines[i]];
    }
    assert lines[..|lines|] == lines;
  }

  method IndexBuyers(buyers: seq<Buyer>) returns (index: map<string, Buyer>)
    ensures index == BuyerIndex(buyers)
  {
    index := map[];
    for i := 0 to |buyers|
      invariant index == BuyerIndex(buyers[..i])
    {
      assert buyers[..i + 1][..i] == buyers[..i];
      index := index[buyers[i].id := buyers[i]];
    }
    assert buyers[..|buyers|] == buyers;
  }

  /** The lines of a document as they are filed: per counterparty, in the order in which the counterparties appear. */
  ghost predicate Filed(diff: map<string, DiffLine>, kept: seq<ExpectedLine>, order: seq<string>,
      filed: map<string, seq<DocumentLine>>) {
    && order == Keys(kept, TppOf)
    && (forall id :: id in filed <==> id in order)
    && (forall id :: id in filed ==> filed[id] == Map(Members(kept, TppOf, id), DocumentLineOf(diff)))
  }

  method FileLine(diff: map<string, DiffLine>, ghost kept: seq<ExpectedLine>, order: seq<string>,
      filed: map<string, seq<DocumentLine>>, l: ExpectedLine, line: DocumentLine)
    returns (order': seq<string>, filed': map<string, seq<DocumentLine>>)
    requires Filed(diff, kept, order, filed) && line == DocumentLineOf(diff)(l)
    ensures Filed(diff, kept + [l], order', filed')
  {
    KeysSnoc(kept, l, TppOf);
    MembersEmpty(kept, TppOf, l.tppId);
    order', filed' := order, filed;
    if l.tppId in filed {
      filed' := filed[l.tppId := filed[l.tppId] + [line]];
    } else {
      filed' := filed[l.tppId := [line]];
      order' := order + [l.tppId];
    }
    forall id | id in filed' ensures filed'[id] == Map(Members(kept + [l], TppOf, id), DocumentLineOf(diff)) {
      MembersSnoc(kept, l, TppOf, id);
    }
  }

  method FileExpected(lines: seq<ExpectedLine>, diff: map<string, DiffLine>, buyers: map<string, Buyer>)
    returns (refused: Option<Error>, order: seq<string>, filed: map<string, seq<DocumentLine>>, withheld: seq<Withheld>)
    ensures refused == FirstOf(lines, LineCheck(diff, buyers))
    ensures refused.None? ==>
      Filed(diff, Keep(lines, InvoicedIn(diff)), order, filed) && withheld == WithheldFor(diff, lines)
  {
    refused, order, filed, withheld := None, [], map[], [];
    for i := 0 to |lines|
      invariant refused.None? && FirstOf(lines[..i], LineCheck(diff, buyers)).None?
      invariant Filed(diff, Keep(lines[..i], InvoicedIn(diff)), order, filed)
      invariant withheld == WithheldFor(diff, lines[..i])
    {
      LinesSnoc(diff, buyers, lines, i);
      var hold := Hold(diff, lines[i]);
      if hold > 0 {
        withheld := withheld + [Withheld(lines[i].lineRef, lines[i].tppId, hold)];
      }
      refused, order, filed := FileOne(diff, buyers, Keep(lines[..i], InvoicedIn(diff)), order, filed, lines[i],
          lines[i].amount - hold);
      if refused.Some? {
        FirstOfStays(lines, i + 1, LineCheck(diff, buyers));
        return;
      }
    }
    assert lines[..|lines|] == lines;
  }

  /** What one more expected line adds to each of the three results. */
  lemma LinesSnoc(diff: map<string, DiffLine>, buyers: map<string, Buyer>, lines: seq<ExpectedLine>, i: nat)
    requires i < |lines|
    ensures FirstOf(lines[..i + 1], LineCheck(diff, buyers))
      == if FirstOf(lines[..i], LineCheck(diff, buyers)).Some? then FirstOf(lines[..i], LineCheck(diff, buyers))
          else LineError(diff, buyers, lines[i])
    ensures WithheldFor(diff, lines[..i + 1])
      == WithheldFor(diff, lines[..i]) + if IsHeld(diff, lines[i]) then [WithheldOf(diff)(lines[i])] else []
    ensures Keep(lines[..i + 1], InvoicedIn(diff))
      == Keep(lines[..i], InvoicedIn(diff)) + if IsInvoiced(diff, lines[i]) then [lines[i]] else []
  {
    assert lines[..i + 1] == lines[..i] + [lines[i]];
    FirstOfSnoc(lines, i, LineCheck(diff, buyers));
    KeepSnoc(lines[..i], lines[i], HeldIn(diff));
    KeepSnoc(lines[..i], lines[i], InvoicedIn(diff));
    MapSnoc(Keep(lines[..i], HeldIn(diff)), lines[i], WithheldOf(diff));
  }

  method FileOne(diff: map<string, DiffLine>, buyers: map<string, Buyer>, ghost kept: seq<ExpectedLine>,
                 order: seq<string>, filed: map<string, seq<DocumentLine>>, l: ExpectedLine, billable: int)
    returns (refused: Option<Error>, order': seq<string>, filed': map<string, seq<DocumentLine>>)
    requires Filed(diff, kept, order, filed) && billable == Billable(diff, l)
    ensures refused == LineError(diff, buyers, l)
    ensures refused.None? ==> Filed(diff, kept + if IsInvoiced(diff, l) then [l] else [], order', filed')
  {
    refused, order', filed' := None, order, filed;
    assert kept + [] == kept;
    if billable == 0 { return; }
    if l.tppId !in buyers {
      refused := Some(MissingBuyer(l.tppId));
      return;
    }
    if billable < 0 {
      refused := Some(NegativeAmount);
      return;
    }
    var gross := ToFils(billable);
    if gross == 0 { return; }
    var tax := Extract(gross);
    order', filed' := FileLine(diff, kept, order, filed, l,
        DocumentLine(l.feeClass, l.units, tax.gross, tax.net, tax.vat, l.lineRef));
  }

  /** Whatever is invoiced has a buyer and a positive amount. */
  lemma KeptHaveBuyers(request: Request)
    requires FirstOf(request.expected, LineCheck(DiffIndex(request.diff), BuyerIndex(request.buyers))).None?
    ensures HaveBuyers(Kept(request), BuyerIndex(request.buyers))
    ensures forall l :: l in Kept(request) ==> Billable(DiffIndex(request.diff), l) > 0
  {
    FirstOfNone(request.expected, LineCheck(DiffIndex(request.diff), BuyerIndex(request.buyers)));
    KeepExact(request.expected, InvoicedIn(DiffIndex(request.diff)));
  }

  ghost predicate HaveBuyers(kept: seq<ExpectedLine>, buyers: map<string, Buyer>) {
    forall l :: l in kept ==> l.tppId in buyers
  }

  lemma OwnerHasBuyer(kept: seq<ExpectedLine>, buyers: map<string, Buyer>, id: string)
    requires HaveBuyers(kept, buyers) && id in Keys(kept, TppOf)
    ensures id in buyers
  {
    KeysExact(kept, TppOf, id);
  }

  method MakeInvoice(period: string, diff: map<string, DiffLine>, buyers: map<string, Buyer>,
      ghost kept: seq<ExpectedLine>, ghost order: seq<string>, filed: map<string, seq<DocumentLine>>, id: string)
    returns (document: Document)
    requires Filed(diff, kept, order, filed) && HaveBuyers(kept, buyers) && id in order
    ensures document == InvoiceFor(period, diff, buyers, kept)(id)
  {
    OwnerHasBuyer(kept, buyers, id);
    document := MakeDocument(Invoice, period, buyers[id], filed[id], "");
  }

  lemma Prefix<T, U>(xs: seq<T>, i: nat, f: T -> U)
    requires i < |xs|
    ensures Map(xs[..i + 1], f) == Map(xs[..i], f) + [f(xs[i])]
  {
  }

  method MakeInvoices(period: string, diff: map<string, DiffLine>, buyers: map<string, Buyer>,
      ghost kept: seq<ExpectedLine>, order: seq<string>, filed: map<string, seq<DocumentLine>>)
    returns (documents: seq<Document>)
    requires Filed(diff, kept, order, filed) && HaveBuyers(kept, buyers)
    ensures documents == Map(Keys(kept, TppOf), InvoiceFor(period, diff, buyers, kept))
  {
    documents := [];
    ghost var make := InvoiceFor(period, diff, buyers, kept);
    assert order[..0] == [];
    for i := 0 to |order|
      invariant documents == Map(order[..i], make)
    {
      var id := order[i];
      var document := MakeInvoice(period, diff, buyers, kept, order, filed, id);
      documents := documents + [document];
      Prefix(order, i, make);
    }
    assert order[..|order|] == order;
  }

  method MakeCreditNotes(request: Request, buyers: map<string, Buyer>)
      returns (refused: Option<Error>, notes: seq<Document>)
    ensures refused == FirstOf(request.credits, CreditCheck(buyers))
    ensures refused.None? ==> notes == Map(request.credits, CreditNoteFor(request.period, buyers))
  {
    refused, notes := None, [];
    var credits := request.credits;
    ghost var check, make := CreditCheck(buyers), CreditNoteFor(request.period, buyers);
    assert credits[..0] == [];
    for i := 0 to |credits|
      invariant FirstOf(credits[..i], check).None?
      invariant notes == Map(credits[..i], make)
    {
      var note;
      refused, note := MakeCreditNote(request.period, buyers, credits[i]);
      FirstOfSnoc(credits, i, check);
      if refused.Some? {
        FirstOfStays(credits, i + 1, check);
        return;
      }
      Prefix(credits, i, make);
      notes := notes + [note];
    }
    assert credits[..|credits|] == credits;
    refused := None;
  }

  method MakeCreditNote(period: string, buyers: map<string, Buyer>, c: Credit)
      returns (refused: Option<Error>, note: Document)
    ensures refused == CreditCheck(buyers)(c)
    ensures refused.None? ==> note == CreditNoteFor(period, buyers)(c)
  {
    refused := CreditError(buyers, c);
    var buyer := BuyerFor(buyers, c.buyerId);
    note := MakeDocument(CreditNote, period, buyer, [CreditLine(c)], "-" + Slug(c.precedingInvoice));
  }

  method BuildDocuments(request: Request) returns (result: Result<Issued, Error>)
    ensures result == match Refusal(request) { case Some(e) => Err(e) case None => Ok(IssuedFor(request)) }
  {
    var buyers := IndexBuyers(request.buyers);
    if |buyers| != |request.buyers| { return Err(RepeatedBuyer); }
    var diff := IndexDiff(request.diff);
    var refused, order, filed, withheld := FileExpected(request.expected, diff, buyers);
    if refused.Some? { return Err(refused.value); }
    KeptHaveBuyers(request);
    var documents := MakeInvoices(request.period, diff, buyers, Kept(request), order, filed);
    var notes: seq<Document>;
    refused, notes := MakeCreditNotes(request, buyers);
    if refused.Some? { return Err(refused.value); }
    result := Ok(Issued(documents + notes, withheld));
  }
}
