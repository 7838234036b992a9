/** What invoicing conserves, and when a document carries no VAT. */
module InvoicingTheorems {
  import opened Collections
  import opened Money
  import opened Invoicing

  // ---------------------------------------------------------------- one document

  function FilsOf(diff: map<string, DiffLine>): ExpectedLine -> int {
    (l: ExpectedLine) => ToFils(Billable(diff, l))
  }

  function DocumentGross(d: Document): int { d.gross }

  /** On every document net and VAT make up the gross, and the gross is that of the lines it was made from. */
  lemma DocumentTies(documentType: DocumentType, period: string, buyer: Buyer, lines: seq<DocumentLine>, suffix: string)
    ensures var d := MakeDocument(documentType, period, buyer, lines, suffix);
      && d.net + d.vat == d.gross == SumBy(lines, GrossOf)
      && (d.category.Z? ==> d.vat == 0)
  {
    var d := MakeDocument(documentType, period, buyer, lines, suffix);
    SumLinear(d.lines, NetOf, VatOf, GrossOf);
    SumOfMap(lines, Taxed(d.category), GrossOf, GrossOf);
    if d.category.Z? {
      SumZero(d.lines, VatOf);
    }
  }

  /** A domestic document's VAT, rounded line by line, is off 5/105 of its gross by at most half a fil for each line. */
  lemma {:induction false} VatIsNearlyTheRate(lines: seq<DocumentLine>)
    ensures var taxed := Map(lines, Taxed(S));
      2 * Abs(105 * SumBy(taxed, VatOf) - 5 * SumBy(taxed, GrossOf)) <= 105 * |lines|
  {
    if lines != [] {
      var init, last := lines[..|lines| - 1], lines[|lines| - 1];
      VatIsNearlyTheRate(init);
      assert lines == init + [last];
      MapSnoc(init, last, Taxed(S));
      SumSnoc(Map(init, Taxed(S)), Taxed(S)(last), VatOf);
      SumSnoc(Map(init, Taxed(S)), Taxed(S)(last), GrossOf);
      RoundingError(last.gross * 5, 105);
    }
  }

  lemma SmallLinesCarryNoVat(gross: nat)
    ensures Extract(gross).vat >= 0
    ensures Extract(gross).vat == 0 <==> gross <= 10
  {
  }

  /** A domestic document carries no VAT exactly when none of its lines exceeds ten fils. */
  lemma {:induction false} NoVatExactly(lines: seq<DocumentLine>)
    requires forall l :: l in lines ==> l.gross >= 0
    ensures SumBy(Map(lines, Taxed(S)), VatOf) >= 0
    ensures SumBy(Map(lines, Taxed(S)), VatOf) == 0 <==> forall l :: l in lines ==> l.gross <= 10
  {
    if lines != [] {
      var init, last := lines[..|lines| - 1], lines[|lines| - 1];
      assert lines == init + [last];
      assert last in lines;
      NoVatExactly(init);
      MapSnoc(init, last, Taxed(S));
      SumSnoc(Map(init, Taxed(S)), Taxed(S)(last), VatOf);
      SmallLinesCarryNoVat(last.gross);
    }
  }

  // ---------------------------------------------------------------- all documents

  lemma {:induction false} InvoiceGross(period: string, diff: map<string, DiffLine>, buyers: map<string, Buyer>,
      kept: seq<ExpectedLine>, id: string)
    ensures InvoiceFor(period, diff, buyers, kept)(id).gross == SumBy(Members(kept, TppOf, id), FilsOf(diff))
  {
    var lines := Members(kept, TppOf, id);
    DocumentTies(Invoice, period, BuyerFor(buyers, id), Map(lines, DocumentLineOf(diff)), "");
    SumOfMap(lines, DocumentLineOf(diff), GrossOf, FilsOf(diff));
  }

  /** The invoices together bill every kept line, once. */
  lemma {:induction false} InvoicesBillEveryLine(period: string, diff: map<string, DiffLine>,
      buyers: map<string, Buyer>, kept: seq<ExpectedLine>)
    ensures SumBy(Map(Keys(kept, TppOf), InvoiceFor(period, diff, buyers, kept)), DocumentGross)
      == SumBy(kept, FilsOf(diff))
  {
    var owners, make := Keys(kept, TppOf), InvoiceFor(period, diff, buyers, kept);
    forall id | id in owners ensures DocumentGross(make(id)) == SumBy(Members(kept, TppOf, id), FilsOf(diff)) {
      InvoiceGross(period, diff, buyers, kept, id);
    }
    SumOfRecords(kept, owners, TppOf, FilsOf(diff), make, DocumentGross);
    forall l | l in kept ensures TppOf(l) in owners {
      KeysExact(kept, TppOf, TppOf(l));
    }
    SumByOwner(kept, owners, TppOf, FilsOf(diff));
  }

  function AmountOf(l: ExpectedLine): int { l.amount }

  function WithheldAmount(w: Withheld): int { w.amount }

  function HoldOf(diff: map<string, DiffLine>): ExpectedLine -> int {
    (l: ExpectedLine) => Hold(diff, l)
  }

  /** A negative amount that a material variance meets is neither withheld nor invoiced. */
  predicate IsDropped(diff: map<string, DiffLine>, l: ExpectedLine) {
    l.amount < 0 && l.lineRef in diff && diff[l.lineRef].material
  }

  function DroppedOf(diff: map<string, DiffLine>): ExpectedLine -> int {
    (l: ExpectedLine) => if IsDropped(diff, l) then l.amount else 0
  }

  lemma {:induction false} WithheldIsHeld(diff: map<string, DiffLine>, lines: seq<ExpectedLine>)
    ensures SumBy(WithheldFor(diff, lines), WithheldAmount) + SumBy(lines, DroppedOf(diff))
      == SumBy(lines, HoldOf(diff))
  {
    if lines != [] {
      var init, l := lines[..|lines| - 1], lines[|lines| - 1];
      WithheldIsHeld(diff, init);
      if IsHeld(diff, l) {
        MapSnoc(Keep(init, HeldIn(diff)), l, WithheldOf(diff));
        SumSnoc(Map(Keep(init, HeldIn(diff)), WithheldOf(diff)), WithheldOf(diff)(l), WithheldAmount);
      }
    }
  }

  /** A line that rounds to nothing is not invoiced and bills nothing. */
  lemma {:induction false} KeptBillEverything(diff: map<string, DiffLine>, lines: seq<ExpectedLine>)
    ensures SumBy(Keep(lines, InvoicedIn(diff)), FilsOf(diff)) == SumBy(lines, FilsOf(diff))
  {
    if lines != [] {
      var init, l := lines[..|lines| - 1], lines[|lines| - 1];
      KeptBillEverything(diff, init);
      SumSnoc(Keep(init, InvoicedIn(diff)), l, FilsOf(diff));
    }
  }

  lemma {:induction false} HalfAFilPerLine(diff: map<string, DiffLine>, lines: seq<ExpectedLine>)
    ensures WithinHalfAFilPerLine(SumBy(lines, AmountOf), SumBy(lines, HoldOf(diff)), SumBy(lines, FilsOf(diff)),
      |lines|)
  {
    if lines != [] {
      HalfAFilPerLine(diff, lines[..|lines| - 1]);
      RoundingError(Billable(diff, lines[|lines| - 1]), MF_PER_FIL);
    }
  }

  lemma {:induction false} InvoicedTotal(request: Request)
    ensures SumBy(Invoices(request), DocumentGross) == SumBy(request.expected, FilsOf(DiffIndex(request.diff)))
  {
    var diff := DiffIndex(request.diff);
    InvoicesBillEveryLine(request.period, diff, BuyerIndex(request.buyers), Kept(request));
    KeptBillEverything(diff, request.expected);
  }

  ghost predicate WithinHalfAFilPerLine(expected: int, withheld: int, invoiced: int, lines: nat) {
    Abs(expected - withheld - MF_PER_FIL * invoiced) <= 500 * lines
  }

  /** What is expected, less what is dropped and withheld, is within half a fil for each line of what the invoices bill.
      When no negative line meets a material variance nothing is dropped. */
  lemma {:induction false} WithholdingConserves(request: Request)
    ensures var diff := DiffIndex(request.diff);
      var expected, withheld := SumBy(request.expected, AmountOf),
          SumBy(WithheldFor(diff, request.expected), WithheldAmount);
      var invoiced, dropped := SumBy(Invoices(request), DocumentGross), SumBy(request.expected, DroppedOf(diff));
      && WithinHalfAFilPerLine(expected - dropped, withheld, invoiced, |request.expected|)
      && ((forall l :: l in request.expected ==> !IsDropped(diff, l)) ==>
            WithinHalfAFilPerLine(expected, withheld, invoiced, |request.expected|))
  {
    var diff := DiffIndex(request.diff);
    WithheldIsHeld(diff, request.expected);
    InvoicedTotal(request);
    HalfAFilPerLine(diff, request.expected);
    if forall l :: l in request.expected ==> !IsDropped(diff, l) {
      SumZero(request.expected, DroppedOf(diff));
    }
  }

  function Disputed(tppId: string, amount: int, variance: int): Request {
    Request("2026-06", [ExpectedLine("L", tppId, "payment.sme_bulk", 1, amount)], [DiffLine("L", variance, true)], [],
        [])
  }

  /** A negative amount of any size under dispute is accepted, withheld from nobody and invoiced to nobody. */
  lemma NegativeLineIsDropped(tppId: string, amount: int, variance: int, request: Request)
    requires amount < 0 && request == Disputed(tppId, amount, variance)
    ensures Refusal(request).None? && SumBy(request.expected, AmountOf) == amount
    ensures WithheldFor(DiffIndex(request.diff), request.expected) == [] && Invoices(request) == []
  {
    var l, diff := request.expected[0], DiffIndex(request.diff);
    assert request.diff[..0] == [] && diff["L"] == request.diff[0];
    assert Hold(diff, l) == amount && request.expected == [] + [l];
    SumSnoc([], l, AmountOf);
    KeepSnoc([], l, HeldIn(diff));
    KeepSnoc([], l, InvoicedIn(diff));
    assert request.expected[..0] == [] && FirstOf(request.expected, LineCheck(diff, BuyerIndex([]))).None?;
  }

  // ---------------------------------------------------------------- each line on one invoice

  function LineRefOf(l: ExpectedLine): string { l.lineRef }

  function DocumentRefs(d: Document): seq<string> { Map(d.lines, RefOf) }

  lemma {:induction false} FlattenOfMaps<T(!new), U(!new)>(xss: seq<seq<T>>, f: T -> U, yss: seq<seq<U>>)
    requires |yss| == |xss| && forall i :: 0 <= i < |xss| ==> yss[i] == Map(xss[i], f)
    ensures Flatten(yss) == Map(Flatten(xss), f)
  {
    if xss != [] {
      var n := |xss| - 1;
      FlattenOfMaps(xss[..n], f, yss[..n]);
      MapConcat(Flatten(xss[..n]), xss[n], f);
    }
  }

  /** The source lines cited on the invoices are exactly the lines that are billed, each as often as it occurs. */
  lemma {:induction false} InvoicesCiteEachLineOnce(request: Request)
    ensures multiset(Flatten(Map(Invoices(request), DocumentRefs))) == multiset(Map(Kept(request), LineRefOf))
  {
    var kept := Kept(request);
    var groups, refs := Groups(kept, TppOf), Map(Invoices(request), DocumentRefs);
    forall i | 0 <= i < |groups| ensures refs[i] == Map(groups[i], LineRefOf) {
      assert groups[i] == Members(kept, TppOf, Keys(kept, TppOf)[i]);
    }
    FlattenOfMaps(groups, LineRefOf, refs);
    GroupsPartition(kept, TppOf);
    MapPermutation(Flatten(groups), kept, LineRefOf);
  }

  lemma {:induction false} KeepDistinctRefs(lines: seq<ExpectedLine>, p: ExpectedLine -> bool)
    requires NoDuplicates(Map(lines, LineRefOf))
    ensures NoDuplicates(Map(Keep(lines, p), LineRefOf))
    ensures forall l :: l in Keep(lines, p) ==> l.lineRef in Map(lines, LineRefOf)
  {
    if lines != [] {
      var init, l := lines[..|lines| - 1], lines[|lines| - 1];
      assert lines == init + [l];
      assert Map(lines, LineRefOf)[..|init|] == Map(init, LineRefOf);
      assert Map(lines, LineRefOf) == Map(init, LineRefOf) + [l.lineRef];
      KeepDistinctRefs(init, p);
    }
  }

  /** When the memo's lines are distinct, no line is cited on two invoices or twice on one. */
  lemma {:induction false} NoLineIsInvoicedTwice(request: Request, ref: string)
    requires NoDuplicates(Map(request.expected, LineRefOf))
    ensures multiset(Flatten(Map(Invoices(request), DocumentRefs)))[ref] <= 1
  {
    InvoicesCiteEachLineOnce(request);
    KeepDistinctRefs(request.expected, InvoicedIn(DiffIndex(request.diff)));
    DistinctMeansOnce(Map(Kept(request), LineRefOf), ref);
  }
}
