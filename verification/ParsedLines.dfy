/** What every line of a parsed tax invoice says and when the invoice is refused, told by the lines it states. */
module ParsedLines {
  import opened Collections
  import opened ProviderDocuments
  import PayableReconciliation
  import Vat

  /** A stated line and the section it stands in. */
  datatype Stated = Stated(section: Section, line: RawLine)

  function StatedIn(s: Section): seq<Stated> {
    Map(s.lines, (l: RawLine) => Stated(s, l))
  }

  /** Every stated line of the invoice, in order. */
  function StatedLines(sections: seq<Section>): seq<Stated> {
    Flatten(Map(sections, StatedIn))
  }

  // ---------------------------------------------------------------- one line

  /** The category decides the fee class; the recipient is the section's, else the category's, else the scheme. */
  predicate Filed(categories: CategoryMap, issuerId: string, x: Stated, p: PayableReconciliation.DocumentLine) {
    && p.lineRef == x.line.lineRef && p.sourceCategory == x.line.category && p.units == x.line.units
    && p.recipientId == (if x.line.recipientId.Some? then x.line.recipientId.value else issuerId)
    && (p.mapped <==> x.line.category in categories)
    && (if x.line.category in categories then p.feeClass == Some(categories[x.line.category].feeClass)
        else p.feeClass == None)
    && (if x.section.recipientType.Some? then Some(p.recipientType) == x.section.recipientType
        else if x.line.category in categories then p.recipientType == categories[x.line.category].recipientType
        else p.recipientType == PayableReconciliation.Nebras)
  }

  /** An exclusive line is its units at its price, with 5 percent on top; an inclusive one contains 5/105 of its gross:
      both to the nearest milli-fil. */
  predicate Priced(x: Stated, p: ParsedLine) {
    && p.line.net + p.line.vat == p.gross
    && (x.section.treatment == Exclusive ==>
      p.line.net == x.line.unitPrice * x.line.units && 2 * Abs(100 * p.line.vat - 5 * p.line.net) <= 100)
    && (x.section.treatment == Inclusive ==>
      p.gross == x.line.gross && 2 * Abs(105 * p.line.vat - 5 * p.gross) <= 105)
  }

  predicate Says(categories: CategoryMap, issuerId: string, x: Stated, p: ParsedLine) {
    Filed(categories, issuerId, x, p.line) && Priced(x, p)
  }

  lemma ParsedLineSays(categories: CategoryMap, issuerId: string, s: Section, l: RawLine)
    requires ParsedLineOf(categories, issuerId, s, l).Ok?
    ensures Says(categories, issuerId, Stated(s, l), ParsedLineOf(categories, issuerId, s, l).value)
  {
    Vat.VatIsNear(l.unitPrice * l.units);
    Vat.VatIsNear(l.gross);
  }

  // ---------------------------------------------------------------- all lines

  ghost predicate SaysAll(categories: CategoryMap, issuerId: string, xs: seq<Stated>, ps: seq<ParsedLine>) {
    |ps| == |xs| && forall k :: 0 <= k < |xs| ==> Says(categories, issuerId, xs[k], ps[k])
  }

  lemma SectionSays(categories: CategoryMap, issuerId: string, s: Section)
    requires ParsedSection(categories, issuerId, s).Ok?
    ensures SaysAll(categories, issuerId, StatedIn(s), ParsedSection(categories, issuerId, s).value)
  {
    var parse := LineParser(categories, issuerId, s);
    CollectExactly(s.lines, parse);
    forall k | 0 <= k < |s.lines|
      ensures Says(categories, issuerId, StatedIn(s)[k], ParsedSection(categories, issuerId, s).value[k])
    {
      assert parse(s.lines[k]) == Ok(Collect(s.lines, parse).value[k]);
      ParsedLineSays(categories, issuerId, s, s.lines[k]);
    }
  }

  lemma {:induction false} SectionsSay(categories: CategoryMap, issuerId: string, sections: seq<Section>)
    requires Collect(sections, SectionParser(categories, issuerId)).Ok?
    ensures SaysAll(categories, issuerId, StatedLines(sections),
      Flatten(Collect(sections, SectionParser(categories, issuerId)).value))
  {
    if sections != [] {
      var init, s, parse := sections[..|sections| - 1], sections[|sections| - 1], SectionParser(categories, issuerId);
      SectionsSay(categories, issuerId, init);
      SectionSays(categories, issuerId, s);
      assert Map(sections, StatedIn)[..|init|] == Map(init, StatedIn);
      FlattenSnoc(Collect(init, parse).value, parse(s).value);
    }
  }

  /** An accepted invoice has one line for each stated one, in order, filed by its category and priced by the treatment
      of its section. */
  lemma EveryStatedLineIsParsed(categories: CategoryMap, raw: RawInvoice)
    requires ParsedInvoice(categories, raw).Ok?
    ensures SaysAll(categories, raw.issuerId, StatedLines(raw.sections), ParsedInvoice(categories, raw).value.lines)
  {
    SectionsSay(categories, raw.issuerId, raw.sections);
  }

  function NetStated(p: ParsedLine): int { p.line.net }

  function VatStated(p: ParsedLine): int { p.line.vat }

  function GrossStated(p: ParsedLine): int { p.gross }

  /** The totals are those of the lines, and so is the number of unmapped ones. */
  lemma TotalsAreOfTheLines(categories: CategoryMap, raw: RawInvoice)
    requires ParsedInvoice(categories, raw).Ok?
    ensures var p := ParsedInvoice(categories, raw).value;
      && p.net == SumBy(p.lines, NetStated) && p.vat == SumBy(p.lines, VatStated)
      && p.gross == SumBy(p.lines, GrossStated)
      && p.unmapped == SumBy(p.lines, (l: ParsedLine) => if l.line.mapped then 0 else 1)
  {
    var lines := ParsedInvoice(categories, raw).value.lines;
    SumCongruence(lines, NetOf, NetStated);
    SumCongruence(lines, VatOf, VatStated);
    SumCongruence(lines, GrossOf, GrossStated);
    SumOnes(Keep(lines, IsUnmapped), (l: ParsedLine) => 1);
    SumOfKept(lines, IsUnmapped, (l: ParsedLine) => 1, (l: ParsedLine) => if l.line.mapped then 0 else 1);
  }

  // ---------------------------------------------------------------- refusal

  predicate SoundLine(s: Section, l: RawLine) {
    l.units >= 0 && (s.treatment == Exclusive ==> l.unitPrice >= 0) && (s.treatment == Inclusive ==> l.gross >= 0)
  }

  ghost predicate SoundSection(s: Section) {
    s.lines != [] && forall l :: l in s.lines ==> SoundLine(s, l)
  }

  lemma SectionRefusedExactly(categories: CategoryMap, issuerId: string, s: Section)
    ensures ParsedSection(categories, issuerId, s).Ok? <==> SoundSection(s)
  {
    CollectExactly(s.lines, LineParser(categories, issuerId, s));
    forall l | l in s.lines ensures LineParser(categories, issuerId, s)(l).Ok? <==> SoundLine(s, l) {
    }
  }

  /** An invoice that states no total is accepted exactly when it has sections, each with lines, and no negative figure;
      one that states a total, when moreover the net and the gross of its lines are the stated fils exactly. */
  lemma {:induction false} InvoiceRefusedExactly(categories: CategoryMap, raw: RawInvoice)
    ensures ParsedInvoice(categories, raw.(total := None)).Ok? <==>
      raw.sections != [] && forall s :: s in raw.sections ==> SoundSection(s)
    ensures ParsedInvoice(categories, raw.(total := None)).Ok? && raw.total.Some? ==>
      var p := ParsedInvoice(categories, raw.(total := None)).value;
      ParsedInvoice(categories, raw) ==
        if 1000 * raw.total.value.taxableFils == p.net && 1000 * raw.total.value.grossFils == p.gross then Ok(p)
        else Err(TotalsDisagree)
  {
    var parse := SectionParser(categories, raw.issuerId);
    CollectExactly(raw.sections, parse);
    forall s | s in raw.sections ensures parse(s).Ok? <==> SoundSection(s) {
      SectionRefusedExactly(categories, raw.issuerId, s);
    }
  }
}
