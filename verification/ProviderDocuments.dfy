/** The arithmetic of a provider's tax invoice: sections of lines under one VAT treatment each, and a stated total that
    must agree with the lines to the milli-fil. Prices and amounts arrive already converted to milli-fils. */
module ProviderDocuments {
  import opened Collections
  import opened Money
  import Vat
  import PayableReconciliation

  datatype Treatment = Exclusive | Inclusive

  /** An exclusive section states unit prices, an inclusive one gross amounts. */
  datatype RawLine = RawLine(lineRef: string, category: string, units: int, unitPrice: int, gross: int,
      recipientId: Option<string>)

  datatype Section = Section(treatment: Treatment, recipientType: Option<PayableReconciliation.RecipientType>,
      lines: seq<RawLine>)

  datatype StatedTotal = StatedTotal(taxableFils: nat, grossFils: nat)

  datatype RawInvoice = RawInvoice(issuerId: string, sections: seq<Section>, total: Option<StatedTotal>)

  datatype Mapping = Mapping(feeClass: string, recipientType: PayableReconciliation.RecipientType)

  type CategoryMap = map<string, Mapping>

  datatype ParsedLine = ParsedLine(line: PayableReconciliation.DocumentLine, unitPrice: int, gross: int)

  datatype Parsed = Parsed(lines: seq<ParsedLine>, net: int, vat: int, gross: int, unmapped: nat)

  datatype Error = NoSections | NoLines | NegativeUnits | NegativeAmount | TotalsDisagree

  // ---------------------------------------------------------------- what each line comes to

  /** The category decides the fee class, and the recipient unless the section names one; an unmapped line falls to the
      Hub. */
  function ParsedLineOf(categories: CategoryMap, issuerId: string, s: Section, l: RawLine): Result<ParsedLine, Error> {
    if l.units < 0 then Err(NegativeUnits)
    else if (if s.treatment.Exclusive? then l.unitPrice else l.gross) < 0 then Err(NegativeAmount)
    else
      var mapped := l.category in categories;
      var split := SplitOf(s.treatment, l);
      Ok(ParsedLine(
        PayableReconciliation.DocumentLine(
          l.lineRef, l.category, if mapped then Some(categories[l.category].feeClass) else None, mapped,
          if s.recipientType.Some? then s.recipientType.value
          else if mapped then categories[l.category].recipientType else PayableReconciliation.Nebras,
          l.recipientId.GetOr(issuerId), l.units, split.net, split.vat),
        if s.treatment.Exclusive? then l.unitPrice else if l.units > 0 then DivideHalfUp(split.net, l.units) else 0,
        split.gross))
  }

  function SplitOf(treatment: Treatment, l: RawLine): Vat.Split {
    if treatment.Exclusive? then Vat.SplitExclusive(l.unitPrice * l.units) else Vat.SplitInclusive(l.gross)
  }

  function LineParser(categories: CategoryMap, issuerId: string, s: Section): RawLine -> Result<ParsedLine, Error> {
    (l: RawLine) => ParsedLineOf(categories, issuerId, s, l)
  }

  function ParsedSection(categories: CategoryMap, issuerId: string, s: Section): Result<seq<ParsedLine>, Error> {
    if s.lines == [] then Err(NoLines) else Collect(s.lines, LineParser(categories, issuerId, s))
  }

  function SectionParser(categories: CategoryMap, issuerId: string): Section -> Result<seq<ParsedLine>, Error> {
    (s: Section) => ParsedSection(categories, issuerId, s)
  }

  function NetOf(l: ParsedLine): int { l.line.net }

  function VatOf(l: ParsedLine): int { l.line.vat }

  function GrossOf(l: ParsedLine): int { l.gross }

  predicate IsUnmapped(l: ParsedLine) { !l.line.mapped }

  function Summed(lines: seq<ParsedLine>): Parsed {
    Parsed(lines, SumBy(lines, NetOf), SumBy(lines, VatOf), SumBy(lines, GrossOf), |Keep(lines, IsUnmapped)|)
  }

  /** Neither side of a disagreement is preferred: the document is refused. */
  predicate Agrees(total: StatedTotal, p: Parsed) {
    MF_PER_FIL * total.taxableFils == p.net && MF_PER_FIL * total.grossFils == p.gross
  }

  function ParsedInvoice(categories: CategoryMap, raw: RawInvoice): Result<Parsed, Error> {
    if raw.sections == [] then Err(NoSections)
    else
      match Collect(raw.sections, SectionParser(categories, raw.issuerId))
      case Err(e) => Err(e)
      case Ok(sections) =>
        var p := Summed(Flatten(sections));
        if raw.total.Some? && !Agrees(raw.total.value, p) then Err(TotalsDisagree) else Ok(p)
  }

  // ---------------------------------------------------------------- the nested loops

  method ParseSection(categories: CategoryMap, issuerId: string, s: Section, lines: seq<ParsedLine>)
      returns (result: Result<seq<ParsedLine>, Error>)
    ensures result == match ParsedSection(categories, issuerId,
      s) { case Err(e) => Err(e) case Ok(more) => Ok(lines + more) }
  {
    if s.lines == [] { return Err(NoLines); }
    ghost var parse := LineParser(categories, issuerId, s);
    var all := lines;
    for i := 0 to |s.lines|
      invariant Collect(s.lines[..i], parse).Ok? && all == lines + Collect(s.lines[..i], parse).value
    {
      CollectSnoc(s.lines, i, parse);
      var parsed := ParsedLineOf(categories, issuerId, s, s.lines[i]);
      if parsed.Err? {
        CollectStays(s.lines, i + 1, parse);
        return Err(parsed.error);
      }
      all := all + [parsed.value];
    }
    assert s.lines[..|s.lines|] == s.lines;
    result := Ok(all);
  }

  method ParseInvoice(categories: CategoryMap, raw: RawInvoice) returns (result: Result<Parsed, Error>)
    ensures result == ParsedInvoice(categories, raw)
  {
    if raw.sections == [] { return Err(NoSections); }
    ghost var parse := SectionParser(categories, raw.issuerId);
    var lines: seq<ParsedLine> := [];
    for i := 0 to |raw.sections|
      invariant Collect(raw.sections[..i], parse).Ok? && lines == Flatten(Collect(raw.sections[..i], parse).value)
    {
      CollectSnoc(raw.sections, i, parse);
      var more := ParseSection(categories, raw.issuerId, raw.sections[i], lines);
      if more.Err? {
        CollectStays(raw.sections, i + 1, parse);
        return Err(more.error);
      }
      lines := more.value;
    }
    assert raw.sections[..|raw.sections|] == raw.sections;
    var p := Summed(lines);
    if raw.total.Some? && !Agrees(raw.total.value, p) { return Err(TotalsDisagree); }
    result := Ok(p);
  }

  // ---------------------------------------------------------------- what an accepted document promises

  lemma {:induction false} LinesTie(sections: seq<Section>, categories: CategoryMap, issuerId: string)
    requires Collect(sections, SectionParser(categories, issuerId)).Ok?
    ensures forall l ::
      l in Flatten(Collect(sections, SectionParser(categories, issuerId)).value) ==> l.line.net + l.line.vat == l.gross
  {
    if sections != [] {
      var s := sections[|sections| - 1];
      LinesTie(sections[..|sections| - 1], categories, issuerId);
      SectionTies(s.lines, s, categories, issuerId);
    }
  }

  lemma {:induction false} SectionTies(lines: seq<RawLine>, s: Section, categories: CategoryMap, issuerId: string)
    requires Collect(lines, LineParser(categories, issuerId, s)).Ok?
    ensures forall l ::
      l in Collect(lines, LineParser(categories, issuerId, s)).value ==> l.line.net + l.line.vat == l.gross
  {
    if lines != [] {
      SectionTies(lines[..|lines| - 1], s, categories, issuerId);
    }
  }

  /** Every accepted document ties, line by line and in its totals. */
  lemma ParsedInvoiceTies(categories: CategoryMap, raw: RawInvoice)
    requires ParsedInvoice(categories, raw).Ok?
    ensures var p := ParsedInvoice(categories, raw).value;
      p.net + p.vat == p.gross && (forall l :: l in p.lines ==> l.line.net + l.line.vat == l.gross)
  {
    var p := ParsedInvoice(categories, raw).value;
    LinesTie(raw.sections, categories, raw.issuerId);
    SumLinear(p.lines, NetOf, VatOf, GrossOf);
  }

  /** The recorded unit price explains the net: exactly where it was stated, to half a milli-fil a unit where it was
      derived. */
  lemma UnitPriceExplainsNet(categories: CategoryMap, issuerId: string, s: Section, l: RawLine)
    requires ParsedLineOf(categories, issuerId, s, l).Ok?
    ensures var p := ParsedLineOf(categories, issuerId, s, l).value;
      && (s.treatment.Exclusive? ==> p.unitPrice * l.units == p.line.net)
      && (s.treatment.Inclusive? && l.units > 0 ==> 2 * Abs(p.unitPrice * l.units - p.line.net) <= l.units)
  {
    if s.treatment.Inclusive? && l.units > 0 {
      RoundingError(SplitOf(s.treatment, l).net, l.units);
    }
  }

  /** An amount that a document can state, as it states whole fils. */
  predicate Statable(milliFils: int) {
    milliFils >= 0 && WholeFils(milliFils)
  }

  lemma SomeTotalAgrees(p: Parsed)
    ensures (exists t: StatedTotal :: Agrees(t, p)) <==> Statable(p.net) && Statable(p.gross)
  {
    if Statable(p.net) && Statable(p.gross) {
      assert Agrees(StatedTotal(p.net / MF_PER_FIL, p.gross / MF_PER_FIL), p);
    }
  }

  lemma AcceptedTotal(categories: CategoryMap, raw: RawInvoice, t: StatedTotal)
    requires ParsedInvoice(categories, raw.(total := None)).Ok?
    ensures ParsedInvoice(categories, raw.(total := Some(t))).Ok?
      <==> Agrees(t, ParsedInvoice(categories, raw.(total := None)).value)
  {
  }

  /** Some total can be stated on the document, whatever its sections mix, exactly when the nets of its lines and their
      grosses both add up to whole fils. */
  lemma {:induction false} TotalCanBeStatedExactly(categories: CategoryMap, raw: RawInvoice)
    requires ParsedInvoice(categories, raw.(total := None)).Ok?
    ensures (exists t: StatedTotal :: ParsedInvoice(categories, raw.(total := Some(t))).Ok?) <==>
      Statable(SumBy(raw.sections, SectionNet)) && Statable(SumBy(raw.sections, SectionGross))
  {
    SectionsSum(raw.sections, categories, raw.issuerId);
    forall t: StatedTotal
      ensures ParsedInvoice(categories, raw.(total := Some(t))).Ok?
        <==> Agrees(t, ParsedInvoice(categories, raw.(total := None)).value)
    {
      AcceptedTotal(categories, raw, t);
    }
    SomeTotalAgrees(ParsedInvoice(categories, raw.(total := None)).value);
  }

  // ---------------------------------------------------------------- the totals in terms of the raw lines

  function LineNet(treatment: Treatment): RawLine -> int {
    (l: RawLine) => SplitOf(treatment, l).net
  }

  function LineGross(treatment: Treatment): RawLine -> int {
    (l: RawLine) => SplitOf(treatment, l).gross
  }

  function SectionNet(s: Section): int { SumBy(s.lines, LineNet(s.treatment)) }

  function SectionGross(s: Section): int { SumBy(s.lines, LineGross(s.treatment)) }

  lemma {:induction false} LinesSum(lines: seq<RawLine>, s: Section, categories: CategoryMap, issuerId: string)
    requires Collect(lines, LineParser(categories, issuerId, s)).Ok?
    ensures var parsed := Collect(lines, LineParser(categories, issuerId, s)).value;
      SumBy(parsed, NetOf) == SumBy(lines, LineNet(s.treatment))
          && SumBy(parsed, GrossOf) == SumBy(lines, LineGross(s.treatment))
  {
    if lines != [] {
      LinesSum(lines[..|lines| - 1], s, categories, issuerId);
    }
  }

  lemma {:induction false} SectionsSum(sections: seq<Section>, categories: CategoryMap, issuerId: string)
    requires Collect(sections, SectionParser(categories, issuerId)).Ok?
    ensures var parsed := Flatten(Collect(sections, SectionParser(categories, issuerId)).value);
      SumBy(parsed, NetOf) == SumBy(sections, SectionNet) && SumBy(parsed, GrossOf) == SumBy(sections, SectionGross)
  {
    if sections != [] {
      var init, s := sections[..|sections| - 1], sections[|sections| - 1];
      SectionsSum(init, categories, issuerId);
      LinesSum(s.lines, s, categories, issuerId);
      var before, here := Collect(init, SectionParser(categories, issuerId)).value,
          ParsedSection(categories, issuerId, s).value;
      assert (before + [here])[..|before|] == before;
      SumConcat(Flatten(before), here, NetOf);
      SumConcat(Flatten(before), here, GrossOf);
    }
  }

  // ---------------------------------------------------------------- documents of VAT-inclusive fees

  /** The VAT, in milli-fils, of the fils by which a fee exceeds a multiple of 21 fils. */
  function Excess(l: RawLine): int {
    (5000 * (l.gross / MF_PER_FIL % 21) + 52) / 105
  }

  function SectionExcess(s: Section): int { SumBy(s.lines, Excess) }

  predicate WholeInclusive(s: Section) {
    s.treatment.Inclusive? && forall l :: l in s.lines ==> Statable(l.gross)
  }

  /** In blocks of 21 fils and what is left over. */
  lemma CarvedOutByRemainder(a: nat, b: nat)
    requires b < 21
    ensures DivideHalfUp(MF_PER_FIL * (21 * a + b) * 5, 105) == MF_PER_FIL * a + (5000 * b + 52) / 105
    ensures (5000 * b + 52) / 105 < MF_PER_FIL && ((5000 * b + 52) / 105 == 0 <==> b == 0)
  {
  }

  lemma CarvedOutNet(fils: nat)
    ensures Vat.SplitInclusive(MF_PER_FIL * fils).net == MF_PER_FIL * (fils - fils / 21)
      - (5000 * (fils % 21) + 52) / 105
  {
    CarvedOutByRemainder(fils / 21, fils % 21);
  }

  lemma MultipleIsWhole(fils: int)
    ensures WholeFils(MF_PER_FIL * fils)
  {
  }

  /** An inclusive fee of whole fils is off a net of whole fils by its excess. */
  lemma NetIsOffByExcess(l: RawLine)
    requires Statable(l.gross)
    ensures SplitOf(Inclusive, l).net >= 0 && WholeFils(SplitOf(Inclusive, l).net + Excess(l))
    ensures 0 <= Excess(l) < MF_PER_FIL && (Excess(l) == 0 <==> l.gross / MF_PER_FIL % 21 == 0)
  {
    var fils := l.gross / MF_PER_FIL;
    CarvedOutNet(fils);
    CarvedOutByRemainder(0, fils % 21);
    MultipleIsWhole(fils - fils / 21);
  }

  /** The net is off whole fils by the excess, and the gross is not. */
  ghost predicate OffBy(net: int, gross: int, excess: int) {
    net >= 0 && WholeFils(net + excess) && Statable(gross)
  }

  lemma OffByAdds(net: int, gross: int, excess: int, net': int, gross': int, excess': int)
    requires OffBy(net, gross, excess) && OffBy(net', gross', excess')
    ensures OffBy(net + net', gross + gross', excess + excess')
  {
  }

  lemma {:induction false} LinesAreOffByExcess(lines: seq<RawLine>)
    requires forall l :: l in lines ==> Statable(l.gross)
    ensures OffBy(SumBy(lines, LineNet(Inclusive)), SumBy(lines, LineGross(Inclusive)), SumBy(lines, Excess))
  {
    if lines != [] {
      var init, l := lines[..|lines| - 1], lines[|lines| - 1];
      assert l in lines;
      LinesAreOffByExcess(init);
      NetIsOffByExcess(l);
      OffByAdds(SumBy(init, LineNet(Inclusive)), SumBy(init, LineGross(Inclusive)), SumBy(init, Excess),
                SplitOf(Inclusive, l).net, l.gross, Excess(l));
    }
  }

  lemma {:induction false} SectionsAreOffByExcess(sections: seq<Section>)
    requires forall s :: s in sections ==> WholeInclusive(s)
    ensures OffBy(SumBy(sections, SectionNet), SumBy(sections, SectionGross), SumBy(sections, SectionExcess))
  {
    if sections != [] {
      var init, s := sections[..|sections| - 1], sections[|sections| - 1];
      assert s in sections;
      SectionsAreOffByExcess(init);
      LinesAreOffByExcess(s.lines);
      OffByAdds(SumBy(init, SectionNet), SumBy(init, SectionGross), SumBy(init, SectionExcess), SectionNet(s),
          SectionGross(s), SectionExcess(s));
    }
  }

  lemma WholeTogether(net: int, gross: int, excess: int)
    requires OffBy(net, gross, excess)
    ensures Statable(net) <==> excess % MF_PER_FIL == 0
  {
  }

  /** A document of VAT-inclusive fees in whole fils can state a total that is accepted exactly when the excesses of its
      lines add up to whole fils; otherwise no stated net agrees with its lines. */
  lemma InclusiveTotalsCanBeStatedExactly(categories: CategoryMap, raw: RawInvoice)
    requires ParsedInvoice(categories, raw.(total := None)).Ok? && forall s :: s in raw.sections ==> WholeInclusive(s)
    ensures (exists t: StatedTotal :: ParsedInvoice(categories, raw.(total := Some(t))).Ok?) <==>
      SumBy(raw.sections, SectionExcess) % MF_PER_FIL == 0
  {
    TotalCanBeStatedExactly(categories, raw);
    SectionsAreOffByExcess(raw.sections);
    WholeTogether(SumBy(raw.sections, SectionNet), SumBy(raw.sections, SectionGross),
        SumBy(raw.sections, SectionExcess));
  }

  // ---------------------------------------------------------------- a document of one fee

  lemma CollectOne<T, R, E>(x: T, f: T -> Result<R, E>)
    requires f(x).Ok?
    ensures Collect([x], f) == Ok([f(x).value])
  {
    var xs := [x];
    assert xs[..|xs| - 1] == [] && Collect(xs[..|xs| - 1], f) == Ok([]);
    assert [] + [f(x).value] == [f(x).value];
  }

  lemma OneFeeParsed(categories: CategoryMap, raw: RawInvoice, s: Section, l: RawLine)
    requires raw.sections == [s] && s.lines == [l] && s.treatment.Inclusive? && l.gross >= 0 && l.units >= 0
    ensures ParsedInvoice(categories, raw.(total := None)).Ok? && SumBy(raw.sections, SectionExcess) == Excess(l)
  {
    CollectOne(l, LineParser(categories, raw.issuerId, s));
    CollectOne(s, SectionParser(categories, raw.issuerId));
    assert [s] == [] + [s] && [l] == [] + [l];
    SumSnoc([], s, SectionExcess);
    SumSnoc([], l, Excess);
  }

  /** A document of one VAT-inclusive fee in whole fils can state a total exactly when the fee is a multiple of 21
      fils. */
  lemma InclusiveTotalCanBeStatedExactly(categories: CategoryMap, raw: RawInvoice, s: Section, l: RawLine)
    requires raw.sections == [s] && s.lines == [l] && l.units >= 0 && WholeInclusive(s)
    ensures (exists t: StatedTotal :: ParsedInvoice(categories, raw.(total := Some(t))).Ok?)
      <==> l.gross / MF_PER_FIL % 21 == 0
  {
    assert l in s.lines && Statable(l.gross);
    OneFeeParsed(categories, raw, s, l);
    InclusiveTotalsCanBeStatedExactly(categories, raw);
    NetIsOffByExcess(l);
  }
}
