/** A provider may break a charge over rows, each of them rounded on its own. Over a whole run that raises no break. */
module SplitRows {
  import opened Collections
  import opened PayableReconciliation
  import opened ReconciliationVerdicts
  import Vat

  function GrossOfLine(l: DocumentLine): int { l.net + l.vat }

  /** The net came first and VAT was added to it. */
  predicate TaxAdded(net: int, vat: int) {
    vat == Vat.VatOnNet(net)
  }

  /** The gross came first and VAT was carved out of it. */
  predicate TaxCarvedOut(net: int, vat: int) {
    vat == Vat.VatInGross(net + vat)
  }

  /** The rows make up the expected line's amount, and each was taxed the way the expected line was. */
  predicate MakesUp(rows: seq<DocumentLine>, e: ExpectedLine) {
    || (TaxAdded(e.net, e.vat) && SumBy(rows, NetOfLine) == e.net && forall l :: l in rows ==> TaxAdded(l.net, l.vat))
    || (TaxCarvedOut(e.net, e.vat) && SumBy(rows, GrossOfLine) == e.net + e.vat && forall l ::
      l in rows ==> TaxCarvedOut(l.net, l.vat))
  }

  /** The document bills the expected line over rows few enough for the tolerance. */
  predicate BillsInRows(d: Document, late: set<string>, e: ExpectedLine, tolerance: int) {
    var rows := Members(PriceableLines(d, late), KeyOfLine, KeyOfExpected(e));
    rows != [] && |rows| + 1 <= 2 * tolerance && SumBy(rows, UnitsOfLine) == e.units && MakesUp(rows, e)
  }

  lemma AddedRowsAreNear(rows: seq<DocumentLine>, e: ExpectedLine)
    requires TaxAdded(e.net, e.vat) && SumBy(rows, NetOfLine) == e.net && forall l ::
      l in rows ==> TaxAdded(l.net, l.vat)
    ensures 2 * Abs(SumBy(rows, VatOfLine) - e.vat) <= |rows| + 1
  {
    var nets := Map(rows, NetOfLine);
    SumOfMap(rows, NetOfLine, Vat.Amount, NetOfLine);
    SumOfMap(rows, NetOfLine, Vat.VatOnNet, VatOfLine);
    Vat.SplittingRowsMovesVatLittle(nets);
  }

  lemma CarvedRowsAreNear(rows: seq<DocumentLine>, e: ExpectedLine)
    requires TaxCarvedOut(e.net, e.vat) && SumBy(rows, GrossOfLine) == e.net + e.vat
    requires forall l :: l in rows ==> TaxCarvedOut(l.net, l.vat)
    ensures 2 * Abs(SumBy(rows, VatOfLine) - e.vat) <= |rows| + 1
    ensures SumBy(rows, NetOfLine) - e.net == e.vat - SumBy(rows, VatOfLine)
  {
    var grosses := Map(rows, GrossOfLine);
    SumOfMap(rows, GrossOfLine, Vat.Amount, GrossOfLine);
    SumOfMap(rows, GrossOfLine, Vat.VatInGross, VatOfLine);
    Vat.SplittingRowsMovesVatLittle(grosses);
    SumLinear(rows, NetOfLine, VatOfLine, GrossOfLine);
  }

  lemma RowsAreCovered(d: Document, late: set<string>, e: ExpectedLine, tolerance: int)
    requires BillsInRows(d, late, e, tolerance)
    ensures Covers(d, late, e, tolerance)
  {
    var rows := Members(PriceableLines(d, late), KeyOfLine, KeyOfExpected(e));
    if TaxAdded(e.net, e.vat) && SumBy(rows, NetOfLine) == e.net && forall l :: l in rows ==> TaxAdded(l.net, l.vat) {
      AddedRowsAreNear(rows, e);
    } else {
      CarvedRowsAreNear(rows, e);
    }
  }

  /** Where every key is charged once and as expected, a run whose documents break their charges over rows, in whatever
      way, reports no break: rounding row by row cannot raise one. */
  lemma SplitRowsRaiseNoBreak(input: Input)
    requires Refusal(input).None? && BilledOnce(input)
    requires forall e :: e in input.expectedLines ==>
      exists d :: d in input.documents && BillsInRows(d, input.latePaidPeriods, e, input.tolerance)
    ensures Reconciled(input, WorkOf(input)).breaks == []
  {
    forall e | e in input.expectedLines
      ensures exists d :: d in input.documents && Covers(d, input.latePaidPeriods, e, input.tolerance)
    {
      var d :| d in input.documents && BillsInRows(d, input.latePaidPeriods, e, input.tolerance);
      RowsAreCovered(d, input.latePaidPeriods, e, input.tolerance);
    }
    NoBreaksExactlyWhenClean(input);
  }
}
