/** The two VAT treatments: 5% added to a net amount, and 5/105 carved out of a gross one. */
module Vat {
  import opened Collections
  import opened Money
  import PayableReconciliation

  datatype Split = Split(net: int, vat: int, gross: int)

  function SplitExclusive(net: int): Split {
    var vat := DivideHalfUp(net * 5, 100);
    Split(net, vat, net + vat)
  }

  function SplitInclusive(gross: int): Split {
    var vat := DivideHalfUp(gross * 5, 105);
    Split(gross - vat, vat, gross)
  }

  /** Carving VAT out of a gross that was built by adding it recovers the same split. */
  lemma InclusiveUndoesExclusive(net: int)
    ensures SplitInclusive(SplitExclusive(net).gross) == SplitExclusive(net)
  {
  }

  /** Adding VAT back to a net that was carved out recovers the gross, except when the gross leaves remainder 10
      of 21 units: there the carved-out net belongs to a neighbouring gross. */
  lemma {:induction false} ExclusiveUndoesInclusiveExactly(gross: int)
    ensures SplitExclusive(SplitInclusive(gross).net) == SplitInclusive(gross) <==> Abs(gross) % 21 != 10
  {
    var g: nat := Abs(gross);
    ByRemainder(g / 21, g % 21);
    var net := SplitInclusive(g).net;
    SignDoesNotMatter(g, 105);
    SignDoesNotMatter(net, 100);
  }

  /** Both treatments in terms of whole 21-unit blocks and what is left over. */
  lemma ByRemainder(a: nat, b: nat)
    requires b < 21
    ensures DivideHalfUp((21 * a + b) * 5, 105) == a + if b >= 11 then 1 else 0
    ensures var net := 20 * a + b - if b >= 11 then 1 else 0;
      DivideHalfUp(net * 5, 100) == a + if b >= 10 then 1 else 0
  {
  }

  lemma SignDoesNotMatter(x: int, d: int)
    requires d > 0
    ensures DivideHalfUp((-x) * 5, d) == -DivideHalfUp(x * 5, d)
  {
  }

  /** Ten milli-fils gross carry no VAT, yet ten milli-fils net attract one. */
  lemma ExclusiveNeedNotUndoInclusive()
    ensures SplitInclusive(10) == Split(10, 0, 10) && SplitExclusive(10) == Split(10, 1, 11)
  {
  }

  function Amount(x: int): int { x }

  function VatOnNet(net: int): int { SplitExclusive(net).vat }

  function VatInGross(gross: int): int { SplitInclusive(gross).vat }

  /** Within half a milli-fil of the exact 5%, and of the exact 5/105. */
  lemma VatIsNear(x: int)
    ensures -100 <= 2 * (100 * VatOnNet(x) - 5 * x) <= 100
    ensures -105 <= 2 * (105 * VatInGross(x) - 5 * x) <= 105
  {
    RoundingError(x * 5, 100);
    RoundingError(x * 5, 105);
  }

  lemma {:induction false} RowsAreNear(rows: seq<int>)
    ensures -(100 * |rows|) <= 2 * (100 * SumBy(rows, VatOnNet) - 5 * SumBy(rows, Amount)) <= 100 * |rows|
    ensures -(105 * |rows|) <= 2 * (105 * SumBy(rows, VatInGross) - 5 * SumBy(rows, Amount)) <= 105 * |rows|
  {
    if rows != [] {
      RowsAreNear(rows[..|rows| - 1]);
      VatIsNear(rows[|rows| - 1]);
    }
  }

  /** Twice the distance between two figures near the same quotient. */
  lemma NearEachOther(x: int, y: int, n: int, k: nat)
    ensures -(100 * k) <= 2 * (100 * x - n) <= 100 * k && -100 <= 2 * (100 * y - n) <= 100 ==> 2 * Abs(x - y) <= k + 1
    ensures -(105 * k) <= 2 * (105 * x - n) <= 105 * k && -105 <= 2 * (105 * y - n) <= 105 ==> 2 * Abs(x - y) <= k + 1
  {
  }

  /** What breaking a charge over rows adds to its VAT. */
  function MovedOnNet(rows: seq<int>): int { SumBy(rows, VatOnNet) - VatOnNet(SumBy(rows, Amount)) }

  function MovedInGross(rows: seq<int>): int { SumBy(rows, VatInGross) - VatInGross(SumBy(rows, Amount)) }

  /** Breaking one category over k rows moves its VAT by at most (k + 1) / 2 milli-fils, under either treatment. */
  lemma SplittingRowsMovesVatLittle(rows: seq<int>)
    ensures 2 * Abs(MovedOnNet(rows)) <= |rows| + 1 && 2 * Abs(MovedInGross(rows)) <= |rows| + 1
  {
    RowsAreNear(rows);
    VatIsNear(SumBy(rows, Amount));
    NearEachOther(SumBy(rows, VatOnNet), VatOnNet(SumBy(rows, Amount)), 5 * SumBy(rows, Amount), |rows|);
    NearEachOther(SumBy(rows, VatInGross), VatInGross(SumBy(rows, Amount)), 5 * SumBy(rows, Amount), |rows|);
  }

  lemma WithinTolerance(units: int, netVariance: int, vatVariance: int, tolerance: int, k: nat)
    requires 2 * Abs(netVariance) <= k && 2 * Abs(vatVariance) <= k <= 2 * tolerance
    ensures PayableReconciliation.ClassifyVariance(units, units, netVariance, vatVariance, tolerance).None?
  {
  }

  /** A charge the provider breaks over k rows never differs enough from the single expected line to become a
      break, as long as k + 1 is at most twice the tolerance: a net charge moves only its VAT, a gross charge moves
      its VAT and, the other way, its net. */
  lemma SplittingRowsRaisesNoBreak(rows: seq<int>, units: int, tolerance: int)
    requires |rows| + 1 <= 2 * tolerance
    ensures PayableReconciliation.ClassifyVariance(units, units, 0, MovedOnNet(rows), tolerance).None?
    ensures PayableReconciliation.ClassifyVariance(units, units, -MovedInGross(rows), MovedInGross(rows),
      tolerance).None?
  {
    SplittingRowsMovesVatLittle(rows);
    WithinTolerance(units, 0, MovedOnNet(rows), tolerance, |rows| + 1);
    WithinTolerance(units, -MovedInGross(rows), MovedInGross(rows), tolerance, |rows| + 1);
  }
}
