/** Integer money: symmetric half-up division and the crossing from milli-fils to whole fils. */
module Money {
  import opened Collections

  const MF_PER_FIL := 1000

  /** Half-up on the magnitude, with the numerator's sign. */
  function DivideHalfUp(numerator: int, denominator: int): int
    requires denominator > 0
  {
    var result := (Abs(numerator) + denominator / 2) / denominator;
    if numerator < 0 then -result else result
  }

  function ToFils(milliFils: int): int {
    DivideHalfUp(milliFils, MF_PER_FIL)
  }

  predicate WholeFils(milliFils: int) { milliFils % MF_PER_FIL == 0 }

  lemma FilsRoundToThemselves(fils: int)
    ensures ToFils(MF_PER_FIL * fils) == fils
  {
  }

  lemma RoundsToItself(milliFils: int)
    requires WholeFils(milliFils)
    ensures MF_PER_FIL * ToFils(milliFils) == milliFils
  {
    FilsRoundToThemselves(milliFils / MF_PER_FIL);
  }

  /** The nearest integer, with ties away from zero: the exact range of numerators that round to `q`. */
  lemma {:induction false} HalfUpExactly(n: nat, d: int, q: int)
    requires d > 0
    ensures q == DivideHalfUp(n, d) <==> (2 * q - 1) * d <= 2 * n < (2 * q + 1) * d
  {
    var r := (n + d / 2) / d;
    QuotientBounds(n + d / 2, d);
    HalfUpRange(n, d, r);
    if (2 * q - 1) * d <= 2 * n < (2 * q + 1) * d {
      OrderedFactors(2 * q - 1, 2 * r + 1, d);
      OrderedFactors(2 * r - 1, 2 * q + 1, d);
    }
  }

  lemma HalfUpRange(n: int, d: int, r: int)
    requires d > 0 && r * d <= n + d / 2 < (r + 1) * d
    ensures (2 * r - 1) * d <= 2 * n < (2 * r + 1) * d
  {
    assert (r + 1) * d == r * d + d;
    assert (2 * r - 1) * d == 2 * (r * d) - d && (2 * r + 1) * d == 2 * (r * d) + d;
  }

  lemma QuotientBounds(n: nat, d: int)
    requires d > 0
    ensures (n / d) * d <= n < (n / d + 1) * d
  {
    assert n == (n / d) * d + n % d;
    assert (n / d + 1) * d == (n / d) * d + d;
  }

  lemma OrderedFactors(x: int, y: int, d: int)
    requires d > 0 && x * d < y * d
    ensures x < y
  {
    assert (y - x) * d == y * d - x * d;
  }

  /** Rounding moves a quotient by at most half a unit, whatever its sign. */
  lemma RoundingError(n: int, d: int)
    requires d > 0
    ensures -d <= 2 * (DivideHalfUp(n, d) * d - n) <= d
  {
    var q := DivideHalfUp(Abs(n), d);
    HalfUpExactly(Abs(n), d, q);
    assert (2 * q - 1) * d == 2 * (q * d) - d && (2 * q + 1) * d == 2 * (q * d) + d;
    if n < 0 {
      assert DivideHalfUp(n, d) == -q && (-q) * d == -(q * d);
    }
  }

  /** A negative numerator rounds as its magnitude does. */
  lemma HalfUpIsSymmetric(n: int, d: int)
    requires d > 0
    ensures DivideHalfUp(-n, d) == -DivideHalfUp(n, d)
  {
  }

  lemma {:induction false} HalfUpMonotone(m: nat, n: nat, d: int)
    requires d > 0 && m <= n
    ensures 0 <= DivideHalfUp(m, d) <= DivideHalfUp(n, d)
  {
    var p, q := DivideHalfUp(m, d), DivideHalfUp(n, d);
    HalfUpExactly(m, d, p);
    HalfUpExactly(n, d, q);
    OrderedFactors(2 * p - 1, 2 * q + 1, d);
    OrderedFactors(-1, 2 * p + 1, d);
  }

  lemma {:induction false} HalfUpOfMultiple(q: nat, d: int)
    requires d > 0
    ensures DivideHalfUp(q * d, d) == q
  {
    assert q * d >= 0;
    assert (2 * q - 1) * d == 2 * (q * d) - d && (2 * q + 1) * d == 2 * (q * d) + d;
    HalfUpExactly(q * d, d, q);
  }

  // ---------------------------------------------------------------- the wire triple

  datatype WireTriple = WireTriple(net: int, vat: int, gross: int)

  /** The parts are rounded and then added up, provided that they tied before. */
  function ToWireMoneyTriple(net: int, vat: int, gross: int): Result<WireTriple, ()> {
    if net + vat != gross then Err(())
    else Ok(WireTriple(ToFils(net), ToFils(vat), ToFils(net) + ToFils(vat)))
  }

  /** A tying source crosses as a tying triple whose gross is within one fil of the source's. */
  lemma WireTripleTies(net: int, vat: int, gross: int)
    ensures ToWireMoneyTriple(net, vat, gross).Ok? <==> net + vat == gross
    ensures net + vat == gross ==>
      var t := ToWireMoneyTriple(net, vat, gross).value;
      t.net + t.vat == t.gross && Abs(MF_PER_FIL * t.gross - gross) <= MF_PER_FIL
  {
    RoundingError(net, MF_PER_FIL);
    RoundingError(vat, MF_PER_FIL);
  }

  /** How far a non-negative amount is past its last whole fil. */
  function Past(milliFils: int): int { milliFils % MF_PER_FIL }

  /** Rounding the three figures one by one would tie exactly when the two remainders round, together, the way
      their sum rounds. */
  lemma {:induction false} IndependentRoundingTiesExactly(net: nat, vat: nat)
    ensures ToFils(net) + ToFils(vat) == ToFils(net + vat) <==>
      (if Past(net) >= 500 then 1 else 0) + (if Past(vat) >= 500 then 1 else 0)
      == (if Past(net) + Past(vat) >= 1500 then 2 else if Past(net) + Past(vat) >= 500 then 1 else 0)
  {
    FilsByRemainder(net / MF_PER_FIL, Past(net));
    FilsByRemainder(vat / MF_PER_FIL, Past(vat));
    var whole, past := net / MF_PER_FIL + vat / MF_PER_FIL, Past(net) + Past(vat);
    if past >= MF_PER_FIL {
      FilsByRemainder(whole + 1, past - MF_PER_FIL);
    } else {
      FilsByRemainder(whole, past);
    }
  }

  lemma FilsByRemainder(whole: nat, past: nat)
    requires past < MF_PER_FIL
    ensures ToFils(whole * MF_PER_FIL + past) == whole + if past >= 500 then 1 else 0
  {
  }

  /** Net 2500.5 and VAT 125.5 fils round to 2501 and 126, while the gross of 2626 stays as it is. */
  lemma IndependentRoundingNeedNotTie()
    ensures ToFils(2_500_500) + ToFils(125_500) != ToFils(2_626_000)
  {
  }
}
