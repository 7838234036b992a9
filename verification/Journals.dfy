/** Double-entry journals: signed balances per account, and the two checks every journal passes before it is posted. */
module Journals {
  import opened Collections

  datatype Side = Debit | Credit

  datatype FeeClass = Fee(name: string) | OutputVat | SettlementCash | SettlementClearing | SettlementResidue

  datatype Line = Line(account: string, side: Side, amount: int, feeClass: FeeClass, sourceRefs: seq<string>)

  datatype Journal = Journal(sourceType: string, sourceId: string, lines: seq<Line>, debit: int, credit: int)

  datatype Error =
    | Unbalanced | InsufficientLines
    | NotApproved | NotConfigured | NoAccount | NegativeAmount | NotPositive
    | NoLines | MixedStreams | AlreadyAccepted
    | WrongPeriod | TotalsDoNotTie | CategoryDisagrees | SplitsDoNotTie | RepeatedSource
    | Unnamed

  function DebitOf(l: Line): int { if l.side.Debit? then l.amount else 0 }

  function CreditOf(l: Line): int { if l.side.Credit? then l.amount else 0 }

  /** Debits count positive. */
  function SignedOf(l: Line): int { if l.side.Debit? then l.amount else -l.amount }

  predicate NonZero(l: Line) { l.amount != 0 }

  function OnAccount(account: string): Line -> int {
    (l: Line) => if l.account == account then SignedOf(l) else 0
  }

  /** The amount, if it is on the account asked about. */
  function At(a: string, account: string, amount: int): int {
    if a == account then amount else 0
  }

  /** What the lines leave on an account, debits positive. */
  function Balance(lines: seq<Line>, account: string): int {
    SumBy(lines, OnAccount(account))
  }

  function TrialBalance(lines: seq<Line>): int {
    SumBy(lines, SignedOf)
  }

  predicate Alphanumeric(c: char) {
    'A' <= c <= 'Z' || 'a' <= c <= 'z' || '0' <= c <= '9'
  }

  /** A journal is named after the letters and digits of its source's id. */
  predicate Named(sourceId: string) {
    exists c :: c in sourceId && Alphanumeric(c)
  }

  lemma NamedAfterSuffix(sourceId: string, suffix: string)
    requires Named(suffix) || Named(sourceId)
    ensures Named(sourceId + suffix)
  {
    var c :| (c in suffix || c in sourceId) && Alphanumeric(c);
    assert c in sourceId + suffix;
  }

  /** Debits must equal credits, there must be two lines to post, and the source must yield a name. */
  function Post(sourceType: string, sourceId: string, lines: seq<Line>): Result<Journal, Error> {
    var debit, credit := SumBy(lines, DebitOf), SumBy(lines, CreditOf);
    if debit != credit then Err(Unbalanced)
    else if |lines| < 2 then Err(InsufficientLines)
    else if !Named(sourceId) then Err(Unnamed)
    else Ok(Journal(sourceType, sourceId, lines, debit, credit))
  }

  /** Lines of nothing are dropped before the checks. */
  function Assemble(sourceType: string, sourceId: string, lines: seq<Line>): Result<Journal, Error> {
    Post(sourceType, sourceId, Keep(lines, NonZero))
  }

  lemma {:induction false} TrialIsDebitsLessCredits(lines: seq<Line>)
    ensures TrialBalance(lines) == SumBy(lines, DebitOf) - SumBy(lines, CreditOf)
  {
    if lines != [] {
      TrialIsDebitsLessCredits(lines[..|lines| - 1]);
    }
  }

  /** Dropping the lines of nothing changes no sum that is zero on them. */
  lemma {:induction false} ZeroLinesCountNothing(lines: seq<Line>, w: Line -> int)
    requires forall l :: l in lines && !NonZero(l) ==> w(l) == 0
    ensures SumBy(Keep(lines, NonZero), w) == SumBy(lines, w)
  {
    if lines != [] {
      var init, last := lines[..|lines| - 1], lines[|lines| - 1];
      ZeroLinesCountNothing(init, w);
      SumSnoc(Keep(init, NonZero), last, w);
      assert last in lines;
    }
  }

  /** Balanced lines cannot be a single line of money. */
  lemma BalancedPairs(lines: seq<Line>)
    requires TrialBalance(Keep(lines, NonZero)) == 0
    ensures |Keep(lines, NonZero)| != 1
  {
    KeepExact(lines, NonZero);
    if |Keep(lines, NonZero)| == 1 {
      var l := Keep(lines, NonZero)[0];
      assert Keep(lines, NonZero) == [] + [l] && l in Keep(lines, NonZero);
      SumSnoc([], l, SignedOf);
    }
  }

  /** A journal is assembled exactly when its lines balance, some line carries money and its source yields a name. */
  lemma AssembledExactly(sourceType: string, sourceId: string, lines: seq<Line>)
    ensures Assemble(sourceType, sourceId, lines).Ok? <==>
      TrialBalance(lines) == 0 && (exists l :: l in lines && NonZero(l)) && Named(sourceId)
    ensures Assemble(sourceType, sourceId, lines).Ok? ==>
      var kept := Assemble(sourceType, sourceId, lines).value.lines;
      kept == Keep(lines, NonZero) && TrialBalance(kept) == 0
  {
    TrialIsDebitsLessCredits(Keep(lines, NonZero));
    ZeroLinesCountNothing(lines, SignedOf);
    KeepNothing(lines, NonZero);
    if TrialBalance(lines) == 0 {
      BalancedPairs(lines);
    }
  }

  lemma AssembledBalance(lines: seq<Line>, account: string)
    ensures Balance(Keep(lines, NonZero), account) == Balance(lines, account)
  {
    ZeroLinesCountNothing(lines, OnAccount(account));
  }

  lemma SumOfTwo<T>(x: T, y: T, w: T -> int)
    ensures SumBy([x, y], w) == w(x) + w(y)
  {
    assert [x, y] == ([] + [x]) + [y];
    SumSnoc([] + [x], y, w);
    SumSnoc([], x, w);
  }

  lemma SumOfFive<T>(a: T, b: T, c: T, d: T, e: T, w: T -> int)
    ensures SumBy([a, b, c, d, e], w) == w(a) + w(b) + w(c) + w(d) + w(e)
  {
    assert [a, b, c, d, e] == ([a, b] + [c]) + [d, e];
    SumConcat([a, b] + [c], [d, e], w);
    SumSnoc([a, b], c, w);
    SumOfTwo(a, b, w);
    SumOfTwo(d, e, w);
  }

  /** The list of lines a journal is built up in. */
  class Draft {
    var lines: seq<Line>

    constructor ()
      ensures lines == []
    {
      lines := [];
    }

    /** Negative amounts and unnamed accounts are refused; a line of nothing is not added. */
    method AddLine(l: Line) returns (refused: Option<Error>)
      modifies this
      ensures refused == Refusal(l)
      ensures lines == if refused.None? then old(lines) + Kept(l) else old(lines)
    {
      if l.amount < 0 { return Some(NegativeAmount); }
      if l.amount == 0 { return None; }
      if Blank(l.account) { return Some(NotConfigured); }
      lines := lines + [l];
      refused := None;
    }
  }

  function Refusal(l: Line): Option<Error> {
    if l.amount < 0 then Some(NegativeAmount) else if l.amount != 0
        && Blank(l.account) then Some(NotConfigured) else None
  }

  function Kept(l: Line): seq<Line> {
    if NonZero(l) then [l] else []
  }

  lemma KeepOne(l: Line)
    ensures Keep([l], NonZero) == Kept(l)
  {
    assert [] + [l] == [l];
    KeepSnoc([], l, NonZero);
  }
}
