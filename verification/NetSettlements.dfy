/** Dual-role net settlement: each counterparty's two roles are reported gross, with the part of them that cancels, and
    whatever the cash does not match is the residue. */
module NetSettlements {
  import opened Collections
  import opened Money
  import opened Settlements

  datatype Recipient = Nebras | UnderlyingLfi

  datatype Position = Position(
    counterpartyId: string, receivable: int, payable: int, recipient: Recipient,
    receivableRefs: seq<string>, payableRefs: seq<string>)

  datatype Adjustment = Adjustment(ref: string, signed: int, approvalId: string)

  datatype NetInput = NetInput(
    reference: string, period: string, received: int, positions: seq<Position>, adjustments: seq<Adjustment>,
        tolerance: Option<int>)

  datatype Explanation = Explanation(
    counterpartyId: string, recipient: Recipient, receivable: int, payable: int, net: int, netted: int, dualRole: bool)

  datatype NetDecomposition = NetDecomposition(
    reference: string, period: string, received: int, expectedNet: int,
    grossReceivable: int, nebrasCost: int, lfiCost: int, adjustment: int, totalNetted: int,
    residue: int, tolerance: int,
    counterparties: seq<Explanation>, lines: seq<SettlementLine>, broken: Option<Residue>)

  datatype NetError =
    | NoReference | NegativeTolerance | RepeatedCounterparty | NegativePosition | RepeatedAdjustment | Unapproved

  // ---------------------------------------------------------------- what each figure is

  function CounterpartyOf(p: Position): string { p.counterpartyId }

  function ReceivableOf(p: Position): int { p.receivable }

  function CostTo(recipient: Recipient): Position -> int {
    (p: Position) => if p.recipient == recipient then p.payable else 0
  }

  function RefOfAdjustment(a: Adjustment): string { a.ref }

  function SignedOfAdjustment(a: Adjustment): int { a.signed }

  predicate DualRole(p: Position) { p.receivable > 0 && p.payable > 0 }

  function Netted(p: Position): int {
    if DualRole(p) then Min(p.receivable, p.payable) else 0
  }

  function Explain(p: Position): Explanation {
    Explanation(p.counterpartyId, p.recipient, p.receivable, p.payable, p.receivable - p.payable, Netted(p),
        DualRole(p))
  }

  /** The whole amount rides its first ledger reference; the others carry nothing. */
  function CitedLine(role: Role, id: string, first: string, signed: int): string -> SettlementLine {
    (ref: string) => SettlementLine(role, ref, id, if ref == first then signed else 0, ref)
  }

  function SideLines(role: Role, id: string, refs: seq<string>, signed: int): seq<SettlementLine> {
    if signed == 0 || refs == [] then [] else Map(refs, CitedLine(role, id, refs[0], signed))
  }

  function PositionLines(p: Position): seq<SettlementLine> {
    SideLines(Receivable, p.counterpartyId, p.receivableRefs, p.receivable)
    + SideLines(Payable, p.counterpartyId, p.payableRefs, -p.payable)
  }

  predicate IsSigned(p: Position) { p.receivable < 0 || p.payable < 0 }

  predicate LacksApproval(a: Adjustment) { Blank(a.approvalId) }

  function ReceivableRefs(p: Position): seq<string> { p.receivableRefs }

  function PayableRefs(p: Position): seq<string> { p.payableRefs }

  function Tolerance(input: NetInput): int { input.tolerance.GetOr(MF_PER_FIL) }

  function Check(input: NetInput): Result<(), NetError> {
    if Blank(input.reference) then Err(NetError.NoReference)
    else if Tolerance(input) < 0 then Err(NetError.NegativeTolerance)
    else if |Keys(input.positions, CounterpartyOf)| != |input.positions| then Err(RepeatedCounterparty)
    else if exists p :: p in input.positions && IsSigned(p) then Err(NegativePosition)
    else if |Keys(input.adjustments, RefOfAdjustment)| != |input.adjustments| then Err(RepeatedAdjustment)
    else if exists a :: a in input.adjustments && LacksApproval(a) then Err(Unapproved)
    else Ok(())
  }

  function Decomposed(input: NetInput, t: Tally, adjustment: int): NetDecomposition {
    var expectedNet := t.gross - t.nebras - t.lfi + adjustment;
    var residue := input.received - expectedNet;
    NetDecomposition(
      input.reference, input.period, input.received, expectedNet, t.gross, t.nebras, t.lfi, adjustment, t.netted,
      residue, Tolerance(input), t.counterparties, t.lines,
      if Abs(residue) > Tolerance(input)
      then Some(Residue(residue, Flatten(Map(input.positions, ReceivableRefs)),
          Flatten(Map(input.positions, PayableRefs))))
      else None)
  }

  function NetOf(input: NetInput): Result<NetDecomposition, NetError> {
    match Check(input)
    case Err(e) => Err(e)
    case Ok(_) => Ok(Decomposed(input, TallyOf(input.positions), SumBy(input.adjustments, SignedOfAdjustment)))
  }

  // ---------------------------------------------------------------- the loops

  method PushSide(lines: seq<SettlementLine>, role: Role, id: string, refs: seq<string>, signed: int)
      returns (after: seq<SettlementLine>)
    ensures after == lines + SideLines(role, id, refs, signed)
  {
    after := lines;
    if signed != 0 {
      for i := 0 to |refs|
        invariant after == lines + SideLines(role, id, refs, signed)[..i]
      {
        after := after + [SettlementLine(role, refs[i], id, if refs[i] == refs[0] then signed else 0, refs[i])];
      }
    }
  }

  /** The running figures of the loop over positions. */
  datatype Tally = Tally(gross: int, nebras: int, lfi: int, netted: int, counterparties: seq<Explanation>,
      lines: seq<SettlementLine>)

  function TallyOf(positions: seq<Position>): Tally {
    Tally(SumBy(positions, ReceivableOf), SumBy(positions, CostTo(Nebras)), SumBy(positions, CostTo(UnderlyingLfi)),
          SumBy(positions, Netted), Map(positions, Explain), Flatten(Map(positions, PositionLines)))
  }

  method TallyPosition(t: Tally, p: Position) returns (after: Tally)
    ensures after == Add(t, p)
  {
    var dualRole := p.receivable > 0 && p.payable > 0;
    var offset := if dualRole then Min(p.receivable, p.payable) else 0;
    var lines := PushSide(t.lines, Receivable, p.counterpartyId, p.receivableRefs, p.receivable);
    lines := PushSide(lines, Payable, p.counterpartyId, p.payableRefs, -p.payable);
    assert lines == t.lines + PositionLines(p);
    var explanation := Explanation(p.counterpartyId, p.recipient, p.receivable, p.payable, p.receivable - p.payable,
        offset, dualRole);
    after := Tally(
      t.gross + p.receivable,
      if p.recipient.Nebras? then t.nebras + p.payable else t.nebras,
      if p.recipient.Nebras? then t.lfi else t.lfi + p.payable,
      t.netted + offset, t.counterparties + [explanation], lines);
  }

  /** The positions are refused at the first one that carries a negative amount. */
  method ExplainPositions(positions: seq<Position>) returns (result: Result<Tally, NetError>)
    ensures result == if exists p ::
      p in positions && IsSigned(p) then Err(NegativePosition) else Ok(TallyOf(positions))
  {
    var tally := Tally(0, 0, 0, 0, [], []);
    assert positions[..0] == [];
    for i := 0 to |positions|
      invariant forall p :: p in positions[..i] ==> !IsSigned(p)
      invariant tally == TallyOf(positions[..i])
    {
      assert positions[..i + 1] == positions[..i] + [positions[i]];
      if positions[i].receivable < 0 || positions[i].payable < 0 {
        assert IsSigned(positions[i]);
        return Err(NegativePosition);
      }
      tally := TallyPosition(tally, positions[i]);
      PositionStep(positions[..i], positions[i]);
    }
    assert positions[..|positions|] == positions;
    result := Ok(tally);
  }

  /** What one more position adds to the tally. */
  function Add(t: Tally, p: Position): Tally {
    Tally(
      t.gross + p.receivable,
      t.nebras + CostTo(Nebras)(p),
      t.lfi + CostTo(UnderlyingLfi)(p),
      t.netted + Netted(p), t.counterparties + [Explain(p)], t.lines + PositionLines(p))
  }

  lemma PositionStep(positions: seq<Position>, p: Position)
    ensures TallyOf(positions + [p]) == Add(TallyOf(positions), p)
  {
    SumSnoc(positions, p, ReceivableOf);
    SumSnoc(positions, p, CostTo(Nebras));
    SumSnoc(positions, p, CostTo(UnderlyingLfi));
    SumSnoc(positions, p, Netted);
    MapSnoc(positions, p, Explain);
    MapSnoc(positions, p, PositionLines);
    assert (Map(positions, PositionLines) + [PositionLines(p)])[..|positions|] == Map(positions, PositionLines);
  }

  method SumAdjustments(adjustments: seq<Adjustment>) returns (unapproved: bool, sum: int)
    ensures unapproved <==> exists a :: a in adjustments && LacksApproval(a)
    ensures !unapproved ==> sum == SumBy(adjustments, SignedOfAdjustment)
  {
    unapproved, sum := false, 0;
    for i := 0 to |adjustments|
      invariant !unapproved && forall a :: a in adjustments[..i] ==> !LacksApproval(a)
      invariant sum == SumBy(adjustments[..i], SignedOfAdjustment)
    {
      assert adjustments[..i + 1] == adjustments[..i] + [adjustments[i]];
      SumSnoc(adjustments[..i], adjustments[i], SignedOfAdjustment);
      if Blank(adjustments[i].approvalId) {
        assert LacksApproval(adjustments[i]);
        unapproved := true;
        return;
      }
      sum := sum + adjustments[i].signed;
    }
    assert adjustments[..|adjustments|] == adjustments;
  }

  method DecomposeNetSettlement(input: NetInput) returns (result: Result<NetDecomposition, NetError>)
    ensures result == NetOf(input)
  {
    if Blank(input.reference) { return Err(NetError.NoReference); }
    var tolerance := input.tolerance.GetOr(MF_PER_FIL);
    if tolerance < 0 { return Err(NetError.NegativeTolerance); }
    if |Keys(input.positions, CounterpartyOf)| != |input.positions| { return Err(RepeatedCounterparty); }
    var explained := ExplainPositions(input.positions);
    if explained.Err? { return Err(explained.error); }
    if |Keys(input.adjustments, RefOfAdjustment)| != |input.adjustments| { return Err(RepeatedAdjustment); }
    var unapproved, adjustment := SumAdjustments(input.adjustments);
    if unapproved { return Err(Unapproved); }
    result := Ok(Decomposed(input, explained.value, adjustment));
  }

  // ---------------------------------------------------------------- what the decomposition explains

  function NetMovement(e: Explanation): int { Abs(e.net) }

  function NetAmount(e: Explanation): int { e.net }

  /** The cash that moves plus twice what cancels is everything both roles carry, and the expected net is what the
      counterparties' nets and the adjustments come to. */
  lemma {:induction false} NettingConserves(positions: seq<Position>)
    requires forall p :: p in positions ==> !IsSigned(p)
    ensures SumBy(Map(positions, Explain), NetMovement) + 2 * SumBy(positions, Netted)
      == SumBy(positions, ReceivableOf) + SumBy(positions, CostTo(Nebras)) + SumBy(positions, CostTo(UnderlyingLfi))
    ensures SumBy(Map(positions, Explain), NetAmount)
      == SumBy(positions, ReceivableOf) - SumBy(positions, CostTo(Nebras)) - SumBy(positions, CostTo(UnderlyingLfi))
  {
    if positions != [] {
      var init, p := positions[..|positions| - 1], positions[|positions| - 1];
      assert p in positions;
      NettingConserves(init);
      MapSnoc(init, p, Explain);
      assert positions == init + [p];
      SumSnoc(Map(init, Explain), Explain(p), NetMovement);
      SumSnoc(Map(init, Explain), Explain(p), NetAmount);
    }
  }

  function Is(ref: string): string -> bool {
    (r: string) => r == ref
  }

  function CountOf(refs: seq<string>, ref: string): nat {
    |Keep(refs, Is(ref))|
  }

  lemma OneMore(x: int, k: int)
    ensures x * (k + 1) == x * k + x
  {
  }

  /** What a reference's line carries. */
  function Load(first: string, signed: int): string -> int {
    (ref: string) => if ref == first then signed else 0
  }

  lemma {:induction false} LoadsAddUp(refs: seq<string>, first: string, signed: int)
    ensures SumBy(refs, Load(first, signed)) == signed * CountOf(refs, first)
  {
    if refs != [] {
      var init := refs[..|refs| - 1];
      LoadsAddUp(init, first, signed);
      OneMore(signed, CountOf(init, first));
    }
  }

  lemma CitedSum(role: Role, id: string, refs: seq<string>, first: string, signed: int)
    ensures SumBy(Map(refs, CitedLine(role, id, first, signed)), Settlements.SignedOf) == signed * CountOf(refs, first)
  {
    SumOfMap(refs, CitedLine(role, id, first, signed), Settlements.SignedOf, Load(first, signed));
    LoadsAddUp(refs, first, signed);
  }

  lemma FirstIsCountedOnce(refs: seq<string>)
    requires refs != []
    ensures CountOf(refs, refs[0]) == 1 <==> refs[0] !in refs[1..]
  {
    assert refs == [refs[0]] + refs[1..];
    KeepConcat([refs[0]], refs[1..], Is(refs[0]));
    KeepAll([refs[0]], Is(refs[0]));
    KeepNothing(refs[1..], Is(refs[0]));
  }

  /** How many times a side's lines carry its amount: once for each place where the first reference is listed. */
  function Carries(refs: seq<string>): nat {
    if refs == [] then 0 else CountOf(refs, refs[0])
  }

  lemma SideCarries(role: Role, id: string, refs: seq<string>, signed: int)
    ensures SumBy(SideLines(role, id, refs, signed), Settlements.SignedOf) == signed * Carries(refs)
  {
    if signed != 0 && refs != [] {
      CitedSum(role, id, refs, refs[0], signed);
    }
  }

  /** One side of a position is carried in full exactly when it is nothing or its first reference is there and is not
      listed again. */
  lemma SideIsCarriedExactly(role: Role, id: string, refs: seq<string>, signed: int)
    ensures SumBy(SideLines(role, id, refs, signed), Settlements.SignedOf) == signed <==>
      signed == 0 || (refs != [] && refs[0] !in refs[1..])
  {
    SideCarries(role, id, refs, signed);
    CarriesOnceExactly(refs);
    if signed != 0 {
      TimesOne(signed, Carries(refs));
    }
  }

  lemma CarriesOnceExactly(refs: seq<string>)
    ensures Carries(refs) == 1 <==> refs != [] && refs[0] !in refs[1..]
  {
    if refs != [] {
      FirstIsCountedOnce(refs);
    }
  }

  lemma TimesOne(x: int, k: nat)
    requires x != 0
    ensures x * k == x <==> k == 1
  {
    assert x * k - x == x * (k - 1);
    if k > 1 {
      NonZeroProduct(x, k - 1);
    }
  }

  lemma NonZeroProduct(x: int, y: int)
    requires x != 0 && y > 0
    ensures x * y != 0
  {
    if x > 0 { assert x * y > 0; } else { assert x * y < 0; }
  }

  function CarriedReceivable(p: Position): int { p.receivable * Carries(p.receivableRefs) }

  function CarriedPayable(p: Position): int { p.payable * Carries(p.payableRefs) }

  lemma SidesConcat(xs: seq<SettlementLine>, ys: seq<SettlementLine>)
    ensures ReceivableSum(xs + ys) == ReceivableSum(xs) + ReceivableSum(ys)
    ensures PayableSum(xs + ys) == PayableSum(xs) + PayableSum(ys)
  {
    KeepConcat(xs, ys, IsReceivable);
    KeepConcat(xs, ys, IsPayable);
    SumConcat(Keep(xs, IsReceivable), Keep(ys, IsReceivable), Settlements.SignedOf);
    SumConcat(Keep(xs, IsPayable), Keep(ys, IsPayable), Settlements.SignedOf);
  }

  lemma OneRole(role: Role, lines: seq<SettlementLine>)
    requires forall l :: l in lines ==> l.role == role
    ensures ReceivableSum(lines) == if role.Receivable? then SumBy(lines, Settlements.SignedOf) else 0
    ensures PayableSum(lines) == if role.Payable? then -SumBy(lines, Settlements.SignedOf) else 0
  {
    if role.Receivable? {
      KeepAll(lines, IsReceivable);
      KeepNothing(lines, IsPayable);
    } else {
      KeepAll(lines, IsPayable);
      KeepNothing(lines, IsReceivable);
    }
  }

  lemma RoleCarries(role: Role, id: string, refs: seq<string>, signed: int)
    ensures ReceivableSum(SideLines(role, id, refs, signed)) == if role.Receivable? then signed * Carries(refs) else 0
    ensures PayableSum(SideLines(role, id, refs, signed)) == if role.Payable? then -(signed * Carries(refs)) else 0
  {
    SideCarries(role, id, refs, signed);
    OneRole(role, SideLines(role, id, refs, signed));
  }

  lemma NegatedTwice(x: int, k: int)
    ensures -((-x) * k) == x * k
  {
  }

  lemma PositionCarries(p: Position)
    ensures ReceivableSum(PositionLines(p)) == CarriedReceivable(p) && PayableSum(PositionLines(p)) == CarriedPayable(p)
  {
    RoleCarries(Receivable, p.counterpartyId, p.receivableRefs, p.receivable);
    RoleCarries(Payable, p.counterpartyId, p.payableRefs, -p.payable);
    NegatedTwice(p.payable, Carries(p.payableRefs));
    SidesConcat(SideLines(Receivable, p.counterpartyId, p.receivableRefs, p.receivable),
                SideLines(Payable, p.counterpartyId, p.payableRefs, -p.payable));
  }

  /** The lines handed to the ledger carry each side of each position as often as its first reference is listed: not at
      all when it cites nothing. */
  lemma {:induction false} LinesCarry(positions: seq<Position>)
    ensures ReceivableSum(TallyOf(positions).lines) == SumBy(positions, CarriedReceivable)
    ensures PayableSum(TallyOf(positions).lines) == SumBy(positions, CarriedPayable)
  {
    if positions != [] {
      var init, p := positions[..|positions| - 1], positions[|positions| - 1];
      assert positions == init + [p];
      LinesCarry(init);
      PositionStep(init, p);
      PositionCarries(p);
      SidesConcat(TallyOf(init).lines, PositionLines(p));
    }
  }

  /** Each side that carries money cites a first reference once. */
  predicate Cited(p: Position) {
    && (p.receivable == 0 || (p.receivableRefs != [] && p.receivableRefs[0] !in p.receivableRefs[1..]))
    && (p.payable == 0 || (p.payableRefs != [] && p.payableRefs[0] !in p.payableRefs[1..]))
  }

  lemma CitedIsCarried(p: Position)
    requires Cited(p)
    ensures CarriedReceivable(p) == p.receivable && CarriedPayable(p) == p.payable
  {
    CarriesOnceExactly(p.receivableRefs);
    CarriesOnceExactly(p.payableRefs);
  }

  lemma {:induction false} CitedAreCarried(positions: seq<Position>)
    requires forall p :: p in positions ==> Cited(p)
    ensures SumBy(positions, CarriedReceivable) == SumBy(positions, ReceivableOf)
    ensures SumBy(positions, CarriedPayable) == SumBy(positions, CostTo(Nebras))
      + SumBy(positions, CostTo(UnderlyingLfi))
  {
    if positions != [] {
      var p := positions[|positions| - 1];
      assert p in positions;
      CitedAreCarried(positions[..|positions| - 1]);
      CitedIsCarried(p);
    }
  }

  /** When every position is cited, the lines carry the gross receivables and payables. */
  lemma LinesCarryThePositions(positions: seq<Position>)
    requires forall p :: p in positions ==> Cited(p)
    ensures ReceivableSum(TallyOf(positions).lines) == SumBy(positions, ReceivableOf)
    ensures PayableSum(TallyOf(positions).lines) == SumBy(positions, CostTo(Nebras))
      + SumBy(positions, CostTo(UnderlyingLfi))
  {
    LinesCarry(positions);
    CitedAreCarried(positions);
  }

  // ---------------------------------------------------------------- what the ledger makes of it

  /** The net decomposition as the ledger and the break reporter read it. */
  function AsDecomposition(d: NetDecomposition): Decomposition {
    Decomposition(d.reference, d.period, d.received, d.expectedNet, d.residue, d.tolerance, d.lines, d.broken)
  }

  /** What the positions are owed and owe. */
  function Owed(input: NetInput): int { SumBy(input.positions, ReceivableOf) }

  function Owing(input: NetInput): int {
    SumBy(input.positions, CostTo(Nebras)) + SumBy(input.positions, CostTo(UnderlyingLfi))
  }

  /** What of it the lines carry. */
  function OwedOnLines(input: NetInput): int { SumBy(input.positions, CarriedReceivable) }

  function OwingOnLines(input: NetInput): int { SumBy(input.positions, CarriedPayable) }

  /** What the references fail to carry of the positions' net, less what they carry more than once. */
  function Miscarried(input: NetInput): int {
    (Owed(input) - Owing(input)) - (OwedOnLines(input) - OwingOnLines(input))
  }

  lemma NetResidueFils(input: NetInput)
    requires NetOf(input).Ok?
    ensures var d := NetOf(input).value;
      && ResidueFils(AsDecomposition(d)) == ToFils(input.received)
        - (ToFils(OwedOnLines(input)) - ToFils(OwingOnLines(input)))
      && d.residue + d.adjustment == input.received - (Owed(input) - Owing(input))
      && d.adjustment == SumBy(input.adjustments, SignedOfAdjustment)
    ensures OwedOnLines(input) >= 0 && OwingOnLines(input) >= 0
  {
    LinesCarry(input.positions);
    CarriedIsUnsigned(input.positions);
  }

  lemma {:induction false} CarriedIsUnsigned(positions: seq<Position>)
    requires forall p :: p in positions ==> !IsSigned(p)
    ensures SumBy(positions, CarriedReceivable) >= 0 && SumBy(positions, CarriedPayable) >= 0
  {
    if positions != [] {
      var p := positions[|positions| - 1];
      assert p in positions;
      CarriedIsUnsigned(positions[..|positions| - 1]);
      ProductIsUnsigned(p.receivable, Carries(p.receivableRefs));
      ProductIsUnsigned(p.payable, Carries(p.payableRefs));
    }
  }

  lemma ProductIsUnsigned(x: nat, k: nat)
    ensures x * k >= 0
  {
  }

  predicate InWholeFils(input: NetInput) {
    WholeFils(input.received) && WholeFils(OwedOnLines(input)) && WholeFils(OwingOnLines(input))
  }

  /** What the ledger books as residue, and what a break reports, is the residue, the adjustments that explained part of
      it, and what the references miscarry: give or take the rounding, and to the milli-fil when the figures are whole
      fils. It is then the reported residue exactly when adjustments and miscarriage cancel. */
  lemma BookedResidue(input: NetInput)
    requires NetOf(input).Ok?
    ensures var d := NetOf(input).value;
      var booked := MF_PER_FIL * ResidueFils(AsDecomposition(d));
      && Abs(booked - (d.residue + d.adjustment + Miscarried(input))) <= 1499
      && (InWholeFils(input) ==>
            && booked == d.residue + d.adjustment + Miscarried(input)
            && (booked == d.residue <==> SumBy(input.adjustments, SignedOfAdjustment) + Miscarried(input) == 0))
  {
    NetResidueFils(input);
    BookedResidueIsClose(input.received, OwedOnLines(input), OwingOnLines(input));
    if InWholeFils(input) {
      RoundsToItself(input.received);
      RoundsToItself(OwedOnLines(input));
      RoundsToItself(OwingOnLines(input));
    }
  }

  /** A net settlement's break is for nothing exactly when the cash and what the lines carry of the positions tie in
      whole fils, whatever was adjusted. */
  lemma NetBreakBooksNothingExactly(input: NetInput)
    requires NetOf(input).Ok? && NetOf(input).value.broken.Some?
    ensures BreakOf(AsDecomposition(NetOf(input).value)).amountFils == 0 <==>
      ToFils(input.received) == ToFils(OwedOnLines(input)) - ToFils(OwingOnLines(input))
  {
    LinesCarry(input.positions);
    BreakIsForNothingExactly(AsDecomposition(NetOf(input).value));
  }

  /** It is for something once the residue, with adjustments and miscarriage added back, is at least 1,500
      milli-fils. */
  lemma NetBreakBooksSomething(input: NetInput)
    requires NetOf(input).Ok? && NetOf(input).value.broken.Some?
    requires Abs(NetOf(input).value.residue + NetOf(input).value.adjustment + Miscarried(input)) >= 1500
    ensures BreakOf(AsDecomposition(NetOf(input).value)).amountFils != 0
  {
    BookedResidue(input);
  }

  predicate AllCited(input: NetInput) {
    forall p :: p in input.positions ==> Cited(p)
  }

  /** With every position cited nothing is miscarried: the adjustments alone come on top of the residue. */
  lemma AdjustmentsAreBookedAsResidue(input: NetInput)
    requires NetOf(input).Ok? && AllCited(input)
    ensures var d := NetOf(input).value;
      var booked := MF_PER_FIL * ResidueFils(AsDecomposition(d));
      && OwedOnLines(input) == Owed(input) && OwingOnLines(input) == Owing(input)
      && Abs(booked - (d.residue + d.adjustment)) <= 1499
      && (WholeFils(input.received) && WholeFils(Owed(input)) && WholeFils(Owing(input)) ==>
            && booked == d.residue + d.adjustment
            && (booked == d.residue <==> SumBy(input.adjustments, SignedOfAdjustment) == 0))
  {
    CitedAreCarried(input.positions);
    BookedResidue(input);
  }

  // ---------------------------------------------------------------- where the residue and what is booked part

  /** One counterparty owing `owed`, with the given references and adjustments. */
  function OneReceivable(owed: nat, refs: seq<string>, received: int, adjustments: seq<Adjustment>,
      tolerance: Option<int>): NetInput {
    NetInput("X", "2026-06", received, [Position("T", owed, 0, UnderlyingLfi, refs, [])], adjustments, tolerance)
  }

  lemma OneReceivableIsAccepted(owed: nat, refs: seq<string>, received: int, adjustments: seq<Adjustment>,
      tolerance: Option<int>)
    requires tolerance.GetOr(MF_PER_FIL) >= 0
    requires adjustments == [] || exists signed :: adjustments == [Adjustment("A", signed, "approval")]
    ensures var input := OneReceivable(owed, refs, received, adjustments, tolerance);
      && Check(input).Ok? && Owed(input) == owed && Owing(input) == 0
      && OwedOnLines(input) == owed * Carries(refs) && OwingOnLines(input) == 0
  {
    var p := Position("T", owed, 0, UnderlyingLfi, refs, []);
    NotBlank("X");
    NotBlank("approval");
    KeysAllDistinct([p], CounterpartyOf);
    if adjustments != [] {
      KeysAllDistinct([adjustments[0]], RefOfAdjustment);
    }
    SumOfOne(p, ReceivableOf);
    SumOfOne(p, CostTo(Nebras));
    SumOfOne(p, CostTo(UnderlyingLfi));
    SumOfOne(p, CarriedReceivable);
    SumOfOne(p, CarriedPayable);
  }

  /** What is booked and reported for one receivable whose lines carry `carried` of it. */
  lemma OneReceivableBooks(input: NetInput, owed: int, carried: int)
    requires NetOf(input).Ok? && Owed(input) == owed && Owing(input) == 0 && OwedOnLines(input) == carried
      && OwingOnLines(input) == 0
    ensures var d := NetOf(input).value;
      && d.residue == input.received - owed - SumBy(input.adjustments, SignedOfAdjustment)
      && (d.broken.Some? <==> Abs(d.residue) > Tolerance(input))
      && ResidueFils(AsDecomposition(d)) == ToFils(input.received) - ToFils(carried)
  {
    NetResidueFils(input);
    FilsRoundToThemselves(0);
  }

  /** A receivable written down by an approved adjustment and otherwise received in full leaves nothing unexplained and
      raises no break, yet the ledger books the whole adjustment as residue. */
  lemma ExplainedYetBooked(fils: nat, down: nat, input: NetInput)
    requires input == OneReceivable(MF_PER_FIL * fils, ["R"], MF_PER_FIL * (fils - down),
      [Adjustment("A", -MF_PER_FIL * down, "approval")], None)
    ensures NetOf(input).Ok? && NetOf(input).value.residue == 0 && NetOf(input).value.broken.None?
    ensures ResidueFils(AsDecomposition(NetOf(input).value)) == 0 - down
  {
    OneReceivableIsAccepted(MF_PER_FIL * fils, ["R"], input.received, input.adjustments, None);
    CarriesOnceExactly(["R"]);
    OneReceivableBooks(input, MF_PER_FIL * fils, MF_PER_FIL * fils);
    SumOfOne(input.adjustments[0], SignedOfAdjustment);
    FilsRoundToThemselves(fils - down);
    FilsRoundToThemselves(fils);
  }

  /** A receivable received in full beside an adjustment that exceeds the tolerance raises a break of nothing, at any
      tolerance. */
  lemma BrokenYetForNothing(owed: nat, signed: int, tolerance: nat, input: NetInput)
    requires Abs(signed) > tolerance
    requires input == OneReceivable(owed, ["R"], owed, [Adjustment("A", signed, "approval")], Some(tolerance))
    ensures NetOf(input).Ok? && NetOf(input).value.broken.Some?
    ensures BreakOf(AsDecomposition(NetOf(input).value)).amountFils == 0
  {
    OneReceivableIsAccepted(owed, ["R"], owed, input.adjustments, Some(tolerance));
    CarriesOnceExactly(["R"]);
    OneReceivableBooks(input, owed, owed);
    SumOfOne(input.adjustments[0], SignedOfAdjustment);
  }

  /** So does, without any adjustment, a receivable of which exactly what its references carry is received: nothing at
      all when it cites none, twice the amount when it repeats its first one. */
  lemma MiscitedYetForNothing(owed: nat, refs: seq<string>, tolerance: nat, input: NetInput)
    requires Abs(owed * Carries(refs) - owed) > tolerance
    requires input == OneReceivable(owed, refs, owed * Carries(refs), [], Some(tolerance))
    ensures NetOf(input).Ok? && NetOf(input).value.broken.Some?
      && NetOf(input).value.residue == owed * Carries(refs) - owed != 0
    ensures BreakOf(AsDecomposition(NetOf(input).value)).amountFils == 0
  {
    OneReceivableIsAccepted(owed, refs, input.received, [], Some(tolerance));
    OneReceivableBooks(input, owed, owed * Carries(refs));
  }
}
