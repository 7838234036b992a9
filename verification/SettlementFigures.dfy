/** What a settlement's decomposition states and when it is refused, told by the items, positions and adjustments it was
    handed. */
module SettlementFigures {
  import opened Collections
  import opened Settlements
  import opened NetSettlements

  // ---------------------------------------------------------------- items on two sides

  ghost predicate Usable(ids: seq<string>) {
    NoDuplicates(ids) && forall id :: id in ids ==> !Blank(id)
  }

  /** Every item has its own source and its own ledger reference, neither blank, and no negative amount. */
  ghost predicate SoundItems(items: seq<Item>) {
    && Usable(Map(items, (i: Item) => i.sourceId)) && Usable(Map(items, (i: Item) => i.ledgerRef))
    && forall i :: i in items ==> i.amount >= 0
  }

  lemma IdsPassExactly(ids: seq<string>)
    ensures CheckIds(ids).Ok? <==> Usable(ids)
    ensures CheckIds(ids) == Err(Repeated) <==> !NoDuplicates(ids)
    ensures CheckIds(ids).Err? ==> CheckIds(ids) == Err(Repeated) || CheckIds(ids) == Err(BlankSource)
  {
    var self := (id: string) => id;
    assert Map(ids, self) == ids;
    KeysAllDistinct(ids, self);
    KeysOfSelf(ids, self, (id: string) => id);
  }

  lemma {:induction false} KeysOfSelf(ids: seq<string>, f: string -> string, g: string -> string)
    requires forall id :: f(id) == g(id)
    ensures Keys(ids, f) == Keys(ids, g)
  {
    if ids != [] {
      KeysOfSelf(ids[..|ids| - 1], f, g);
    }
  }

  lemma FirstOfEight(c: seq<Result<(), Settlements.Error>>)
    requires |c| == 8
    ensures FirstError(c) == if c[0].Err? then c[0] else if c[1].Err? then c[1] else if c[2].Err? then c[2]
      else if c[3].Err? then c[3] else if c[4].Err? then c[4] else if c[5].Err? then c[5] else if c[6].Err? then c[6]
      else if c[7].Err? then c[7] else Ok(())
  {
    assert c[0..] == c;
    FirstFrom(c, 0);
    FirstFrom(c, 1);
    FirstFrom(c, 2);
    FirstFrom(c, 3);
    FirstFrom(c, 4);
    FirstFrom(c, 5);
    FirstFrom(c, 6);
    FirstFrom(c, 7);
    assert c[8..] == [];
  }

  lemma FirstFrom(c: seq<Result<(), Settlements.Error>>, i: nat)
    requires i < |c|
    ensures FirstError(c[i..]) == if c[i].Err? then c[i] else FirstError(c[i + 1..])
  {
    assert c[i..][1..] == c[i + 1..];
  }

  /** A settlement is decomposed exactly when it has a reference and a tolerance that is not negative and the items of
      both sides are sound. */
  lemma {:induction false} SettlementRefusedExactly(input: SettlementInput)
    ensures Decompose(input).Ok? <==>
      && !Blank(input.reference) && input.tolerance >= 0 && SoundItems(input.receivables) && SoundItems(input.payables)
  {
    var r, p := input.receivables, input.payables;
    assert Map(r, SourceIdOf) == Map(r, (i: Item) => i.sourceId)
        && Map(p, SourceIdOf) == Map(p, (i: Item) => i.sourceId);
    assert Map(r, LedgerRefOf) == Map(r, (i: Item) => i.ledgerRef)
      && Map(p, LedgerRefOf) == Map(p, (i: Item) => i.ledgerRef);
    IdsPassExactly(Map(r, SourceIdOf));
    IdsPassExactly(Map(p, SourceIdOf));
    IdsPassExactly(Map(r, LedgerRefOf));
    IdsPassExactly(Map(p, LedgerRefOf));
    FirstOfEight(Checks(input));
  }

  /** What a settlement is refused for: first the reference, then the tolerance, then the ids, then the amounts. */
  lemma {:induction false} SettlementRefusedFor(input: SettlementInput)
    requires Decompose(input).Err?
    ensures Decompose(input).error == Settlements.NoReference <==> Blank(input.reference)
    ensures Decompose(input).error == Settlements.NegativeTolerance <==>
      !Blank(input.reference) && input.tolerance < 0
    ensures Decompose(input).error == NegativeItem ==>
      (exists i :: i in input.receivables && i.amount < 0) || (exists i :: i in input.payables && i.amount < 0)
  {
    IdsPassExactly(Map(input.receivables, SourceIdOf));
    IdsPassExactly(Map(input.payables, SourceIdOf));
    IdsPassExactly(Map(input.receivables, LedgerRefOf));
    IdsPassExactly(Map(input.payables, LedgerRefOf));
    FirstOfEight(Checks(input));
  }

  ghost predicate StatesItem(l: SettlementLine, i: Item, role: Role, signed: int) {
    && l.role == role && l.sourceId == i.sourceId && l.counterpartyId == i.counterpartyId && l.ledgerRef == i.ledgerRef
    && l.signed == signed
  }

  ghost predicate StatesItems(lines: seq<SettlementLine>, receivables: seq<Item>, payables: seq<Item>) {
    && |lines| == |receivables| + |payables|
    && (forall k :: 0 <= k < |receivables| ==> StatesItem(lines[k], receivables[k], Receivable, receivables[k].amount))
    && (forall k :: 0 <= k < |payables| ==>
          StatesItem(lines[|receivables| + k], payables[k], Payable, -payables[k].amount))
  }

  lemma LinesStateItems(receivables: seq<Item>, payables: seq<Item>)
    ensures StatesItems(LinesOf(receivables, payables), receivables, payables)
  {
  }

  /** The decomposition lists every receivable and then every payable, negated; it expects their difference, and what
      the cash leaves of that is the residue. */
  lemma {:induction false} DecompositionStatesItsItems(input: SettlementInput)
    requires Decompose(input).Ok?
    ensures var d := Decompose(input).value;
      && StatesItems(d.lines, input.receivables, input.payables)
      && d.reference == input.reference && d.period == input.period && d.received == input.received
      && d.tolerance == input.tolerance && d.residue == d.received - d.expectedNet
      && d.expectedNet == SumBy(input.receivables, (i: Item) => i.amount) - SumBy(input.payables, (i: Item) => i.amount)
  {
    var lines := LinesOf(input.receivables, input.payables);
    LinesStateItems(input.receivables, input.payables);
    NetIsReceivableLessPayable(lines);
    SumSides(input.receivables, input.payables);
    SumCongruence(input.receivables, ItemAmount, (i: Item) => i.amount);
    SumCongruence(input.payables, ItemAmount, (i: Item) => i.amount);
  }

  lemma BreakCitesItsItems(input: SettlementInput)
    requires Decompose(input).Ok? && Decompose(input).value.broken.Some?
    ensures Decompose(input).value.broken.value == Residue(Decompose(input).value.residue,
      Map(input.receivables, (i: Item) => i.ledgerRef), Map(input.payables, (i: Item) => i.ledgerRef))
  {
    assert Map(input.receivables, LedgerRefOf) == Map(input.receivables, (i: Item) => i.ledgerRef);
    assert Map(input.payables, LedgerRefOf) == Map(input.payables, (i: Item) => i.ledgerRef);
  }

  // ---------------------------------------------------------------- positions in two roles

  /** One position for each counterparty, none of them negative. */
  ghost predicate SoundPositions(positions: seq<Position>) {
    && NoDuplicates(Map(positions, (p: Position) => p.counterpartyId))
    && forall p :: p in positions ==> p.receivable >= 0 && p.payable >= 0
  }

  /** Every adjustment is its own and approved. */
  ghost predicate SoundAdjustments(adjustments: seq<Adjustment>) {
    && NoDuplicates(Map(adjustments, (a: Adjustment) => a.ref))
    && forall a :: a in adjustments ==> !Blank(a.approvalId)
  }

  /** The tolerance asked for, or one fil. */
  function ToleranceAsked(input: NetInput): int {
    if input.tolerance.Some? then input.tolerance.value else 1000
  }

  lemma PositionsAreSoundExactly(positions: seq<Position>)
    ensures SoundPositions(positions) <==>
      |Keys(positions, CounterpartyOf)| == |positions| && !exists p :: p in positions && IsSigned(p)
  {
    KeysAllDistinct(positions, CounterpartyOf);
    assert Map(positions, CounterpartyOf) == Map(positions, (p: Position) => p.counterpartyId);
    forall p | p in positions ensures IsSigned(p) <==> !(p.receivable >= 0 && p.payable >= 0) {
    }
  }

  lemma AdjustmentsAreSoundExactly(adjustments: seq<Adjustment>)
    ensures SoundAdjustments(adjustments) <==>
      |Keys(adjustments, RefOfAdjustment)| == |adjustments| && !exists a :: a in adjustments && LacksApproval(a)
  {
    KeysAllDistinct(adjustments, RefOfAdjustment);
    assert Map(adjustments, RefOfAdjustment) == Map(adjustments, (a: Adjustment) => a.ref);
    forall a | a in adjustments ensures LacksApproval(a) <==> Blank(a.approvalId) {
    }
  }

  /** A net settlement is decomposed exactly when it has a reference, no negative tolerance, sound positions and sound
      adjustments, and otherwise refused for the first of these it lacks. */
  lemma {:induction false} NetRefusedExactly(input: NetInput)
    ensures NetOf(input).Ok? <==>
      && !Blank(input.reference) && ToleranceAsked(input) >= 0
      && SoundPositions(input.positions) && SoundAdjustments(input.adjustments)
    ensures NetOf(input).Err? ==>
      NetOf(input).error ==
        if Blank(input.reference) then NetError.NoReference
        else if ToleranceAsked(input) < 0 then NetError.NegativeTolerance
        else if !NoDuplicates(Map(input.positions, (p: Position) => p.counterpartyId)) then RepeatedCounterparty
        else if !SoundPositions(input.positions) then NegativePosition
        else if !NoDuplicates(Map(input.adjustments, (a: Adjustment) => a.ref)) then RepeatedAdjustment
        else Unapproved
  {
    PositionsAreSoundExactly(input.positions);
    AdjustmentsAreSoundExactly(input.adjustments);
    KeysAllDistinct(input.positions, CounterpartyOf);
    KeysAllDistinct(input.adjustments, RefOfAdjustment);
    assert Map(input.positions, CounterpartyOf) == Map(input.positions, (p: Position) => p.counterpartyId);
    assert Map(input.adjustments, RefOfAdjustment) == Map(input.adjustments, (a: Adjustment) => a.ref);
  }

  /** The four figures, each from its own positions or adjustments, and what they leave of the cash. */
  ghost predicate StatesFigures(input: NetInput, d: NetDecomposition) {
    && d.grossReceivable == SumBy(input.positions, (p: Position) => p.receivable)
    && d.nebrasCost == SumBy(input.positions, (p: Position) => if p.recipient == Nebras then p.payable else 0)
    && d.lfiCost == SumBy(input.positions, (p: Position) => if p.recipient == UnderlyingLfi then p.payable else 0)
    && d.adjustment == SumBy(input.adjustments, (a: Adjustment) => a.signed)
    && d.totalNetted == SumBy(input.positions, (p: Position) => Min(p.receivable, p.payable))
    && d.received == input.received && d.reference == input.reference && d.period == input.period
    && d.expectedNet == d.grossReceivable - d.nebrasCost - d.lfiCost + d.adjustment
    && d.residue == d.received - d.expectedNet
    && d.tolerance == ToleranceAsked(input) && (d.broken.Some? <==> Abs(d.residue) > d.tolerance)
    && (d.broken.Some? ==> d.broken.value.amount == d.residue)
  }

  lemma {:induction false} DecompositionStatesItsPositions(input: NetInput)
    requires NetOf(input).Ok?
    ensures StatesFigures(input, NetOf(input).value)
  {
    var positions := input.positions;
    NetRefusedExactly(input);
    SumCongruence(positions, ReceivableOf, (p: Position) => p.receivable);
    SumCongruence(positions, CostTo(Nebras), (p: Position) => if p.recipient == Nebras then p.payable else 0);
    SumCongruence(positions, CostTo(UnderlyingLfi),
      (p: Position) => if p.recipient == UnderlyingLfi then p.payable else 0);
    SumCongruence(input.adjustments, SignedOfAdjustment, (a: Adjustment) => a.signed);
    forall p | p in positions ensures Netted(p) == Min(p.receivable, p.payable) {
      assert p.receivable >= 0 && p.payable >= 0;
    }
    SumCongruence(positions, Netted, (p: Position) => Min(p.receivable, p.payable));
  }

  /** Every counterparty is explained, in order: both roles gross, what is left, and what cancels. */
  lemma {:induction false} EveryPositionIsExplained(input: NetInput, k: nat)
    requires NetOf(input).Ok? && k < |input.positions|
    ensures |NetOf(input).value.counterparties| == |input.positions|
    ensures var p, e := input.positions[k], NetOf(input).value.counterparties[k];
      && e.counterpartyId == p.counterpartyId && e.recipient == p.recipient
      && e.receivable == p.receivable && e.payable == p.payable && e.net == p.receivable - p.payable
      && e.netted == Min(p.receivable, p.payable) && (e.dualRole <==> p.receivable > 0 && p.payable > 0)
  {
    NetRefusedExactly(input);
    assert input.positions[k] in input.positions;
  }

  /** The line stands for one side of the position under one of its references; the first reference carries the
      amount. */
  ghost predicate StatesSide(p: Position, l: SettlementLine) {
    && l.counterpartyId == p.counterpartyId && l.sourceId == l.ledgerRef
    && match l.role
       case Receivable =>
         && p.receivable != 0 && l.ledgerRef in p.receivableRefs
         && l.signed == (if l.ledgerRef == p.receivableRefs[0] then p.receivable else 0)
       case Payable =>
         && p.payable != 0 && l.ledgerRef in p.payableRefs
         && l.signed == (if l.ledgerRef == p.payableRefs[0] then -p.payable else 0)
  }

  lemma SideLinesState(role: Role, id: string, refs: seq<string>, signed: int, l: SettlementLine)
    ensures l in SideLines(role, id, refs, signed) <==>
      && signed != 0 && l.ledgerRef in refs && l.role == role && l.counterpartyId == id && l.sourceId == l.ledgerRef
      && l.signed == (if l.ledgerRef == refs[0] then signed else 0)
  {
    if signed != 0 && refs != [] {
      var cite := CitedLine(role, id, refs[0], signed);
      if l in SideLines(role, id, refs, signed) {
        var i :| 0 <= i < |refs| && Map(refs, cite)[i] == l;
      }
      if l.ledgerRef in refs {
        MapIn(refs, l.ledgerRef, cite);
      }
    }
  }

  lemma PositionLinesState(p: Position, l: SettlementLine)
    ensures l in PositionLines(p) <==> StatesSide(p, l)
  {
    SideLinesState(Receivable, p.counterpartyId, p.receivableRefs, p.receivable, l);
    SideLinesState(Payable, p.counterpartyId, p.payableRefs, -p.payable, l);
  }

  lemma {:induction false} InFlattened<T(!new)>(xss: seq<seq<T>>, x: T)
    ensures x in Flatten(xss) <==> exists i :: 0 <= i < |xss| && x in xss[i]
  {
    if xss != [] {
      var init := xss[..|xss| - 1];
      InFlattened(init, x);
      if x in Flatten(init) {
        var i :| 0 <= i < |init| && x in init[i];
        assert x in xss[i];
      }
      forall i | 0 <= i < |xss| && x in xss[i] ensures x in Flatten(xss) {
        if i < |init| {
          assert x in init[i];
        }
      }
    }
  }

  /** The lines are those of the positions' sides, and no others. */
  lemma {:induction false} LinesAreThePositions(input: NetInput, l: SettlementLine)
    requires NetOf(input).Ok?
    ensures l in NetOf(input).value.lines <==> exists p :: p in input.positions && StatesSide(p, l)
  {
    var positions := input.positions;
    var xss := Map(positions, PositionLines);
    InFlattened(xss, l);
    forall i | 0 <= i < |positions| ensures l in xss[i] <==> StatesSide(positions[i], l) {
      PositionLinesState(positions[i], l);
    }
    if exists p :: p in positions && StatesSide(p, l) {
      var p :| p in positions && StatesSide(p, l);
      var i :| 0 <= i < |positions| && positions[i] == p;
      assert l in xss[i];
    }
  }

  // ---------------------------------------------------------------- the breaks raised

  /** A break raised for a settlement names it and cites both sides' ledger references. */
  lemma RaisedBreakCitesItsItems(input: SettlementInput)
    requires Decompose(input).Ok? && Decompose(input).value.broken.Some?
    ensures var b := BreakOf(Decompose(input).value);
      && b.reference == input.reference
      && b.receivableRefs == Map(input.receivables, (i: Item) => i.ledgerRef)
      && b.payableRefs == Map(input.payables, (i: Item) => i.ledgerRef)
  {
    BreakCitesItsItems(input);
  }

  /** So does one raised for a net settlement, of every position in order. */
  lemma {:induction false} RaisedBreakCitesItsPositions(input: NetInput)
    requires NetOf(input).Ok? && NetOf(input).value.broken.Some?
    ensures var b := BreakOf(AsDecomposition(NetOf(input).value));
      && b.reference == input.reference
      && b.receivableRefs == Flatten(Map(input.positions, (p: Position) => p.receivableRefs))
      && b.payableRefs == Flatten(Map(input.positions, (p: Position) => p.payableRefs))
  {
    assert Map(input.positions, ReceivableRefs) == Map(input.positions, (p: Position) => p.receivableRefs);
    assert Map(input.positions, PayableRefs) == Map(input.positions, (p: Position) => p.payableRefs);
  }
}
