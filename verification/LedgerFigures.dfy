/** What the payable ledger shows, told by what its steps were handed: the expected lines of an accrual, the net and the
    VAT of an invoice, the amount of a settlement. */
module LedgerFigures {
  import opened Collections
  import opened Money
  import opened Journals
  import opened PayableLedger

  /** `fils` is `milliFils` rounded, up to `parts` roundings of half a fil. */
  predicate Near(fils: int, milliFils: int, parts: int) {
    Abs(1000 * fils - milliFils) <= 500 * parts
  }

  lemma FilsAreNear(milliFils: int)
    ensures Near(ToFils(milliFils), milliFils, 1)
  {
    RoundingError(milliFils, MF_PER_FIL);
  }

  lemma NearAdds(x: int, m: int, j: int, y: int, n: int, k: int)
    requires Near(x, m, j) && Near(y, n, k)
    ensures Near(x + y, m + n, j + k)
  {
  }

  // ---------------------------------------------------------------- one step

  /** An accrual is for the one stream of its lines and within half a fil of what they expect together, and every line
      it posts cites its source and theirs. */
  lemma {:induction false} AccrualSaysItsLines(accounts: AccountMap, sourceId: string, lines: seq<AccrualLine>)
    requires BuildAccrual(accounts, sourceId, lines).Ok?
    ensures var accrual := BuildAccrual(accounts, sourceId, lines).value;
      && Near(accrual.accruedFils, SumBy(lines, (l: AccrualLine) => l.expectedNet), 1)
      && (forall l :: l in lines ==> l.stream == accrual.stream)
      && accrual.sourceId == sourceId && accrual.acceptedBy == "" && accrual.journal.sourceId == sourceId
      && (forall l :: l in accrual.journal.lines ==>
            l.sourceRefs == [sourceId] + Map(lines, (x: AccrualLine) => x.ledgerRef))
  {
    var stream, total, refs := lines[0].stream, SumBy(lines, NetOf), [sourceId] + Map(lines, RefOf);
    FilsAreNear(total);
    SumCongruence(lines, NetOf, (l: AccrualLine) => l.expectedNet);
    AccrualRefusedExactly(accounts, sourceId, lines);
    KeepExact(AccrualLines(accounts, stream, ToFils(total), refs), NonZero);
    assert Map(lines, RefOf) == Map(lines, (x: AccrualLine) => x.ledgerRef);
  }

  /** An acceptance's net and VAT are each within half a fil of the invoice's own, its gross is their sum and its
      variance what the net exceeds the accrual by. */
  predicate AsInvoiced(taken: Acceptance, accruedFils: int, net: int, vat: int) {
    && Near(taken.netFils, net, 1) && Near(taken.vatFils, vat, 1)
    && taken.grossFils == taken.netFils + taken.vatFils
    && taken.varianceFils == taken.netFils - accruedFils
  }

  lemma AcceptanceSaysItsInvoice(accounts: AccountMap, accrual: Accrual, document: string, net: int, vat: int)
    requires AcceptanceOf(accounts, accrual, document, net, vat).Ok?
    ensures AsInvoiced(AcceptanceOf(accounts, accrual, document, net, vat).value, accrual.accruedFils, net, vat)
  {
    FilsAreNear(net);
    FilsAreNear(vat);
  }

  lemma AccountsOf(m: AccountMap, stream: Stream)
    requires DistinctAccounts(m)
    ensures m.inputVat != m.accruedPayable && m.inputVat != m.accountsPayable && m.inputVat != m.costVariance
      && m.accruedPayable != m.accountsPayable && m.accruedPayable != m.costVariance
      && m.accountsPayable != m.costVariance
    ensures CostAccount(m, stream) != m.inputVat && CostAccount(m, stream) != m.accruedPayable
      && CostAccount(m, stream) != m.accountsPayable && CostAccount(m, stream) != m.costVariance
  {
    assert Account(m, AccruedPayable) == m.accruedPayable && Account(m, AccountsPayable) == m.accountsPayable
      && Account(m, InputVat) == m.inputVat && Account(m, CostVariance) == m.costVariance
      && Account(m, Cost(stream)) == CostAccount(m, stream);
  }

  /** With one account per role, the acceptance's journals leave the invoice's VAT on input VAT, its gross on accounts
      payable and its excess over the accrual on the variance, each to within half a fil a figure; they clear the
      accrued payable of the accrual exactly and leave the cost account alone. */
  lemma {:induction false} AcceptanceLeavesTheInvoice(m: AccountMap, accrual: Accrual, document: string, net: int,
      vat: int)
    requires DistinctAccounts(m) && AcceptanceOf(m, accrual, document, net, vat).Ok?
    ensures var lines := AcceptanceJournals(AcceptanceOf(m, accrual, document, net, vat).value);
      && Near(Balance(lines, m.inputVat), vat, 1)
      && Near(-Balance(lines, m.accountsPayable), net + vat, 2)
      && Near(Balance(lines, m.costVariance) + accrual.accruedFils, net, 1)
      && Balance(lines, m.accruedPayable) == accrual.accruedFils
      && Balance(lines, CostAccount(m, accrual.stream)) == 0
  {
    AccountsOf(m, accrual.stream);
    AcceptanceSaysItsInvoice(m, accrual, document, net, vat);
    AcceptanceOn(m, accrual, document, net, vat, m.inputVat);
    AcceptanceOn(m, accrual, document, net, vat, m.accountsPayable);
    AcceptanceOn(m, accrual, document, net, vat, m.costVariance);
    AcceptanceOn(m, accrual, document, net, vat, m.accruedPayable);
    AcceptanceOn(m, accrual, document, net, vat, CostAccount(m, accrual.stream));
  }

  lemma AcceptanceOn(m: AccountMap, accrual: Accrual, document: string, net: int, vat: int, a: string)
    requires AcceptanceOf(m, accrual, document, net, vat).Ok?
    ensures var taken := AcceptanceOf(m, accrual, document, net, vat).value;
      Balance(AcceptanceJournals(taken), a) == At(a, m.accruedPayable, accrual.accruedFils)
        + At(a, m.inputVat, taken.vatFils) - At(a, m.accountsPayable, taken.grossFils)
        + At(a, m.costVariance, taken.varianceFils)
  {
    var taken := AcceptanceOf(m, accrual, document, net, vat).value;
    ReversalPosts(m, accrual, document, net, vat, a);
    AcceptancePosts(m, accrual, document, net, vat, a);
    SumConcat(taken.reversal.lines, taken.acceptance.lines, OnAccount(a));
  }

  // ---------------------------------------------------------------- which steps of a run took effect

  ghost predicate GotAccepted(before: Ledger, step: Step, after: Ledger) {
    && step.Accept? && step.accrual < |before.booked| && step.accrual < |after.booked|
    && before.booked[step.accrual].acceptance.None? && after.booked[step.accrual].acceptance.Some?
  }

  ghost predicate GotAccrued(before: Ledger, step: Step, after: Ledger) {
    step.Accrue? && |after.booked| > |before.booked|
  }

  ghost predicate GotSettled(before: Ledger, step: Step, after: Ledger) {
    step.Settle? && |after.settled| > |before.settled|
  }

  /** After any run, an accrual is booked exactly when its accounts, source and lines are in order; an invoice is
      accepted exactly against an accrual that has no acceptance yet, with a document and without a negative figure; and
      a settlement is booked exactly for a positive amount under a reference that yields a name. */
  ghost predicate TakesEffect(before: Ledger, step: Step) {
    && Usable(step.accounts)
    && match step
       case Accrue(accounts, sourceId, lines) =>
         && Named(sourceId) && lines != [] && HasCostAccount(accounts, lines[0].stream)
         && (forall l :: l in lines ==> l.stream == lines[0].stream)
         && SumBy(lines, NetOf) >= 500
       case Accept(accounts, i, document, net, vat) =>
         && i < |before.booked| && before.booked[i].acceptance.None?
         && HasCostAccount(accounts, before.booked[i].accrual.stream)
         && !Blank(document) && net >= 0 && vat >= 0
       case Settle(_, reference, amount, _, _) => amount > 0 && Named(reference)
  }

  lemma {:induction false} StepsTakeEffectExactly(steps: seq<Step>, step: Step)
    ensures var before, after := Run(steps), Run(steps + [step]);
      && (GotAccrued(before, step, after) || GotAccepted(before, step, after) || GotSettled(before, step, after)
        <==> TakesEffect(before, step))
      && (!TakesEffect(before, step) ==> after == before)
  {
    var before := Run(steps);
    assert (steps + [step])[..|steps|] == steps;
    EveryRunIsExplained(steps, "");
    match step
    case Accrue(accounts, sourceId, lines) =>
      AccrualRefusedExactly(accounts, sourceId, lines);
    case Accept(accounts, i, document, net, vat) =>
      if i < |before.booked| {
        assert before.booked[i] in before.booked;
        AcceptanceRefusedExactly(accounts, before.booked[i].accrual, document, net, vat);
      }
    case Settle(accounts, reference, amount, via, refs) =>
      SettlementRefusedExactly(accounts, reference, amount, via, refs);
  }

  datatype Part = NetPart | VatPart

  ghost function StepPart(step: Step, part: Part): int {
    if !step.Accept? then 0 else if part.NetPart? then step.net else step.vat
  }

  /** What the invoices of a run that were accepted under some account maps state, and how many there were. */
  ghost function Invoiced(steps: seq<Step>, p: AccountMap -> bool, part: Part): int {
    if steps == [] then 0
    else
      var init, last := steps[..|steps| - 1], steps[|steps| - 1];
      Invoiced(init, p, part)
        + if GotAccepted(Run(init), last, Run(steps)) && p(last.accounts) then StepPart(last, part) else 0
  }

  ghost function Invoices(steps: seq<Step>, p: AccountMap -> bool): nat {
    if steps == [] then 0
    else
      var init, last := steps[..|steps| - 1], steps[|steps| - 1];
      Invoices(init, p) + if GotAccepted(Run(init), last, Run(steps)) && p(last.accounts) then 1 else 0
  }

  /** The step made an accrual of the stream. */
  ghost predicate AccruedFor(before: Ledger, step: Step, after: Ledger, stream: Stream) {
    GotAccrued(before, step, after) && step.lines != [] && step.lines[0].stream == stream
  }

  ghost function StepExpects(step: Step): int {
    if step.Accrue? then SumBy(step.lines, (l: AccrualLine) => l.expectedNet) else 0
  }

  /** What the accruals of a run for one stream expect, and how many there were. */
  ghost function Expected(steps: seq<Step>, stream: Stream): int {
    if steps == [] then 0
    else
      var init, last := steps[..|steps| - 1], steps[|steps| - 1];
      Expected(init, stream) + if AccruedFor(Run(init), last, Run(steps), stream) then StepExpects(last) else 0
  }

  ghost function Accruals(steps: seq<Step>, stream: Stream): nat {
    if steps == [] then 0
    else
      var init, last := steps[..|steps| - 1], steps[|steps| - 1];
      Accruals(init, stream) + if AccruedFor(Run(init), last, Run(steps), stream) then 1 else 0
  }

  /** What the settlements of a run paid, in fils, under some account maps. */
  ghost function Paid(steps: seq<Step>, p: AccountMap -> bool): int {
    if steps == [] then 0
    else
      var init, last := steps[..|steps| - 1], steps[|steps| - 1];
      Paid(init, p) + if GotSettled(Run(init), last, Run(steps)) && p(last.accounts) then last.amount else 0
  }

  // ---------------------------------------------------------------- what a run keeps of them

  function TakenPart(taken: Acceptance, part: Part): int {
    if part.NetPart? then taken.netFils else taken.vatFils
  }

  function AcceptedPart(p: AccountMap -> bool, part: Part): Booked -> int {
    (b: Booked) =>
      if b.acceptance.Some? && p(b.acceptance.value.accounts) then TakenPart(b.acceptance.value.taken, part) else 0
  }

  lemma AcceptingAdds(ledger: Ledger, step: Step, p: AccountMap -> bool, part: Part)
    requires step.Accept? && forall b :: b in ledger.booked ==> Consistent(b)
    ensures var after := Apply(ledger, step);
      var added := SumBy(after.booked, AcceptedPart(p, part)) - SumBy(ledger.booked, AcceptedPart(p, part));
      if GotAccepted(ledger, step, after) && p(step.accounts) then Near(added, StepPart(step, part), 1) else added == 0
  {
    var Accept(accounts, i, document, net, vat) := step;
    if i < |ledger.booked| && AcceptanceOf(accounts, ledger.booked[i].accrual, document, net, vat).Ok? {
      var b := ledger.booked[i];
      var taken := AcceptanceOf(accounts, b.accrual, document, net, vat).value;
      assert b in ledger.booked;
      AcceptanceSaysItsInvoice(accounts, b.accrual, document, net, vat);
      SumUpdate(ledger.booked, i, Taken(b, accounts, taken), AcceptedPart(p, part));
    }
  }

  lemma RunSnoc(steps: seq<Step>)
    requires steps != []
    ensures Run(steps) == Apply(Run(steps[..|steps| - 1]), steps[|steps| - 1])
    ensures forall b :: b in Run(steps[..|steps| - 1]).booked ==> Consistent(b)
  {
    EveryRunIsExplained(steps[..|steps| - 1], "");
  }

  /** What a run keeps of the accepted invoices is what they stated, within half a fil an invoice. */
  lemma {:induction false} InvoicesAreKept(steps: seq<Step>, p: AccountMap -> bool, part: Part)
    ensures Near(SumBy(Run(steps).booked, AcceptedPart(p, part)), Invoiced(steps, p, part), Invoices(steps, p))
  {
    if steps != [] {
      var init, last := steps[..|steps| - 1], steps[|steps| - 1];
      InvoicesAreKept(init, p, part);
      RunSnoc(steps);
      match last
      case Accrue(accounts, sourceId, lines) =>
        if BuildAccrual(accounts, sourceId, lines).Ok? {
          SumSnoc(Run(init).booked, Booked(accounts, BuildAccrual(accounts, sourceId, lines).value, None),
            AcceptedPart(p, part));
        }
      case Accept(_, _, _, _, _) =>
        AcceptingAdds(Run(init), last, p, part);
      case Settle(_, _, _, _, _) =>
    }
  }

  lemma AccruingAdds(ledger: Ledger, step: Step, stream: Stream)
    requires step.Accrue?
    ensures var after := Apply(ledger, step);
      var added := SumBy(after.booked, AccruedOn(stream)) - SumBy(ledger.booked, AccruedOn(stream));
      if AccruedFor(ledger, step, after, stream) then Near(added, StepExpects(step), 1) else added == 0
  {
    if BuildAccrual(step.accounts, step.sourceId, step.lines).Ok? {
      AccrualSaysItsLines(step.accounts, step.sourceId, step.lines);
      AccrualRefusedExactly(step.accounts, step.sourceId, step.lines);
      assert step.lines[0] in step.lines;
      SumSnoc(ledger.booked, Booked(step.accounts, BuildAccrual(step.accounts, step.sourceId, step.lines).value, None),
        AccruedOn(stream));
    }
  }

  lemma OthersAccrueNothing(ledger: Ledger, step: Step, stream: Stream)
    requires !step.Accrue?
    ensures SumBy(Apply(ledger, step).booked, AccruedOn(stream)) == SumBy(ledger.booked, AccruedOn(stream))
  {
    if step.Accept? && step.accrual < |ledger.booked| {
      var b := ledger.booked[step.accrual];
      var result := AcceptanceOf(step.accounts, b.accrual, step.document, step.net, step.vat);
      if result.Ok? {
        SumUpdate(ledger.booked, step.accrual, Taken(b, step.accounts, result.value), AccruedOn(stream));
      }
    }
  }

  lemma StepAccrues(before: Ledger, step: Step, after: Ledger, stream: Stream)
    requires after == Apply(before, step)
    ensures var added := SumBy(after.booked, AccruedOn(stream)) - SumBy(before.booked, AccruedOn(stream));
      if AccruedFor(before, step, after, stream) then Near(added, StepExpects(step), 1) else added == 0
  {
    if step.Accrue? {
      AccruingAdds(before, step, stream);
    } else {
      OthersAccrueNothing(before, step, stream);
    }
  }

  /** So are the accruals of each stream … */
  lemma {:induction false} AccrualsAreKept(steps: seq<Step>, stream: Stream)
    ensures Near(SumBy(Run(steps).booked, AccruedOn(stream)), Expected(steps, stream), Accruals(steps, stream))
  {
    if steps != [] {
      var init, last := steps[..|steps| - 1], steps[|steps| - 1];
      AccrualsAreKept(init, stream);
      StepAccrues(Run(init), last, Run(steps), stream);
    }
  }

  function PaidWith(p: AccountMap -> bool): Settlement -> int {
    (s: Settlement) => if p(s.accounts) then s.amount else 0
  }

  lemma SettlingAdds(ledger: Ledger, step: Step, p: AccountMap -> bool)
    ensures var after := Apply(ledger, step);
      var added := SumBy(after.settled, PaidWith(p)) - SumBy(ledger.settled, PaidWith(p));
      added == if GotSettled(ledger, step, after) && p(step.accounts) then step.amount else 0
  {
    if step.Settle? {
      SumSnoc(ledger.settled, Settlement(step.accounts, step.amount, step.via), PaidWith(p));
    }
  }

  /** … and the settlements, exactly. */
  lemma {:induction false} SettlementsAreKept(steps: seq<Step>, p: AccountMap -> bool)
    ensures SumBy(Run(steps).settled, PaidWith(p)) == Paid(steps, p)
  {
    if steps != [] {
      var init, last := steps[..|steps| - 1], steps[|steps| - 1];
      SettlementsAreKept(init, p);
      SettlingAdds(Run(init), last, p);
    }
  }

  // ---------------------------------------------------------------- what the accounts show of them

  function PayableIs(a: string): AccountMap -> bool {
    (m: AccountMap) => m.accountsPayable == a
  }

  function InputVatIs(a: string): AccountMap -> bool {
    (m: AccountMap) => m.inputVat == a
  }

  function AnyMap(): AccountMap -> bool {
    (m: AccountMap) => true
  }

  lemma GrossHasTwoParts(a: string, b: Booked)
    requires Consistent(b)
    ensures AcceptedAgainst(a)(b) == AcceptedPart(PayableIs(a), NetPart)(b) + AcceptedPart(PayableIs(a), VatPart)(b)
  {
  }

  lemma EffectOnInputVat(a: string, b: Booked)
    requires ServesOnly(a, InputVat)(b.accounts)
    requires b.acceptance.Some? ==> ServesOnly(a, InputVat)(b.acceptance.value.accounts)
    ensures EffectOn(a)(b) == AcceptedPart(InputVatIs(a), VatPart)(b)
  {
    RolesOf(b.accounts, b.accrual.stream, Cash);
    assert AccruedEffect(a, b) == 0;
    if b.acceptance.Some? {
      var x := b.acceptance.value;
      RolesOf(x.accounts, b.accrual.stream, Cash);
      assert AcceptedEffect(a, b.accrual, x) == At(a, x.accounts.inputVat, x.taken.vatFils);
      assert InputVatIs(a)(x.accounts) <==> x.accounts.inputVat == a;
    }
  }

  lemma NothingSettledOnInputVat(a: string, s: Settlement)
    requires ServesOnly(a, InputVat)(s.accounts)
    ensures SettlementEffect(a)(s) == 0
  {
    RolesOf(s.accounts, Hub, s.via);
  }

  /** Over any run and any change of account maps, an account that only serves as accounts payable holds what was paid
      on it less the net and the VAT of the invoices accepted against it, within a fil an invoice. */
  lemma {:induction false} PayableShowsTheInvoices(steps: seq<Step>, a: string)
    requires ServesOnlyIn(steps, a, AccountsPayable)
    ensures var p := PayableIs(a);
      Near(Paid(steps, p) - Balance(Run(steps).posted, a),
           Invoiced(steps, p, NetPart) + Invoiced(steps, p, VatPart), 2 * Invoices(steps, p))
  {
    var l, p := Run(steps), PayableIs(a);
    AccountsPayableByAccount(steps, a);
    EveryRunIsExplained(steps, a);
    SettlementsAreKept(steps, p);
    SumCongruence(l.settled, ClearedOn(a), PaidWith(p));
    forall b | b in l.booked
      ensures AcceptedAgainst(a)(b) == AcceptedPart(p, NetPart)(b) + AcceptedPart(p, VatPart)(b) {
      GrossHasTwoParts(a, b);
    }
    SumLinear(l.booked, AcceptedPart(p, NetPart), AcceptedPart(p, VatPart), AcceptedAgainst(a));
    InvoicesAreKept(steps, p, NetPart);
    InvoicesAreKept(steps, p, VatPart);
    NearAdds(SumBy(l.booked, AcceptedPart(p, NetPart)), Invoiced(steps, p, NetPart), Invoices(steps, p),
             SumBy(l.booked, AcceptedPart(p, VatPart)), Invoiced(steps, p, VatPart), Invoices(steps, p));
  }

  /** Likewise an account that only serves as input VAT holds the VAT of the invoices accepted on it, within half a fil
      an invoice. */
  lemma {:induction false} InputVatShowsTheInvoices(steps: seq<Step>, a: string)
    requires ServesOnlyIn(steps, a, InputVat)
    ensures Near(Balance(Run(steps).posted, a), Invoiced(steps, InputVatIs(a), VatPart), Invoices(steps, InputVatIs(a)))
  {
    var l, p := Run(steps), InputVatIs(a);
    EveryRunIsExplained(steps, a);
    StepsBringAccounts(steps, ServesOnly(a, InputVat));
    forall b | b in l.booked ensures EffectOn(a)(b) == AcceptedPart(p, VatPart)(b) {
      EffectOnInputVat(a, b);
    }
    SumCongruence(l.booked, EffectOn(a), AcceptedPart(p, VatPart));
    forall s | s in l.settled ensures SettlementEffect(a)(s) == 0 {
      NothingSettledOnInputVat(a, s);
    }
    SumZero(l.settled, SettlementEffect(a));
    InvoicesAreKept(steps, p, VatPart);
  }

  /** With one account per role, each stream's cost account holds what its accruals expected, within half a fil an
      accrual … */
  lemma CostShowsTheExpectation(accounts: AccountMap, steps: seq<Step>, stream: Stream)
    requires DistinctAccounts(accounts) && Uniform(steps, accounts)
    ensures Near(Balance(Run(steps).posted, CostAccount(accounts, stream)), Expected(steps, stream),
                 Accruals(steps, stream))
  {
    CostIsWhatWasAccrued(accounts, steps, stream);
    AccrualsAreKept(steps, stream);
  }

  /** … and cost, variance and accrued payable together hold the net of the accepted invoices: what is accrued but not
      invoiced cancels out. */
  lemma {:induction false} CostShowsTheInvoices(accounts: AccountMap, steps: seq<Step>)
    requires DistinctAccounts(accounts) && Uniform(steps, accounts)
    ensures var posted := Run(steps).posted;
      Near(Balance(posted, CostAccount(accounts, Hub)) + Balance(posted, CostAccount(accounts, LfiPayment))
           + Balance(posted, CostAccount(accounts, LfiData)) + Balance(posted, accounts.costVariance)
           + Balance(posted, accounts.accruedPayable),
           Invoiced(steps, AnyMap(), NetPart), Invoices(steps, AnyMap()))
  {
    var booked := Run(steps).booked;
    CostAndVarianceShowTheCost(accounts, steps);
    AccruedPayableIsWhatIsOutstanding(accounts, steps);
    forall b | b in booked ensures CostOf(b) == AcceptedPart(AnyMap(), NetPart)(b) + OutstandingOf(b) {
      assert b.acceptance.Some? ==> AnyMap()(b.acceptance.value.accounts);
    }
    SumLinear(booked, AcceptedPart(AnyMap(), NetPart), OutstandingOf, CostOf);
    InvoicesAreKept(steps, AnyMap(), NetPart);
  }
}
