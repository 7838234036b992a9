/** The payable side's lifecycle: a cost is accrued, the provider's invoice is accepted against the accrual, and the
    payable is settled. Refused steps post nothing. */
module PayableLedger {
  import opened Collections
  import opened Money
  import opened Journals

  datatype Stream = Hub | LfiPayment | LfiData

  datatype Route = SchemeClearing | Cash

  datatype AccountMap = AccountMap(
    approved: bool,
    cost: map<Stream, string>,
    accruedPayable: string, accountsPayable: string, inputVat: string, costVariance: string,
    schemeClearing: string, cash: string)

  datatype AccrualLine = AccrualLine(stream: Stream, expectedNet: int, ledgerRef: string)

  /** `acceptedBy` is empty until an invoice has been accepted against the accrual. */
  datatype Accrual = Accrual(journal: Journal, accruedFils: int, stream: Stream, sourceId: string, acceptedBy: string)

  datatype Acceptance = Acceptance(reversal: Journal, acceptance: Journal, grossFils: int, netFils: int, vatFils: int,
      varianceFils: int)

  function SourceOf(stream: Stream): string {
    match stream
    case Hub => "nebras_hub_payable"
    case LfiPayment => "lfi_payment_fee_payable"
    case LfiData => "lfi_data_fee_payable"
  }

  predicate Configured(accounts: AccountMap) {
    && !Blank(accounts.accruedPayable) && !Blank(accounts.accountsPayable) && !Blank(accounts.inputVat)
    && !Blank(accounts.costVariance) && !Blank(accounts.schemeClearing) && !Blank(accounts.cash)
  }

  function CheckAccounts(accounts: AccountMap): Result<(), Error> {
    if !accounts.approved then Err(NotApproved) else if !Configured(accounts) then Err(NotConfigured) else Ok(())
  }

  function CostAccount(accounts: AccountMap, stream: Stream): string {
    if stream in accounts.cost then accounts.cost[stream] else ""
  }

  function StreamOf(l: AccrualLine): Stream { l.stream }

  function NetOf(l: AccrualLine): int { l.expectedNet }

  function RefOf(l: AccrualLine): string { l.ledgerRef }

  // ---------------------------------------------------------------- the three builders

  /** The expected cost, summed in milli-fils and rounded once, net of VAT. */
  function BuildAccrual(accounts: AccountMap, sourceId: string, lines: seq<AccrualLine>): Result<Accrual, Error> {
    if CheckAccounts(accounts).Err? then Err(CheckAccounts(accounts).error)
    else if lines == [] then Err(NoLines)
    else if |Keys(lines, StreamOf)| != 1 then Err(MixedStreams)
    else
      var stream, total := lines[0].stream, SumBy(lines, NetOf);
      if Blank(CostAccount(accounts, stream)) then Err(NoAccount)
      else if total < 0 then Err(NegativeAmount)
      else
        match Assemble(SourceOf(stream), sourceId, AccrualLines(accounts, stream, ToFils(total),
            [sourceId] + Map(lines, RefOf)))
        case Err(e) => Err(e)
        case Ok(journal) => Ok(Accrual(journal, ToFils(total), stream, sourceId, ""))
  }

  function AccrualLines(accounts: AccountMap, stream: Stream, fils: int, refs: seq<string>): seq<Line> {
    [Line(CostAccount(accounts, stream), Debit, fils, if stream.Hub? then Fee("hub.standard")
        else FeeClass.SettlementClearing, refs),
     Line(accounts.accruedPayable, Credit, fils, FeeClass.SettlementClearing, refs)]
  }

  /** Reverses what was posted, claims the input VAT and credits the payable gross; the difference from the accrual
      is moved out of the cost account. */
  function AcceptanceOf(accounts: AccountMap, accrual: Accrual, document: string, net: int,
      vat: int): Result<Acceptance, Error> {
    if CheckAccounts(accounts).Err? then Err(CheckAccounts(accounts).error)
    else if accrual.acceptedBy != "" then Err(AlreadyAccepted)
    else if Blank(document) then Err(NotConfigured)
    else if net < 0 || vat < 0 then Err(NegativeAmount)
    else if Blank(CostAccount(accounts, accrual.stream)) then Err(NoAccount)
    else
      var refs := [accrual.sourceId, document];
      match Assemble(SourceOf(accrual.stream), accrual.sourceId + "-REVERSAL", ReversalLines(accounts, accrual, refs))
      case Err(e) => Err(e)
      case Ok(reversal) =>
        match Assemble("payable_variance", accrual.sourceId + "-ACCEPT",
                       AcceptanceLines(accounts, accrual, ToFils(net), ToFils(vat), document, refs))
        case Err(e) => Err(e)
        case Ok(acceptance) =>
          Ok(Acceptance(reversal, acceptance, ToFils(net) + ToFils(vat), ToFils(net), ToFils(vat),
              ToFils(net) - accrual.accruedFils))
  }

  function ReversalLines(accounts: AccountMap, accrual: Accrual, refs: seq<string>): seq<Line> {
    [Line(accounts.accruedPayable, Debit, accrual.accruedFils, FeeClass.SettlementClearing, refs),
     Line(CostAccount(accounts, accrual.stream), Credit, accrual.accruedFils, FeeClass.SettlementClearing, refs)]
  }

  /** The five possible lines; the ones of nothing are dropped when the journal is assembled. */
  function AcceptanceLines(accounts: AccountMap, accrual: Accrual, net: int, vat: int, document: string,
      refs: seq<string>): seq<Line> {
    var variance := net - accrual.accruedFils;
    var cost := CostAccount(accounts, accrual.stream);
    [Line(cost, Debit, net, FeeClass.SettlementClearing, refs),
     Line(accounts.inputVat, Debit, vat, OutputVat, [document]),
     Line(accounts.accountsPayable, Credit, net + vat, FeeClass.SettlementClearing, refs),
     Line(accounts.costVariance, if variance > 0 then Debit else Credit, Abs(variance), FeeClass.SettlementClearing,
         refs),
     Line(cost, if variance > 0 then Credit else Debit, Abs(variance), FeeClass.SettlementClearing, refs)]
  }

  /** The acceptance as it is built: the two variance lines are only pushed when there is a variance. */
  method BuildAcceptance(accounts: AccountMap, accrual: Accrual, document: string, net: int, vat: int)
    returns (result: Result<Acceptance, Error>)
    ensures result == AcceptanceOf(accounts, accrual, document, net, vat)
  {
    var checked := CheckAccounts(accounts);
    if checked.Err? { return Err(checked.error); }
    if accrual.acceptedBy != "" { return Err(AlreadyAccepted); }
    if Blank(document) { return Err(NotConfigured); }
    if net < 0 || vat < 0 { return Err(NegativeAmount); }
    var cost := CostAccount(accounts, accrual.stream);
    if Blank(cost) { return Err(NoAccount); }
    var netFils, vatFils := ToFils(net), ToFils(vat);
    var variance := netFils - accrual.accruedFils;
    var refs := [accrual.sourceId, document];
    var reversal := Assemble(SourceOf(accrual.stream), accrual.sourceId + "-REVERSAL",
        ReversalLines(accounts, accrual, refs));
    if reversal.Err? { return Err(reversal.error); }
    var lines :=
      [Line(cost, Debit, netFils, FeeClass.SettlementClearing, refs),
       Line(accounts.inputVat, Debit, vatFils, OutputVat, [document]),
       Line(accounts.accountsPayable, Credit, netFils + vatFils, FeeClass.SettlementClearing, refs)];
    ghost var all := AcceptanceLines(accounts, accrual, netFils, vatFils, document, refs);
    assert all == lines + all[3..];
    if variance != 0 {
      lines := lines + [Line(accounts.costVariance, if variance > 0 then Debit else Credit, Abs(variance),
          FeeClass.SettlementClearing, refs)];
      lines := lines + [Line(cost, if variance > 0 then Credit else Debit, Abs(variance), FeeClass.SettlementClearing,
          refs)];
      assert lines == all;
    } else {
      KeepConcat(lines, all[3..], NonZero);
      KeepNothing(all[3..], NonZero);
      assert Keep(all, NonZero) == Keep(lines, NonZero);
    }
    var acceptance := Assemble("payable_variance", accrual.sourceId + "-ACCEPT", lines);
    if acceptance.Err? { return Err(acceptance.error); }
    result := Ok(Acceptance(reversal.value, acceptance.value, netFils + vatFils, netFils, vatFils, variance));
  }

  function BuildSettlement(accounts: AccountMap, reference: string, amount: int, via: Route,
      refs: seq<string>): Result<Journal, Error> {
    if CheckAccounts(accounts).Err? then Err(CheckAccounts(accounts).error)
    else if amount <= 0 then Err(NotPositive)
    else Assemble("nebras_hub_payable", reference, SettlementLines(accounts, amount, via, refs))
  }

  function Contra(accounts: AccountMap, via: Route): string {
    if via.Cash? then accounts.cash else accounts.schemeClearing
  }

  function SettlementLines(accounts: AccountMap, amount: int, via: Route, refs: seq<string>): seq<Line> {
    [Line(accounts.accountsPayable, Debit, amount, FeeClass.SettlementClearing, refs),
     Line(Contra(accounts, via), Credit, amount, if via.Cash? then SettlementCash else FeeClass.SettlementClearing,
         refs)]
  }

  // ---------------------------------------------------------------- when each builder refuses

  lemma TwoLegs(debit: string, credit: string, amount: int, d: FeeClass, c: FeeClass, refs: seq<string>,
      account: string)
    ensures var lines := [Line(debit, Debit, amount, d, refs), Line(credit, Credit, amount, c, refs)];
      && TrialBalance(lines) == 0
      && ((exists l :: l in lines && NonZero(l)) <==> amount != 0)
      && Balance(lines, account) == (if account == debit then amount else 0) - (if account == credit then amount else 0)
  {
    var l0, l1 := Line(debit, Debit, amount, d, refs), Line(credit, Credit, amount, c, refs);
    SumOfTwo(l0, l1, SignedOf);
    SumOfTwo(l0, l1, OnAccount(account));
    if amount != 0 {
      assert l0 in [l0, l1] && NonZero(l0);
    }
  }

  /** The map is approved and every account but the costs' is named. */
  predicate Usable(m: AccountMap) {
    && m.approved
    && !Blank(m.accruedPayable) && !Blank(m.accountsPayable) && !Blank(m.inputVat)
    && !Blank(m.costVariance) && !Blank(m.schemeClearing) && !Blank(m.cash)
  }

  predicate HasCostAccount(m: AccountMap, stream: Stream) {
    stream in m.cost && !Blank(m.cost[stream])
  }

  lemma OneStream(lines: seq<AccrualLine>)
    requires lines != []
    ensures |Keys(lines, StreamOf)| == 1 <==> forall l :: l in lines ==> l.stream == lines[0].stream
  {
    var keys := Keys(lines, StreamOf);
    forall k ensures k in keys <==> exists l :: l in lines && StreamOf(l) == k {
      KeysExact(lines, StreamOf, k);
    }
    assert lines[0] in lines && StreamOf(lines[0]) in keys;
    if |keys| > 1 {
      var one, other := keys[0], keys[1];
      assert one in keys && other in keys && one != other;
    }
    if |keys| == 1 {
      forall l | l in lines ensures l.stream == lines[0].stream {
        assert StreamOf(l) in keys;
      }
    }
  }

  /** An accrual is refused exactly when the accounts are not usable, there is nothing to accrue or it is for several
      streams or one without a cost account, its total rounds away (below half a fil there is nothing to post), or
      its source has no letter or digit. */
  lemma {:induction false} AccrualRefusedExactly(accounts: AccountMap, sourceId: string, lines: seq<AccrualLine>)
    ensures BuildAccrual(accounts, sourceId, lines).Ok? <==>
      && Usable(accounts) && Named(sourceId)
      && lines != [] && HasCostAccount(accounts, lines[0].stream)
      && (forall l :: l in lines ==> l.stream == lines[0].stream)
      && SumBy(lines, NetOf) >= 500
  {
    if lines != [] {
      OneStream(lines);
      AccrualAssembles(accounts, sourceId, lines);
    }
  }

  lemma AccrualAssembles(accounts: AccountMap, sourceId: string, lines: seq<AccrualLine>)
    requires lines != []
    ensures var fils, refs := ToFils(SumBy(lines, NetOf)), [sourceId] + Map(lines, RefOf);
      var legs := AccrualLines(accounts, lines[0].stream, fils, refs);
      Assemble(SourceOf(lines[0].stream), sourceId, legs).Ok? <==> fils != 0 && Named(sourceId)
  {
    var stream, total := lines[0].stream, SumBy(lines, NetOf);
    var refs := [sourceId] + Map(lines, RefOf);
    AssembledExactly(SourceOf(stream), sourceId, AccrualLines(accounts, stream, ToFils(total), refs));
    TwoLegs(CostAccount(accounts, stream), accounts.accruedPayable, ToFils(total),
            if stream.Hub? then Fee("hub.standard") else FeeClass.SettlementClearing, FeeClass.SettlementClearing, refs,
                "");
  }

  lemma AcceptanceLinesBalance(accounts: AccountMap, accrual: Accrual, net: int, vat: int, document: string,
      refs: seq<string>, a: string)
    ensures var lines := AcceptanceLines(accounts, accrual, net, vat, document, refs);
      && TrialBalance(lines) == 0
      && Balance(lines, a) == At(a, CostAccount(accounts, accrual.stream), accrual.accruedFils)
        + At(a, accounts.inputVat, vat)
           - At(a, accounts.accountsPayable, net + vat) + At(a, accounts.costVariance, net - accrual.accruedFils)
  {
    var lines := AcceptanceLines(accounts, accrual, net, vat, document, refs);
    SumOfFive(lines[0], lines[1], lines[2], lines[3], lines[4], SignedOf);
    SumOfFive(lines[0], lines[1], lines[2], lines[3], lines[4], OnAccount(a));
    assert lines == [lines[0], lines[1], lines[2], lines[3], lines[4]];
  }

  lemma AcceptanceCarriesMoney(accounts: AccountMap, accrual: Accrual, net: int, vat: int, document: string,
      refs: seq<string>)
    requires accrual.accruedFils != 0
    ensures exists l :: l in AcceptanceLines(accounts, accrual, net, vat, document, refs) && NonZero(l)
  {
    var lines := AcceptanceLines(accounts, accrual, net, vat, document, refs);
    if net != 0 {
      assert lines[0] in lines && NonZero(lines[0]);
    } else {
      assert lines[3] in lines && NonZero(lines[3]);
    }
  }

  lemma SuffixesAreNamed(sourceId: string)
    ensures Named(sourceId + "-REVERSAL") && Named(sourceId + "-ACCEPT")
  {
    assert 'R' in "-REVERSAL" && 'A' in "-ACCEPT";
    NamedAfterSuffix(sourceId, "-REVERSAL");
    NamedAfterSuffix(sourceId, "-ACCEPT");
  }

  /** An accrual that posted something can be accepted exactly once: acceptance is refused exactly when it was accepted
      before, the accounts are not usable or have no cost account for it, no document is cited, or an amount is
      negative. In particular an invoice for nothing is accepted. */
  lemma {:induction false} AcceptanceRefusedExactly(accounts: AccountMap, accrual: Accrual, document: string, net: int,
      vat: int)
    requires accrual.accruedFils > 0
    ensures AcceptanceOf(accounts, accrual, document, net, vat).Ok? <==>
      && Usable(accounts) && HasCostAccount(accounts, accrual.stream)
      && accrual.acceptedBy == "" && !Blank(document) && net >= 0 && vat >= 0
  {
    var refs := [accrual.sourceId, document];
    SuffixesAreNamed(accrual.sourceId);
    AssembledExactly(SourceOf(accrual.stream), accrual.sourceId + "-REVERSAL", ReversalLines(accounts, accrual, refs));
    TwoLegs(accounts.accruedPayable, CostAccount(accounts, accrual.stream), accrual.accruedFils,
            FeeClass.SettlementClearing, FeeClass.SettlementClearing, refs, "");
    AssembledExactly("payable_variance", accrual.sourceId + "-ACCEPT",
                     AcceptanceLines(accounts, accrual, ToFils(net), ToFils(vat), document, refs));
    AcceptanceLinesBalance(accounts, accrual, ToFils(net), ToFils(vat), document, refs, "");
    AcceptanceCarriesMoney(accounts, accrual, ToFils(net), ToFils(vat), document, refs);
  }

  lemma SettlementRefusedExactly(accounts: AccountMap, reference: string, amount: int, via: Route, refs: seq<string>)
    ensures BuildSettlement(accounts, reference, amount, via, refs).Ok? <==>
      Usable(accounts) && amount > 0 && Named(reference)
  {
    AssembledExactly("nebras_hub_payable", reference, SettlementLines(accounts, amount, via, refs));
    TwoLegs(accounts.accountsPayable, Contra(accounts, via), amount, FeeClass.SettlementClearing,
            if via.Cash? then SettlementCash else FeeClass.SettlementClearing, refs, "");
  }

  // ---------------------------------------------------------------- runs

  /** Every call brings the account map of its day. */
  datatype Step =
    | Accrue(accounts: AccountMap, sourceId: string, lines: seq<AccrualLine>)
    | Accept(accounts: AccountMap, accrual: nat, document: string, net: int, vat: int)
    | Settle(accounts: AccountMap, reference: string, amount: int, via: Route, refs: seq<string>)

  /** An accrual and its acceptance, each with the accounts it was booked on. */
  datatype Booked = Booked(accounts: AccountMap, accrual: Accrual, acceptance: Option<Accepted>)

  datatype Accepted = Accepted(accounts: AccountMap, taken: Acceptance)

  datatype Settlement = Settlement(accounts: AccountMap, amount: int, via: Route)

  /** Everything accrued so far, everything settled so far, and every line posted so far. */
  datatype Ledger = Ledger(booked: seq<Booked>, settled: seq<Settlement>, posted: seq<Line>)

  function Apply(ledger: Ledger, step: Step): Ledger {
    match step
    case Accrue(accounts, sourceId, lines) =>
      (match BuildAccrual(accounts, sourceId, lines)
       case Err(_) => ledger
       case Ok(accrual) =>
         Ledger(ledger.booked + [Booked(accounts, accrual, None)], ledger.settled,
             ledger.posted + accrual.journal.lines))
    case Accept(accounts, i, document, net, vat) =>
      if i >= |ledger.booked| then ledger
      else
        (match AcceptanceOf(accounts, ledger.booked[i].accrual, document, net, vat)
         case Err(_) => ledger
         case Ok(taken) =>
           Ledger(ledger.booked[i := Taken(ledger.booked[i], accounts, taken)], ledger.settled,
                  ledger.posted + AcceptanceJournals(taken)))
    case Settle(accounts, reference, amount, via, refs) =>
      (match BuildSettlement(accounts, reference, amount, via, refs)
       case Err(_) => ledger
       case Ok(journal) =>
         Ledger(ledger.booked, ledger.settled + [Settlement(accounts, amount, via)], ledger.posted + journal.lines))
  }

  /** The accrual remembers the journal that accepted it. */
  function Taken(b: Booked, accounts: AccountMap, taken: Acceptance): Booked {
    Booked(b.accounts, b.accrual.(acceptedBy := taken.acceptance.sourceId), Some(Accepted(accounts, taken)))
  }

  function AcceptanceJournals(taken: Acceptance): seq<Line> {
    taken.reversal.lines + taken.acceptance.lines
  }

  function Run(steps: seq<Step>): Ledger {
    if steps == [] then Ledger([], [], [])
    else Apply(Run(steps[..|steps| - 1]), steps[|steps| - 1])
  }

  // ---------------------------------------------------------------- what every run leaves on every account

  /** What one accrual has left on account `a`: its cost and the accrued payable, as accrued; and once it is accepted
      the accrued payable of that day's accounts, the input VAT, the variance and the payable at gross. */
  function EffectOn(a: string): Booked -> int {
    (b: Booked) => AccruedEffect(a, b) + if b.acceptance.Some? then AcceptedEffect(a, b.accrual, b.acceptance.value)
        else 0
  }

  function AccruedEffect(a: string, b: Booked): int {
    At(a, CostAccount(b.accounts, b.accrual.stream), b.accrual.accruedFils)
    - At(a, b.accounts.accruedPayable, b.accrual.accruedFils)
  }

  function AcceptedEffect(a: string, accrual: Accrual, x: Accepted): int {
    At(a, x.accounts.accruedPayable, accrual.accruedFils) + At(a, x.accounts.inputVat, x.taken.vatFils)
    + At(a, x.accounts.costVariance, x.taken.varianceFils) - At(a, x.accounts.accountsPayable, x.taken.grossFils)
  }

  /** One settlement clears the payable against its route's account. */
  function SettlementEffect(a: string): Settlement -> int {
    (s: Settlement) => At(a, s.accounts.accountsPayable, s.amount) - At(a, Contra(s.accounts, s.via), s.amount)
  }

  /** The accrual's own record of its acceptance agrees with the acceptance kept beside it. */
  predicate Consistent(b: Booked) {
    && b.accrual.accruedFils > 0
    && (b.acceptance.None? <==> b.accrual.acceptedBy == "")
    && (b.acceptance.Some? ==>
      var taken := b.acceptance.value.taken;
      taken.grossFils == taken.netFils + taken.vatFils && taken.varianceFils == taken.netFils - b.accrual.accruedFils)
  }

  lemma AccrualPosts(accounts: AccountMap, sourceId: string, lines: seq<AccrualLine>, a: string)
    requires BuildAccrual(accounts, sourceId, lines).Ok?
    ensures var accrual := BuildAccrual(accounts, sourceId, lines).value;
      && Consistent(Booked(accounts, accrual, None))
      && TrialBalance(accrual.journal.lines) == 0
      && Balance(accrual.journal.lines, a) == EffectOn(a)(Booked(accounts, accrual, None))
  {
    var stream, fils, refs := lines[0].stream, ToFils(SumBy(lines, NetOf)), [sourceId] + Map(lines, RefOf);
    var legs := AccrualLines(accounts, stream, fils, refs);
    AssembledExactly(SourceOf(stream), sourceId, legs);
    AssembledBalance(legs, a);
    TwoLegs(CostAccount(accounts, stream), accounts.accruedPayable, fils,
            if stream.Hub? then Fee("hub.standard") else FeeClass.SettlementClearing, FeeClass.SettlementClearing, refs,
                a);
    assert fils >= 0;
  }

  lemma ReversalPosts(accounts: AccountMap, accrual: Accrual, document: string, net: int, vat: int, a: string)
    requires AcceptanceOf(accounts, accrual, document, net, vat).Ok?
    ensures var lines := AcceptanceOf(accounts, accrual, document, net, vat).value.reversal.lines;
      && TrialBalance(lines) == 0
      && Balance(lines, a) == At(a, accounts.accruedPayable, accrual.accruedFils)
           - At(a, CostAccount(accounts, accrual.stream), accrual.accruedFils)
  {
    var refs := [accrual.sourceId, document];
    var legs := ReversalLines(accounts, accrual, refs);
    AssembledExactly(SourceOf(accrual.stream), accrual.sourceId + "-REVERSAL", legs);
    AssembledBalance(legs, a);
    TwoLegs(accounts.accruedPayable, CostAccount(accounts, accrual.stream), accrual.accruedFils,
            FeeClass.SettlementClearing, FeeClass.SettlementClearing, refs, a);
  }

  lemma AcceptancePosts(accounts: AccountMap, accrual: Accrual, document: string, net: int, vat: int, a: string)
    requires AcceptanceOf(accounts, accrual, document, net, vat).Ok?
    ensures var taken := AcceptanceOf(accounts, accrual, document, net, vat).value;
      && TrialBalance(taken.acceptance.lines) == 0
      && Balance(taken.acceptance.lines, a) == At(a, CostAccount(accounts, accrual.stream), accrual.accruedFils)
           + At(a, accounts.inputVat, taken.vatFils) - At(a, accounts.accountsPayable, taken.grossFils)
           + At(a, accounts.costVariance, taken.varianceFils)
  {
    var refs := [accrual.sourceId, document];
    var legs := AcceptanceLines(accounts, accrual, ToFils(net), ToFils(vat), document, refs);
    AssembledExactly("payable_variance", accrual.sourceId + "-ACCEPT", legs);
    AssembledBalance(legs, a);
    AcceptanceLinesBalance(accounts, accrual, ToFils(net), ToFils(vat), document, refs, a);
  }

  /** Accepting an invoice adds the second part to what its accrual has left on every account. */
  lemma AcceptingMovesEffect(accounts: AccountMap, before: Booked, document: string, net: int, vat: int, a: string)
    requires Consistent(before) && AcceptanceOf(accounts, before.accrual, document, net, vat).Ok?
    ensures var taken := AcceptanceOf(accounts, before.accrual, document, net, vat).value;
      var lines := AcceptanceJournals(taken);
      && before.acceptance.None? && Consistent(Taken(before, accounts, taken))
      && TrialBalance(lines) == 0
      && Balance(lines, a) == EffectOn(a)(Taken(before, accounts, taken)) - EffectOn(a)(before)
  {
    var taken := AcceptanceOf(accounts, before.accrual, document, net, vat).value;
    ReversalPosts(accounts, before.accrual, document, net, vat, a);
    AcceptancePosts(accounts, before.accrual, document, net, vat, a);
    SumConcat(taken.reversal.lines, taken.acceptance.lines, SignedOf);
    SumConcat(taken.reversal.lines, taken.acceptance.lines, OnAccount(a));
    assert taken.acceptance.sourceId == before.accrual.sourceId + "-ACCEPT";
  }

  lemma SettlementPosts(accounts: AccountMap, reference: string, amount: int, via: Route, refs: seq<string>, a: string)
    requires BuildSettlement(accounts, reference, amount, via, refs).Ok?
    ensures var lines := BuildSettlement(accounts, reference, amount, via, refs).value.lines;
      && TrialBalance(lines) == 0
      && Balance(lines, a) == SettlementEffect(a)(Settlement(accounts, amount, via))
  {
    var legs := SettlementLines(accounts, amount, via, refs);
    AssembledExactly("nebras_hub_payable", reference, legs);
    AssembledBalance(legs, a);
    TwoLegs(accounts.accountsPayable, Contra(accounts, via), amount, FeeClass.SettlementClearing,
            if via.Cash? then SettlementCash else FeeClass.SettlementClearing, refs, a);
  }

  /** The ledger's posted lines leave on account `a` what its accruals and settlements account for. */
  ghost predicate Explained(ledger: Ledger, a: string) {
    && (forall b :: b in ledger.booked ==> Consistent(b))
    && TrialBalance(ledger.posted) == 0
    && Balance(ledger.posted, a) == SumBy(ledger.booked, EffectOn(a)) + SumBy(ledger.settled, SettlementEffect(a))
  }

  lemma AccruingKeeps(ledger: Ledger, accounts: AccountMap, sourceId: string, lines: seq<AccrualLine>, a: string)
    requires Explained(ledger, a)
    ensures Explained(Apply(ledger, Accrue(accounts, sourceId, lines)), a)
  {
    if BuildAccrual(accounts, sourceId, lines).Ok? {
      var accrual := BuildAccrual(accounts, sourceId, lines).value;
      AccrualPosts(accounts, sourceId, lines, a);
      SumSnoc(ledger.booked, Booked(accounts, accrual, None), EffectOn(a));
      SumConcat(ledger.posted, accrual.journal.lines, SignedOf);
      SumConcat(ledger.posted, accrual.journal.lines, OnAccount(a));
    }
  }

  lemma AcceptingKeeps(ledger: Ledger, accounts: AccountMap, i: nat, document: string, net: int, vat: int, a: string)
    requires Explained(ledger, a)
    ensures Explained(Apply(ledger, Accept(accounts, i, document, net, vat)), a)
  {
    if i < |ledger.booked| && AcceptanceOf(accounts, ledger.booked[i].accrual, document, net, vat).Ok? {
      var taken := AcceptanceOf(accounts, ledger.booked[i].accrual, document, net, vat).value;
      assert ledger.booked[i] in ledger.booked;
      AcceptingMovesEffect(accounts, ledger.booked[i], document, net, vat, a);
      SumUpdate(ledger.booked, i, Taken(ledger.booked[i], accounts, taken), EffectOn(a));
      SumConcat(ledger.posted, AcceptanceJournals(taken), SignedOf);
      SumConcat(ledger.posted, AcceptanceJournals(taken), OnAccount(a));
    }
  }

  lemma SettlingKeeps(ledger: Ledger, accounts: AccountMap, reference: string, amount: int, via: Route,
      refs: seq<string>, a: string)
    requires Explained(ledger, a)
    ensures Explained(Apply(ledger, Settle(accounts, reference, amount, via, refs)), a)
  {
    if BuildSettlement(accounts, reference, amount, via, refs).Ok? {
      var lines := BuildSettlement(accounts, reference, amount, via, refs).value.lines;
      SettlementPosts(accounts, reference, amount, via, refs, a);
      SumSnoc(ledger.settled, Settlement(accounts, amount, via), SettlementEffect(a));
      SumConcat(ledger.posted, lines, SignedOf);
      SumConcat(ledger.posted, lines, OnAccount(a));
    }
  }

  /** Whatever the account maps, one for all steps or a new one each time, after every run the trial balance is zero and
      each account holds exactly what the accruals and settlements account for, roles that share an account adding
      up. */
  lemma {:induction false} EveryRunIsExplained(steps: seq<Step>, a: string)
    ensures Explained(Run(steps), a)
  {
    if steps != [] {
      var before := Run(steps[..|steps| - 1]);
      EveryRunIsExplained(steps[..|steps| - 1], a);
      match steps[|steps| - 1]
      case Accrue(accounts, sourceId, lines) => AccruingKeeps(before, accounts, sourceId, lines, a);
      case Accept(accounts, i, document, net, vat) => AcceptingKeeps(before, accounts, i, document, net, vat, a);
      case Settle(accounts, reference, amount, via, refs) => SettlingKeeps(before, accounts, reference, amount, via,
          refs, a);
    }
  }

  datatype Role =
    | AccruedPayable | AccountsPayable | InputVat | CostVariance | Clearing(via: Route) | Cost(stream: Stream)

  function Account(accounts: AccountMap, role: Role): string {
    match role
    case AccruedPayable => accounts.accruedPayable
    case AccountsPayable => accounts.accountsPayable
    case InputVat => accounts.inputVat
    case CostVariance => accounts.costVariance
    case Clearing(via) => Contra(accounts, via)
    case Cost(stream) => CostAccount(accounts, stream)
  }

  /** Every entry of the ledger was booked with accounts that some step brought. */
  ghost predicate BookedWith(ledger: Ledger, p: AccountMap -> bool) {
    && (forall b :: b in ledger.booked ==> p(b.accounts) && (b.acceptance.Some? ==> p(b.acceptance.value.accounts)))
    && (forall s :: s in ledger.settled ==> p(s.accounts))
  }

  lemma {:induction false} StepsBringAccounts(steps: seq<Step>, p: AccountMap -> bool)
    requires forall s :: s in steps ==> p(s.accounts)
    ensures BookedWith(Run(steps), p)
  {
    if steps != [] {
      var init, last := steps[..|steps| - 1], steps[|steps| - 1];
      assert last in steps;
      StepsBringAccounts(init, p);
    }
  }

  // ---------------------------------------------------------------- accounts that change over time

  /** No account map uses the account for anything but the role. */
  ghost function ServesOnly(a: string, role: Role): AccountMap -> bool {
    (accounts: AccountMap) => forall r: Role :: Account(accounts, r) == a ==> r == role
  }

  ghost predicate ServesOnlyIn(steps: seq<Step>, a: string, role: Role) {
    forall s :: s in steps ==> ServesOnly(a, role)(s.accounts)
  }

  function AccruedAgainst(a: string): Booked -> int {
    (b: Booked) => At(a, b.accounts.accruedPayable, b.accrual.accruedFils)
  }

  function ReversedOn(a: string): Booked -> int {
    (b: Booked) => if b.acceptance.Some? then At(a, b.acceptance.value.accounts.accruedPayable, b.accrual.accruedFils)
        else 0
  }

  function AcceptedAgainst(a: string): Booked -> int {
    (b: Booked) =>
      if b.acceptance.Some? then At(a, b.acceptance.value.accounts.accountsPayable, b.acceptance.value.taken.grossFils)
          else 0
  }

  function ClearedOn(a: string): Settlement -> int {
    (s: Settlement) => At(a, s.accounts.accountsPayable, s.amount)
  }

  lemma RolesOf(accounts: AccountMap, stream: Stream, via: Route)
    ensures Account(accounts, AccruedPayable) == accounts.accruedPayable
      && Account(accounts, AccountsPayable) == accounts.accountsPayable
    ensures Account(accounts, InputVat) == accounts.inputVat && Account(accounts, CostVariance) == accounts.costVariance
    ensures Account(accounts, Cost(stream)) == CostAccount(accounts, stream)
      && Account(accounts, Clearing(via)) == Contra(accounts, via)
  {
  }

  /** An account that only ever serves as accrued payable holds what was reversed on it less what was accrued against
      it. */
  lemma {:induction false} AccruedPayableByAccount(steps: seq<Step>, a: string)
    requires ServesOnlyIn(steps, a, AccruedPayable)
    ensures var l := Run(steps);
      Balance(l.posted, a) == SumBy(l.booked, ReversedOn(a)) - SumBy(l.booked, AccruedAgainst(a))
  {
    var l := Run(steps);
    EveryRunIsExplained(steps, a);
    StepsBringAccounts(steps, ServesOnly(a, AccruedPayable));
    forall b | b in l.booked ensures ReversedOn(a)(b) == EffectOn(a)(b) + AccruedAgainst(a)(b) {
      RolesOf(b.accounts, b.accrual.stream, Cash);
      if b.acceptance.Some? {
        RolesOf(b.acceptance.value.accounts, b.accrual.stream, Cash);
      }
    }
    SumLinear(l.booked, EffectOn(a), AccruedAgainst(a), ReversedOn(a));
    forall s | s in l.settled ensures SettlementEffect(a)(s) == 0 {
      RolesOf(s.accounts, Hub, s.via);
    }
    SumZero(l.settled, SettlementEffect(a));
  }

  /** An account that only ever serves as accounts payable holds what was settled on it less what was accepted against
      it. */
  lemma {:induction false} AccountsPayableByAccount(steps: seq<Step>, a: string)
    requires ServesOnlyIn(steps, a, AccountsPayable)
    ensures var l := Run(steps);
      Balance(l.posted, a) == SumBy(l.settled, ClearedOn(a)) - SumBy(l.booked, AcceptedAgainst(a))
  {
    var l := Run(steps);
    EveryRunIsExplained(steps, a);
    StepsBringAccounts(steps, ServesOnly(a, AccountsPayable));
    forall b | b in l.booked ensures EffectOn(a)(b) == -AcceptedAgainst(a)(b) {
      RolesOf(b.accounts, b.accrual.stream, Cash);
      if b.acceptance.Some? {
        RolesOf(b.acceptance.value.accounts, b.accrual.stream, Cash);
      }
    }
    SumNegated(l.booked, AcceptedAgainst(a), EffectOn(a));
    forall s | s in l.settled ensures SettlementEffect(a)(s) == ClearedOn(a)(s) {
      RolesOf(s.accounts, Hub, s.via);
    }
    SumCongruence(l.settled, SettlementEffect(a), ClearedOn(a));
  }

  lemma {:induction false} SumNegated<T>(xs: seq<T>, w: T -> int, v: T -> int)
    requires forall x :: x in xs ==> v(x) == -w(x)
    ensures SumBy(xs, v) == -SumBy(xs, w)
  {
    if xs != [] {
      SumNegated(xs[..|xs| - 1], w, v);
    }
  }

  /** Accepted on accounts with the accrued payable it was accrued against. */
  predicate ReversedWhereAccrued(b: Booked) {
    b.acceptance.Some? && b.acceptance.value.accounts.accruedPayable == b.accounts.accruedPayable
  }

  /** When every accrual is accepted with the accrued payable it was accrued against, no such account is left with a
      balance, whatever else about the maps has changed. */
  lemma {:induction false} NothingIsStranded(steps: seq<Step>, a: string)
    requires ServesOnlyIn(steps, a, AccruedPayable)
    requires forall b :: b in Run(steps).booked ==> ReversedWhereAccrued(b)
    ensures Balance(Run(steps).posted, a) == 0
  {
    AccruedPayableByAccount(steps, a);
    SumCongruence(Run(steps).booked, ReversedOn(a), AccruedAgainst(a));
  }

  lemma RunOfTwo(first: Step, second: Step)
    ensures Run([first, second]) == Apply(Apply(Ledger([], [], []), first), second)
  {
    assert [first, second][..1] == [first] && [first][..0] == [];
    assert Run([first]) == Apply(Run([first][..0]), first);
  }

  /** An accrual accepted on other accounts than it was made on: its own accrued payable is cleared exactly when the two
      maps agree on it, and otherwise keeps the whole accrual, which the other one shows in debit. */
  lemma {:induction false} StrandedExactly(first: Step, second: Step, mine: string, theirs: string)
    requires first.Accrue? && second.Accept? && second.accrual == 0 && |Run([first, second]).booked| == 1
    requires Run([first, second]).booked[0].acceptance.Some?
    requires mine == first.accounts.accruedPayable && theirs == second.accounts.accruedPayable
    requires ServesOnlyIn([first, second], mine, AccruedPayable)
      && ServesOnlyIn([first, second], theirs, AccruedPayable)
    ensures var l := Run([first, second]);
      && (Balance(l.posted, mine) == 0 <==> mine == theirs)
      && (mine != theirs ==>
            Balance(l.posted, mine) == -l.booked[0].accrual.accruedFils
                && Balance(l.posted, theirs) == l.booked[0].accrual.accruedFils)
  {
    var l := Run([first, second]);
    RunOfTwo(first, second);
    EveryRunIsExplained([first, second], mine);
    assert l.booked[0] in l.booked && l.booked == [l.booked[0]];
    assert l.booked[0].accounts == first.accounts && l.booked[0].acceptance.value.accounts == second.accounts;
    AccruedPayableByAccount([first, second], mine);
    AccruedPayableByAccount([first, second], theirs);
    SumOfOne(l.booked[0], ReversedOn(mine));
    SumOfOne(l.booked[0], AccruedAgainst(mine));
    SumOfOne(l.booked[0], ReversedOn(theirs));
    SumOfOne(l.booked[0], AccruedAgainst(theirs));
  }

  // ---------------------------------------------------------------- one account map, one account per role

  ghost predicate Uniform(steps: seq<Step>, accounts: AccountMap) {
    forall s :: s in steps ==> s.accounts == accounts
  }

  ghost predicate DistinctAccounts(accounts: AccountMap) {
    forall r: Role, s: Role :: r != s ==> Account(accounts, r) != Account(accounts, s)
  }

  // What an accrual, and a settlement, means for the account of each role.

  function BookedUnder(role: Role, b: Booked): int {
    match role
    case AccruedPayable => -OutstandingOf(b)
    case AccountsPayable => -GrossOf(b)
    case InputVat => VatOf(b)
    case CostVariance => VarianceOf(b)
    case Clearing(_) => 0
    case Cost(stream) => AccruedOn(stream)(b)
  }

  function BookedOn(role: Role): Booked -> int {
    (b: Booked) => BookedUnder(role, b)
  }

  function SettledUnder(role: Role, s: Settlement): int {
    match role
    case AccountsPayable => s.amount
    case Clearing(via) => -SettledBy(via)(s)
    case _ => 0
  }

  function SettledOn(role: Role): Settlement -> int {
    (s: Settlement) => SettledUnder(role, s)
  }

  function OutstandingOf(b: Booked): int { if b.acceptance.None? then b.accrual.accruedFils else 0 }

  function AccruedOn(stream: Stream): Booked -> int {
    (b: Booked) => if b.accrual.stream == stream then b.accrual.accruedFils else 0
  }

  function VarianceOf(b: Booked): int { if b.acceptance.Some? then b.acceptance.value.taken.varianceFils else 0 }

  function VatOf(b: Booked): int { if b.acceptance.Some? then b.acceptance.value.taken.vatFils else 0 }

  function GrossOf(b: Booked): int { if b.acceptance.Some? then b.acceptance.value.taken.grossFils else 0 }

  /** What the cost of one accrual has come to: as invoiced once it is accepted, as accrued until then. */
  function CostOf(b: Booked): int { if b.acceptance.Some? then b.acceptance.value.taken.netFils
      else b.accrual.accruedFils }

  function SettledBy(via: Route): Settlement -> int {
    (s: Settlement) => if s.via == via then s.amount else 0
  }

  predicate BookedOnlyWith(b: Booked, accounts: AccountMap) {
    b.accounts == accounts && (b.acceptance.Some? ==> b.acceptance.value.accounts == accounts)
  }

  lemma EffectByRole(accounts: AccountMap, role: Role, b: Booked)
    requires DistinctAccounts(accounts) && BookedOnlyWith(b, accounts)
    ensures EffectOn(Account(accounts, role))(b) == BookedUnder(role, b)
  {
    var a := Account(accounts, role);
    assert a == Account(accounts, Cost(b.accrual.stream)) <==> role == Cost(b.accrual.stream);
    assert a == Account(accounts, AccruedPayable) <==> role == AccruedPayable;
    assert a == Account(accounts, AccountsPayable) <==> role == AccountsPayable;
    assert a == Account(accounts, InputVat) <==> role == InputVat;
    assert a == Account(accounts, CostVariance) <==> role == CostVariance;
  }

  lemma SettlementByRole(accounts: AccountMap, role: Role, s: Settlement)
    requires DistinctAccounts(accounts) && s.accounts == accounts
    ensures SettlementEffect(Account(accounts, role))(s) == SettledUnder(role, s)
  {
    var a := Account(accounts, role);
    assert a == Account(accounts, AccountsPayable) <==> role == AccountsPayable;
    assert a == Account(accounts, Clearing(s.via)) <==> role == Clearing(s.via);
  }

  lemma {:induction false} RoleBalance(accounts: AccountMap, steps: seq<Step>, role: Role)
    requires DistinctAccounts(accounts) && Uniform(steps, accounts)
    ensures var l := Run(steps);
      Balance(l.posted, Account(accounts, role)) == SumBy(l.booked, BookedOn(role)) + SumBy(l.settled, SettledOn(role))
  {
    var l, a := Run(steps), Account(accounts, role);
    EveryRunIsExplained(steps, a);
    StepsBringAccounts(steps, (m: AccountMap) => m == accounts);
    forall b | b in l.booked ensures EffectOn(a)(b) == BookedOn(role)(b) {
      EffectByRole(accounts, role, b);
    }
    forall s | s in l.settled ensures SettlementEffect(a)(s) == SettledOn(role)(s) {
      SettlementByRole(accounts, role, s);
    }
    SumCongruence(l.booked, EffectOn(a), BookedOn(role));
    SumCongruence(l.settled, SettlementEffect(a), SettledOn(role));
  }

  function AmountOf(s: Settlement): int { s.amount }

  /** With one account per role, every run leaves on accrued payable minus what is accrued and not yet accepted. */
  lemma AccruedPayableIsWhatIsOutstanding(accounts: AccountMap, steps: seq<Step>)
    requires DistinctAccounts(accounts) && Uniform(steps, accounts)
    ensures var l := Run(steps);
      Balance(l.posted, accounts.accruedPayable) == -SumBy(l.booked, OutstandingOf)
  {
    var l := Run(steps);
    RoleBalance(accounts, steps, AccruedPayable);
    SumNegated(l.booked, OutstandingOf, BookedOn(AccruedPayable));
    SumZero(l.settled, SettledOn(AccruedPayable));
  }

  /** … on accounts payable minus what was invoiced gross and not yet settled … */
  lemma {:induction false} AccountsPayableIsWhatIsUnsettled(accounts: AccountMap, steps: seq<Step>)
    requires DistinctAccounts(accounts) && Uniform(steps, accounts)
    ensures var l := Run(steps);
      Balance(l.posted, accounts.accountsPayable) == -(SumBy(l.booked, GrossOf) - SumBy(l.settled, AmountOf))
  {
    var l := Run(steps);
    RoleBalance(accounts, steps, AccountsPayable);
    SumNegated(l.booked, GrossOf, BookedOn(AccountsPayable));
    SumCongruence(l.settled, AmountOf, SettledOn(AccountsPayable));
  }

  /** … on each stream's cost account what was ever accrued on it, accepted or not … */
  lemma CostIsWhatWasAccrued(accounts: AccountMap, steps: seq<Step>, stream: Stream)
    requires DistinctAccounts(accounts) && Uniform(steps, accounts)
    ensures var l := Run(steps);
      Balance(l.posted, CostAccount(accounts, stream)) == SumBy(l.booked, AccruedOn(stream))
  {
    var l := Run(steps);
    RoleBalance(accounts, steps, Cost(stream));
    SumCongruence(l.booked, AccruedOn(stream), BookedOn(Cost(stream)));
    SumZero(l.settled, SettledOn(Cost(stream)));
  }

  /** … on the variance and input VAT accounts what the accepted invoices differed by and carried in VAT … */
  lemma VarianceAndVatAreAsInvoiced(accounts: AccountMap, steps: seq<Step>)
    requires DistinctAccounts(accounts) && Uniform(steps, accounts)
    ensures var l := Run(steps);
      && Balance(l.posted, accounts.costVariance) == SumBy(l.booked, VarianceOf)
      && Balance(l.posted, accounts.inputVat) == SumBy(l.booked, VatOf)
  {
    var l := Run(steps);
    RoleBalance(accounts, steps, CostVariance);
    RoleBalance(accounts, steps, InputVat);
    SumCongruence(l.booked, VarianceOf, BookedOn(CostVariance));
    SumCongruence(l.booked, VatOf, BookedOn(InputVat));
    SumZero(l.settled, SettledOn(CostVariance));
    SumZero(l.settled, SettledOn(InputVat));
  }

  /** … and on each route's account minus what was settled through it. */
  lemma RoutesPaidWhatWasSettled(accounts: AccountMap, steps: seq<Step>, via: Route)
    requires DistinctAccounts(accounts) && Uniform(steps, accounts)
    ensures var l := Run(steps);
      Balance(l.posted, Contra(accounts, via)) == -SumBy(l.settled, SettledBy(via))
  {
    var l := Run(steps);
    RoleBalance(accounts, steps, Clearing(via));
    SumNegated(l.settled, SettledBy(via), SettledOn(Clearing(via)));
    SumZero(l.booked, BookedOn(Clearing(via)));
  }

  /** Cost and variance together always show what the cost has come to: each accepted accrual at its invoice, each
      outstanding one at its accrual. */
  lemma CostAndVarianceShowTheCost(accounts: AccountMap, steps: seq<Step>)
    requires DistinctAccounts(accounts) && Uniform(steps, accounts)
    ensures var l := Run(steps);
      Balance(l.posted, CostAccount(accounts, Hub)) + Balance(l.posted, CostAccount(accounts, LfiPayment))
        + Balance(l.posted, CostAccount(accounts, LfiData)) + Balance(l.posted, accounts.costVariance)
      == SumBy(l.booked, CostOf)
  {
    var l := Run(steps);
    EveryRunIsExplained(steps, "");
    CostIsWhatWasAccrued(accounts, steps, Hub);
    CostIsWhatWasAccrued(accounts, steps, LfiPayment);
    CostIsWhatWasAccrued(accounts, steps, LfiData);
    VarianceAndVatAreAsInvoiced(accounts, steps);
    var lfi := (b: Booked) => AccruedOn(LfiPayment)(b) + AccruedOn(LfiData)(b);
    var accrued := (b: Booked) => b.accrual.accruedFils;
    SumLinear(l.booked, AccruedOn(LfiPayment), AccruedOn(LfiData), lfi);
    SumLinear(l.booked, AccruedOn(Hub), lfi, accrued);
    SumLinear(l.booked, accrued, VarianceOf, CostOf);
  }

  /** Once everything is accepted and settled, nothing is left on accrued payable or accounts payable. */
  lemma {:induction false} EverythingIsCleared(accounts: AccountMap, steps: seq<Step>)
    requires DistinctAccounts(accounts) && Uniform(steps, accounts)
    requires forall b :: b in Run(steps).booked ==> b.acceptance.Some?
    requires SumBy(Run(steps).settled, AmountOf) == SumBy(Run(steps).booked, GrossOf)
    ensures Balance(Run(steps).posted, accounts.accruedPayable) == 0
    ensures Balance(Run(steps).posted, accounts.accountsPayable) == 0
  {
    AccruedPayableIsWhatIsOutstanding(accounts, steps);
    AccountsPayableIsWhatIsUnsettled(accounts, steps);
    SumZero(Run(steps).booked, OutstandingOf);
  }

  // ---------------------------------------------------------------- acceptance is once and for all

  /** `later` grew out of `earlier`: nothing posted was taken back, no accrual changed what it accrued, and none that
      had been accepted changed at all. */
  ghost predicate Extends(earlier: Ledger, later: Ledger) {
    && |earlier.booked| <= |later.booked|
    && earlier.settled <= later.settled
    && earlier.posted <= later.posted
    && (forall i :: 0 <= i < |earlier.booked| ==> StillStands(earlier.booked[i], later.booked[i]))
  }

  predicate StillStands(before: Booked, after: Booked) {
    && after.accounts == before.accounts && after.accrual == before.accrual.(acceptedBy := after.accrual.acceptedBy)
    && (before.acceptance.Some? ==> after == before)
  }

  lemma {:induction false} StepExtends(ledger: Ledger, step: Step)
    requires forall b :: b in ledger.booked ==> Consistent(b)
    ensures Extends(ledger, Apply(ledger, step))
  {
    match step
    case Accrue(accounts, sourceId, lines) =>
    case Accept(accounts, i, document, net, vat) =>
      if i < |ledger.booked| && AcceptanceOf(accounts, ledger.booked[i].accrual, document, net, vat).Ok? {
        assert ledger.booked[i] in ledger.booked;
        assert ledger.booked[i].acceptance.None?;
      }
    case Settle(accounts, reference, amount, via, refs) =>
  }

  lemma {:induction false} RunsExtend(steps: seq<Step>, more: seq<Step>)
    ensures Extends(Run(steps), Run(steps + more))
  {
    if more == [] {
      assert steps + more == steps;
    } else {
      var init := more[..|more| - 1];
      assert steps + more == (steps + init) + [more[|more| - 1]];
      assert (steps + more)[..|steps + more| - 1] == steps + init;
      RunsExtend(steps, init);
      EveryRunIsExplained(steps + init, "");
      StepExtends(Run(steps + init), more[|more| - 1]);
    }
  }

  /** After any run, accepting an accrual that has been accepted changes nothing at all, on whatever accounts. */
  lemma {:induction false} SecondAcceptancePostsNothing(
    steps: seq<Step>, accounts: AccountMap, i: nat, document: string, net: int, vat: int)
    requires i < |Run(steps).booked| && Run(steps).booked[i].acceptance.Some?
    ensures Run(steps + [Accept(accounts, i, document, net, vat)]) == Run(steps)
  {
    var ledger := Run(steps);
    EveryRunIsExplained(steps, "");
    assert ledger.booked[i] in ledger.booked;
    assert (steps + [Accept(accounts, i, document, net, vat)])[..|steps|] == steps;
  }

  // ---------------------------------------------------------------- an accrual that is not stamped

  lemma AcceptanceLeaves(accounts: AccountMap, accrual: Accrual, document: string, net: int, vat: int)
    requires DistinctAccounts(accounts) && AcceptanceOf(accounts, accrual, document, net, vat).Ok?
    ensures var taken := AcceptanceOf(accounts, accrual, document, net, vat).value;
      && Balance(AcceptanceJournals(taken), accounts.accruedPayable) == accrual.accruedFils
      && Balance(AcceptanceJournals(taken), accounts.accountsPayable) == -taken.grossFils
  {
    var taken, accrued, payable := AcceptanceOf(accounts, accrual, document, net, vat).value, accounts.accruedPayable,
        accounts.accountsPayable;
    ReversalPosts(accounts, accrual, document, net, vat, accrued);
    AcceptancePosts(accounts, accrual, document, net, vat, accrued);
    ReversalPosts(accounts, accrual, document, net, vat, payable);
    AcceptancePosts(accounts, accrual, document, net, vat, payable);
    SumConcat(taken.reversal.lines, taken.acceptance.lines, OnAccount(accrued));
    SumConcat(taken.reversal.lines, taken.acceptance.lines, OnAccount(payable));
    assert Account(accounts, AccruedPayable) == accrued && Account(accounts, AccountsPayable) == payable
      && Account(accounts, InputVat) == accounts.inputVat && Account(accounts, CostVariance) == accounts.costVariance
      && Account(accounts, Cost(accrual.stream)) == CostAccount(accounts, accrual.stream);
  }

  /** No builder stamps the accrual. A caller that does not either can have it accepted by two documents: the accrued
      payable is then reversed twice and is left in debit by the accrual, and both documents are payable in full. */
  lemma UnstampedIsAcceptedTwice(accounts: AccountMap, sourceId: string, lines: seq<AccrualLine>,
                                 first: string, net1: nat, vat1: nat, second: string, net2: nat, vat2: nat)
    requires DistinctAccounts(accounts) && BuildAccrual(accounts, sourceId, lines).Ok?
    requires !Blank(first) && !Blank(second)
    ensures var accrual := BuildAccrual(accounts, sourceId, lines).value;
      var once, twice := AcceptanceOf(accounts, accrual, first, net1, vat1),
          AcceptanceOf(accounts, accrual, second, net2, vat2);
      && once.Ok? && twice.Ok?
      && var posted := accrual.journal.lines + AcceptanceJournals(once.value) + AcceptanceJournals(twice.value);
      && Balance(posted, accounts.accruedPayable) == accrual.accruedFils > 0
      && Balance(posted, accounts.accountsPayable) == -(once.value.grossFils + twice.value.grossFils)
  {
    var accrual := BuildAccrual(accounts, sourceId, lines).value;
    AccrualRefusedExactly(accounts, sourceId, lines);
    AccrualPosts(accounts, sourceId, lines, accounts.accruedPayable);
    AccrualPosts(accounts, sourceId, lines, accounts.accountsPayable);
    AcceptanceRefusedExactly(accounts, accrual, first, net1, vat1);
    AcceptanceRefusedExactly(accounts, accrual, second, net2, vat2);
    AcceptanceLeaves(accounts, accrual, first, net1, vat1);
    AcceptanceLeaves(accounts, accrual, second, net2, vat2);
    var once, twice := AcceptanceOf(accounts, accrual, first, net1, vat1).value,
        AcceptanceOf(accounts, accrual, second, net2, vat2).value;
    BalanceOfThree(accrual.journal.lines, AcceptanceJournals(once), AcceptanceJournals(twice), accounts.accruedPayable);
    BalanceOfThree(accrual.journal.lines, AcceptanceJournals(once), AcceptanceJournals(twice),
        accounts.accountsPayable);
    assert Account(accounts, AccruedPayable) != Account(accounts, AccountsPayable)
      && Account(accounts, AccruedPayable) != Account(accounts, Cost(accrual.stream))
      && Account(accounts, AccountsPayable) != Account(accounts, Cost(accrual.stream));
  }

  lemma BalanceOfThree(xs: seq<Line>, ys: seq<Line>, zs: seq<Line>, a: string)
    ensures Balance(xs + ys + zs, a) == Balance(xs, a) + Balance(ys, a) + Balance(zs, a)
  {
    SumConcat(xs + ys, zs, OnAccount(a));
    SumConcat(xs, ys, OnAccount(a));
  }
}
