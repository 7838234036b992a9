/** What every line, statement and service of a rating says, in terms of the priced lines and clients it was made
    from. */
module RatedStatements {
  import opened Collections
  import opened Money
  import opened Rating

  // ---------------------------------------------------------------- lines

  function OfFeeClass(feeClass: string): PricedLine -> bool {
    (p: PricedLine) => p.feeClass == feeClass
  }

  function ClassStated(l: StatementLine): string { l.feeClass }

  /** A rolled-up line shows the figures of its own fee class and no other. */
  lemma RolledUpLine(lines: seq<PricedLine>, l: StatementLine, f: Figure)
    requires l in RollupOf(lines)
    ensures LineFigure(f)(l) == SumBy(Keep(lines, OfFeeClass(l.feeClass)), FigureOf(f))
    ensures exists p :: p in lines && p.feeClass == l.feeClass
  {
    var k := RecordIn(lines, FeeClassOf, RolledUpRecord(), l);
    RolledUpFigure(Members(lines, FeeClassOf, k), k, f);
    MembersAreKept(lines, FeeClassOf, k, OfFeeClass(k));
    KeysExact(lines, FeeClassOf, k);
    var p :| p in lines && FeeClassOf(p) == k;
    assert p.feeClass == l.feeClass;
  }

  /** Every fee class is stated, once. */
  lemma FeeClassesAreStatedOnce(lines: seq<PricedLine>)
    ensures NoDuplicates(Map(RollupOf(lines), ClassStated))
    ensures forall p :: p in lines ==> p.feeClass in Map(RollupOf(lines), ClassStated)
  {
    forall k | k in Keys(lines, FeeClassOf) ensures RolledUp(Members(lines, FeeClassOf, k), k).feeClass == k {
      RolledUpFigure(Members(lines, FeeClassOf, k), k, Amount);
    }
    RecordKeys(lines, FeeClassOf, RolledUpRecord(), ClassStated);
    forall p | p in lines ensures p.feeClass in Map(RollupOf(lines), ClassStated) {
      KeysExact(lines, FeeClassOf, p.feeClass);
      assert FeeClassOf(p) == p.feeClass;
    }
  }

  /** A rolled-up line of the lines a filter keeps. */
  lemma RolledUpLineOf(lines: seq<PricedLine>, p: PricedLine -> bool, q: PricedLine -> bool, l: StatementLine,
      f: Figure)
    requires l in RollupOf(Keep(lines, p))
    requires forall x :: x in lines ==> q(x) == (p(x) && OfFeeClass(l.feeClass)(x))
    ensures LineFigure(f)(l) == SumBy(Keep(lines, q), FigureOf(f))
  {
    RolledUpLine(Keep(lines, p), l, f);
    KeepTwice(lines, p, OfFeeClass(l.feeClass), q);
  }

  // ---------------------------------------------------------------- statements

  function OwedBy(tppId: string): PricedLine -> bool {
    (p: PricedLine) => p.side == Receivable && p.tppId == tppId
  }

  function OwedFor(tppId: string, feeClass: string): PricedLine -> bool {
    (p: PricedLine) => p.side == Receivable && p.tppId == tppId && p.feeClass == feeClass
  }

  function StatedTpp(s: Statement): string { s.tppId }

  lemma StatementIsRolledUp(priced: seq<PricedLine>, s: Statement)
    requires s in StatementsOf(priced)
    ensures s.receivable == RollupOf(Keep(priced, OwedBy(s.tppId)))
    ensures s.total == SumBy(Keep(priced, OwedBy(s.tppId)), AmountOf)
    ensures exists p :: p in priced && OwedBy(s.tppId)(p)
  {
    var receivable := Keep(priced, IsReceivable);
    var k := RecordIn(receivable, TppOf, StatementRecord(), s);
    KeepExact(priced, IsReceivable);
    var owed := (p: PricedLine) => p.tppId == k;
    MembersAreKept(receivable, TppOf, k, owed);
    KeepTwice(priced, IsReceivable, owed, OwedBy(k));
    RollupConservesAmount(Keep(priced, OwedBy(k)));
    KeysExact(receivable, TppOf, k);
    var p :| p in receivable && TppOf(p) == k;
    assert OwedBy(s.tppId)(p);
  }

  /** Every statement totals what its counterparty owes, and every line of it shows the units, events, amount and value
      of the receivable lines of that counterparty and fee class. */
  lemma EveryStatementSaysWhatIsOwed(priced: seq<PricedLine>, clients: seq<Client>, s: Statement, l: StatementLine)
    requires s in Rated(priced, clients).statements && l in s.receivable
    ensures s.total == SumBy(Keep(priced, OwedBy(s.tppId)), AmountOf)
    ensures forall f :: LineFigure(f)(l) == SumBy(Keep(priced, OwedFor(s.tppId, l.feeClass)), FigureOf(f))
    ensures NoDuplicates(Map(s.receivable, ClassStated))
  {
    StatementIsRolledUp(priced, s);
    forall f ensures LineFigure(f)(l) == SumBy(Keep(priced, OwedFor(s.tppId, l.feeClass)), FigureOf(f)) {
      RolledUpLineOf(priced, OwedBy(s.tppId), OwedFor(s.tppId, l.feeClass), l, f);
    }
    FeeClassesAreStatedOnce(Keep(priced, OwedBy(s.tppId)));
  }

  /** Whoever owes anything has one statement, and nobody else has any. */
  lemma {:induction false} StatementsAreForWhoOwes(priced: seq<PricedLine>, clients: seq<Client>, tppId: string)
    ensures NoDuplicates(Map(Rated(priced, clients).statements, StatedTpp))
    ensures tppId in Map(Rated(priced, clients).statements, StatedTpp) <==>
      exists p :: p in priced && p.side == Receivable && p.tppId == tppId
  {
    var receivable := Keep(priced, IsReceivable);
    RecordKeys(receivable, TppOf, StatementRecord(), StatedTpp);
    KeepExact(priced, IsReceivable);
    KeysExact(receivable, TppOf, tppId);
    if tppId in Keys(receivable, TppOf) {
      var p :| p in receivable && TppOf(p) == tppId;
      assert p in priced && p.side == Receivable && p.tppId == tppId;
    }
    forall p | p in priced && p.side == Receivable && p.tppId == tppId ensures tppId in Keys(receivable, TppOf) {
      assert p in receivable && TppOf(p) == tppId;
    }
  }

  // ---------------------------------------------------------------- services

  function BilledTo(side: Side, clientId: string): PricedLine -> bool {
    (p: PricedLine) => p.side == side && p.clientId.GetOr("UNATTRIBUTED") == clientId
  }

  function BilledFor(side: Side, clientId: string, feeClass: string): PricedLine -> bool {
    (p: PricedLine) => p.side == side && p.clientId.GetOr("UNATTRIBUTED") == clientId && p.feeClass == feeClass
  }

  function ServedClient(s: Service): string { s.clientId }

  lemma ServiceIsRolledUp(priced: seq<PricedLine>, clients: seq<Client>, s: Service)
    requires s in ServicesOf(priced, clients)
    ensures s.payableHub == RollupOf(Keep(priced, BilledTo(PayableHub, s.clientId)))
    ensures s.payableLfi == RollupOf(Keep(priced, BilledTo(PayableLfi, s.clientId)))
    ensures s == ServiceFrom(clients, s.clientId, s.payableHub, s.payableLfi)
  {
    var payable := Keep(priced, IsPayable);
    var k := RecordIn(payable, ClientOf, ServiceRecord(clients), s);
    var billed := (p: PricedLine) => ClientOf(p) == k;
    MembersAreKept(payable, ClientOf, k, billed);
    var mine := (p: PricedLine) => IsPayable(p) && billed(p);
    KeepTwice(priced, IsPayable, billed, mine);
    KeepTwice(priced, mine, IsHub, BilledTo(PayableHub, k));
    KeepTwice(priced, mine, IsLfi, BilledTo(PayableLfi, k));
  }

  ghost predicate FirstConfigured(clients: seq<Client>, id: string, i: nat) {
    i < |clients| && clients[i].id == id && forall j :: 0 <= j < i ==> clients[j].id != id
  }

  lemma {:induction false} FindsTheFirst(clients: seq<Client>, id: string, i: nat)
    requires FirstConfigured(clients, id, i)
    ensures FindClient(clients, id) == Some(clients[i])
  {
    if i > 0 {
      assert clients[0].id != id;
      assert FirstConfigured(clients[1..], id, i - 1);
      FindsTheFirst(clients[1..], id, i - 1);
    }
  }

  lemma {:induction false} FindsNobody(clients: seq<Client>, id: string)
    requires forall c :: c in clients ==> c.id != id
    ensures FindClient(clients, id).None?
  {
    if clients != [] {
      assert clients[0] in clients;
      FindsNobody(clients[1..], id);
    }
  }

  /** A service's cost is what its client is billed for on either side, and its margin is what is left of the rebill. */
  lemma EveryServiceSaysItsCost(priced: seq<PricedLine>, clients: seq<Client>, s: Service)
    requires s in Rated(priced, clients).services
    ensures s.hub == SumBy(Keep(priced, BilledTo(PayableHub, s.clientId)), AmountOf)
    ensures s.lfi == SumBy(Keep(priced, BilledTo(PayableLfi, s.clientId)), AmountOf)
    ensures s.cost == s.hub + s.lfi && s.margin == s.rebill - s.cost
  {
    ServiceIsRolledUp(priced, clients, s);
    RollupConservesAmount(Keep(priced, BilledTo(PayableHub, s.clientId)));
    RollupConservesAmount(Keep(priced, BilledTo(PayableLfi, s.clientId)));
  }

  /** The name and the markup of the first client configured with the service's id, or the id and 15 percent when there
      is none. */
  ghost predicate NamedAndMarkedUp(s: Service, clients: seq<Client>) {
    && (forall i: nat :: FirstConfigured(clients, s.clientId, i) ==>
      s.markupPercent == clients[i].markupPercent && s.name == clients[i].name)
    && ((forall c :: c in clients ==> c.id != s.clientId) ==> s.markupPercent == 15 && s.name == s.clientId)
  }

  /** The cost and its markup to the nearest milli-fil, halves away from zero. */
  predicate RebilledAtItsMarkup(s: Service) {
    && 2 * Abs(100 * s.rebill - s.cost * (100 + s.markupPercent)) <= 100
    && (s.cost >= 0 ==> 200 * s.rebill - 100 <= 2 * (s.cost * (100 + s.markupPercent)) < 200 * s.rebill + 100)
  }

  lemma ServiceIsNamedAndMarkedUp(clients: seq<Client>, id: string, payableHub: seq<StatementLine>,
      payableLfi: seq<StatementLine>)
    ensures NamedAndMarkedUp(ServiceFrom(clients, id, payableHub, payableLfi), clients)
  {
    var s := ServiceFrom(clients, id, payableHub, payableLfi);
    forall i: nat | FirstConfigured(clients, id, i)
      ensures s.markupPercent == clients[i].markupPercent && s.name == clients[i].name
    {
      FindsTheFirst(clients, id, i);
    }
    if forall c :: c in clients ==> c.id != id {
      FindsNobody(clients, id);
    }
  }

  lemma ServiceIsRebilled(s: Service)
    requires s.rebill == Rebill(s.cost, s.markupPercent) && s.margin == s.rebill - s.cost
    ensures RebilledAtItsMarkup(s) && (s.cost >= 0 ==> s.margin >= 0)
  {
    RoundingError(s.cost * (100 + s.markupPercent), 100);
    if s.cost >= 0 {
      MarkedUp(s.cost, s.markupPercent);
      HalfUpExactly(s.cost * (100 + s.markupPercent), 100, s.rebill);
    }
  }

  lemma ServiceIsMarkedUp(clients: seq<Client>, s: Service)
    requires s == ServiceFrom(clients, s.clientId, s.payableHub, s.payableLfi)
    ensures NamedAndMarkedUp(s, clients) && RebilledAtItsMarkup(s)
    ensures s.cost >= 0 ==> s.margin >= 0
  {
    ServiceIsNamedAndMarkedUp(clients, s.clientId, s.payableHub, s.payableLfi);
    ServiceIsRebilled(s);
  }

  /** The markup is that of the first client configured with the id, and 15 percent for one nobody configured; the
      rebill is the cost and its markup, to the nearest milli-fil; so nobody is rebilled less than a cost. */
  lemma EveryServiceIsRebilledAtItsMarkup(priced: seq<PricedLine>, clients: seq<Client>, s: Service)
    requires s in Rated(priced, clients).services
    ensures NamedAndMarkedUp(s, clients) && RebilledAtItsMarkup(s)
    ensures s.cost >= 0 ==> s.margin >= 0
  {
    ServiceIsRolledUp(priced, clients, s);
    ServiceIsMarkedUp(clients, s);
  }

  lemma MarkedUp(cost: nat, markupPercent: nat)
    ensures cost * (100 + markupPercent) >= 100 * cost
  {
    assert cost * (100 + markupPercent) == 100 * cost + cost * markupPercent;
  }

  function MarkedUpCost(s: Service): int { s.cost * (100 + s.markupPercent) }

  lemma {:induction false} RebillsAddUp(services: seq<Service>)
    requires forall s :: s in services ==> RebilledAtItsMarkup(s)
    ensures 2 * Abs(100 * SumBy(services, RebillOf) - SumBy(services, MarkedUpCost)) <= 100 * |services|
  {
    if services != [] {
      var last := services[|services| - 1];
      assert RebilledAtItsMarkup(last);
      RebillsAddUp(services[..|services| - 1]);
    }
  }

  lemma ServicesAreRebilled(priced: seq<PricedLine>, clients: seq<Client>)
    ensures forall s :: s in ServicesOf(priced, clients) ==> RebilledAtItsMarkup(s)
  {
    forall s | s in ServicesOf(priced, clients) ensures RebilledAtItsMarkup(s) {
      ServiceIsRolledUp(priced, clients, s);
      ServiceIsMarkedUp(clients, s);
    }
  }

  /** The total is what the services are rebilled, within half a milli-fil a service of their marked-up costs. */
  ghost predicate NearlyMarkedUp(total: int, services: seq<Service>) {
    && total == SumBy(services, RebillOf)
    && 2 * Abs(100 * total - SumBy(services, MarkedUpCost)) <= 100 * |services|
  }

  lemma ServicesAreNearlyMarkedUp(priced: seq<PricedLine>, clients: seq<Client>)
    ensures NearlyMarkedUp(SumBy(ServicesOf(priced, clients), RebillOf), ServicesOf(priced, clients))
  {
    ServicesAreRebilled(priced, clients);
    RebillsAddUp(ServicesOf(priced, clients));
  }

  /** The rebilled total is that of the services, within half a milli-fil a service of their marked-up costs. */
  lemma RebilledTotalIsNearlyMarkedUp(priced: seq<PricedLine>, clients: seq<Client>)
    ensures NearlyMarkedUp(Rated(priced, clients).totals.rebill, Rated(priced, clients).services)
  {
    ServicesAreNearlyMarkedUp(priced, clients);
  }

  /** Every line of a service shows the figures of what its client is billed for on that side and fee class. */
  lemma EveryServiceLineSaysWhatIsBilled(priced: seq<PricedLine>, clients: seq<Client>, s: Service, l: StatementLine)
    requires s in Rated(priced, clients).services
    ensures l in s.payableHub ==>
      forall f :: LineFigure(f)(l) == SumBy(Keep(priced, BilledFor(PayableHub, s.clientId, l.feeClass)), FigureOf(f))
    ensures l in s.payableLfi ==>
      forall f :: LineFigure(f)(l) == SumBy(Keep(priced, BilledFor(PayableLfi, s.clientId, l.feeClass)), FigureOf(f))
    ensures NoDuplicates(Map(s.payableHub, ClassStated)) && NoDuplicates(Map(s.payableLfi, ClassStated))
  {
    ServiceIsRolledUp(priced, clients, s);
    BilledLine(priced, PayableHub, s.clientId, l);
    BilledLine(priced, PayableLfi, s.clientId, l);
    FeeClassesAreStatedOnce(Keep(priced, BilledTo(PayableHub, s.clientId)));
    FeeClassesAreStatedOnce(Keep(priced, BilledTo(PayableLfi, s.clientId)));
  }

  lemma BilledLine(priced: seq<PricedLine>, side: Side, clientId: string, l: StatementLine)
    ensures l in RollupOf(Keep(priced, BilledTo(side, clientId))) ==>
      forall f :: LineFigure(f)(l) == SumBy(Keep(priced, BilledFor(side, clientId, l.feeClass)), FigureOf(f))
  {
    if l in RollupOf(Keep(priced, BilledTo(side, clientId))) {
      forall f ensures LineFigure(f)(l) == SumBy(Keep(priced, BilledFor(side, clientId, l.feeClass)), FigureOf(f)) {
        RolledUpLineOf(priced, BilledTo(side, clientId), BilledFor(side, clientId, l.feeClass), l, f);
      }
    }
  }

  /** Whoever is billed for anything has one service, and nobody else has any. */
  lemma {:induction false} ServicesAreForWhoIsBilled(priced: seq<PricedLine>, clients: seq<Client>, id: string)
    ensures NoDuplicates(Map(Rated(priced, clients).services, ServedClient))
    ensures id in Map(Rated(priced, clients).services, ServedClient) <==>
      exists p :: p in priced && (BilledTo(PayableHub, id)(p) || BilledTo(PayableLfi, id)(p))
  {
    var payable := Keep(priced, IsPayable);
    RecordKeys(payable, ClientOf, ServiceRecord(clients), ServedClient);
    KeepExact(priced, IsPayable);
    KeysExact(payable, ClientOf, id);
    if id in Keys(payable, ClientOf) {
      var p :| p in payable && ClientOf(p) == id;
      assert BilledTo(PayableHub, id)(p) || BilledTo(PayableLfi, id)(p);
    }
    forall p | p in priced && (BilledTo(PayableHub, id)(p) || BilledTo(PayableLfi, id)(p))
      ensures id in Keys(payable, ClientOf)
    {
      assert p in payable && ClientOf(p) == id;
    }
  }

  /** The free lines are counted. */
  lemma FreeLinesAreCounted(priced: seq<PricedLine>, clients: seq<Client>)
    ensures Rated(priced, clients).freeToLfiEvents == SumBy(priced,
      (p: PricedLine) => if p.side == FreeToLfi then 1 else 0)
    ensures Rated(priced, clients).priced == priced
  {
    SumOnes(Keep(priced, IsFree), (p: PricedLine) => 1);
    SumOfKept(priced, IsFree, (p: PricedLine) => 1, (p: PricedLine) => if p.side == FreeToLfi then 1 else 0);
  }
}
