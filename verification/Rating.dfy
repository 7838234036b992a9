/** Statements from priced lines: per counterparty what is receivable, per client what is payable and rebilled. */
module Rating {
  import opened Collections
  import opened Money

  datatype Side = Receivable | PayableHub | PayableLfi | FreeToLfi

  /** `cappedFrom` is the price before a batch cap lowered it. */
  datatype PricedLine = PricedLine(
    eventId: string, traceId: Option<string>, side: Side, tppId: string, feeClass: string, units: nat, amount: int,
        value: Option<nat>,
    clientId: Option<string>, counterpartyLfiId: Option<string>, endpoint: Option<string>,
    batchId: Option<string>, cappedFrom: Option<int>)

  datatype StatementLine = StatementLine(feeClass: string, units: nat, events: nat, amount: int, value: int)

  datatype Statement = Statement(tppId: string, receivable: seq<StatementLine>, total: int)

  datatype Client = Client(id: string, name: string, markupPercent: nat)

  datatype Service = Service(
    clientId: string, name: string, payableHub: seq<StatementLine>, payableLfi: seq<StatementLine>,
    hub: int, lfi: int, cost: int, markupPercent: nat, rebill: int, margin: int)

  datatype Totals = Totals(receivable: int, payableHub: int, payableLfi: int, rebill: int, margin: int)

  datatype RatingResult = RatingResult(
    priced: seq<PricedLine>, statements: seq<Statement>, services: seq<Service>, freeToLfiEvents: nat, totals: Totals)

  const DEFAULT_MARKUP: nat := 15
  const UNATTRIBUTED := "UNATTRIBUTED"

  function AmountOf(p: PricedLine): int { p.amount }

  function FeeClassOf(p: PricedLine): string { p.feeClass }

  function TppOf(p: PricedLine): string { p.tppId }

  function ClientOf(p: PricedLine): string { p.clientId.GetOr(UNATTRIBUTED) }

  predicate IsReceivable(p: PricedLine) { p.side.Receivable? }

  predicate IsHub(p: PricedLine) { p.side.PayableHub? }

  predicate IsLfi(p: PricedLine) { p.side.PayableLfi? }

  predicate IsPayable(p: PricedLine) { IsHub(p) || IsLfi(p) }

  predicate IsFree(p: PricedLine) { p.side.FreeToLfi? }

  // ---------------------------------------------------------------- rolling lines up by fee class

  function Added(t: StatementLine, p: PricedLine): StatementLine {
    StatementLine(t.feeClass, t.units + p.units, t.events + 1, t.amount + p.amount, t.value + p.value.GetOr(0))
  }

  /** One line of a statement: everything of one fee class. */
  function RolledUp(lines: seq<PricedLine>, feeClass: string): StatementLine {
    if lines == [] then StatementLine(feeClass, 0, 0, 0, 0)
    else Added(RolledUp(lines[..|lines| - 1], feeClass), lines[|lines| - 1])
  }

  function RolledUpRecord(): (seq<PricedLine>, string) -> StatementLine {
    (lines: seq<PricedLine>, feeClass: string) => RolledUp(lines, feeClass)
  }

  /** What a statement line counts, and what a priced line contributes to it. */
  datatype Figure = Units | Events | Amount | Value

  function LineFigure(f: Figure): StatementLine -> int {
    (l: StatementLine) =>
      match f
      case Units => l.units
      case Events => l.events
      case Amount => l.amount
      case Value => l.value
  }

  function FigureOf(f: Figure): PricedLine -> int {
    (p: PricedLine) =>
      match f
      case Units => p.units
      case Events => 1
      case Amount => p.amount
      case Value => p.value.GetOr(0)
  }

  function LineAmount(l: StatementLine): int { l.amount }

  lemma {:induction false} RolledUpFigure(lines: seq<PricedLine>, feeClass: string, f: Figure)
    ensures LineFigure(f)(RolledUp(lines, feeClass)) == SumBy(lines, FigureOf(f))
    ensures RolledUp(lines, feeClass).feeClass == feeClass
  {
    if lines != [] {
      RolledUpFigure(lines[..|lines| - 1], feeClass, f);
    }
  }

  function RollupOf(lines: seq<PricedLine>): seq<StatementLine> {
    Records(lines, FeeClassOf, RolledUpRecord())
  }

  /** Rolling up loses nothing: not units, events, money or value. */
  lemma RollupConserves(lines: seq<PricedLine>, f: Figure)
    ensures SumBy(RollupOf(lines), LineFigure(f)) == SumBy(lines, FigureOf(f))
  {
    forall ys: seq<PricedLine>, k: string ensures LineFigure(f)(RolledUpRecord()(ys, k)) == SumBy(ys, FigureOf(f)) {
      RolledUpFigure(ys, k, f);
    }
    SumOverRecords(lines, FeeClassOf, RolledUpRecord(), LineFigure(f), FigureOf(f));
  }

  lemma RollupConservesAmount(lines: seq<PricedLine>)
    ensures SumBy(RollupOf(lines), LineAmount) == SumBy(lines, AmountOf)
  {
    RollupConserves(lines, Amount);
    SumCongruence(lines, FigureOf(Amount), AmountOf);
    SumCongruence(RollupOf(lines), LineFigure(Amount), LineAmount);
  }

  method Rollup(lines: seq<PricedLine>) returns (rolled: seq<StatementLine>)
    ensures rolled == RollupOf(lines)
  {
    var order: seq<string>, totals: map<string, StatementLine> := [], map[];
    for i := 0 to |lines|
      invariant Recorded(lines[..i], FeeClassOf, RolledUpRecord(), order, totals)
    {
      var p := lines[i];
      assert lines[..i + 1] == lines[..i] + [p];
      RolledUpSnoc(p);
      order, totals := UpdateRecord(order, totals, p.feeClass, StatementLine(p.feeClass, 0, 0, 0, 0),
                                    (t: StatementLine) => Added(t, p), lines[..i], p, FeeClassOf, RolledUpRecord());
    }
    assert lines[..|lines|] == lines;
    rolled := ReadRecords(order, totals, lines, FeeClassOf, RolledUpRecord());
  }

  lemma RolledUpSnoc(p: PricedLine)
    ensures forall ys: seq<PricedLine> ::
      RolledUpRecord()(ys + [p], p.feeClass) == Added(RolledUpRecord()(ys, p.feeClass), p)
  {
    forall ys: seq<PricedLine> ensures RolledUpRecord()(ys + [p], p.feeClass)
        == Added(RolledUpRecord()(ys, p.feeClass), p) {
      assert (ys + [p])[..|ys|] == ys;
    }
  }

  // ---------------------------------------------------------------- statements and services

  function StatementOf(lines: seq<PricedLine>, tppId: string): Statement {
    Statement(tppId, RollupOf(lines), SumBy(RollupOf(lines), LineAmount))
  }

  function StatementRecord(): (seq<PricedLine>, string) -> Statement {
    (lines: seq<PricedLine>, tppId: string) => StatementOf(lines, tppId)
  }

  function FindClient(clients: seq<Client>, id: string): Option<Client> {
    if clients == [] then None else if clients[0].id == id then Some(clients[0]) else FindClient(clients[1..], id)
  }

  function Rebill(cost: int, markupPercent: nat): int {
    DivideHalfUp(cost * (100 + markupPercent), 100)
  }

  function ServiceOf(clients: seq<Client>, lines: seq<PricedLine>, id: string): Service {
    ServiceFrom(clients, id, RollupOf(Keep(lines, IsHub)), RollupOf(Keep(lines, IsLfi)))
  }

  function ServiceFrom(clients: seq<Client>, id: string, payableHub: seq<StatementLine>,
      payableLfi: seq<StatementLine>): Service {
    var hub, lfi, client := SumBy(payableHub, LineAmount), SumBy(payableLfi, LineAmount), FindClient(clients, id);
    var markup := if client.Some? then client.value.markupPercent else DEFAULT_MARKUP;
    Service(id, if client.Some? then client.value.name else id, payableHub, payableLfi, hub, lfi, hub + lfi, markup,
            Rebill(hub + lfi, markup), Rebill(hub + lfi, markup) - (hub + lfi))
  }

  function ServiceRecord(clients: seq<Client>): (seq<PricedLine>, string) -> Service {
    (lines: seq<PricedLine>, id: string) => ServiceOf(clients, lines, id)
  }

  function StatementTotal(s: Statement): int { s.total }

  function HubOf(s: Service): int { s.hub }

  function LfiOf(s: Service): int { s.lfi }

  function RebillOf(s: Service): int { s.rebill }

  function MarginOf(s: Service): int { s.margin }

  function StatementsOf(priced: seq<PricedLine>): seq<Statement> {
    Records(Keep(priced, IsReceivable), TppOf, StatementRecord())
  }

  function ServicesOf(priced: seq<PricedLine>, clients: seq<Client>): seq<Service> {
    Records(Keep(priced, IsPayable), ClientOf, ServiceRecord(clients))
  }

  function Rated(priced: seq<PricedLine>, clients: seq<Client>): RatingResult {
    var statements, services := StatementsOf(priced), ServicesOf(priced, clients);
    RatingResult(priced, statements, services, |Keep(priced, IsFree)|,
      Totals(SumBy(statements, StatementTotal), SumBy(services, HubOf), SumBy(services, LfiOf),
             SumBy(services, RebillOf), SumBy(services, MarginOf)))
  }

  // ---------------------------------------------------------------- the loops

  datatype Sides = Sides(hub: seq<PricedLine>, lfi: seq<PricedLine>)

  function ListRecord(): (seq<PricedLine>, string) -> seq<PricedLine> {
    (lines: seq<PricedLine>, k: string) => lines
  }

  function SidesRecord(): (seq<PricedLine>, string) -> Sides {
    (lines: seq<PricedLine>, k: string) => Sides(Keep(lines, IsHub), Keep(lines, IsLfi))
  }

  function PushSide(p: PricedLine): Sides -> Sides {
    (s: Sides) => if IsHub(p) then Sides(s.hub + [p], s.lfi) else Sides(s.hub, s.lfi + [p])
  }

  lemma {:induction false} SidesSnoc(p: PricedLine)
    requires IsPayable(p)
    ensures forall ys: seq<PricedLine> ::
      SidesRecord()(ys + [p], ClientOf(p)) == PushSide(p)(SidesRecord()(ys, ClientOf(p)))
  {
    forall ys: seq<PricedLine> ensures SidesRecord()(ys + [p], ClientOf(p))
        == PushSide(p)(SidesRecord()(ys, ClientOf(p))) {
      KeepSnoc(ys, p, IsHub);
      KeepSnoc(ys, p, IsLfi);
    }
  }

  method FileReceivable(p: PricedLine, ghost before: seq<PricedLine>, tpps: seq<string>,
      receivable: map<string, seq<PricedLine>>)
    returns (tpps': seq<string>, receivable': map<string, seq<PricedLine>>)
    requires Recorded(before, TppOf, ListRecord(), tpps, receivable)
    ensures Recorded(before + [p], TppOf, ListRecord(), tpps', receivable')
  {
    tpps', receivable' := UpdateRecord(tpps, receivable, p.tppId, [], (g: seq<PricedLine>) => g + [p], before, p, TppOf,
        ListRecord());
  }

  method FilePayable(p: PricedLine, ghost before: seq<PricedLine>, clients: seq<string>, payable: map<string, Sides>)
    returns (clients': seq<string>, payable': map<string, Sides>)
    requires IsPayable(p) && Recorded(before, ClientOf, SidesRecord(), clients, payable)
    ensures Recorded(before + [p], ClientOf, SidesRecord(), clients', payable')
  {
    SidesSnoc(p);
    clients', payable' := UpdateRecord(clients, payable, p.clientId.GetOr(UNATTRIBUTED), Sides([], []), PushSide(p),
                                       before, p, ClientOf, SidesRecord());
  }

  /** What the grouping loop keeps: both maps with their orders, and the count of free lines. */
  datatype Filing = Filing(
    tpps: seq<string>, receivable: map<string, seq<PricedLine>>, clients: seq<string>, payable: map<string, Sides>,
        free: nat)

  ghost predicate Filed(priced: seq<PricedLine>, f: Filing) {
    && Recorded(Keep(priced, IsReceivable), TppOf, ListRecord(), f.tpps, f.receivable)
    && Recorded(Keep(priced, IsPayable), ClientOf, SidesRecord(), f.clients, f.payable)
    && f.free == |Keep(priced, IsFree)|
  }

  method FileOne(p: PricedLine, ghost before: seq<PricedLine>, f: Filing) returns (f': Filing)
    requires Filed(before, f)
    ensures Filed(before + [p], f')
  {
    KeepSnoc(before, p, IsReceivable);
    KeepSnoc(before, p, IsPayable);
    KeepSnoc(before, p, IsFree);
    if p.side.Receivable? {
      var tpps, receivable := FileReceivable(p, Keep(before, IsReceivable), f.tpps, f.receivable);
      f' := f.(tpps := tpps, receivable := receivable);
    } else if p.side.PayableHub? || p.side.PayableLfi? {
      var clients, payable := FilePayable(p, Keep(before, IsPayable), f.clients, f.payable);
      f' := f.(clients := clients, payable := payable);
    } else {
      f' := f.(free := f.free + 1);
    }
  }

  lemma FiledPrefix(priced: seq<PricedLine>, i: nat, f: Filing)
    requires i < |priced| && Filed(priced[..i] + [priced[i]], f)
    ensures Filed(priced[..i + 1], f)
  {
    assert priced[..i + 1] == priced[..i] + [priced[i]];
  }

  method FilePriced(priced: seq<PricedLine>) returns (f: Filing)
    ensures Filed(priced, f)
  {
    f := Filing([], map[], [], map[], 0);
    assert priced[..0] == [];
    for i := 0 to |priced|
      invariant Filed(priced[..i], f)
    {
      f := FileOne(priced[i], priced[..i], f);
      FiledPrefix(priced, i, f);
    }
    assert priced[..|priced|] == priced;
  }

  method MakeStatement(tppId: string, group: seq<PricedLine>, ghost lines: seq<PricedLine>) returns (s: Statement)
    requires group == ListRecord()(lines, tppId)
    ensures s == StatementRecord()(lines, tppId)
  {
    var rolled := Rollup(group);
    s := Statement(tppId, rolled, SumBy(rolled, LineAmount));
  }

  method MakeStatements(ghost lines: seq<PricedLine>, tpps: seq<string>, receivable: map<string, seq<PricedLine>>)
      returns (statements: seq<Statement>)
    requires Recorded(lines, TppOf, ListRecord(), tpps, receivable)
    ensures statements == Records(lines, TppOf, StatementRecord())
  {
    statements := [];
    for i := 0 to |tpps|
      invariant statements == Records(lines, TppOf, StatementRecord())[..i]
    {
      RecordAt(lines, TppOf, ListRecord(), tpps, receivable, StatementRecord(), i);
      var s := MakeStatement(tpps[i], receivable[tpps[i]], Members(lines, TppOf, tpps[i]));
      statements := statements + [s];
    }
    assert Records(lines, TppOf, StatementRecord())[..|tpps|] == Records(lines, TppOf, StatementRecord());
  }

  method MakeService(clients: seq<Client>, id: string, sides: Sides, ghost lines: seq<PricedLine>) returns (s: Service)
    requires sides == SidesRecord()(lines, id)
    ensures s == ServiceRecord(clients)(lines, id)
  {
    var payableHub := Rollup(sides.hub);
    var payableLfi := Rollup(sides.lfi);
    s := ServiceFrom(clients, id, payableHub, payableLfi);
  }

  method MakeServices(ghost lines: seq<PricedLine>, ids: seq<string>, payable: map<string, Sides>, clients: seq<Client>)
    returns (services: seq<Service>)
    requires Recorded(lines, ClientOf, SidesRecord(), ids, payable)
    ensures services == Records(lines, ClientOf, ServiceRecord(clients))
  {
    services := [];
    for i := 0 to |ids|
      invariant services == Records(lines, ClientOf, ServiceRecord(clients))[..i]
    {
      RecordAt(lines, ClientOf, SidesRecord(), ids, payable, ServiceRecord(clients), i);
      var s := MakeService(clients, ids[i], payable[ids[i]], Members(lines, ClientOf, ids[i]));
      services := services + [s];
    }
    assert Records(lines, ClientOf, ServiceRecord(clients))[..|ids|]
        == Records(lines, ClientOf, ServiceRecord(clients));
  }

  /** Everything after pricing and capping. */
  method RateStatements(priced: seq<PricedLine>, clients: seq<Client>) returns (result: RatingResult)
    ensures result == Rated(priced, clients)
  {
    var f := FilePriced(priced);
    var statements := MakeStatements(Keep(priced, IsReceivable), f.tpps, f.receivable);
    var services := MakeServices(Keep(priced, IsPayable), f.clients, f.payable, clients);
    result := RatingResult(priced, statements, services, f.free,
      Totals(SumBy(statements, StatementTotal), SumBy(services, HubOf), SumBy(services, LfiOf),
             SumBy(services, RebillOf), SumBy(services, MarginOf)));
  }

  // ---------------------------------------------------------------- conservation

  lemma {:induction false} StatementsConserve(priced: seq<PricedLine>)
    ensures SumBy(StatementsOf(priced), StatementTotal) == SumBy(Keep(priced, IsReceivable), AmountOf)
  {
    forall ys: seq<PricedLine>, k: string ensures StatementTotal(StatementRecord()(ys, k)) == SumBy(ys, AmountOf) {
      RollupConservesAmount(ys);
    }
    SumOverRecords(Keep(priced, IsReceivable), TppOf, StatementRecord(), StatementTotal, AmountOf);
  }

  function HubAmount(p: PricedLine): int { if IsHub(p) then p.amount else 0 }

  function LfiAmount(p: PricedLine): int { if IsLfi(p) then p.amount else 0 }

  lemma {:induction false} ServicesConserve(priced: seq<PricedLine>, clients: seq<Client>)
    ensures SumBy(ServicesOf(priced, clients), HubOf) == SumBy(Keep(priced, IsHub), AmountOf)
    ensures SumBy(ServicesOf(priced, clients), LfiOf) == SumBy(Keep(priced, IsLfi), AmountOf)
  {
    var payable := Keep(priced, IsPayable);
    forall ys: seq<PricedLine>, k: string
      ensures HubOf(ServiceRecord(clients)(ys, k)) == SumBy(ys, HubAmount)
      ensures LfiOf(ServiceRecord(clients)(ys, k)) == SumBy(ys, LfiAmount)
    {
      RollupConservesAmount(Keep(ys, IsHub));
      RollupConservesAmount(Keep(ys, IsLfi));
      SumOfKept(ys, IsHub, AmountOf, HubAmount);
      SumOfKept(ys, IsLfi, AmountOf, LfiAmount);
    }
    SumOverRecords(payable, ClientOf, ServiceRecord(clients), HubOf, HubAmount);
    SumOverRecords(payable, ClientOf, ServiceRecord(clients), LfiOf, LfiAmount);
    SumOfKept(payable, IsHub, AmountOf, HubAmount);
    SumOfKept(payable, IsLfi, AmountOf, LfiAmount);
    KeepTwice(priced, IsPayable, IsHub, IsHub);
    KeepTwice(priced, IsPayable, IsLfi, IsLfi);
  }

  /** The three totals of a rating are the priced amounts of the three sides; the margin is what is rebilled less what
      is payable. */
  lemma {:induction false} RatingConserves(priced: seq<PricedLine>, clients: seq<Client>)
    ensures var t := Rated(priced, clients).totals;
      && t.receivable == SumBy(Keep(priced, IsReceivable), AmountOf)
      && t.payableHub == SumBy(Keep(priced, IsHub), AmountOf)
      && t.payableLfi == SumBy(Keep(priced, IsLfi), AmountOf)
      && t.margin == t.rebill - t.payableHub - t.payableLfi
  {
    StatementsConserve(priced);
    ServicesConserve(priced, clients);
    MarginIsWhatIsLeft(ServicesOf(priced, clients));
  }

  lemma {:induction false} MarginIsWhatIsLeft(services: seq<Service>)
    requires forall s :: s in services ==> s.margin == s.rebill - s.hub - s.lfi
    ensures SumBy(services, MarginOf) == SumBy(services, RebillOf) - SumBy(services, HubOf) - SumBy(services, LfiOf)
  {
    if services != [] {
      assert services[|services| - 1] in services;
      MarginIsWhatIsLeft(services[..|services| - 1]);
    }
  }
}
