/** Metering: independently observed gateway events become immutable metered lines.
    Instants and gaps are integer milliseconds; the joined string keys are records; amounts are milli-fils.
    The specification says what each event contributes given what earlier events consumed; the methods at the end
    are the loops over mutable maps and counters that the specification describes. */
module Metering {
  import opened Collections

  // ---------------------------------------------------------------- data model

  datatype Direction = Inbound | Outbound

  datatype PaymentType = MerchantCollection | P2pSme | MeToMe | SmeBulk | LargeValue | CorporatePayment

  datatype Payment = Payment(kind: PaymentType, amount: nat, merchantId: Option<string>, batchId: Option<string>)

  datatype DataUse = DataUse(corporate: bool, attended: bool, lines: nat, ageSpanMonths: Option<nat>)

  /** A parsed event. Two deliveries are the same canonical event exactly when these values are equal. */
  datatype Event = Event(
    id: string, time: int, source: string, subject: string, traceId: string, endpoint: string, outcome: nat,
    direction: Direction, tppId: string, psuId: Option<string>, clientId: Option<string>,
        counterpartyLfiId: Option<string>,
    payment: Option<Payment>, data: Option<DataUse>, providers: Option<nat>)

  datatype Kind = PaymentCall | DataCall | DataPairable | CopPairable | QuoteCall | HubOnly | Reporting

  datatype Card = Card(
    chargeable: map<string, Kind>, free: set<string>, pairingWindow: nat, freeTierPerServingLfi: bool,
    attendedPages: nat, unattendedPages: nat, merchantAllowance: nat, largeValueThreshold: nat)

  datatype Side = PayableHub | PayableLfi | Receivable | FreeToLfi

  datatype FeeClass =
    | HubQuote | HubPaired | HubStandard | PaymentFee(kind: PaymentType) | CorporatePage | RetailPage | NoLfiCharge

  /** A metered line. `event` stands for the event fields the source copies onto every line. */
  datatype Line = Line(
    event: Event, side: Side, feeClass: FeeClass, units: nat, freeUnits: Option<nat>, value: Option<nat>,
    chargeableValue: Option<nat>, freeValue: Option<nat>, batchId: Option<string>, providers: Option<nat>,
    paired: Option<bool>, merchantId: Option<string>, reclassified: bool, flagged: bool)

  datatype Error = ConflictingDuplicate | MissingPayment(id: string) | MissingData(id: string) | SpanTooLong(id: string)

  const BALANCES := "GET /accounts/{id}/balances"
  const CONFIRMATION := "POST /confirmation"
  const PAIRABLE: seq<string> := [BALANCES, CONFIRMATION]
  const DAY_MILLISECONDS := 86_400_000
  const MAX_SPAN_MONTHS := 13

  function DayOf(time: int): int {
    time / DAY_MILLISECONDS
  }

  predicate Succeeded(e: Event) {
    200 <= e.outcome < 300
  }

  // ---------------------------------------------------------------- a total order on events

  /** Strings in dictionary order. */
  predicate Precedes(a: string, b: string) {
    if b == [] then false
    else if a == [] then true
    else a[0] < b[0] || (a[0] == b[0] && Precedes(a[1..], b[1..]))
  }

  /** By time, then by id. */
  predicate Before(x: Event, y: Event) {
    x.time < y.time || (x.time == y.time && Precedes(x.id, y.id))
  }

  function Insert(xs: seq<Event>, e: Event): seq<Event> {
    if xs == [] || Before(xs[|xs| - 1], e) then xs + [e]
    else Insert(xs[..|xs| - 1], e) + [xs[|xs| - 1]]
  }

  function Sort(xs: seq<Event>): seq<Event> {
    if xs == [] then [] else Insert(Sort(xs[..|xs| - 1]), xs[|xs| - 1])
  }

  ghost predicate Sorted(xs: seq<Event>) {
    forall i, j :: 0 <= i < j < |xs| ==> Before(xs[i], xs[j])
  }

  // ---------------------------------------------------------------- deliveries

  function IdOf(e: Event): string { e.id }

  /** Deliveries of one id all carry the same event. */
  ghost predicate ConflictFree(deliveries: seq<Event>) {
    forall x, y :: x in deliveries && y in deliveries && x.id == y.id ==> x == y
  }

  /** The events accepted from a delivery list: the first delivery of each id, in total order. */
  function Events(deliveries: seq<Event>): seq<Event> {
    Sort(Heads(Groups(deliveries, IdOf)))
  }

  // ---------------------------------------------------------------- pairing calls to payments

  /** Who is calling what for whom, in which direction. */
  datatype BucketKey = BucketKey(direction: Direction, endpoint: string, tppId: string, clientId: string, psuId: string)

  function BucketOf(e: Event): BucketKey {
    BucketKey(e.direction, e.endpoint, e.tppId, e.clientId.GetOr(""), e.psuId.GetOr(""))
  }

  function BucketFor(payment: Event, endpoint: string): BucketKey {
    BucketOf(payment).(endpoint := endpoint)
  }

  predicate IsPairableCall(e: Event) {
    e.endpoint in PAIRABLE && Succeeded(e)
  }

  predicate IsPayment(e: Event) {
    e.payment.Some? && Succeeded(e)
  }

  function Gap(x: Event, y: Event): nat {
    Abs(x.time - y.time)
  }

  datatype Request = Request(payment: Event, endpoint: string)

  datatype Pairing = Pairing(payment: Event, endpoint: string, call: Event)

  /** The call may discount the request's payment. */
  predicate Admissible(window: nat, r: Request, call: Event) {
    IsPairableCall(call) && BucketOf(call) == BucketFor(r.payment, r.endpoint) && Gap(call, r.payment) <= window
  }

  function CallId(p: Pairing): string { p.call.id }

  function Calls(ps: seq<Pairing>): set<string> {
    set p | p in ps :: p.call.id
  }

  function Available(window: nat, r: Request, taken: set<string>): Event -> bool {
    (call: Event) => Admissible(window, r, call) && call.id !in taken
  }

  /** Closer to the payment, and on equal gaps earlier in the total order. */
  predicate Closer(payment: Event, x: Event, y: Event) {
    Gap(x, payment) < Gap(y, payment) || (Gap(x, payment) == Gap(y, payment) && Before(x, y))
  }

  /** The first element of the candidates sorted by closeness. */
  function Closest(payment: Event, cs: seq<Event>): Event
    requires cs != []
  {
    if |cs| == 1 then cs[0]
    else
      var best := Closest(payment, cs[..|cs| - 1]);
      if Closer(payment, cs[|cs| - 1], best) then cs[|cs| - 1] else best
  }

  /** One request takes the closest admissible call nobody took before, if any is left. */
  function Serve(events: seq<Event>, window: nat, done: seq<Pairing>, r: Request): seq<Pairing> {
    var candidates := Keep(events, Available(window, r, Calls(done)));
    if candidates == [] then done else done + [Pairing(r.payment, r.endpoint, Closest(r.payment, candidates))]
  }

  /** Requests are served first come, first served. */
  function Pairings(events: seq<Event>, window: nat, rs: seq<Request>): seq<Pairing> {
    if rs == [] then [] else Serve(events, window, Pairings(events, window, rs[..|rs| - 1]), rs[|rs| - 1])
  }

  function RequestFor(payment: Event): string -> Request {
    (endpoint: string) => Request(payment, endpoint)
  }

  /** A payment asks for one call on each pairable endpoint. */
  function RequestsOf(payment: Event): seq<Request> {
    Map(PAIRABLE, RequestFor(payment))
  }

  function Requests(events: seq<Event>): seq<Request> {
    Flatten(Map(Keep(events, IsPayment), RequestsOf))
  }

  function Paired(card: Card, events: seq<Event>): seq<Pairing> {
    Pairings(events, card.pairingWindow, Requests(events))
  }

  // ---------------------------------------------------------------- allowances

  /** One retail free tier: who asked, on which day, in which mode; `scope` separates serving LFIs when the card says
      so. */
  datatype TierKey = TierKey(direction: Direction, scope: Option<string>, psuId: string, day: int, attended: bool)

  datatype MerchantKey = MerchantKey(merchantId: string, day: int)

  predicate Billable(card: Card, e: Event) {
    e.endpoint in card.chargeable && Succeeded(e)
  }

  function PagesOf(d: DataUse): nat {
    (d.lines + 99) / 100
  }

  /** The free tier an event draws on, if it draws on one. */
  function TierOf(card: Card, e: Event): Option<TierKey> {
    if Billable(card, e) && card.chargeable[e.endpoint] == DataCall && e.data.Some? && !e.data.value.corporate then
      var scope := if e.direction == Outbound && card.freeTierPerServingLfi then Some(e.counterpartyLfiId.GetOr(""))
          else None;
      Some(TierKey(e.direction, scope, e.psuId.GetOr(""), DayOf(e.time), e.data.value.attended))
    else None
  }

  /** The merchant allowance an event draws on, if it draws on one. */
  function MerchantOf(card: Card, e: Event): Option<MerchantKey> {
    if Billable(card, e) && card.chargeable[e.endpoint] == PaymentCall && e.direction == Inbound && e.payment.Some?
      && e.payment.value.kind == MerchantCollection && e.payment.value.merchantId.Some?
    then Some(MerchantKey(e.payment.value.merchantId.value, DayOf(e.time)))
    else None
  }

  function TierAllowance(card: Card, k: TierKey): nat {
    if k.attended then card.attendedPages else card.unattendedPages
  }

  function PagesOn(card: Card, k: TierKey): Event -> int {
    (e: Event) => if TierOf(card, e) == Some(k) then PagesOf(e.data.value) else 0
  }

  function ValueOn(card: Card, k: MerchantKey): Event -> int {
    (e: Event) => if MerchantOf(card, e) == Some(k) then e.payment.value.amount else 0
  }

  /** What earlier events drew from the same allowance. */
  function PagesUsed(card: Card, events: seq<Event>, e: Event): int {
    if TierOf(card, e).Some? then SumBy(events, PagesOn(card, TierOf(card, e).value)) else 0
  }

  function ValueUsed(card: Card, events: seq<Event>, e: Event): int {
    if MerchantOf(card, e).Some? then SumBy(events, ValueOn(card, MerchantOf(card, e).value)) else 0
  }

  /** What an allowance still covers of a request: `max(0, min(allowance − used, asked))`. */
  function FreePart(allowance: nat, used: int, asked: nat): (free: nat)
    ensures free <= asked
  {
    if allowance - used <= 0 then 0 else if allowance - used < asked then allowance - used else asked
  }

  // ---------------------------------------------------------------- what one event contributes

  function Defect(card: Card, e: Event): Option<Error> {
    if !Billable(card, e) then None
    else match card.chargeable[e.endpoint]
      case PaymentCall => if e.payment.None? then Some(MissingPayment(e.id)) else None
      case DataCall =>
        if e.data.None? then Some(MissingData(e.id))
        else if e.data.value.ageSpanMonths.GetOr(0) > MAX_SPAN_MONTHS then Some(SpanTooLong(e.id))
        else None
      case _ => None
  }

  function BareLine(e: Event, side: Side, feeClass: FeeClass, units: nat): Line {
    Line(e, side, feeClass, units, None, None, None, None, None, None, None, None, false, false)
  }

  function PaymentLine(card: Card, e: Event, used: int): Line
    requires e.payment.Some?
  {
    var p := e.payment.value;
    var line := BareLine(e, Receivable, PaymentFee(p.kind), 1).(value := Some(p.amount), batchId := p.batchId);
    if p.kind == MerchantCollection then
      if p.merchantId.Some? then
        var free := FreePart(card.merchantAllowance, used, p.amount);
        line.(freeValue := Some(free), chargeableValue := Some(p.amount - free), merchantId := p.merchantId)
      else line.(freeValue := Some(0), chargeableValue := Some(p.amount), flagged := true)
    else if p.kind == LargeValue && p.amount < card.largeValueThreshold then
      line.(feeClass := PaymentFee(MerchantCollection), chargeableValue := Some(p.amount), freeValue := Some(0),
          reclassified := true)
    else line
  }

  function DataLine(card: Card, e: Event, side: Side, used: int): Line
    requires e.data.Some?
  {
    var pages := PagesOf(e.data.value);
    if e.data.value.corporate then BareLine(e, side, CorporatePage, pages)
    else
      var allowance := if e.data.value.attended then card.attendedPages else card.unattendedPages;
      var free := FreePart(allowance, used, pages);
      BareLine(e, side, RetailPage, pages - free).(freeUnits := Some(free))
  }

  function OwedPaymentLine(e: Event): Line
    requires e.payment.Some?
  {
    var p := e.payment.value;
    BareLine(e, PayableLfi, PaymentFee(p.kind), 1)
      .(value := Some(p.amount), chargeableValue := Some(p.amount), freeValue := Some(0), batchId := p.batchId)
  }

  function HubLine(e: Event, kind: Kind, isPaired: bool): Line {
    BareLine(e, PayableHub, if kind == QuoteCall then HubQuote else if isPaired then HubPaired else HubStandard, 1)
      .(paired := Some(isPaired), providers := e.providers)
  }

  /** The lines of one event, given whether it discounts a payment and what earlier events consumed. */
  function LinesFor(card: Card, e: Event, isPaired: bool, pagesUsed: int, valueUsed: int): seq<Line>
    requires Defect(card, e).None?
  {
    if !Billable(card, e) then []
    else
      var kind := card.chargeable[e.endpoint];
      if e.direction == Outbound then
        [HubLine(e, kind, isPaired)]
        + (if kind == PaymentCall then [OwedPaymentLine(e)]
           else if kind == DataCall then [DataLine(card, e, PayableLfi, pagesUsed)]
           else [])
      else if kind == PaymentCall then [PaymentLine(card, e, valueUsed)]
      else if kind == DataCall then [DataLine(card, e, Receivable, pagesUsed)]
      else [BareLine(e, FreeToLfi, NoLfiCharge, 1).(paired := Some(isPaired))]
  }

  ghost predicate Sound(card: Card, events: seq<Event>) {
    forall e :: e in events ==> Defect(card, e).None?
  }

  function Lines(card: Card, paired: set<string>, events: seq<Event>): seq<Line>
    requires Sound(card, events)
  {
    if events == [] then []
    else
      var init, e := events[..|events| - 1], events[|events| - 1];
      Lines(card, paired, init)
      + LinesFor(card, e, e.id in paired, PagesUsed(card, init, e), ValueUsed(card, init, e))
  }

  /** The first event, in order, that the source throws on. */
  function FirstDefect(card: Card, events: seq<Event>): Option<Error> {
    if events == [] then None
    else if FirstDefect(card, events[..|events| - 1]).Some? then FirstDefect(card, events[..|events| - 1])
    else Defect(card, events[|events| - 1])
  }

  lemma {:induction false} SoundExactly(card: Card, events: seq<Event>)
    ensures FirstDefect(card, events).None? <==> Sound(card, events)
  {
    if events != [] {
      var init, last := events[..|events| - 1], events[|events| - 1];
      assert events == init + [last];
      SoundExactly(card, init);
    }
  }

  // ---------------------------------------------------------------- counts

  datatype Class = Unknown | FreeEndpoint | Unsuccessful | Chargeable | FreeOfCharge

  /** The one class an event is counted in. */
  function ClassOf(card: Card, e: Event): Class {
    if e.endpoint !in card.chargeable then if e.endpoint in card.free then FreeEndpoint else Unknown
    else if !Succeeded(e) then Unsuccessful
    else if e.direction == Outbound || card.chargeable[e.endpoint] in {PaymentCall, DataCall} then Chargeable
    else FreeOfCharge
  }

  function InClass(card: Card, c: Class): Event -> bool {
    (e: Event) => ClassOf(card, e) == c
  }

  function Towards(d: Direction): Event -> bool {
    (e: Event) => e.direction == d
  }

  datatype Stats = Stats(
    eventsTotal: nat, classified: nat, chargeableEvents: nat, freeEvents: nat, freeToLfiEvents: nat,
    excludedUnsuccessful: nat, unknownEndpoints: nat, inbound: nat, outbound: nat)

  function StatsOf(card: Card, events: seq<Event>): Stats {
    var unknown := |Keep(events, InClass(card, Unknown))|;
    Stats(
      |events|, |events| - unknown, |Keep(events, InClass(card, Chargeable))|,
          |Keep(events, InClass(card, FreeEndpoint))|,
      |Keep(events, InClass(card, FreeOfCharge))|, |Keep(events, InClass(card, Unsuccessful))|, unknown,
      |Keep(events, Towards(Inbound))|, |Keep(events, Towards(Outbound))|)
  }

  // ---------------------------------------------------------------- evidence

  /** An event that drew on an allowance, with what was free and what was charged. */
  datatype Draw = Draw(event: Event, free: nat, charged: nat)

  function TierDraw(l: Line): bool {
    l.side == Receivable && l.feeClass == RetailPage && l.units > 0 && l.event.psuId.Some?
  }

  function AsTierDraw(l: Line): Draw {
    Draw(l.event, l.freeUnits.GetOr(0), l.units)
  }

  function MerchantDraw(l: Line): bool {
    l.merchantId.Some? && l.freeValue.GetOr(0) > 0
  }

  function AsMerchantDraw(l: Line): Draw {
    Draw(l.event, l.freeValue.GetOr(0), l.chargeableValue.GetOr(0))
  }

  datatype Metered = Metered(
    lines: seq<Line>, received: nat, accepted: nat, duplicates: nat, stats: Stats, pairing: seq<Pairing>,
    freeTier: seq<Draw>, merchantAllowance: seq<Draw>, blindSpots: seq<Event>)

  function Meter(card: Card, deliveries: seq<Event>): Metered
    requires Sound(card, Events(deliveries))
  {
    var events := Events(deliveries);
    var pairing := Paired(card, events);
    var lines := Lines(card, Calls(pairing), events);
    Metered(
      lines, |deliveries|, |events|, if |deliveries| >= |events| then |deliveries| - |events| else 0,
          StatsOf(card, events), pairing,
      Map(Keep(lines, TierDraw), AsTierDraw), Map(Keep(lines, MerchantDraw), AsMerchantDraw),
          Keep(events, InClass(card, Unknown)))
  }

  // ---------------------------------------------------------------- the algorithm: deliveries

  /** One event per id in first-delivery order, or a refusal when an id carries two different events. */
  method Deduplicate(deliveries: seq<Event>) returns (r: Result<seq<Event>, Error>)
    ensures r.Ok? <==> ConflictFree(deliveries)
    ensures r.Ok? ==> r.value == Heads(Groups(deliveries, IdOf))
    ensures r.Err? ==> r.error == ConflictingDuplicate
  {
    var byId: map<string, Event>, order: seq<string> := map[], [];
    for i := 0 to |deliveries|
      invariant order == Keys(deliveries[..i], IdOf)
      invariant forall k :: k in byId <==> k in order
      invariant forall x :: x in deliveries[..i] ==> x.id in byId && byId[x.id] == x
    {
      var e := deliveries[i];
      assert deliveries[..i + 1] == deliveries[..i] + [e];
      KeysSnoc(deliveries[..i], e, IdOf);
      if e.id in byId {
        if byId[e.id] != e {
          KeysExact(deliveries[..i], IdOf, e.id);
          var x :| x in deliveries[..i] && x.id == e.id;
          assert x in deliveries && e in deliveries;
          return Err(ConflictingDuplicate);
        }
      } else {
        byId, order := byId[e.id := e], order + [e.id];
      }
    }
    assert deliveries[..|deliveries|] == deliveries;
    var events := ListFirsts(deliveries, order, byId);
    r := Ok(events);
  }

  method ListFirsts(deliveries: seq<Event>, order: seq<string>, byId: map<string, Event>) returns (events: seq<Event>)
    requires order == Keys(deliveries, IdOf) && forall k :: k in order ==> k in byId
    requires forall x :: x in deliveries ==> x.id in byId && byId[x.id] == x
    ensures events == Heads(Groups(deliveries, IdOf))
  {
    ghost var heads := Heads(Groups(deliveries, IdOf));
    events := [];
    for i := 0 to |order|
      invariant events == heads[..i]
    {
      assert Groups(deliveries, IdOf)[i][0] in Groups(deliveries, IdOf)[i];
      MembersExact(deliveries, IdOf, order[i], heads[i]);
      events := events + [byId[order[i]]];
    }
  }

  // ---------------------------------------------------------------- the algorithm: pairing

  lemma BucketCandidates(events: seq<Event>, window: nat, r: Request, taken: set<string>)
    ensures Keep(Members(Keep(events, IsPairableCall), BucketOf, BucketFor(r.payment, r.endpoint)),
      Available(window, r, taken))
         == Keep(events, Available(window, r, taken))
  {
    MembersThenKeep(Keep(events, IsPairableCall), BucketFor(r.payment, r.endpoint), Available(window, r, taken));
    KeepTwice(events, IsPairableCall, Available(window, r, taken), Available(window, r, taken));
  }

  /** Looking only inside the bucket loses no candidate that belongs to it. */
  lemma {:induction false} MembersThenKeep(xs: seq<Event>, k: BucketKey, p: Event -> bool)
    requires forall x :: p(x) ==> BucketOf(x) == k
    ensures Keep(Members(xs, BucketOf, k), p) == Keep(xs, p)
  {
    if xs != [] {
      var init, last := xs[..|xs| - 1], xs[|xs| - 1];
      MembersThenKeep(init, k, p);
      KeepSnoc(Members(init, BucketOf, k), last, p);
    }
  }

  /** The map of pairable calls by who calls what for whom. */
  ghost predicate Bucketed(buckets: map<BucketKey, seq<Event>>, events: seq<Event>) {
    && (forall k :: k in buckets <==> k in Keys(Keep(events, IsPairableCall), BucketOf))
    && (forall k :: k in buckets ==> buckets[k] == Members(Keep(events, IsPairableCall), BucketOf, k))
  }

  /** One round of the inner loop: the payment's closest free call in the bucket, if there is one. */
  method PairOne(buckets: map<BucketKey, seq<Event>>, window: nat, r: Request, done: seq<Pairing>,
      paired: map<string, string>, ghost events: seq<Event>)
    returns (evidence: seq<Pairing>, updated: map<string, string>)
    requires Bucketed(buckets, events)
    requires paired.Keys == Calls(done)
    ensures updated.Keys == Calls(evidence)
    ensures evidence == Serve(events, window, done, r)
  {
    evidence, updated := done, paired;
    var key := BucketFor(r.payment, r.endpoint);
    var bucket := if key in buckets then buckets[key] else [];
    MembersEmpty(Keep(events, IsPairableCall), BucketOf, key);
    BucketCandidates(events, window, r, paired.Keys);
    var candidates := Keep(bucket, Available(window, r, paired.Keys));
    if candidates != [] {
      var call := Closest(r.payment, candidates);
      evidence := evidence + [Pairing(r.payment, r.endpoint, call)];
      updated := updated[call.id := r.payment.id];
      assert Calls(evidence) == Calls(done) + {call.id} by {
        assert forall p :: p in evidence <==> p in done || p == Pairing(r.payment, r.endpoint, call);
      }
    }
  }

  /** The inner loop over the pairable endpoints. */
  method PairPayment(
    buckets: map<BucketKey, seq<Event>>, window: nat, payment: Event, endpoints: seq<string>, done: seq<Pairing>,
    paired: map<string, string>, ghost events: seq<Event>, ghost before: seq<Request>)
    returns (evidence: seq<Pairing>, updated: map<string, string>)
    requires Bucketed(buckets, events)
    requires done == Pairings(events, window, before) && paired.Keys == Calls(done)
    ensures evidence == Pairings(events, window, before + Map(endpoints, RequestFor(payment)))
      && updated.Keys == Calls(evidence)
  {
    evidence, updated := done, paired;
    ghost var rs := before;
    for j := 0 to |endpoints|
      invariant rs == before + Map(endpoints[..j], RequestFor(payment))
      invariant evidence == Pairings(events, window, rs) && updated.Keys == Calls(evidence)
    {
      assert endpoints[..j + 1] == endpoints[..j] + [endpoints[j]];
      MapSnoc(endpoints[..j], endpoints[j], RequestFor(payment));
      PairingsSnoc(events, window, rs, Request(payment, endpoints[j]));
      evidence, updated := PairOne(buckets, window, Request(payment, endpoints[j]), evidence, updated, events);
      rs := rs + [Request(payment, endpoints[j])];
    }
    assert endpoints[..|endpoints|] == endpoints;
  }

  lemma PairingsSnoc(events: seq<Event>, window: nat, rs: seq<Request>, r: Request)
    ensures Pairings(events, window, rs + [r]) == Serve(events, window, Pairings(events, window, rs), r)
  {
    assert (rs + [r])[..|rs|] == rs;
  }

  method PairCalls(events: seq<Event>, window: nat) returns (evidence: seq<Pairing>, paired: map<string, string>)
    ensures evidence == Pairings(events, window, Requests(events))
    ensures paired.Keys == Calls(evidence)
  {
    var order, buckets := GroupInto(Keep(events, IsPairableCall), BucketOf);
    var payments := Keep(events, IsPayment);
    evidence, paired := [], map[];
    for i := 0 to |payments|
      invariant evidence == Pairings(events, window, Flatten(Map(payments[..i], RequestsOf)))
      invariant paired.Keys == Calls(evidence)
    {
      RequestsSnoc(payments, i);
      evidence, paired := PairPayment(buckets, window, payments[i], PAIRABLE, evidence, paired, events,
          Flatten(Map(payments[..i], RequestsOf)));
    }
    assert payments[..|payments|] == payments;
  }

  lemma RequestsSnoc(payments: seq<Event>, i: nat)
    requires i < |payments|
    ensures Flatten(Map(payments[..i + 1], RequestsOf)) == Flatten(Map(payments[..i], RequestsOf))
      + RequestsOf(payments[i])
  {
    assert payments[..i + 1] == payments[..i] + [payments[i]];
    MapSnoc(payments[..i], payments[i], RequestsOf);
    var ys := Map(payments[..i], RequestsOf) + [RequestsOf(payments[i])];
    assert ys[..|ys| - 1] == Map(payments[..i], RequestsOf);
  }

  // ---------------------------------------------------------------- the algorithm: classification

  /** The mutable free-tier map holds, per key, the pages the events so far asked for. */
  ghost predicate TierState(card: Card, used: map<TierKey, nat>, events: seq<Event>) {
    forall k :: SumBy(events, PagesOn(card, k)) == if k in used then used[k] else 0
  }

  ghost predicate MerchantState(card: Card, used: map<MerchantKey, nat>, events: seq<Event>) {
    forall k :: SumBy(events, ValueOn(card, k)) == if k in used then used[k] else 0
  }

  lemma TierSnoc(card: Card, used: map<TierKey, nat>, events: seq<Event>, e: Event)
    requires TierState(card, used, events)
    ensures match TierOf(card, e)
      case None => TierState(card, used, events + [e])
      case Some(k) => TierState(card, used[k := (if k in used then used[k] else 0) + PagesOf(e.data.value)],
          events + [e])
  {
    forall k ensures SumBy(events + [e], PagesOn(card, k)) == SumBy(events, PagesOn(card, k)) + PagesOn(card, k)(e) {
      SumSnoc(events, e, PagesOn(card, k));
    }
  }

  lemma MerchantSnoc(card: Card, used: map<MerchantKey, nat>, events: seq<Event>, e: Event)
    requires MerchantState(card, used, events)
    ensures match MerchantOf(card, e)
      case None => MerchantState(card, used, events + [e])
      case Some(k) => MerchantState(card, used[k := (if k in used then used[k] else 0) + e.payment.value.amount],
          events + [e])
  {
    forall k ensures SumBy(events + [e], ValueOn(card, k)) == SumBy(events, ValueOn(card, k)) + ValueOn(card, k)(e) {
      SumSnoc(events, e, ValueOn(card, k));
    }
  }

  /** The data branch, either direction: pages, the free tier, and what it leaves to bill. */
  method MeterData(card: Card, e: Event, side: Side, tierUsed: map<TierKey, nat>, ghost events: seq<Event>)
    returns (line: Line, updated: map<TierKey, nat>)
    requires Billable(card, e) && card.chargeable[e.endpoint] == DataCall && Defect(card, e).None?
    requires TierState(card, tierUsed, events)
    ensures line == DataLine(card, e, side, PagesUsed(card, events, e))
    ensures TierState(card, updated, events + [e])
  {
    TierSnoc(card, tierUsed, events, e);
    updated := tierUsed;
    var data := e.data.value;
    var pages := (data.lines + 99) / 100;
    if data.corporate {
      line := BareLine(e, side, CorporatePage, pages);
    } else {
      var scope := if e.direction == Outbound && card.freeTierPerServingLfi then Some(e.counterpartyLfiId.GetOr(""))
          else None;
      var key := TierKey(e.direction, scope, e.psuId.GetOr(""), DayOf(e.time), data.attended);
      var allowance := if data.attended then card.attendedPages else card.unattendedPages;
      var used := if key in tierUsed then tierUsed[key] else 0;
      var freePages := FreePart(allowance, used, pages);
      updated := updated[key := used + pages];
      line := BareLine(e, side, RetailPage, pages - freePages).(freeUnits := Some(freePages));
    }
  }

  /** The inbound payment branch: the merchant's allowance and the large-value reclassification. */
  method MeterPayment(card: Card, e: Event, merchantUsed: map<MerchantKey, nat>, ghost events: seq<Event>)
    returns (line: Line, updated: map<MerchantKey, nat>)
    requires Billable(card, e) && card.chargeable[e.endpoint] == PaymentCall && e.direction == Inbound
      && e.payment.Some?
    requires MerchantState(card, merchantUsed, events)
    ensures line == PaymentLine(card, e, ValueUsed(card, events, e))
    ensures MerchantState(card, updated, events + [e])
  {
    MerchantSnoc(card, merchantUsed, events, e);
    updated := merchantUsed;
    var p := e.payment.value;
    line := BareLine(e, Receivable, PaymentFee(p.kind), 1).(value := Some(p.amount), batchId := p.batchId);
    if p.kind == MerchantCollection {
      if p.merchantId.Some? {
        var key := MerchantKey(p.merchantId.value, DayOf(e.time));
        var used := if key in merchantUsed then merchantUsed[key] else 0;
        var free := FreePart(card.merchantAllowance, used, p.amount);
        updated := updated[key := used + p.amount];
        line := line.(freeValue := Some(free), chargeableValue := Some(p.amount - free), merchantId := p.merchantId);
      } else {
        line := line.(freeValue := Some(0), chargeableValue := Some(p.amount), flagged := true);
      }
    }
    if p.kind == LargeValue && p.amount < card.largeValueThreshold {
      line := line.(feeClass := PaymentFee(MerchantCollection), chargeableValue := Some(p.amount), freeValue := Some(0),
          reclassified := true);
    }
  }

  datatype Usage = Usage(tier: map<TierKey, nat>, merchant: map<MerchantKey, nat>)

  ghost predicate Tracks(card: Card, u: Usage, events: seq<Event>) {
    TierState(card, u.tier, events) && MerchantState(card, u.merchant, events)
  }

  /** One successful chargeable event: its lines, and what it drew on the allowances. */
  method MeterEvent(card: Card, e: Event, isPaired: bool, usage: Usage, ghost events: seq<Event>)
    returns (lines: seq<Line>, updated: Usage)
    requires Billable(card, e) && Defect(card, e).None? && Tracks(card, usage, events)
    ensures lines == LinesFor(card, e, isPaired, PagesUsed(card, events, e), ValueUsed(card, events, e))
    ensures Tracks(card, updated, events + [e])
  {
    TierSnoc(card, usage.tier, events, e);
    MerchantSnoc(card, usage.merchant, events, e);
    var kind := card.chargeable[e.endpoint];
    var tier, merchant, line := usage.tier, usage.merchant,
        BareLine(e, FreeToLfi, NoLfiCharge, 1).(paired := Some(isPaired));
    if e.direction == Outbound {
      lines := [HubLine(e, kind, isPaired)];
      if kind == PaymentCall {
        lines := lines + [OwedPaymentLine(e)];
      } else if kind == DataCall {
        line, tier := MeterData(card, e, PayableLfi, usage.tier, events);
        lines := lines + [line];
      }
    } else if kind == PaymentCall {
      line, merchant := MeterPayment(card, e, usage.merchant, events);
      lines := [line];
    } else if kind == DataCall {
      line, tier := MeterData(card, e, Receivable, usage.tier, events);
      lines := [line];
    } else {
      lines := [line];
    }
    updated := Usage(tier, merchant);
  }

  lemma StatsSnoc(card: Card, events: seq<Event>, e: Event)
    ensures StatsOf(card, events + [e]) ==
      var s := StatsOf(card, events);
      var t := s.(eventsTotal := s.eventsTotal + 1, inbound := s.inbound + (if e.direction == Inbound then 1 else 0),
                  outbound := s.outbound + (if e.direction == Outbound then 1 else 0));
      match ClassOf(card, e)
      case Unknown => t.(unknownEndpoints := t.unknownEndpoints + 1)
      case FreeEndpoint => t.(classified := t.classified + 1, freeEvents := t.freeEvents + 1)
      case Unsuccessful => t.(classified := t.classified + 1, excludedUnsuccessful := t.excludedUnsuccessful + 1)
      case Chargeable => t.(classified := t.classified + 1, chargeableEvents := t.chargeableEvents + 1)
      case FreeOfCharge => t.(classified := t.classified + 1, freeToLfiEvents := t.freeToLfiEvents + 1)
  {
    KeepSnoc(events, e, InClass(card, Unknown));
    KeepSnoc(events, e, InClass(card, FreeEndpoint));
    KeepSnoc(events, e, InClass(card, Unsuccessful));
    KeepSnoc(events, e, InClass(card, Chargeable));
    KeepSnoc(events, e, InClass(card, FreeOfCharge));
    KeepSnoc(events, e, Towards(Inbound));
    KeepSnoc(events, e, Towards(Outbound));
  }

  /** The counters one event moves. */
  method CountEvent(card: Card, e: Event, stats: Stats, ghost events: seq<Event>) returns (s: Stats)
    requires stats == StatsOf(card, events)
    ensures s == StatsOf(card, events + [e])
  {
    StatsSnoc(card, events, e);
    s := stats.(eventsTotal := stats.eventsTotal + 1);
    if e.direction == Inbound {
      s := s.(inbound := s.inbound + 1);
    } else {
      s := s.(outbound := s.outbound + 1);
    }
    if e.endpoint !in card.chargeable {
      if e.endpoint in card.free {
        s := s.(classified := s.classified + 1, freeEvents := s.freeEvents + 1);
      } else {
        s := s.(unknownEndpoints := s.unknownEndpoints + 1);
      }
    } else {
      s := s.(classified := s.classified + 1);
      if !Succeeded(e) {
        s := s.(excludedUnsuccessful := s.excludedUnsuccessful + 1);
      } else if e.direction == Outbound || card.chargeable[e.endpoint] == PaymentCall
          || card.chargeable[e.endpoint] == DataCall {
        s := s.(chargeableEvents := s.chargeableEvents + 1);
      } else {
        s := s.(freeToLfiEvents := s.freeToLfiEvents + 1);
      }
    }
  }

  method MeterLines(card: Card, events: seq<Event>, paired: map<string, string>) returns (r: Result<seq<Line>, Error>)
    ensures FirstDefect(card, events).Some? ==> r == Err(FirstDefect(card, events).value)
    ensures FirstDefect(card, events).None? ==> Sound(card, events) && r == Ok(Lines(card, paired.Keys, events))
  {
    var lines: seq<Line>, usage := [], Usage(map[], map[]);
    for i := 0 to |events|
      invariant FirstDefect(card, events[..i]).None? && Sound(card, events[..i])
      invariant Tracks(card, usage, events[..i])
      invariant lines == Lines(card, paired.Keys, events[..i])
    {
      var e := events[i];
      assert events[..i + 1][..i] == events[..i];
      assert events[..i + 1] == events[..i] + [e];
      SoundExactly(card, events[..i + 1]);
      var defect := Defect(card, e);
      if defect.Some? {
        FirstDefectStays(card, events, i);
        return Err(defect.value);
      }
      if Billable(card, e) {
        var more;
        more, usage := MeterEvent(card, e, e.id in paired, usage, events[..i]);
        lines := lines + more;
      } else {
        TierSnoc(card, usage.tier, events[..i], e);
        MerchantSnoc(card, usage.merchant, events[..i], e);
      }
    }
    assert events[..|events|] == events;
    r := Ok(lines);
  }

  lemma {:induction false} FirstDefectFrom(card: Card, events: seq<Event>, i: nat, j: nat)
    requires i < j <= |events| && FirstDefect(card, events[..i]).None? && Defect(card, events[i]).Some?
    ensures FirstDefect(card, events[..j]) == Defect(card, events[i])
  {
    assert events[..j][..j - 1] == events[..j - 1];
    if j > i + 1 {
      FirstDefectFrom(card, events, i, j - 1);
    }
  }

  lemma FirstDefectStays(card: Card, events: seq<Event>, i: nat)
    requires i < |events| && FirstDefect(card, events[..i]).None? && Defect(card, events[i]).Some?
    ensures FirstDefect(card, events) == Defect(card, events[i])
  {
    FirstDefectFrom(card, events, i, |events|);
    assert events[..|events|] == events;
  }

  method CountEvents(card: Card, events: seq<Event>) returns (stats: Stats, blindSpots: seq<Event>)
    ensures stats == StatsOf(card, events) && blindSpots == Keep(events, InClass(card, Unknown))
  {
    stats, blindSpots := Stats(0, 0, 0, 0, 0, 0, 0, 0, 0), [];
    for i := 0 to |events|
      invariant stats == StatsOf(card, events[..i]) && blindSpots == Keep(events[..i], InClass(card, Unknown))
    {
      assert events[..i + 1] == events[..i] + [events[i]];
      KeepSnoc(events[..i], events[i], InClass(card, Unknown));
      stats := CountEvent(card, events[i], stats, events[..i]);
      if events[i].endpoint !in card.chargeable && events[i].endpoint !in card.free {
        blindSpots := blindSpots + [events[i]];
      }
    }
    assert events[..|events|] == events;
  }

  /** What the source throws on: a conflicting delivery first, then the first event lacking what its line needs. */
  ghost function Refusal(card: Card, deliveries: seq<Event>): Option<Error> {
    if !ConflictFree(deliveries) then Some(ConflictingDuplicate) else FirstDefect(card, Events(deliveries))
  }

  /** The whole metering run over parsed deliveries. */
  method MeterBillableEvents(card: Card, deliveries: seq<Event>) returns (r: Result<Metered, Error>)
    ensures Refusal(card, deliveries).Some? ==> r == Err(Refusal(card, deliveries).value)
    ensures Refusal(card, deliveries).None? ==> Sound(card, Events(deliveries)) && r == Ok(Meter(card, deliveries))
  {
    var accepted := Deduplicate(deliveries);
    if accepted.Err? { return Err(accepted.error); }
    var events := Sort(accepted.value);
    var pairing, paired := PairCalls(events, card.pairingWindow);
    var lines := MeterLines(card, events, paired);
    if lines.Err? { return Err(lines.error); }
    var stats, blindSpots := CountEvents(card, events);
    var duplicates := if |deliveries| >= |events| then |deliveries| - |events| else 0;
    r := Ok(Metered(
      lines.value, |deliveries|, |events|, duplicates, stats, pairing,
      Map(Keep(lines.value, TierDraw), AsTierDraw), Map(Keep(lines.value, MerchantDraw), AsMerchantDraw), blindSpots));
  }
}
