/** The price of one metered line: the card's rate for its fee class, or, for data overage owed to another LFI, the rate
    that LFI published for the day. */
module Pricing {
  import opened Collections
  import opened Money
  import Rating
  import RatingRun
  import BatchCaps

  /** A calendar day; days compare as their ISO texts do. */
  datatype Date = Date(year: int, month: int, day: int)

  predicate Before(a: Date, b: Date) {
    a.year < b.year || (a.year == b.year && (a.month < b.month || (a.month == b.month && a.day < b.day)))
  }

  predicate AtOrBefore(a: Date, b: Date) { a == b || Before(a, b) }

  /** A tier covers up to so many providers, or any number. */
  datatype Tier = Tier(maxProviders: Option<nat>, price: nat)

  datatype Rate =
    | BpsOfValue(schedule: seq<nat>, cap: nat)
    | Flat(price: nat, batchCap: Option<nat>)
    | FlatStepped(schedule: seq<nat>)
    | PerPage(price: nat)
    | PerPageOverFreeTier(overage: nat)
    | TieredByProviders(tiers: seq<Tier>)

  datatype Card = Card(anchor: Date, receivable: map<string, Rate>, hub: map<string, Rate>)

  datatype Unit = PerCall | PerOveragePage

  datatype Published = Published(lfiId: string, rate: int, from: Date, until: Option<Date>)

  datatype Snapshot = Snapshot(id: string, digest: string, unit: Unit, rates: seq<Published>)

  datatype MeteredLine = MeteredLine(
    eventId: string, traceId: Option<string>, side: Rating.Side, tppId: string, feeClass: string, units: nat,
    value: Option<nat>, chargeableValue: Option<nat>, providers: Option<nat>, day: Date,
    clientId: Option<string>, counterpartyLfiId: Option<string>, endpoint: Option<string>, batchId: Option<string>)

  datatype Error =
    | NoRate(side: Rating.Side, feeClass: string) | EmptySchedule | NoValue(feeClass: string) | NoTier(providers: nat)
    | NoSnapshot(eventId: string) | NoServingLfi(eventId: string) | UnusableSnapshot | BlankLfi

  const RETAIL_PAGE := "data.retail_page"

  // ---------------------------------------------------------------- the year of the card

  predicate Leap(year: int) { year % 4 == 0 && (year % 100 != 0 || year % 400 == 0) }

  /** The anchor's day in a given year; the 29th of February falls on the 1st of March where there is none. */
  function Anniversary(anchor: Date, year: int): Date {
    if anchor.month == 2 && anchor.day == 29 && !Leap(year) then Date(year, 3, 1)
    else Date(year, anchor.month, anchor.day)
  }

  function YearStep(anchor: Date, date: Date): int {
    var completed := date.year - anchor.year - if Before(date, Anniversary(anchor, date.year)) then 1 else 0;
    if completed + 1 > 1 then completed + 1 else 1
  }

  function Stepped(schedule: seq<nat>, step: int): nat
    requires schedule != [] && step >= 1
  {
    schedule[Min(step, |schedule|) - 1]
  }

  // ---------------------------------------------------------------- what the directory publishes

  predicate SoundRate(r: Published) {
    !Blank(r.lfiId) && r.rate >= 0 && (r.until.Some? ==> AtOrBefore(r.from, r.until.value))
  }

  predicate SoundSnapshot(s: Snapshot) {
    !Blank(s.id) && !Blank(s.digest) && forall r :: r in s.rates ==> SoundRate(r)
  }

  predicate InForce(r: Published, lfiId: string, day: Date) {
    r.lfiId == lfiId && AtOrBefore(r.from, day) && (r.until.None? || AtOrBefore(day, r.until.value))
  }

  /** The first of a stable sort by descending start: the latest start, and of several the one listed first. */
  function Latest(rates: seq<Published>, lfiId: string, day: Date): Option<Published> {
    if rates == [] then None
    else
      var before, last := Latest(rates[..|rates| - 1], lfiId, day), rates[|rates| - 1];
      if !InForce(last, lfiId, day) then before
      else if before.None? || Before(before.value.from, last.from) then Some(last)
      else before
  }

  function ResolvedRate(s: Snapshot, lfiId: string, day: Date): int {
    var found := Latest(s.rates, lfiId, day);
    if found.None? then 0 else found.value.rate
  }

  function Overage(l: MeteredLine, snapshot: Option<Snapshot>): Result<int, Error> {
    if l.units == 0 then Ok(0)
    else if snapshot.None? then Err(NoSnapshot(l.eventId))
    else if l.counterpartyLfiId.GetOr("") == "" then Err(NoServingLfi(l.eventId))
    else if !SoundSnapshot(snapshot.value) then Err(UnusableSnapshot)
    else if Blank(l.counterpartyLfiId.value) then Err(BlankLfi)
    else
      var rate := ResolvedRate(snapshot.value, l.counterpartyLfiId.value, l.day);
      Ok(rate * if snapshot.value.unit.PerCall? then 1 else l.units)
  }

  // ---------------------------------------------------------------- what the card charges

  function RateFor(card: Card, l: MeteredLine): Option<Rate> {
    if (l.side.Receivable? || l.side.PayableLfi?) && l.feeClass in card.receivable
        then Some(card.receivable[l.feeClass])
    else if l.side.PayableHub? && l.feeClass in card.hub then Some(card.hub[l.feeClass])
    else None
  }

  function BpsOfFils(fils: int, basisPoints: int): int {
    DivideHalfUp(fils * basisPoints, 10)
  }

  function TierFor(tiers: seq<Tier>, providers: nat): Option<Tier> {
    if tiers == [] then None
    else if tiers[0].maxProviders.None? || providers <= tiers[0].maxProviders.value then Some(tiers[0])
    else TierFor(tiers[1..], providers)
  }

  function ChargeableValue(l: MeteredLine): Option<nat> {
    if l.chargeableValue.Some? then l.chargeableValue else l.value
  }

  function Charge(rate: Rate, step: int, l: MeteredLine): Result<int, Error>
    requires step >= 1
  {
    match rate
    case BpsOfValue(schedule, cap) =>
      if schedule == [] then Err(EmptySchedule)
      else if ChargeableValue(l).None? then Err(NoValue(l.feeClass))
      else Ok(Min(BpsOfFils(ToFils(ChargeableValue(l).value), Stepped(schedule, step)), cap))
    case Flat(price, _) => Ok(price * l.units)
    case FlatStepped(schedule) =>
      if schedule == [] then Err(EmptySchedule) else Ok(Stepped(schedule, step) * l.units)
    case PerPage(price) => Ok(price * l.units)
    case PerPageOverFreeTier(overage) => Ok(overage * l.units)
    case TieredByProviders(tiers) =>
      var tier := TierFor(tiers, l.providers.GetOr(1));
      if tier.None? then Err(NoTier(l.providers.GetOr(1))) else Ok(tier.value.price as int)
  }

  predicate IsServingLfiOverage(l: MeteredLine) { l.side.PayableLfi? && l.feeClass == RETAIL_PAGE }

  function AmountFor(card: Card, step: int, snapshot: Option<Snapshot>, l: MeteredLine): Result<int, Error>
    requires step >= 1
  {
    if l.side.FreeToLfi? then Ok(0)
    else if IsServingLfiOverage(l) then Overage(l, snapshot)
    else if RateFor(card, l).None? then Err(NoRate(l.side, l.feeClass))
    else Charge(RateFor(card, l).value, step, l)
  }

  function Priced(l: MeteredLine, amount: int): Rating.PricedLine {
    Rating.PricedLine(l.eventId, l.traceId, l.side, l.tppId, l.feeClass, l.units, amount, l.value, l.clientId,
      l.counterpartyLfiId, l.endpoint, l.batchId, None)
  }

  function PriceLine(card: Card, step: int, snapshot: Option<Snapshot>): MeteredLine -> Result<Rating.PricedLine, Error>
    requires step >= 1
  {
    (l: MeteredLine) =>
      match AmountFor(card, step, snapshot, l)
      case Err(e) => Err(e)
      case Ok(amount) => Ok(Priced(l, amount))
  }

  function PriceLines(card: Card, step: int, snapshot: Option<Snapshot>, lines: seq<MeteredLine>)
      : Result<seq<Rating.PricedLine>, Error>
    requires step >= 1
  {
    Collect(lines, PriceLine(card, step, snapshot))
  }

  /** The caps of the flat rates that carry one. */
  function CapsOf(card: Card): map<string, nat> {
    map f | f in card.receivable && card.receivable[f].Flat? && card.receivable[f].batchCap.Some?
      :: card.receivable[f].batchCap.value
  }

  /** The card's step in the middle of the rated month. */
  function StepFor(card: Card, year: int, month: int): (step: int)
    ensures step >= 1
  {
    YearStep(card.anchor, Date(year, month, 15))
  }

  // ---------------------------------------------------------------- the whole rating, from metered lines

  datatype RunError = Unpriced(pricing: Error) | MixedBatch(capping: BatchCaps.Error)

  method RateMeteredUsage(lines: seq<MeteredLine>, card: Card, year: int, month: int, snapshot: Option<Snapshot>,
      clients: seq<Rating.Client>)
    returns (result: Result<RatingRun.Run, RunError>)
    ensures var priced := PriceLines(card, StepFor(card, year, month), snapshot, lines);
      match result
      case Err(Unpriced(e)) => priced == Err(e)
      case Err(MixedBatch(_)) => priced.Ok? && !BatchCaps.NoneMixed(priced.value, CapsOf(card),
          BatchCaps.BatchIds(priced.value))
      case Ok(run) =>
        && priced.Ok? && BatchCaps.NoneMixed(priced.value, CapsOf(card), BatchCaps.BatchIds(priced.value))
        && run == RatingRun.RunOf(priced.value, CapsOf(card), clients)
  {
    var step := StepFor(card, year, month);
    var priced := PriceLines(card, step, snapshot, lines);
    if priced.Err? { return Err(Unpriced(priced.error)); }
    var run := RatingRun.RateUsage(priced.value, CapsOf(card), clients);
    result := match run { case Err(e) => Err(MixedBatch(e)) case Ok(r) => Ok(r) };
  }
}
