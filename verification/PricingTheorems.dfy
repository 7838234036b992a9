/** What a priced line costs and when it cannot be priced, told by the card, the directory's rates and the line. */
module PricingTheorems {
  import opened Collections
  import opened Money
  import opened Pricing
  import BatchCaps
  import Rating
  import RatingRun

  // ---------------------------------------------------------------- the year of the card

  /** No later in the year: by month, then by day. */
  predicate NoLaterInYear(a: Date, b: Date) {
    a.month < b.month || (a.month == b.month && a.day <= b.day)
  }

  predicate NotAfter(a: Date, b: Date) {
    a.year < b.year || (a.year == b.year && NoLaterInYear(a, b))
  }

  /** A day of the calendar, as far as the end of February goes. */
  predicate OfCalendar(d: Date) {
    d.month == 2 && d.day >= 29 ==> d.day == 29 && d.year % 4 == 0 && (d.year % 100 != 0 || d.year % 400 == 0)
  }

  /** The step rises by one each time the anchor's day comes round, from step 1 in its own year; an anchor on the 29th
      of February comes round with the first of March in other years. */
  lemma StepRisesOnTheAnchorsDay(anchor: Date, date: Date)
    requires OfCalendar(date) && 1 <= date.month <= 12 && date.day >= 1
    ensures var completed := date.year - anchor.year - if NoLaterInYear(anchor, date) then 0 else 1;
      YearStep(anchor, date) == if completed <= 0 then 1 else completed + 1
  {
  }

  /** A month is rated at the step of its fifteenth. */
  lemma StepOfTheMonth(card: Card, year: int, month: int)
    requires 1 <= month <= 12
    ensures var due := card.anchor.month < month || (card.anchor.month == month && card.anchor.day <= 15);
      var completed := year - card.anchor.year - if due then 0 else 1;
      StepFor(card, year, month) == if completed <= 0 then 1 else completed + 1
  {
    StepRisesOnTheAnchorsDay(card.anchor, Date(year, month, 15));
  }

  /** A later day is never in an earlier step. */
  lemma StepsOnlyRise(anchor: Date, date: Date, later: Date)
    requires AtOrBefore(date, later)
    ensures YearStep(anchor, date) <= YearStep(anchor, later)
  {
  }

  // ---------------------------------------------------------------- what the directory publishes

  /** The rate is the LFI's and the day lies within its window, both ends included. */
  predicate Applies(r: Published, lfiId: string, day: Date) {
    r.lfiId == lfiId && NotAfter(r.from, day) && (r.until.Some? ==> NotAfter(day, r.until.value))
  }

  /** The snapshot has an id and a digest, and rates that are named, not negative and whose windows do not end before
      they begin. */
  ghost predicate Usable(s: Snapshot) {
    && !Blank(s.id) && !Blank(s.digest)
    && forall r :: r in s.rates ==>
      !Blank(r.lfiId) && r.rate >= 0 && (r.until.Some? ==> NotAfter(r.from, r.until.value))
  }

  lemma UsableExactly(s: Snapshot)
    ensures SoundSnapshot(s) <==> Usable(s)
  {
    forall r | r in s.rates
      ensures SoundRate(r) <==>
        (!Blank(r.lfiId) && r.rate >= 0 && (r.until.Some? ==> NotAfter(r.from, r.until.value)))
    {
    }
  }

  /** Of the rates in force the one with the latest start, and of those the one listed first. */
  ghost predicate PublishedFor(rates: seq<Published>, lfiId: string, day: Date, i: nat) {
    && i < |rates| && Applies(rates[i], lfiId, day)
    && (forall j :: 0 <= j < |rates| && Applies(rates[j], lfiId, day) ==> NotAfter(rates[j].from, rates[i].from))
    && (forall j :: 0 <= j < i && Applies(rates[j], lfiId, day) ==> rates[j].from != rates[i].from)
  }

  lemma {:induction false} LatestIsPublished(rates: seq<Published>, lfiId: string, day: Date)
    ensures Latest(rates, lfiId, day).None? <==> forall r :: r in rates ==> !Applies(r, lfiId, day)
    ensures Latest(rates, lfiId, day).Some? ==>
      exists i: nat :: PublishedFor(rates, lfiId, day, i) && rates[i] == Latest(rates, lfiId, day).value
  {
    if rates != [] {
      var init, n := rates[..|rates| - 1], |rates| - 1;
      assert rates == init + [rates[n]];
      LatestIsPublished(init, lfiId, day);
      if Applies(rates[n], lfiId, day)
          && (Latest(init, lfiId, day).None? || Before(Latest(init, lfiId, day).value.from, rates[n].from)) {
        if Latest(init, lfiId, day).Some? {
          var i: nat :| PublishedFor(init, lfiId, day, i) && init[i] == Latest(init, lfiId, day).value;
        }
        LastIsLatest(rates, lfiId, day);
        assert rates[n] == Latest(rates, lfiId, day).value;
      } else if Latest(init, lfiId, day).Some? {
        var i: nat :| PublishedFor(init, lfiId, day, i) && init[i] == Latest(init, lfiId, day).value;
        assert PublishedFor(rates, lfiId, day, i);
      }
    }
  }

  lemma LastIsLatest(rates: seq<Published>, lfiId: string, day: Date)
    requires rates != [] && Applies(rates[|rates| - 1], lfiId, day)
    requires forall r :: r in rates[..|rates| - 1] && Applies(r, lfiId, day) ==> Before(r.from, rates[|rates| - 1].from)
    ensures PublishedFor(rates, lfiId, day, |rates| - 1)
  {
    var init, n := rates[..|rates| - 1], |rates| - 1;
    forall j | 0 <= j < n && Applies(rates[j], lfiId, day) ensures Before(rates[j].from, rates[n].from) {
      assert init[j] in init;
    }
  }

  lemma {:induction false} OnePublished(rates: seq<Published>, lfiId: string, day: Date, i: nat, j: nat)
    requires PublishedFor(rates, lfiId, day, i) && PublishedFor(rates, lfiId, day, j)
    ensures i == j
  {
  }

  /** Overage owed to another LFI costs the rate that LFI published for the day, for the call or for each page beyond
      the free ones as the snapshot says, and nothing when it published none; and it needs no snapshot only when no page
      is beyond the free ones. */
  lemma {:induction false} OverageChargedExactly(card: Card, step: int, snapshot: Option<Snapshot>, l: MeteredLine)
    requires step >= 1 && l.side == Rating.PayableLfi && l.feeClass == "data.retail_page"
    ensures AmountFor(card, step, snapshot, l).Ok? <==>
      || l.units == 0
      || (snapshot.Some? && Usable(snapshot.value) && l.counterpartyLfiId.Some? && !Blank(l.counterpartyLfiId.value))
    ensures AmountFor(card, step, snapshot, l).Ok? && l.units == 0 ==> AmountFor(card, step, snapshot, l).value == 0
    ensures AmountFor(card, step, snapshot, l).Ok? && l.units > 0 ==>
      var s, amount := snapshot.value, AmountFor(card, step, snapshot, l).value;
      && (forall i: nat :: PublishedFor(s.rates, l.counterpartyLfiId.value, l.day, i) ==>
            amount == s.rates[i].rate * if s.unit == PerCall then 1 else l.units)
      && ((forall r :: r in s.rates ==> !Applies(r, l.counterpartyLfiId.value, l.day)) ==> amount == 0)
  {
    assert Blank("");
    if snapshot.Some? {
      UsableExactly(snapshot.value);
    }
    if AmountFor(card, step, snapshot, l).Ok? && l.units > 0 {
      var s, lfiId := snapshot.value, l.counterpartyLfiId.value;
      LatestIsPublished(s.rates, lfiId, l.day);
      forall i: nat | PublishedFor(s.rates, lfiId, l.day, i)
        ensures Latest(s.rates, lfiId, l.day) == Some(s.rates[i])
      {
        assert s.rates[i] in s.rates;
        var k: nat :| PublishedFor(s.rates, lfiId, l.day, k) && s.rates[k] == Latest(s.rates, lfiId, l.day).value;
        OnePublished(s.rates, lfiId, l.day, i, k);
      }
    }
  }

  // ---------------------------------------------------------------- what the card charges

  /** The entry of a schedule for a step, the last one for every step beyond. */
  ghost predicate OfStep(schedule: seq<nat>, step: int, entry: nat) {
    && schedule != [] && (step <= |schedule| ==> step >= 1 && entry == schedule[step - 1])
    && (step > |schedule| ==> entry == schedule[|schedule| - 1])
  }

  /** The first tier that covers so many providers. */
  ghost predicate FirstTier(tiers: seq<Tier>, providers: nat, i: nat) {
    && i < |tiers| && Covers(tiers[i], providers) && forall j :: 0 <= j < i ==> !Covers(tiers[j], providers)
  }

  predicate Covers(t: Tier, providers: nat) {
    t.maxProviders.Some? ==> providers <= t.maxProviders.value
  }

  lemma {:induction false} TierIsFirst(tiers: seq<Tier>, providers: nat)
    ensures TierFor(tiers, providers).None? <==> forall t :: t in tiers ==> !Covers(t, providers)
    ensures forall i: nat :: FirstTier(tiers, providers, i) ==> TierFor(tiers, providers) == Some(tiers[i])
  {
    if tiers != [] {
      TierIsFirst(tiers[1..], providers);
      assert tiers == [tiers[0]] + tiers[1..] && tiers[0] in tiers;
      assert Covers(tiers[0], providers) <==> tiers[0].maxProviders.None? || providers <= tiers[0].maxProviders.value;
      forall i: nat | FirstTier(tiers, providers, i) ensures TierFor(tiers, providers) == Some(tiers[i]) {
        if i > 0 {
          assert !Covers(tiers[0], providers);
          assert FirstTier(tiers[1..], providers, i - 1);
        }
      }
    }
  }

  /** A price of so many basis points of a value in milli-fils, up to a cap: the value is rounded to fils and the price
      to milli-fils. */
  predicate BpsPrice(amount: int, value: nat, basisPoints: nat, cap: nat) {
    && 0 <= amount <= cap
    && 10_000 * amount <= value * basisPoints + 5_000 + 500 * basisPoints
    && (amount < cap ==> 10_000 * amount >= value * basisPoints - 5_000 - 500 * basisPoints)
  }

  lemma BpsRounding(fils: int, amount: int, value: int, basisPoints: nat)
    requires -1000 <= 2 * (fils * 1000 - value) <= 1000
    requires -10 <= 2 * (amount * 10 - fils * basisPoints) <= 10
    ensures Abs(10_000 * amount - value * basisPoints) <= 5_000 + 500 * basisPoints
  {
    assert 1000 * (fils * basisPoints) - value * basisPoints == (1000 * fils - value) * basisPoints;
    ScaledBound(1000 * fils - value, basisPoints);
  }

  lemma ScaledBound(x: int, k: nat)
    requires -500 <= x <= 500
    ensures -(500 * k) <= x * k <= 500 * k
  {
    assert (500 - x) * k >= 0 && (x + 500) * k >= 0;
    assert (500 - x) * k == 500 * k - x * k && (x + 500) * k == x * k + 500 * k;
  }

  lemma BpsIsBounded(value: nat, basisPoints: nat, cap: nat)
    ensures BpsPrice(Min(BpsOfFils(ToFils(value), basisPoints), cap), value, basisPoints, cap)
  {
    var fils := ToFils(value);
    RoundingError(value, MF_PER_FIL);
    assert fils >= 0;
    assert fils * basisPoints >= 0;
    RoundingError(fils * basisPoints, 10);
    BpsRounding(fils, BpsOfFils(fils, basisPoints), value, basisPoints);
  }

  /** The value a line is charged on: what is left of it beyond an allowance, if it has one. */
  ghost predicate IsCharged(l: MeteredLine, value: nat) {
    l.chargeableValue == Some(value) || (l.chargeableValue == None && l.value == Some(value))
  }

  /** What a rate charges a line, in terms of its own entries. */
  ghost predicate ChargedBy(rate: Rate, step: int, l: MeteredLine, amount: int) {
    match rate
    case BpsOfValue(schedule, cap) =>
      forall value, basisPoints: nat ::
        IsCharged(l, value) && OfStep(schedule, step, basisPoints) ==> BpsPrice(amount, value, basisPoints, cap)
    case Flat(price, _) => amount == price * l.units
    case FlatStepped(schedule) =>
      forall price: nat :: OfStep(schedule, step, price) ==> amount == price * l.units
    case PerPage(price) => amount == price * l.units
    case PerPageOverFreeTier(overage) => amount == overage * l.units
    case TieredByProviders(tiers) =>
      forall i: nat :: FirstTier(tiers, if l.providers.Some? then l.providers.value else 1, i) ==>
        amount == tiers[i].price
  }

  lemma ChargeIsOfTheRate(rate: Rate, step: int, l: MeteredLine)
    requires step >= 1 && Charge(rate, step, l).Ok?
    ensures ChargedBy(rate, step, l, Charge(rate, step, l).value)
  {
    match rate
    case BpsOfValue(schedule, cap) => BpsIsBounded(ChargeableValue(l).value, Stepped(schedule, step), cap);
    case TieredByProviders(tiers) => TierIsFirst(tiers, l.providers.GetOr(1));
    case _ =>
  }

  /** The entry of the card for a line: of the receivable rates for what is receivable and what another LFI is owed
      alike, and of the Hub's for what the Hub is owed. */
  ghost predicate OnCard(card: Card, l: MeteredLine, rate: Rate) {
    || ((l.side == Rating.Receivable || l.side == Rating.PayableLfi)
        && l.feeClass in card.receivable && card.receivable[l.feeClass] == rate)
    || (l.side == Rating.PayableHub && l.feeClass in card.hub && card.hub[l.feeClass] == rate)
  }

  /** A line that is not free and not overage owed to another LFI is charged by its entry on the card. */
  lemma EveryLineIsChargedByItsRate(card: Card, step: int, snapshot: Option<Snapshot>, l: MeteredLine, rate: Rate)
    requires step >= 1 && OnCard(card, l, rate) && !IsServingLfiOverage(l)
    requires AmountFor(card, step, snapshot, l).Ok?
    ensures ChargedBy(rate, step, l, AmountFor(card, step, snapshot, l).value)
  {
    ChargeIsOfTheRate(rate, step, l);
  }

  /** The rate has a step to charge, a value to charge it on, a tier that covers the providers. */
  ghost predicate CanCharge(rate: Rate, l: MeteredLine) {
    match rate
    case BpsOfValue(schedule, _) => schedule != [] && (l.chargeableValue.Some? || l.value.Some?)
    case FlatStepped(schedule) => schedule != []
    case TieredByProviders(tiers) =>
      exists t :: t in tiers && Covers(t, if l.providers.Some? then l.providers.value else 1)
    case _ => true
  }

  /** A line is priced exactly when it is free, or is overage whose rate can be looked up, or is on the card with an
      entry that can charge it. */
  lemma {:induction false} PricedExactly(card: Card, step: int, snapshot: Option<Snapshot>, l: MeteredLine)
    requires step >= 1 && !IsServingLfiOverage(l)
    ensures AmountFor(card, step, snapshot, l).Ok? <==>
      l.side == Rating.FreeToLfi || exists rate :: OnCard(card, l, rate) && CanCharge(rate, l)
  {
    if RateFor(card, l).Some? {
      var rate := RateFor(card, l).value;
      assert OnCard(card, l, rate);
      if rate.TieredByProviders? {
        TierIsFirst(rate.tiers, l.providers.GetOr(1));
      }
    }
  }

  /** What such a line is refused for: no entry, an entry without a step, no value to charge or no tier that covers
      it. */
  lemma RefusedFor(card: Card, step: int, snapshot: Option<Snapshot>, l: MeteredLine)
    requires step >= 1 && !IsServingLfiOverage(l) && AmountFor(card, step, snapshot, l).Err?
    ensures var error := AmountFor(card, step, snapshot, l).error;
      && ((forall rate :: !OnCard(card, l, rate)) ==> error == NoRate(l.side, l.feeClass))
      && forall rate :: OnCard(card, l, rate) ==>
        error == if rate.TieredByProviders? then NoTier(if l.providers.Some? then l.providers.value else 1)
          else if (rate.BpsOfValue? || rate.FlatStepped?) && rate.schedule == [] then EmptySchedule
          else NoValue(l.feeClass)
  {
    if RateFor(card, l).Some? {
      assert OnCard(card, l, RateFor(card, l).value);
    }
  }

  /** Overage is refused for lack of a snapshot, then of the LFI, then for an unusable snapshot. */
  lemma OverageRefusedFor(card: Card, step: int, snapshot: Option<Snapshot>, l: MeteredLine)
    requires step >= 1 && l.side == Rating.PayableLfi && l.feeClass == "data.retail_page"
    requires AmountFor(card, step, snapshot, l).Err?
    ensures AmountFor(card, step, snapshot, l).error ==
      if snapshot.None? then NoSnapshot(l.eventId)
      else if l.counterpartyLfiId.None? || l.counterpartyLfiId.value == "" then NoServingLfi(l.eventId)
      else if !Usable(snapshot.value) then UnusableSnapshot
      else BlankLfi
  {
    if snapshot.Some? {
      UsableExactly(snapshot.value);
    }
  }

  // ---------------------------------------------------------------- what every price keeps

  lemma Scaled(price: int, units: nat, more: nat)
    requires price >= 0 && units <= more
    ensures 0 <= price * units <= price * more
  {
    assert price * more - price * units == price * (more - units);
  }

  lemma {:induction false} BpsRises(value: nat, more: nat, basisPoints: nat, cap: nat)
    requires value <= more
    ensures Min(BpsOfFils(ToFils(value), basisPoints), cap) <= Min(BpsOfFils(ToFils(more), basisPoints), cap)
  {
    HalfUpMonotone(value, more, MF_PER_FIL);
    Scaled(basisPoints, ToFils(value), ToFils(more));
    assert basisPoints * ToFils(value) == ToFils(value) * basisPoints
      && basisPoints * ToFils(more) == ToFils(more) * basisPoints;
    HalfUpMonotone(ToFils(value) * basisPoints, ToFils(more) * basisPoints, 10);
  }

  /** The same line with at least as many units and at least as much value. */
  predicate AtLeast(more: MeteredLine, l: MeteredLine) {
    && more == l.(units := more.units, value := more.value, chargeableValue := more.chargeableValue)
    && l.units <= more.units
    && (l.value.Some? <==> more.value.Some?) && (l.value.Some? ==> l.value.value <= more.value.value)
    && (l.chargeableValue.Some? <==> more.chargeableValue.Some?)
    && (l.chargeableValue.Some? ==> l.chargeableValue.value <= more.chargeableValue.value)
  }

  lemma {:induction false} ChargeRises(rate: Rate, step: int, l: MeteredLine, more: MeteredLine)
    requires step >= 1 && AtLeast(more, l) && Charge(rate, step, l).Ok?
    ensures Charge(rate, step, more).Ok? && 0 <= Charge(rate, step, l).value <= Charge(rate, step, more).value
  {
    match rate
    case BpsOfValue(schedule, cap) =>
      BpsRises(ChargeableValue(l).value, ChargeableValue(more).value, Stepped(schedule, step), cap);
      BpsIsBounded(ChargeableValue(l).value, Stepped(schedule, step), cap);
    case Flat(price, _) => Scaled(price, l.units, more.units);
    case FlatStepped(schedule) => Scaled(Stepped(schedule, step), l.units, more.units);
    case PerPage(price) => Scaled(price, l.units, more.units);
    case PerPageOverFreeTier(overage) => Scaled(overage, l.units, more.units);
    case TieredByProviders(tiers) =>
  }

  lemma {:induction false} ResolvedIsNotNegative(s: Snapshot, lfiId: string, day: Date)
    requires SoundSnapshot(s)
    ensures ResolvedRate(s, lfiId, day) >= 0
  {
    LatestIsPublished(s.rates, lfiId, day);
    if Latest(s.rates, lfiId, day).Some? {
      var i: nat :| PublishedFor(s.rates, lfiId, day, i) && s.rates[i] == Latest(s.rates, lfiId, day).value;
      assert s.rates[i] in s.rates;
    }
  }

  /** No price is negative, and more units or more value never cost less. */
  lemma {:induction false} MoreNeverCostsLess(card: Card, step: int, snapshot: Option<Snapshot>, l: MeteredLine,
      more: MeteredLine)
    requires step >= 1 && AtLeast(more, l)
    requires AmountFor(card, step, snapshot, l).Ok? && AmountFor(card, step, snapshot, more).Ok?
    ensures 0 <= AmountFor(card, step, snapshot, l).value <= AmountFor(card, step, snapshot, more).value
  {
    if IsServingLfiOverage(l) {
      if more.units > 0 {
        var rate := ResolvedRate(snapshot.value, l.counterpartyLfiId.value, l.day);
        ResolvedIsNotNegative(snapshot.value, l.counterpartyLfiId.value, l.day);
        Scaled(rate, l.units, more.units);
      }
    } else if !l.side.FreeToLfi? {
      ChargeRises(RateFor(card, l).value, step, l, more);
    }
  }

  /** Everything else about a line is kept when it is priced. */
  lemma PricingKeepsTheLine(card: Card, step: int, snapshot: Option<Snapshot>, l: MeteredLine)
    requires step >= 1 && PriceLine(card, step, snapshot)(l).Ok?
    ensures var p := PriceLine(card, step, snapshot)(l).value;
      && p.amount >= 0 && p.cappedFrom.None? && (l.side == Rating.FreeToLfi ==> p.amount == 0)
      && p.eventId == l.eventId && p.traceId == l.traceId && p.side == l.side && p.tppId == l.tppId
      && p.feeClass == l.feeClass && p.units == l.units && p.value == l.value && p.clientId == l.clientId
      && p.counterpartyLfiId == l.counterpartyLfiId && p.endpoint == l.endpoint && p.batchId == l.batchId
  {
    MoreNeverCostsLess(card, step, snapshot, l, l);
  }

  // ---------------------------------------------------------------- what a rating run keeps

  /** What is owed to the institution is priced without the directory: leaving out every other line, with or without a
      snapshot, prices the same receivable lines. */
  lemma {:induction false} ReceivablesNeedNoDirectory(card: Card, step: int, snapshot: Option<Snapshot>,
      lines: seq<MeteredLine>)
    requires step >= 1 && PriceLines(card, step, snapshot, lines).Ok?
    ensures var receivable := Keep(lines, (l: MeteredLine) => l.side == Rating.Receivable);
      PriceLines(card, step, None, receivable)
        == Ok(Keep(PriceLines(card, step, snapshot, lines).value, Rating.IsReceivable))
  {
    var p := (l: MeteredLine) => l.side == Rating.Receivable;
    KeepCongruence(lines, p, (l: MeteredLine) => l.side == Rating.Receivable);
    ReceivablesAlone(card, step, snapshot, lines, p);
  }

  lemma {:induction false} ReceivablesAlone(card: Card, step: int, snapshot: Option<Snapshot>, lines: seq<MeteredLine>,
      p: MeteredLine -> bool)
    requires step >= 1 && PriceLines(card, step, snapshot, lines).Ok?
    requires forall l :: l in lines ==> p(l) == (l.side == Rating.Receivable)
    ensures PriceLines(card, step, None, Keep(lines, p))
        == Ok(Keep(PriceLines(card, step, snapshot, lines).value, Rating.IsReceivable))
  {
    if lines != [] {
      var init, last := lines[..|lines| - 1], lines[|lines| - 1];
      assert lines == init + [last];
      ReceivablesAlone(card, step, snapshot, init, p);
      var before := PriceLines(card, step, snapshot, init).value;
      KeepSnoc(before, PriceLine(card, step, snapshot)(last).value, Rating.IsReceivable);
      if last.side == Rating.Receivable {
        assert (Keep(init, p) + [last])[..|Keep(init, p)|] == Keep(init, p);
        assert AmountFor(card, step, None, last) == AmountFor(card, step, snapshot, last);
      }
    }
  }

  lemma FreeLinesAreFree(card: Card, step: int, snapshot: Option<Snapshot>, lines: seq<MeteredLine>)
    requires step >= 1 && PriceLines(card, step, snapshot, lines).Ok?
    requires forall l :: l in lines && l.side == Rating.FreeToLfi ==> l.batchId.GetOr("") == ""
    ensures RatingRun.AllFree(PriceLines(card, step, snapshot, lines).value)
  {
    var priced := PriceLines(card, step, snapshot, lines).value;
    CollectExactly(lines, PriceLine(card, step, snapshot));
    forall q | q in priced ensures RatingRun.FreeIsFree(q) {
      var i :| 0 <= i < |priced| && priced[i] == q;
      assert lines[i] in lines && PriceLine(card, step, snapshot)(lines[i]) == Ok(priced[i]);
      PricingKeepsTheLine(card, step, snapshot, lines[i]);
    }
  }

  /** From metered lines to statements, when no free line is filed in a batch: what the three totals and the reported
      savings come to is what the lines were priced at. */
  lemma {:induction false} RatedRunConserves(card: Card, year: int, month: int, snapshot: Option<Snapshot>,
      lines: seq<MeteredLine>, clients: seq<Rating.Client>)
    requires PriceLines(card, StepFor(card, year, month), snapshot, lines).Ok?
    requires forall l :: l in lines && l.side == Rating.FreeToLfi ==> l.batchId.GetOr("") == ""
    ensures var priced := PriceLines(card, StepFor(card, year, month), snapshot, lines).value;
      var run := RatingRun.RunOf(priced, CapsOf(card), clients);
      run.rated.totals.receivable + run.rated.totals.payableHub + run.rated.totals.payableLfi
        + SumBy(run.adjustments, BatchCaps.SavedOf) == SumBy(priced, Rating.AmountOf)
  {
    var step := StepFor(card, year, month);
    FreeLinesAreFree(card, step, snapshot, lines);
    RatingRun.RunConserves(PriceLines(card, step, snapshot, lines).value, CapsOf(card), clients);
  }

  /** A fee class is capped exactly when its receivable rate is flat and carries a cap, and then at that cap. */
  lemma CapsAreTheCards(card: Card, feeClass: string, cap: nat)
    ensures feeClass in CapsOf(card) && CapsOf(card)[feeClass] == cap
      <==> exists price :: feeClass in card.receivable && card.receivable[feeClass] == Flat(price, Some(cap))
  {
    if feeClass in CapsOf(card) && CapsOf(card)[feeClass] == cap {
      assert card.receivable[feeClass] == Flat(card.receivable[feeClass].price, Some(cap));
    }
  }
}
