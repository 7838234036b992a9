/** What each metered line says of its event, what the meter counts and what it refuses, read off the events' fields. */
module MeteredLines {
  import opened Collections
  import opened Metering
  import opened MeteringTheorems

  // ---------------------------------------------------------------- one line

  /** No payment details. */
  predicate NoPayment(l: Line) {
    && l.value.None? && l.chargeableValue.None? && l.freeValue.None? && l.batchId.None? && l.merchantId.None?
    && !l.reclassified && !l.flagged
  }

  /** A payment for which the institution is owed, or owes another LFI. */
  predicate SaysPayment(card: Card, l: Line) {
    var e := l.event;
    && e.payment.Some? && l.units == 1 && l.freeUnits.None?
    && var p := e.payment.value;
    && l.value == Some(p.amount) && l.batchId == p.batchId
    && (l.reclassified <==> e.direction == Inbound && p.kind == LargeValue && p.amount < card.largeValueThreshold)
    && l.feeClass == PaymentFee(if l.reclassified then MerchantCollection else p.kind)
    && (l.flagged <==> e.direction == Inbound && p.kind == MerchantCollection && p.merchantId.None?)
    && (l.merchantId.Some? ==> l.merchantId == p.merchantId)
    && (l.merchantId.Some? <==> e.direction == Inbound && p.kind == MerchantCollection && p.merchantId.Some?)
    && (l.freeValue.Some? <==> l.chargeableValue.Some?)
    && (l.freeValue.Some? <==> e.direction == Outbound || p.kind == MerchantCollection || l.reclassified)
    && (l.freeValue.Some? ==> l.freeValue.value + l.chargeableValue.value == p.amount)
    && (l.freeValue.Some? && l.freeValue.value > 0 ==> l.merchantId.Some?)
  }

  /** The pages of a data line, free or billed. */
  function PageCount(l: Line): int { l.units + l.freeUnits.GetOr(0) }

  predicate OnPages(l: Line) { l.feeClass == CorporatePage || l.feeClass == RetailPage }

  /** A data call: a page for every hundred lines begun, and no allowance for corporate customers. */
  predicate SaysData(l: Line) {
    var e := l.event;
    && e.data.Some? && OnPages(l) && NoPayment(l)
    && var d := e.data.value;
    && 100 * (PageCount(l) - 1) < d.lines <= 100 * PageCount(l)
    && (l.feeClass == CorporatePage <==> d.corporate)
    && (l.freeUnits.None? <==> d.corporate)
  }

  /** The line is one that its event calls for. */
  predicate SaysItsEvent(card: Card, paired: set<string>, l: Line) {
    var e := l.event;
    && e.endpoint in card.chargeable && 200 <= e.outcome < 300
    && var kind := card.chargeable[e.endpoint];
    match l.side
    case PayableHub =>
      && e.direction == Outbound && l.units == 1 && NoPayment(l)
      && l.paired == Some(e.id in paired) && l.providers == e.providers
      && (l.feeClass == HubQuote <==> kind.QuoteCall?)
      && (l.feeClass == HubPaired <==> !kind.QuoteCall? && e.id in paired)
      && (l.feeClass == HubStandard <==> !kind.QuoteCall? && e.id !in paired)
    case FreeToLfi =>
      && e.direction == Inbound && !kind.PaymentCall? && !kind.DataCall?
      && l.units == 1 && NoPayment(l) && l.feeClass == NoLfiCharge && l.paired == Some(e.id in paired)
    case _ =>
      && (l.side == PayableLfi <==> e.direction == Outbound)
      && ((kind.PaymentCall? && SaysPayment(card, l)) || (kind.DataCall? && SaysData(l)))
  }

  lemma PagesAreBegun(d: DataUse)
    ensures 100 * (PagesOf(d) - 1) < d.lines <= 100 * PagesOf(d)
  {
  }

  lemma LinesSayTheirEvent(card: Card, paired: set<string>, e: Event, pages: int, value: int)
    requires Defect(card, e).None?
    ensures forall l :: l in LinesFor(card, e, e.id in paired, pages, value) ==>
      l.event == e && SaysItsEvent(card, paired, l)
  {
    if e.data.Some? {
      PagesAreBegun(e.data.value);
    }
  }

  /** Every metered line is one that its event calls for. */
  lemma {:induction false} EveryLineSaysItsEvent(card: Card, paired: set<string>, events: seq<Event>)
    requires Sound(card, events)
    ensures forall l :: l in Lines(card, paired, events) ==> l.event in events && SaysItsEvent(card, paired, l)
  {
    if events != [] {
      var init, e := events[..|events| - 1], events[|events| - 1];
      assert events == init + [e];
      EveryLineSaysItsEvent(card, paired, init);
      LinesSayTheirEvent(card, paired, e, PagesUsed(card, init, e), ValueUsed(card, init, e));
    }
  }

  // ---------------------------------------------------------------- how many lines an event has

  /** What a line is for. */
  datatype Purpose = ForHub | ForPayment | ForData | ForFree

  function PurposeOf(l: Line): Purpose {
    match l.side
    case PayableHub => ForHub
    case FreeToLfi => ForFree
    case _ => if OnPages(l) then ForData else ForPayment
  }

  function LineOf(e: Event, purpose: Purpose): Line -> int {
    (l: Line) => if l.event == e && PurposeOf(l) == purpose then 1 else 0
  }

  /** A successful chargeable event owes the Hub for a call made, is owed or owes for a payment or data, and is free
      otherwise. */
  predicate CallsFor(card: Card, e: Event, purpose: Purpose) {
    && e.endpoint in card.chargeable && 200 <= e.outcome < 300
    && var kind := card.chargeable[e.endpoint];
    match purpose
    case ForHub => e.direction == Outbound
    case ForPayment => kind.PaymentCall?
    case ForData => kind.DataCall?
    case ForFree => e.direction == Inbound && !kind.PaymentCall? && !kind.DataCall?
  }

  lemma LinesOfOneEvent(card: Card, e: Event, isPaired: bool, pages: int, value: int, x: Event, purpose: Purpose)
    requires Defect(card, e).None?
    ensures SumBy(LinesFor(card, e, isPaired, pages, value), LineOf(x, purpose))
      == if x == e && CallsFor(card, e, purpose) then 1 else 0
  {
    SumShort(LinesFor(card, e, isPaired, pages, value), LineOf(x, purpose));
  }

  /** Each occurrence of an event has one line for each purpose it calls for, and no other. */
  lemma {:induction false} EveryEventHasItsLines(card: Card, paired: set<string>, events: seq<Event>, e: Event,
      purpose: Purpose)
    requires Sound(card, events)
    ensures SumBy(Lines(card, paired, events), LineOf(e, purpose))
      == if CallsFor(card, e, purpose) then multiset(events)[e] else 0
  {
    if events != [] {
      var init, last := events[..|events| - 1], events[|events| - 1];
      assert events == init + [last] && last in events;
      EveryEventHasItsLines(card, paired, init, e, purpose);
      var pages, value := PagesUsed(card, init, last), ValueUsed(card, init, last);
      LinesOfOneEvent(card, last, last.id in paired, pages, value, e, purpose);
      SumConcat(Lines(card, paired, init), LinesFor(card, last, last.id in paired, pages, value), LineOf(e, purpose));
    }
  }

  // ---------------------------------------------------------------- the allowances, by what events share

  /** Two retail data calls draw on one free tier: same direction, customer, UTC day and mode, and for calls made, where
      the card says so, the same serving LFI. */
  predicate SameTier(card: Card, x: Event, y: Event) {
    && x.data.Some? && y.data.Some?
    && x.direction == y.direction && x.psuId.GetOr("") == y.psuId.GetOr("")
    && x.time / 86_400_000 == y.time / 86_400_000
    && x.data.value.attended == y.data.value.attended
    && (x.direction == Outbound && card.freeTierPerServingLfi ==>
          x.counterpartyLfiId.GetOr("") == y.counterpartyLfiId.GetOr(""))
  }

  function FreeWith(card: Card, x: Event): Line -> int {
    (l: Line) => if l.feeClass == RetailPage && SameTier(card, x, l.event) then l.freeUnits.GetOr(0) else 0
  }

  function PagesWith(card: Card, x: Event): Line -> int {
    (l: Line) => if l.feeClass == RetailPage && SameTier(card, x, l.event) then PageCount(l) else 0
  }

  predicate RetailCall(card: Card, x: Event) {
    && x.endpoint in card.chargeable && 200 <= x.outcome < 300 && card.chargeable[x.endpoint].DataCall?
    && x.data.Some? && !x.data.value.corporate
  }

  lemma TierIsShared(card: Card, x: Event, y: Event)
    requires RetailCall(card, x) && RetailCall(card, y)
    ensures TierOf(card, x).Some? && (TierOf(card, x) == TierOf(card, y) <==> SameTier(card, x, y))
    ensures TierAllowance(card, TierOf(card, x).value)
      == if x.data.value.attended then card.attendedPages else card.unattendedPages
  {
  }

  lemma FreeTierLines(card: Card, paired: set<string>, events: seq<Event>, x: Event, k: TierKey)
    requires Sound(card, events) && RetailCall(card, x) && TierOf(card, x) == Some(k)
    ensures SumBy(Lines(card, paired, events), FreeWith(card, x)) == SumBy(Lines(card, paired, events), FreeOn(card, k))
    ensures SumBy(Lines(card, paired, events), PagesWith(card, x))
      == SumBy(Lines(card, paired, events), FreeOn(card, k)) + SumBy(Lines(card, paired, events), BilledOn(card, k))
  {
    var lines := Lines(card, paired, events);
    EveryLineSaysItsEvent(card, paired, events);
    forall l | l in lines
      ensures FreeWith(card, x)(l) == FreeOn(card, k)(l)
      ensures PagesWith(card, x)(l) == FreeOn(card, k)(l) + BilledOn(card, k)(l)
    {
      if l.feeClass == RetailPage {
        TierIsShared(card, x, l.event);
      }
    }
    SumCongruence(lines, FreeWith(card, x), FreeOn(card, k));
    SumLinear(lines, FreeOn(card, k), BilledOn(card, k), PagesWith(card, x));
  }

  /** For every retail call: of the pages of all calls that share its free tier, as the lines carry them, the allowance
      of its mode is free, or all of them if they are fewer. */
  lemma FreeTierIsSharedExactly(card: Card, paired: set<string>, events: seq<Event>, x: Event)
    requires Sound(card, events) && RetailCall(card, x)
    ensures var lines := Lines(card, paired, events);
      SumBy(lines, FreeWith(card, x))
        == Min(if x.data.value.attended then card.attendedPages else card.unattendedPages,
            SumBy(lines, PagesWith(card, x)))
  {
    TierIsShared(card, x, x);
    var k := TierOf(card, x).value;
    FreeTierLines(card, paired, events, x, k);
    FreeTierIsExhaustedExactly(card, paired, events, k);
  }

  /** Two collections draw on one daily allowance: same merchant, same UTC day. */
  predicate SameMerchant(x: Event, y: Event) {
    && x.payment.Some? && y.payment.Some?
    && x.payment.value.merchantId == y.payment.value.merchantId && x.time / 86_400_000 == y.time / 86_400_000
  }

  function FreeValueWith(x: Event): Line -> int {
    (l: Line) => if l.merchantId.Some? && SameMerchant(x, l.event) then l.freeValue.GetOr(0) else 0
  }

  function ValueWith(x: Event): Line -> int {
    (l: Line) => if l.merchantId.Some? && SameMerchant(x, l.event) then l.value.GetOr(0) else 0
  }

  predicate MerchantCall(card: Card, x: Event) {
    && x.endpoint in card.chargeable && 200 <= x.outcome < 300 && card.chargeable[x.endpoint].PaymentCall?
    && x.direction == Inbound && x.payment.Some? && x.payment.value.kind == MerchantCollection
    && x.payment.value.merchantId.Some?
  }

  lemma MerchantIsShared(card: Card, x: Event, y: Event)
    requires MerchantCall(card, x) && MerchantCall(card, y)
    ensures MerchantOf(card, x).Some? && (MerchantOf(card, x) == MerchantOf(card, y) <==> SameMerchant(x, y))
  {
  }

  lemma MerchantLines(card: Card, paired: set<string>, events: seq<Event>, x: Event, k: MerchantKey)
    requires Sound(card, events) && MerchantCall(card, x) && MerchantOf(card, x) == Some(k)
    ensures SumBy(Lines(card, paired, events), FreeValueWith(x))
      == SumBy(Lines(card, paired, events), FreeValueOn(card, k))
    ensures SumBy(Lines(card, paired, events), ValueWith(x))
      == SumBy(Lines(card, paired, events), FreeValueOn(card, k))
          + SumBy(Lines(card, paired, events), BilledValueOn(card, k))
  {
    var lines := Lines(card, paired, events);
    EveryLineSaysItsEvent(card, paired, events);
    forall l | l in lines
      ensures FreeValueWith(x)(l) == FreeValueOn(card, k)(l)
      ensures ValueWith(x)(l) == FreeValueOn(card, k)(l) + BilledValueOn(card, k)(l)
    {
      if l.merchantId.Some? {
        MerchantIsShared(card, x, l.event);
      }
    }
    SumCongruence(lines, FreeValueWith(x), FreeValueOn(card, k));
    SumLinear(lines, FreeValueOn(card, k), BilledValueOn(card, k), ValueWith(x));
  }

  /** For every merchant collection: of what the merchant collected on its day, as the lines carry it, the card's daily
      allowance is free, or all of it if it is less. */
  lemma MerchantAllowanceIsSharedExactly(card: Card, paired: set<string>, events: seq<Event>, x: Event)
    requires Sound(card, events) && MerchantCall(card, x)
    ensures var lines := Lines(card, paired, events);
      SumBy(lines, FreeValueWith(x)) == Min(card.merchantAllowance, SumBy(lines, ValueWith(x)))
  {
    MerchantIsShared(card, x, x);
    var k := MerchantOf(card, x).value;
    MerchantLines(card, paired, events, x, k);
    MerchantAllowanceIsExhaustedExactly(card, paired, events, k);
  }

  // ---------------------------------------------------------------- refusals, order, counts

  /** A payment call needs payment details; a data call needs data details over at most thirteen months. */
  predicate Complete(card: Card, e: Event) {
    e.endpoint in card.chargeable && 200 <= e.outcome < 300 ==>
      && (card.chargeable[e.endpoint].PaymentCall? ==> e.payment.Some?)
      && (card.chargeable[e.endpoint].DataCall? ==> e.data.Some? && e.data.value.ageSpanMonths.GetOr(0) <= 13)
  }

  /** Metering is refused exactly when two deliveries of an id differ or a successful chargeable event is incomplete. */
  lemma MeteringRefusedExactly(card: Card, deliveries: seq<Event>)
    ensures Refusal(card, deliveries).None? <==>
      && (forall x, y :: x in deliveries && y in deliveries && x.id == y.id ==> x == y)
      && (forall e :: e in deliveries ==> Complete(card, e))
  {
    SoundExactly(card, Events(deliveries));
    EventsExact(deliveries);
    forall e ensures Defect(card, e).None? <==> Complete(card, e) {
    }
  }

  /** The first string ends before the second does, or is smaller where they first differ. */
  ghost predicate Smaller(a: string, b: string) {
    exists n :: 0 <= n <= |a| && n < |b| && a[..n] == b[..n] && (n == |a| || a[n] < b[n])
  }

  lemma {:induction false} PrecedesIsSmaller(a: string, b: string)
    requires Precedes(a, b)
    ensures Smaller(a, b)
  {
    if a == [] {
      assert a[..0] == b[..0];
    } else if a[0] < b[0] {
      assert a[..0] == b[..0];
    } else {
      PrecedesIsSmaller(a[1..], b[1..]);
      var n :| 0 <= n <= |a[1..]| && n < |b[1..]| && a[1..][..n] == b[1..][..n]
          && (n == |a[1..]| || a[1..][n] < b[1..][n]);
      assert a[..n + 1] == [a[0]] + a[1..][..n] && b[..n + 1] == [b[0]] + b[1..][..n];
      assert n + 1 < |b| && (n + 1 == |a| || a[n + 1] < b[n + 1]);
    }
  }

  /** Events are metered by time, and by id where times agree. */
  lemma OrderedByTimeAndId(deliveries: seq<Event>, i: nat, j: nat)
    requires i < j < |Events(deliveries)|
    ensures var x, y := Events(deliveries)[i], Events(deliveries)[j];
      x.time < y.time || (x.time == y.time && Smaller(x.id, y.id))
  {
    EventsExact(deliveries);
    var x, y := Events(deliveries)[i], Events(deliveries)[j];
    assert Before(x, y);
    if x.time == y.time {
      PrecedesIsSmaller(x.id, y.id);
    }
  }

  /** Of the calls that may discount a payment, the pairing takes one that is closest in time among those not taken
      before. */
  lemma CloserCallsAreTaken(card: Card, deliveries: seq<Event>, i: nat, call: Event)
    requires var ps := Paired(card, Events(deliveries));
      i < |ps| && MayPair(card, Events(deliveries), ps[i].payment, ps[i].endpoint, call)
    ensures var ps := Paired(card, Events(deliveries));
      Abs(call.time - ps[i].payment.time) < Abs(ps[i].call.time - ps[i].payment.time) ==>
        exists j :: 0 <= j < i && ps[j].call.id == call.id
  {
    var events := Events(deliveries);
    var ps := Paired(card, events);
    PairsTakeTheClosestCall(events, card.pairingWindow, Requests(events), i, call);
    if Abs(call.time - ps[i].payment.time) < Abs(ps[i].call.time - ps[i].payment.time) {
      assert call.id in Calls(ps[..i]);
      var p :| p in ps[..i] && p.call.id == call.id;
      var j :| 0 <= j < i && ps[..i][j] == p;
    }
  }

  /** The fields that put an event in a class. */
  function OfClass(card: Card, c: Class): Event -> bool {
    (e: Event) =>
      var chargeable, succeeded := e.endpoint in card.chargeable, 200 <= e.outcome < 300;
      match c
      case Unknown => !chargeable && e.endpoint !in card.free
      case FreeEndpoint => !chargeable && e.endpoint in card.free
      case Unsuccessful => chargeable && !succeeded
      case Chargeable => chargeable && succeeded && (e.direction == Outbound || IsPriced(card.chargeable[e.endpoint]))
      case FreeOfCharge => chargeable && succeeded && e.direction == Inbound && !IsPriced(card.chargeable[e.endpoint])
  }

  predicate IsPriced(kind: Kind) { kind.PaymentCall? || kind.DataCall? }

  function InDirection(d: Direction): Event -> bool {
    (e: Event) => e.direction == d
  }

  lemma ClassByFields(card: Card, events: seq<Event>, c: Class)
    ensures Keep(events, InClass(card, c)) == Keep(events, OfClass(card, c))
  {
    KeepCongruence(events, InClass(card, c), OfClass(card, c));
  }

  lemma {:induction false} ClassifiedByFields(card: Card, events: seq<Event>)
    ensures |events| - |Keep(events, OfClass(card, Unknown))| ==
      |Keep(events, OfClass(card, FreeEndpoint))| + |Keep(events, OfClass(card, Unsuccessful))|
      + |Keep(events, OfClass(card, Chargeable))| + |Keep(events, OfClass(card, FreeOfCharge))|
  {
    if events != [] {
      ClassifiedByFields(card, events[..|events| - 1]);
    }
  }

  /** How many events there are of each class, and which endpoints the card does not know. */
  lemma CountsByFields(card: Card, deliveries: seq<Event>)
    requires Sound(card, Events(deliveries))
    ensures var events, m := Events(deliveries), Meter(card, deliveries);
      && m.stats.freeEvents == |Keep(events, OfClass(card, FreeEndpoint))|
      && m.stats.excludedUnsuccessful == |Keep(events, OfClass(card, Unsuccessful))|
      && m.stats.chargeableEvents == |Keep(events, OfClass(card, Chargeable))|
      && m.stats.freeToLfiEvents == |Keep(events, OfClass(card, FreeOfCharge))|
      && m.stats.classified == m.stats.freeEvents + m.stats.excludedUnsuccessful + m.stats.chargeableEvents
           + m.stats.freeToLfiEvents
      && m.stats.unknownEndpoints == |m.blindSpots| && m.blindSpots == Keep(events, OfClass(card, Unknown))
      && m.stats.inbound == |Keep(events, InDirection(Inbound))|
      && m.stats.outbound == |Keep(events, InDirection(Outbound))|
  {
    var events := Events(deliveries);
    ClassByFields(card, events, Unknown);
    ClassByFields(card, events, FreeEndpoint);
    ClassByFields(card, events, Unsuccessful);
    ClassByFields(card, events, Chargeable);
    ClassByFields(card, events, FreeOfCharge);
    KeepCongruence(events, Towards(Inbound), InDirection(Inbound));
    KeepCongruence(events, Towards(Outbound), InDirection(Outbound));
    ClassifiedByFields(card, events);
  }

  // ---------------------------------------------------------------- what a refusal names, and what is kept as evidence

  /** The first event that lacks what its line needs, and what it lacks. */
  ghost predicate FirstIncomplete(card: Card, events: seq<Event>, i: nat, error: Error) {
    && i < |events| && !Complete(card, events[i]) && (forall j :: 0 <= j < i ==> Complete(card, events[j]))
    && error == (if events[i].endpoint in card.chargeable && card.chargeable[events[i].endpoint].PaymentCall?
                 then MissingPayment(events[i].id)
                 else if events[i].data.None? then MissingData(events[i].id)
                 else SpanTooLong(events[i].id))
  }

  lemma IncompleteExactly(card: Card, e: Event)
    ensures Defect(card, e).None? <==> Complete(card, e)
  {
  }

  lemma {:induction false} FirstDefectIsIncomplete(card: Card, events: seq<Event>)
    requires FirstDefect(card, events).Some?
    ensures exists i: nat :: FirstIncomplete(card, events, i, FirstDefect(card, events).value)
  {
    var n := |events| - 1;
    var init := events[..n];
    if FirstDefect(card, init).Some? {
      FirstDefectIsIncomplete(card, init);
      var i: nat :| FirstIncomplete(card, init, i, FirstDefect(card, init).value);
      assert FirstIncomplete(card, events, i, FirstDefect(card, events).value);
    } else {
      SoundExactly(card, init);
      forall j | 0 <= j < n ensures Complete(card, events[j]) {
        assert init[j] in init;
        IncompleteExactly(card, init[j]);
      }
      assert FirstIncomplete(card, events, n, FirstDefect(card, events).value);
    }
  }

  /** A refusal is for two different events of one id, or else names the first incomplete event in order of time. */
  lemma {:induction false} MeteringRefusedFor(card: Card, deliveries: seq<Event>)
    requires Refusal(card, deliveries).Some?
    ensures if exists x, y :: x in deliveries && y in deliveries && x.id == y.id && x != y
      then Refusal(card, deliveries) == Some(ConflictingDuplicate)
      else exists i: nat :: FirstIncomplete(card, Events(deliveries), i, Refusal(card, deliveries).value)
  {
    if ConflictFree(deliveries) {
      FirstDefectIsIncomplete(card, Events(deliveries));
    }
  }

  /** Kept as evidence: every retail line that is owed for pages beyond the free ones of a known customer, every line
      that drew on a merchant's allowance, and every event of an endpoint the card does not know, each in order. */
  lemma {:induction false} EvidenceIsKept(card: Card, deliveries: seq<Event>)
    requires Sound(card, Events(deliveries))
    ensures var m := Meter(card, deliveries);
      && m.freeTier == Map(Keep(m.lines, (l: Line) => l.side == Receivable && l.feeClass == RetailPage && l.units > 0
            && l.event.psuId.Some?),
          (l: Line) => Draw(l.event, l.freeUnits.GetOr(0), l.units))
      && m.merchantAllowance == Map(Keep(m.lines, (l: Line) => l.merchantId.Some? && l.freeValue.GetOr(0) > 0),
          (l: Line) => Draw(l.event, l.freeValue.GetOr(0), l.chargeableValue.GetOr(0)))
      && m.blindSpots == Keep(Events(deliveries),
          (e: Event) => e.endpoint !in card.chargeable && e.endpoint !in card.free)
  {
    var m := Meter(card, deliveries);
    KeepCongruence(m.lines, TierDraw, (l: Line) => l.side == Receivable && l.feeClass == RetailPage && l.units > 0
      && l.event.psuId.Some?);
    KeepCongruence(m.lines, MerchantDraw, (l: Line) => l.merchantId.Some? && l.freeValue.GetOr(0) > 0);
    KeepCongruence(Events(deliveries), InClass(card, Unknown),
      (e: Event) => e.endpoint !in card.chargeable && e.endpoint !in card.free);
  }
}
