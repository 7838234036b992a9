/** What metering promises: the result does not depend on how events were delivered, calls are matched to payments
    maximally and one to one, allowances are consumed exactly, and every event is counted once. */
module MeteringTheorems {
  import opened Collections
  import opened Metering

  // ---------------------------------------------------------------- the order is total and strict

  lemma {:induction false} PrecedesTotal(a: string, b: string)
    requires a != b
    ensures Precedes(a, b) || Precedes(b, a)
  {
    if a != [] && b != [] && a[0] == b[0] {
      assert a == [a[0]] + a[1..] && b == [b[0]] + b[1..];
      PrecedesTotal(a[1..], b[1..]);
    }
  }

  lemma {:induction false} PrecedesTransitive(a: string, b: string, c: string)
    requires Precedes(a, b) && Precedes(b, c)
    ensures Precedes(a, c)
  {
    if a != [] && a[0] == b[0] == c[0] {
      PrecedesTransitive(a[1..], b[1..], c[1..]);
    }
  }

  lemma {:induction false} PrecedesIrreflexive(a: string)
    ensures !Precedes(a, a)
  {
    if a != [] {
      PrecedesIrreflexive(a[1..]);
    }
  }

  lemma BeforeTransitive(x: Event, y: Event, z: Event)
    requires Before(x, y) && Before(y, z)
    ensures Before(x, z)
  {
    if x.time == y.time == z.time {
      PrecedesTransitive(x.id, y.id, z.id);
    }
  }

  lemma BeforeAsymmetric(x: Event, y: Event)
    requires Before(x, y)
    ensures !Before(y, x) && x != y
  {
    PrecedesIrreflexive(x.id);
    if Before(y, x) {
      BeforeTransitive(x, y, x);
    }
  }

  ghost predicate DistinctIds(xs: seq<Event>) {
    NoDuplicates(Map(xs, IdOf))
  }

  ghost predicate SameElements<T(!new)>(xs: seq<T>, ys: seq<T>) {
    forall e :: e in xs <==> e in ys
  }

  lemma {:induction false} InsertKeeps(xs: seq<Event>, e: Event)
    ensures multiset(Insert(xs, e)) == multiset(xs) + multiset{e}
  {
    if !(xs == [] || Before(xs[|xs| - 1], e)) {
      InsertKeeps(xs[..|xs| - 1], e);
      assert xs == xs[..|xs| - 1] + [xs[|xs| - 1]];
    }
  }

  lemma {:induction false} InsertSorted(xs: seq<Event>, e: Event)
    requires Sorted(xs) && forall x :: x in xs ==> x.id != e.id
    ensures Sorted(Insert(xs, e))
  {
    if xs != [] {
      var init, last := xs[..|xs| - 1], xs[|xs| - 1];
      assert xs == init + [last];
      if Before(last, e) {
        forall i | 0 <= i < |xs| ensures Before(xs[i], e) {
          if i < |xs| - 1 { BeforeTransitive(xs[i], last, e); }
        }
      } else {
        PrecedesTotal(last.id, e.id);
        assert Before(e, last);
        InsertSorted(init, e);
        InsertKeeps(init, e);
        forall i | 0 <= i < |Insert(init, e)| ensures Before(Insert(init, e)[i], last) {
          assert Insert(init, e)[i] in multiset(init) + multiset{e};
        }
      }
    }
  }

  lemma {:induction false} SortCorrect(xs: seq<Event>)
    requires DistinctIds(xs)
    ensures Sorted(Sort(xs)) && multiset(Sort(xs)) == multiset(xs)
  {
    if xs != [] {
      var init, last, ids := xs[..|xs| - 1], xs[|xs| - 1], Map(xs, IdOf);
      assert xs == init + [last];
      assert Map(init, IdOf) == ids[..|init|];
      SortCorrect(init);
      forall x | x in Sort(init) ensures x.id != last.id {
        assert x in multiset(init);
        var i :| 0 <= i < |init| && init[i] == x;
        assert ids[i] != ids[|init|];
      }
      InsertSorted(Sort(init), last);
      InsertKeeps(Sort(init), last);
    }
  }

  lemma LastIsGreatest(xs: seq<Event>, ys: seq<Event>)
    requires Sorted(xs) && Sorted(ys) && SameElements(xs, ys) && xs != [] && ys != []
    ensures xs[|xs| - 1] == ys[|ys| - 1]
  {
    var x, y := xs[|xs| - 1], ys[|ys| - 1];
    assert x in ys && y in xs;
    if x != y {
      assert Before(x, y) && Before(y, x);
      BeforeAsymmetric(x, y);
    }
  }

  lemma WithoutLast(xs: seq<Event>, e: Event)
    requires Sorted(xs) && xs != []
    ensures e in xs[..|xs| - 1] <==> e in xs && e != xs[|xs| - 1]
  {
    assert xs == xs[..|xs| - 1] + [xs[|xs| - 1]];
    if i :| 0 <= i < |xs| - 1 && xs[i] == e {
      BeforeAsymmetric(xs[i], xs[|xs| - 1]);
    }
  }

  lemma EmptyAlike(xs: seq<Event>, ys: seq<Event>)
    requires SameElements(xs, ys)
    ensures xs != [] ==> ys != []
  {
    if xs != [] {
      assert xs[0] in ys;
    }
  }

  /** There is only one way to list a set of events in order. */
  lemma {:induction false} SortedIsUnique(xs: seq<Event>, ys: seq<Event>)
    requires Sorted(xs) && Sorted(ys) && SameElements(xs, ys)
    ensures xs == ys
  {
    EmptyAlike(xs, ys);
    EmptyAlike(ys, xs);
    if xs != [] {
      var xi, yi := xs[..|xs| - 1], ys[..|ys| - 1];
      LastIsGreatest(xs, ys);
      forall e ensures e in xi <==> e in yi {
        WithoutLast(xs, e);
        WithoutLast(ys, e);
      }
      SortedIsUnique(xi, yi);
      assert xs == xi + [xs[|xs| - 1]] && ys == yi + [ys[|ys| - 1]];
    }
  }

  // ---------------------------------------------------------------- deliveries

  /** Deduplication keeps one event per id, and without conflicts it keeps exactly the delivered events. */
  lemma DedupExact(deliveries: seq<Event>)
    ensures DistinctIds(Heads(Groups(deliveries, IdOf)))
    ensures ConflictFree(deliveries) ==> SameElements(Heads(Groups(deliveries, IdOf)), deliveries)
  {
    var gs, ks := Groups(deliveries, IdOf), Keys(deliveries, IdOf);
    forall i | 0 <= i < |gs| ensures IdOf(gs[i][0]) == ks[i] && gs[i][0] in deliveries {
      assert gs[i][0] in gs[i];
      MembersExact(deliveries, IdOf, ks[i], gs[i][0]);
    }
    assert Map(Heads(gs), IdOf) == ks;
    if ConflictFree(deliveries) {
      forall e | e in deliveries ensures e in Heads(gs) {
        KeysExact(deliveries, IdOf, e.id);
        var i :| 0 <= i < |ks| && ks[i] == e.id;
        assert Heads(gs)[i] == e;
      }
    }
  }

  /** The accepted events are the delivered events, in their total order. */
  lemma EventsExact(deliveries: seq<Event>)
    ensures Sorted(Events(deliveries)) && DistinctIds(Events(deliveries))
    ensures ConflictFree(deliveries) ==> SameElements(Events(deliveries), deliveries)
  {
    var heads := Heads(Groups(deliveries, IdOf));
    DedupExact(deliveries);
    SortCorrect(heads);
    SortedIds(heads, Sort(heads));
    if ConflictFree(deliveries) {
      forall e ensures e in Sort(heads) <==> e in deliveries {
        assert e in multiset(Sort(heads)) <==> e in multiset(heads);
      }
    }
  }

  lemma SortedIds(xs: seq<Event>, ys: seq<Event>)
    requires DistinctIds(xs) && multiset(xs) == multiset(ys) && Sorted(ys)
    ensures DistinctIds(ys)
  {
    forall i, j | 0 <= i < j < |ys| ensures ys[i].id != ys[j].id {
      BeforeAsymmetric(ys[i], ys[j]);
      assert ys[i] in multiset(xs) && ys[j] in multiset(xs);
      var a :| 0 <= a < |xs| && xs[a] == ys[i];
      var b :| 0 <= b < |xs| && xs[b] == ys[j];
      assert Map(xs, IdOf)[a] == ys[i].id && Map(xs, IdOf)[b] == ys[j].id;
    }
  }

  /** Two delivery lists of the same events, in whatever order and with whatever repetition, are metered alike:
      both conflict or neither does, and lines, counts and evidence are the same. */
  lemma DeliveryDoesNotMatter(card: Card, first: seq<Event>, second: seq<Event>)
    requires SameElements(first, second)
    ensures ConflictFree(first) <==> ConflictFree(second)
    ensures ConflictFree(first) ==> Events(first) == Events(second)
    ensures ConflictFree(first) && Sound(card, Events(first)) ==>
      var a, b := Meter(card, first), Meter(card, second);
      && a.lines == b.lines && a.stats == b.stats && a.accepted == b.accepted && a.pairing == b.pairing
      && a.freeTier == b.freeTier && a.merchantAllowance == b.merchantAllowance && a.blindSpots == b.blindSpots
  {
    if ConflictFree(first) {
      EventsExact(first);
      EventsExact(second);
      SortedIsUnique(Events(first), Events(second));
    }
  }

  // ---------------------------------------------------------------- every event is counted once

  lemma {:induction false} ClassesPartition(card: Card, events: seq<Event>)
    ensures |Keep(events, InClass(card, Unknown))| + |Keep(events, InClass(card, FreeEndpoint))|
          + |Keep(events, InClass(card, Unsuccessful))| + |Keep(events, InClass(card, Chargeable))|
          + |Keep(events, InClass(card, FreeOfCharge))| == |events|
    ensures |Keep(events, Towards(Inbound))| + |Keep(events, Towards(Outbound))| == |events|
  {
    if events != [] {
      ClassesPartition(card, events[..|events| - 1]);
    }
  }

  /** The counts split the events: by direction, and into unknown, free, unsuccessful, chargeable and free to the
      LFI. */
  lemma EveryEventIsCountedOnce(card: Card, deliveries: seq<Event>)
    requires Sound(card, Events(deliveries))
    ensures var m := Meter(card, deliveries);
      && m.stats.eventsTotal == m.accepted
      && m.stats.unknownEndpoints + m.stats.freeEvents + m.stats.excludedUnsuccessful + m.stats.chargeableEvents
         + m.stats.freeToLfiEvents == m.accepted
      && m.stats.inbound + m.stats.outbound == m.accepted
      && m.stats.classified + |m.blindSpots| == m.accepted
      && m.accepted + m.duplicates == m.received
  {
    ClassesPartition(card, Events(deliveries));
    NoMoreThanDelivered(deliveries);
  }

  lemma NoMoreThanDelivered(deliveries: seq<Event>)
    ensures |Events(deliveries)| <= |deliveries|
  {
    var heads := Heads(Groups(deliveries, IdOf));
    KeysAllDistinct(deliveries, IdOf);
    DedupExact(deliveries);
    SortCorrect(heads);
    assert |multiset(Sort(heads))| == |multiset(heads)|;
  }

  // ---------------------------------------------------------------- pairing

  /** A pairing answers a request with an admissible call of the period. */
  ghost predicate Legal(events: seq<Event>, window: nat, rs: seq<Request>, p: Pairing) {
    Request(p.payment, p.endpoint) in rs && p.call in events
        && Admissible(window, Request(p.payment, p.endpoint), p.call)
  }

  function RequestOfPairing(p: Pairing): Request {
    Request(p.payment, p.endpoint)
  }

  lemma {:induction false} ClosestIsBest(payment: Event, cs: seq<Event>)
    requires cs != []
    ensures Closest(payment, cs) in cs
    ensures forall c :: c in cs && c != Closest(payment, cs) ==> !Closer(payment, c, Closest(payment, cs))
  {
    var init, last := cs[..|cs| - 1], cs[|cs| - 1];
    assert cs == init + [last];
    if |cs| > 1 {
      ClosestIsBest(payment, init);
      var best := Closest(payment, init);
      forall c | c in cs && c != Closest(payment, cs) ensures !Closer(payment, c, Closest(payment, cs)) {
        if Closer(payment, last, best) && c in init && Closer(payment, c, last) {
          CloserTransitive(payment, c, last, best);
          BeforeIrreflexive(c);
        }
        if Closer(payment, last, best) && Closer(payment, best, last) {
          CloserAsymmetric(payment, last, best);
        }
      }
    }
  }

  lemma BeforeIrreflexive(x: Event)
    ensures !Before(x, x)
  {
    PrecedesIrreflexive(x.id);
  }

  lemma CloserTransitive(payment: Event, x: Event, y: Event, z: Event)
    requires Closer(payment, x, y) && Closer(payment, y, z)
    ensures Closer(payment, x, z)
  {
    if Gap(x, payment) == Gap(y, payment) == Gap(z, payment) {
      BeforeTransitive(x, y, z);
    }
  }

  lemma CloserAsymmetric(payment: Event, x: Event, y: Event)
    requires Closer(payment, x, y)
    ensures !Closer(payment, y, x)
  {
    if Gap(x, payment) == Gap(y, payment) {
      BeforeAsymmetric(x, y);
    }
  }

  /** What serving one more request adds. */
  lemma {:induction false} ServeOne(events: seq<Event>, window: nat, rs: seq<Request>)
    requires rs != []
    ensures var done, all, r := Pairings(events, window, rs[..|rs| - 1]), Pairings(events, window, rs), rs[|rs| - 1];
      || (all == done && forall c :: c in events && Admissible(window, r, c) ==> c.id in Calls(done))
      || exists p :: all == done + [p] && RequestOfPairing(p) == r && p.call in events && Admissible(window, r, p.call)
           && p.call.id !in Calls(done)
  {
    var done, r := Pairings(events, window, rs[..|rs| - 1]), rs[|rs| - 1];
    var candidates := Keep(events, Available(window, r, Calls(done)));
    KeepExact(events, Available(window, r, Calls(done)));
    if candidates == [] {
      forall c | c in events && Admissible(window, r, c) ensures c.id in Calls(done) {
        assert c !in candidates;
      }
    } else {
      ClosestIsBest(r.payment, candidates);
      var p := Pairing(r.payment, r.endpoint, Closest(r.payment, candidates));
      assert p.call in candidates;
      assert Pairings(events, window, rs) == done + [p];
    }
  }

  /** Every pairing is legal, no call is used twice and no request is answered twice. */
  lemma {:induction false} PairingsAreOneToOne(events: seq<Event>, window: nat, rs: seq<Request>)
    requires NoDuplicates(rs)
    ensures var ps := Pairings(events, window, rs);
      && (forall p :: p in ps ==> Legal(events, window, rs, p))
      && NoDuplicates(Map(ps, CallId)) && NoDuplicates(Map(ps, RequestOfPairing))
  {
    if rs != [] {
      var init, r, all := rs[..|rs| - 1], rs[|rs| - 1], Pairings(events, window, rs);
      var done := Pairings(events, window, init);
      assert rs == init + [r];
      assert NoDuplicates(init) && r !in init;
      PairingsAreOneToOne(events, window, init);
      ServeOne(events, window, rs);
      if all != done {
        var p :| all == done + [p] && RequestOfPairing(p) == r && p.call in events && Admissible(window, r, p.call)
            && p.call.id !in Calls(done);
        OneMoreIsDistinct(done, p);
        OneMoreRequest(events, window, init, done, p);
      }
    }
  }

  lemma OneMoreRequest(events: seq<Event>, window: nat, rs: seq<Request>, done: seq<Pairing>, p: Pairing)
    requires NoDuplicates(Map(done, RequestOfPairing)) && RequestOfPairing(p) !in rs
    requires forall q :: q in done ==> Legal(events, window, rs, q)
    ensures NoDuplicates(Map(done + [p], RequestOfPairing))
  {
    forall i | 0 <= i < |done| ensures RequestOfPairing(done[i]) != RequestOfPairing(p) {
      assert Legal(events, window, rs, done[i]);
    }
    MapSnoc(done, p, RequestOfPairing);
  }

  lemma OneMoreIsDistinct(done: seq<Pairing>, p: Pairing)
    requires NoDuplicates(Map(done, CallId)) && p.call.id !in Calls(done)
    ensures NoDuplicates(Map(done + [p], CallId))
  {
    MapSnoc(done, p, CallId);
    assert p.call.id !in Map(done, CallId);
  }

  /** The request was answered, or every call admissible for it was already discounting something. */
  ghost predicate Served(events: seq<Event>, window: nat, ps: seq<Pairing>, r: Request) {
    (exists p :: p in ps && RequestOfPairing(p) == r) || forall c ::
        c in events && Admissible(window, r, c) ==> c.id in Calls(ps)
  }

  /** The matching is maximal: no unanswered request coexists with an unused admissible call. */
  lemma {:induction false} PairingsAreMaximal(events: seq<Event>, window: nat, rs: seq<Request>)
    ensures forall r :: r in rs ==> Served(events, window, Pairings(events, window, rs), r)
  {
    if rs != [] {
      var init, last := rs[..|rs| - 1], rs[|rs| - 1];
      var done, all := Pairings(events, window, init), Pairings(events, window, rs);
      assert rs == init + [last];
      PairingsAreMaximal(events, window, init);
      ServeOne(events, window, rs);
      assert done <= all;
      forall r | r in rs ensures Served(events, window, all, r) {
        if r in init {
          StillServed(events, window, done, all, r);
        } else if all != done {
          assert RequestOfPairing(all[|all| - 1]) == r;
        }
      }
    }
  }

  lemma StillServed(events: seq<Event>, window: nat, done: seq<Pairing>, all: seq<Pairing>, r: Request)
    requires done <= all && Served(events, window, done, r)
    ensures Served(events, window, all, r)
  {
    assert forall p :: p in done ==> p in all;
  }

  // ---------------------------------------------------------------- the period's requests

  lemma {:induction false} RequestsExact(payments: seq<Event>, r: Request)
    ensures r in Flatten(Map(payments, RequestsOf)) <==> r.payment in payments && r.endpoint in PAIRABLE
  {
    if payments != [] {
      var init, last := payments[..|payments| - 1], payments[|payments| - 1];
      assert payments == init + [last];
      RequestsExact(init, r);
      MapSnoc(init, last, RequestsOf);
      FlattenSnoc(Map(init, RequestsOf), RequestsOf(last));
      assert RequestsOf(last) == [Request(last, BALANCES), Request(last, CONFIRMATION)];
    }
  }

  lemma EndpointsDiffer()
    ensures BALANCES != CONFIRMATION
  {
    assert BALANCES[0] != CONFIRMATION[0];
  }

  lemma {:induction false} RequestsDistinct(payments: seq<Event>)
    requires NoDuplicates(payments)
    ensures NoDuplicates(Flatten(Map(payments, RequestsOf)))
  {
    if payments != [] {
      var init, last := payments[..|payments| - 1], payments[|payments| - 1];
      var before := Flatten(Map(init, RequestsOf));
      assert payments == init + [last];
      RequestsDistinct(init);
      MapSnoc(init, last, RequestsOf);
      FlattenSnoc(Map(init, RequestsOf), RequestsOf(last));
      EndpointsDiffer();
      assert RequestsOf(last) == [Request(last, BALANCES), Request(last, CONFIRMATION)];
      forall i | 0 <= i < |before| ensures before[i].payment != last {
        RequestsExact(init, before[i]);
      }
    }
  }

  lemma SortedHasNoDuplicates(xs: seq<Event>)
    requires Sorted(xs)
    ensures NoDuplicates(xs)
  {
    forall i, j | 0 <= i < j < |xs| ensures xs[i] != xs[j] {
      BeforeAsymmetric(xs[i], xs[j]);
    }
  }

  lemma {:induction false} KeepSorted(xs: seq<Event>, p: Event -> bool)
    requires Sorted(xs)
    ensures Sorted(Keep(xs, p))
  {
    if xs != [] {
      var kept, last := Keep(xs[..|xs| - 1], p), xs[|xs| - 1];
      KeepSorted(xs[..|xs| - 1], p);
      KeepExact(xs[..|xs| - 1], p);
      forall i | 0 <= i < |kept| ensures Before(kept[i], last) {
        assert kept[i] in kept;
      }
    }
  }

  /** A successful call of the endpoint may discount a successful payment of the same direction, TPP, client and
      customer within the window. */
  ghost predicate MayPair(card: Card, events: seq<Event>, payment: Event, endpoint: string, call: Event) {
    && payment in events && payment.payment.Some? && 200 <= payment.outcome < 300
    && call in events && 200 <= call.outcome < 300
    && call.endpoint == endpoint && endpoint in ["GET /accounts/{id}/balances", "POST /confirmation"]
    && call.direction == payment.direction && call.tppId == payment.tppId
    && call.clientId.GetOr("") == payment.clientId.GetOr("") && call.psuId.GetOr("") == payment.psuId.GetOr("")
    && Abs(call.time - payment.time) <= card.pairingWindow
  }

  ghost predicate Answered(ps: seq<Pairing>, payment: Event, endpoint: string) {
    exists p :: p in ps && p.payment == payment && p.endpoint == endpoint
  }

  /** A request is one a payment makes and the call may answer it exactly when the two may pair. */
  lemma MayPairExactly(card: Card, events: seq<Event>, r: Request, call: Event)
    ensures MayPair(card, events, r.payment, r.endpoint, call) <==>
      r in Requests(events) && call in events && Admissible(card.pairingWindow, r, call)
  {
    RequestsExact(Keep(events, IsPayment), r);
    KeepExact(events, IsPayment);
  }

  lemma RequestsAreDistinct(events: seq<Event>)
    requires Sorted(events)
    ensures NoDuplicates(Requests(events))
  {
    KeepSorted(events, IsPayment);
    SortedHasNoDuplicates(Keep(events, IsPayment));
    RequestsDistinct(Keep(events, IsPayment));
  }

  lemma PairsMayPair(card: Card, events: seq<Event>, p: Pairing)
    requires Sorted(events) && p in Paired(card, events)
    ensures MayPair(card, events, p.payment, p.endpoint, p.call)
  {
    RequestsAreDistinct(events);
    PairingsAreOneToOne(events, card.pairingWindow, Requests(events));
    assert Legal(events, card.pairingWindow, Requests(events), p);
    MayPairExactly(card, events, RequestOfPairing(p), p.call);
  }

  lemma PairsAreOneToOne(card: Card, events: seq<Event>, i: nat, j: nat)
    requires Sorted(events) && i < j < |Paired(card, events)|
    ensures var p, q := Paired(card, events)[i], Paired(card, events)[j];
      p.call.id != q.call.id && (p.endpoint == q.endpoint ==> p.payment != q.payment)
  {
    var ps := Paired(card, events);
    RequestsAreDistinct(events);
    PairingsAreOneToOne(events, card.pairingWindow, Requests(events));
    assert Map(ps, CallId)[i] != Map(ps, CallId)[j];
    assert Map(ps, RequestOfPairing)[i] != Map(ps, RequestOfPairing)[j];
  }

  lemma NoPairIsLeft(card: Card, events: seq<Event>, payment: Event, endpoint: string, call: Event)
    requires MayPair(card, events, payment, endpoint, call)
    ensures Answered(Paired(card, events), payment, endpoint) || call.id in Calls(Paired(card, events))
  {
    PairingsAreMaximal(events, card.pairingWindow, Requests(events));
    MayPairExactly(card, events, Request(payment, endpoint), call);
    assert Served(events, card.pairingWindow, Paired(card, events), Request(payment, endpoint));
  }

  /** Greedy pairing is a maximal one-to-one matching: every pair is admissible, no call discounts two payments,
      no payment takes two calls of one endpoint, and no admissible pair has both of its sides left over. */
  lemma PairingIsAMaximalMatching(card: Card, deliveries: seq<Event>)
    ensures var events, ps := Events(deliveries), Paired(card, Events(deliveries));
      && (forall p :: p in ps ==> MayPair(card, events, p.payment, p.endpoint, p.call))
      && (forall i, j :: 0 <= i < j < |ps| ==> ps[i].call.id != ps[j].call.id)
      && (forall i, j :: 0 <= i < j < |ps| && ps[i].endpoint == ps[j].endpoint ==> ps[i].payment != ps[j].payment)
      && (forall payment, endpoint, call :: MayPair(card, events, payment, endpoint, call) ==>
           Answered(ps, payment, endpoint) || call.id in Calls(ps))
  {
    var events := Events(deliveries);
    var ps := Paired(card, events);
    EventsExact(deliveries);
    forall p | p in ps ensures MayPair(card, events, p.payment, p.endpoint, p.call) {
      PairsMayPair(card, events, p);
    }
    forall i, j | 0 <= i < j < |ps|
      ensures ps[i].call.id != ps[j].call.id && (ps[i].endpoint == ps[j].endpoint ==> ps[i].payment != ps[j].payment)
    {
      PairsAreOneToOne(card, events, i, j);
    }
    forall payment, endpoint, call | MayPair(card, events, payment, endpoint, call)
      ensures Answered(ps, payment, endpoint) || call.id in Calls(ps)
    {
      NoPairIsLeft(card, events, payment, endpoint, call);
    }
  }

  // ---------------------------------------------------------------- at least half of any assignment

  /** An assignment of calls of one endpoint to payments that uses no payment and no call twice. */
  ghost predicate Assignment(card: Card, events: seq<Event>, endpoint: string, m: set<(Event, Event)>) {
    && (forall q :: q in m ==> MayPair(card, events, q.0, endpoint, q.1))
    && (forall q, r :: q in m && r in m && (q.0 == r.0 || q.1.id == r.1.id) ==> q == r)
  }

  /** A set whose elements have distinct images in a sequence is no larger than the sequence. */
  lemma {:induction false} NoLargerThan(m: set<(Event, Event)>, xs: seq<Pairing>, f: (Event, Event) -> string,
      g: Pairing -> string)
    requires forall q, r :: q in m && r in m && f(q.0, q.1) == f(r.0, r.1) ==> q == r
    requires forall q :: q in m ==> exists x :: x in xs && g(x) == f(q.0, q.1)
    ensures |m| <= |xs|
  {
    if xs == [] {
      assert forall q :: q !in m;
    } else {
      var init, last := xs[..|xs| - 1], xs[|xs| - 1];
      assert xs == init + [last];
      if q :| q in m && f(q.0, q.1) == g(last) {
        NoLargerThan(m - {q}, init, f, g);
      } else {
        NoLargerThan(m, init, f, g);
      }
    }
  }

  function PaymentIdOf(payment: Event, call: Event): string { payment.id }

  function CallIdOf(payment: Event, call: Event): string { call.id }

  function PaymentId(p: Pairing): string { p.payment.id }

  function OnEndpoint(endpoint: string): Pairing -> bool {
    (p: Pairing) => p.endpoint == endpoint
  }

  lemma SameIdSameEvent(events: seq<Event>, x: Event, y: Event)
    requires DistinctIds(events) && x in events && y in events && x.id == y.id
    ensures x == y
  {
    var i :| 0 <= i < |events| && events[i] == x;
    var j :| 0 <= j < |events| && events[j] == y;
    assert Map(events, IdOf)[i] == Map(events, IdOf)[j];
  }

  lemma AnsweredPayments(card: Card, events: seq<Event>, endpoint: string, m: set<(Event, Event)>, ps: seq<Pairing>)
    requires DistinctIds(events) && Assignment(card, events, endpoint, m)
    requires forall q :: q in m ==> Answered(ps, q.0, endpoint)
    ensures |m| <= |Keep(ps, OnEndpoint(endpoint))|
  {
    var mine := Keep(ps, OnEndpoint(endpoint));
    KeepExact(ps, OnEndpoint(endpoint));
    forall q | q in m ensures exists x :: x in mine && PaymentId(x) == PaymentIdOf(q.0, q.1) {
      var p :| p in ps && p.payment == q.0 && p.endpoint == endpoint;
      assert p in mine;
    }
    forall q, r | q in m && r in m && q.0.id == r.0.id ensures q == r {
      assert MayPair(card, events, q.0, endpoint, q.1) && MayPair(card, events, r.0, endpoint, r.1);
      SameIdSameEvent(events, q.0, r.0);
    }
    NoLargerThan(m, mine, PaymentIdOf, PaymentId);
  }

  lemma {:induction false} UsedCalls(card: Card, events: seq<Event>, endpoint: string, m: set<(Event, Event)>,
      ps: seq<Pairing>)
    requires DistinctIds(events) && Assignment(card, events, endpoint, m)
    requires forall p :: p in ps ==> MayPair(card, events, p.payment, p.endpoint, p.call)
    requires forall q :: q in m ==> q.1.id in Calls(ps)
    ensures |m| <= |Keep(ps, OnEndpoint(endpoint))|
  {
    var mine := Keep(ps, OnEndpoint(endpoint));
    KeepExact(ps, OnEndpoint(endpoint));
    forall q | q in m ensures exists x :: x in mine && CallId(x) == CallIdOf(q.0, q.1) {
      var p :| p in ps && p.call.id == q.1.id;
      assert MayPair(card, events, q.0, endpoint, q.1) && MayPair(card, events, p.payment, p.endpoint, p.call);
      SameIdSameEvent(events, p.call, q.1);
      assert p in mine;
    }
    NoLargerThan(m, mine, CallIdOf, CallId);
  }

  lemma SizeOfSplit<T>(m: set<T>, n: set<T>)
    requires n <= m
    ensures |m| == |n| + |m - n|
  {
  }

  lemma SubAssignment(card: Card, events: seq<Event>, endpoint: string, m: set<(Event, Event)>, n: set<(Event, Event)>)
    requires Assignment(card, events, endpoint, m) && n <= m
    ensures Assignment(card, events, endpoint, n)
  {
  }

  lemma MaximalIsHalf(card: Card, events: seq<Event>, endpoint: string, m: set<(Event, Event)>, ps: seq<Pairing>)
    requires DistinctIds(events) && Assignment(card, events, endpoint, m)
    requires forall p :: p in ps ==> MayPair(card, events, p.payment, p.endpoint, p.call)
    requires forall q :: q in m ==> Answered(ps, q.0, endpoint) || q.1.id in Calls(ps)
    ensures |m| <= 2 * |Keep(ps, OnEndpoint(endpoint))|
  {
    var answered := set q | q in m && Answered(ps, q.0, endpoint);
    SubAssignment(card, events, endpoint, m, answered);
    SubAssignment(card, events, endpoint, m, m - answered);
    AnsweredPayments(card, events, endpoint, answered, ps);
    UsedCalls(card, events, endpoint, m - answered, ps);
    SizeOfSplit(m, answered);
  }

  /** Per endpoint the greedy matching makes at least half as many pairs as any admissible assignment. */
  lemma AtLeastHalfOfAnyAssignment(card: Card, deliveries: seq<Event>, endpoint: string, m: set<(Event, Event)>)
    requires Assignment(card, Events(deliveries), endpoint, m)
    ensures |m| <= 2 * |Keep(Paired(card, Events(deliveries)), OnEndpoint(endpoint))|
  {
    PairingIsAMaximalMatching(card, deliveries);
    EventsExact(deliveries);
    forall q | q in m ensures Answered(Paired(card, Events(deliveries)), q.0, endpoint)
        || q.1.id in Calls(Paired(card, Events(deliveries))) {
      assert MayPair(card, Events(deliveries), q.0, endpoint, q.1);
    }
    MaximalIsHalf(card, Events(deliveries), endpoint, m, Paired(card, Events(deliveries)));
  }

  // ---------------------------------------------------------------- the closest call

  /** A pair takes the closest call still unused: every closer admissible call had been taken before it. */
  lemma {:induction false} PairsTakeTheClosestCall(events: seq<Event>, window: nat, rs: seq<Request>, i: nat, c: Event)
    requires i < |Pairings(events, window, rs)|
    requires c in events && Admissible(window, RequestOfPairing(Pairings(events, window, rs)[i]), c)
    ensures var ps := Pairings(events, window, rs);
      Closer(ps[i].payment, c, ps[i].call) ==> c.id in Calls(ps[..i])
  {
    var init, r := rs[..|rs| - 1], rs[|rs| - 1];
    var done, ps := Pairings(events, window, init), Pairings(events, window, rs);
    if i < |done| {
      assert ps[..i] == done[..i];
      PairsTakeTheClosestCall(events, window, init, i, c);
    } else {
      var candidates := Keep(events, Available(window, r, Calls(done)));
      KeepExact(events, Available(window, r, Calls(done)));
      ClosestIsBest(r.payment, candidates);
      assert ps[..i] == done;
      if Closer(r.payment, c, ps[i].call) {
        CloserAsymmetric(r.payment, c, ps[i].call);
        assert c !in candidates;
      }
    }
  }

  // ---------------------------------------------------------------- allowances

  /** The free units a line grants against one free tier. */
  function FreeOn(card: Card, k: TierKey): Line -> int {
    (l: Line) => if l.feeClass == RetailPage && TierOf(card, l.event) == Some(k) then l.freeUnits.GetOr(0) else 0
  }

  /** The units a line bills against one free tier. */
  function BilledOn(card: Card, k: TierKey): Line -> int {
    (l: Line) => if l.feeClass == RetailPage && TierOf(card, l.event) == Some(k) then l.units else 0
  }

  function FreeValueOn(card: Card, k: MerchantKey): Line -> int {
    (l: Line) => if l.side == Receivable && MerchantOf(card, l.event) == Some(k) then l.freeValue.GetOr(0) else 0
  }

  function BilledValueOn(card: Card, k: MerchantKey): Line -> int {
    (l: Line) => if l.side == Receivable && MerchantOf(card, l.event) == Some(k) then l.chargeableValue.GetOr(0) else 0
  }

  /** The lines of one event draw on its own free tier, by what is left of it, and on no other. */
  lemma EventDrawsPages(card: Card, e: Event, isPaired: bool, used: int, value: int, k: TierKey)
    requires Defect(card, e).None?
    ensures var ls := LinesFor(card, e, isPaired, used, value);
      if TierOf(card, e) == Some(k) then
        var free := FreePart(TierAllowance(card, k), used, PagesOf(e.data.value));
        SumBy(ls, FreeOn(card, k)) == free && SumBy(ls, BilledOn(card, k)) == PagesOf(e.data.value) - free
      else SumBy(ls, FreeOn(card, k)) == 0 && SumBy(ls, BilledOn(card, k)) == 0
  {
    var ls := LinesFor(card, e, isPaired, used, value);
    SumShort(ls, FreeOn(card, k));
    SumShort(ls, BilledOn(card, k));
  }

  lemma EventDrawsValue(card: Card, e: Event, isPaired: bool, used: int, value: int, k: MerchantKey)
    requires Defect(card, e).None?
    ensures var ls := LinesFor(card, e, isPaired, used, value);
      if MerchantOf(card, e) == Some(k) then
        var free := FreePart(card.merchantAllowance, value, e.payment.value.amount);
        SumBy(ls, FreeValueOn(card, k)) == free && SumBy(ls, BilledValueOn(card, k)) == e.payment.value.amount - free
      else SumBy(ls, FreeValueOn(card, k)) == 0 && SumBy(ls, BilledValueOn(card, k)) == 0
  {
    var ls := LinesFor(card, e, isPaired, used, value);
    SumShort(ls, FreeValueOn(card, k));
    SumShort(ls, BilledValueOn(card, k));
  }

  lemma SumShort(ls: seq<Line>, w: Line -> int)
    requires |ls| <= 2
    ensures SumBy(ls, w) == if |ls| == 0 then 0 else if |ls| == 1 then w(ls[0]) else w(ls[0]) + w(ls[1])
  {
    if |ls| == 2 {
      assert ls[..1][..0] == [] && ls == ls[..1] + [ls[1]];
    }
  }

  lemma {:induction false} PagesAreNotNegative(card: Card, events: seq<Event>, k: TierKey)
    ensures SumBy(events, PagesOn(card, k)) >= 0
  {
    if events != [] {
      PagesAreNotNegative(card, events[..|events| - 1], k);
    }
  }

  lemma {:induction false} ValueIsNotNegative(card: Card, events: seq<Event>, k: MerchantKey)
    ensures SumBy(events, ValueOn(card, k)) >= 0
  {
    if events != [] {
      ValueIsNotNegative(card, events[..|events| - 1], k);
    }
  }

  /** A free tier is used to the last page and never beyond: over any events, in any order, it grants the smaller
      of the allowance and the pages asked for, and bills the rest. */
  lemma {:induction false} FreeTierIsExhaustedExactly(card: Card, paired: set<string>, events: seq<Event>, k: TierKey)
    requires Sound(card, events)
    ensures var asked, lines := SumBy(events, PagesOn(card, k)), Lines(card, paired, events);
      && SumBy(lines, FreeOn(card, k)) == Min(TierAllowance(card, k), asked)
      && SumBy(lines, BilledOn(card, k)) == asked - Min(TierAllowance(card, k), asked)
  {
    if events != [] {
      var init, e := events[..|events| - 1], events[|events| - 1];
      FreeTierIsExhaustedExactly(card, paired, init, k);
      PagesAreNotNegative(card, init, k);
      var more := LinesFor(card, e, e.id in paired, PagesUsed(card, init, e), ValueUsed(card, init, e));
      EventDrawsPages(card, e, e.id in paired, PagesUsed(card, init, e), ValueUsed(card, init, e), k);
      SumConcat(Lines(card, paired, init), more, FreeOn(card, k));
      SumConcat(Lines(card, paired, init), more, BilledOn(card, k));
    }
  }

  /** Each merchant's daily allowance is used to the last milli-fil and never beyond. */
  lemma {:induction false} MerchantAllowanceIsExhaustedExactly(card: Card, paired: set<string>, events: seq<Event>,
      k: MerchantKey)
    requires Sound(card, events)
    ensures var asked, lines := SumBy(events, ValueOn(card, k)), Lines(card, paired, events);
      && SumBy(lines, FreeValueOn(card, k)) == Min(card.merchantAllowance, asked)
      && SumBy(lines, BilledValueOn(card, k)) == asked - Min(card.merchantAllowance, asked)
  {
    if events != [] {
      var init, e := events[..|events| - 1], events[|events| - 1];
      MerchantAllowanceIsExhaustedExactly(card, paired, init, k);
      ValueIsNotNegative(card, init, k);
      var more := LinesFor(card, e, e.id in paired, PagesUsed(card, init, e), ValueUsed(card, init, e));
      EventDrawsValue(card, e, e.id in paired, PagesUsed(card, init, e), ValueUsed(card, init, e), k);
      SumConcat(Lines(card, paired, init), more, FreeValueOn(card, k));
      SumConcat(Lines(card, paired, init), more, BilledValueOn(card, k));
    }
  }

  // ---------------------------------------------------------------- lines account for events

  function HubLineOf(l: Line): int { if l.side == PayableHub then 1 else 0 }

  function DiscountOf(l: Line): int { if l.feeClass == HubPaired then 1 else 0 }

  function FreeLineOf(l: Line): int { if l.side == FreeToLfi then 1 else 0 }

  function ValueOf(l: Line): int { l.value.GetOr(0) }

  function OutboundCall(card: Card): Event -> int {
    (e: Event) => if Billable(card, e) && e.direction == Outbound then 1 else 0
  }

  function DiscountedCall(card: Card, paired: set<string>): Event -> int {
    (e: Event) => if Billable(card, e) && e.direction == Outbound && card.chargeable[e.endpoint] != QuoteCall
        && e.id in paired then 1 else 0
  }

  function FreeCall(card: Card): Event -> int {
    (e: Event) => if ClassOf(card, e) == FreeOfCharge then 1 else 0
  }

  function PaidAmount(card: Card): Event -> int {
    (e: Event) =>
      if Billable(card, e) && card.chargeable[e.endpoint] == PaymentCall
          && e.payment.Some? then e.payment.value.amount else 0
  }

  lemma LinesOfEvent(card: Card, paired: set<string>, e: Event, pages: int, value: int)
    requires Defect(card, e).None?
    ensures var ls := LinesFor(card, e, e.id in paired, pages, value);
      && SumBy(ls, HubLineOf) == OutboundCall(card)(e)
      && SumBy(ls, DiscountOf) == DiscountedCall(card, paired)(e)
      && SumBy(ls, FreeLineOf) == FreeCall(card)(e)
      && SumBy(ls, ValueOf) == PaidAmount(card)(e)
  {
    var ls := LinesFor(card, e, e.id in paired, pages, value);
    SumShort(ls, HubLineOf);
    SumShort(ls, DiscountOf);
    SumShort(ls, FreeLineOf);
    SumShort(ls, ValueOf);
  }

  /** Each billable outbound call owes the Hub one line, discounted exactly when the call is paired and no quote; each
      free call has one line; and each billable payment's amount is carried by exactly one line. */
  lemma {:induction false} LinesAccountForEvents(card: Card, paired: set<string>, events: seq<Event>)
    requires Sound(card, events)
    ensures var lines := Lines(card, paired, events);
      && SumBy(lines, HubLineOf) == SumBy(events, OutboundCall(card))
      && SumBy(lines, DiscountOf) == SumBy(events, DiscountedCall(card, paired))
      && SumBy(lines, FreeLineOf) == SumBy(events, FreeCall(card))
      && SumBy(lines, ValueOf) == SumBy(events, PaidAmount(card))
  {
    if events != [] {
      var init, e := events[..|events| - 1], events[|events| - 1];
      assert e in events;
      LinesAccountForEvents(card, paired, init);
      var pages, value := PagesUsed(card, init, e), ValueUsed(card, init, e);
      LinesOfEvent(card, paired, e, pages, value);
      AddLines(Lines(card, paired, init), LinesFor(card, e, e.id in paired, pages, value));
    }
  }

  lemma AddLines(xs: seq<Line>, ys: seq<Line>)
    ensures SumBy(xs + ys, HubLineOf) == SumBy(xs, HubLineOf) + SumBy(ys, HubLineOf)
    ensures SumBy(xs + ys, DiscountOf) == SumBy(xs, DiscountOf) + SumBy(ys, DiscountOf)
    ensures SumBy(xs + ys, FreeLineOf) == SumBy(xs, FreeLineOf) + SumBy(ys, FreeLineOf)
    ensures SumBy(xs + ys, ValueOf) == SumBy(xs, ValueOf) + SumBy(ys, ValueOf)
  {
    SumConcat(xs, ys, HubLineOf);
    SumConcat(xs, ys, DiscountOf);
    SumConcat(xs, ys, FreeLineOf);
    SumConcat(xs, ys, ValueOf);
  }
}
