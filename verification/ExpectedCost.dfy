/** The expected cost statement: what the institution should expect to be charged, aggregated per cost dimension with
    VAT applied once per line. How an endpoint falls into an API family, and an API family into a product family, are
    parameters. */
module ExpectedCost {
  import opened Collections
  import Vat
  import Rating
  import PayableReconciliation

  datatype Family = Payments | Data | ConfirmationOfPayee | Insurance | Quotes | Other

  datatype Segment = Retail | Corporate | Unclassified

  datatype Attribution = Attribution(internalProduct: string, costCentre: string)

  datatype Taxonomy = Taxonomy(apiFamily: string -> string, productFamily: string -> Family,
      attribution: map<string, Attribution>)

  datatype BucketKey = BucketKey(
    recipientType: PayableReconciliation.RecipientType, recipientId: string, stream: PayableReconciliation.FeeStream,
    feeClass: string, family: Family, apiFamily: string, segment: Segment, internalProduct: string, costCentre: string)

  datatype Bucket = Bucket(key: BucketKey, units: nat, events: nat, amount: int, eventIds: seq<string>,
      interactionIds: seq<string>)

  datatype CostLine = CostLine(
    key: BucketKey, units: nat, events: nat, net: int, vat: int, gross: int, eventIds: seq<string>,
        interactionIds: seq<string>)

  datatype Totals = Totals(hubNet: int, lfiPaymentNet: int, lfiDataNet: int, net: int, vat: int, gross: int)

  datatype Statement = Statement(lines: seq<CostLine>, totals: Totals)

  datatype Error = NoEndpoint(eventId: string) | NoCounterparty(eventId: string)

  const NEBRAS := "NEBRAS"
  const NOWHERE := Attribution("", "")

  // ---------------------------------------------------------------- which bucket a line falls into

  predicate IsPayment(p: Rating.PricedLine) { "payment." <= p.feeClass }

  function StreamOf(p: Rating.PricedLine): PayableReconciliation.FeeStream {
    if Rating.IsHub(p) then PayableReconciliation.Hub
    else if IsPayment(p) then PayableReconciliation.LfiPayment
    else PayableReconciliation.LfiData
  }

  function SegmentOf(p: Rating.PricedLine): Segment {
    if Rating.IsHub(p) then Unclassified
    else if p.feeClass == "payment.corporate" || p.feeClass == "data.corporate_page" then Corporate
    else Retail
  }

  function FamilyOf(t: Taxonomy, p: Rating.PricedLine): Family {
    if Rating.IsHub(p) then t.productFamily(t.apiFamily(p.endpoint.GetOr("")))
    else if IsPayment(p) then Payments
    else Data
  }

  function AttributionOf(t: Taxonomy, p: Rating.PricedLine): Attribution {
    var client := p.clientId.GetOr("");
    if client != "" && client in t.attribution then t.attribution[client] else NOWHERE
  }

  function BucketKeyOf(t: Taxonomy): Rating.PricedLine -> BucketKey {
    (p: Rating.PricedLine) => KeyOf(t, p)
  }

  function KeyOf(t: Taxonomy, p: Rating.PricedLine): BucketKey {
    var hub := Rating.IsHub(p);
    BucketKey(
      if hub then PayableReconciliation.Nebras else PayableReconciliation.UnderlyingLfi,
      if hub then NEBRAS else p.counterpartyLfiId.GetOr(""),
      StreamOf(p), p.feeClass, FamilyOf(t, p), t.apiFamily(p.endpoint.GetOr("")), SegmentOf(p),
      AttributionOf(t, p).internalProduct, AttributionOf(t, p).costCentre)
  }

  /** What is missing on a line: the endpoint it came through, or the LFI it is owed to. */
  function LineError(p: Rating.PricedLine): Option<Error> {
    if !Rating.IsPayable(p) then None
    else if Blank(p.endpoint.GetOr("")) then Some(NoEndpoint(p.eventId))
    else if !Rating.IsHub(p) && Blank(p.counterpartyLfiId.GetOr("")) then Some(NoCounterparty(p.eventId))
    else None
  }

  // ---------------------------------------------------------------- buckets and lines

  function AddOnce(ids: seq<string>, id: string): seq<string> {
    if id in ids then ids else ids + [id]
  }

  function Added(b: Bucket, p: Rating.PricedLine): Bucket {
    Bucket(b.key, b.units + p.units, b.events + 1, b.amount + p.amount, AddOnce(b.eventIds, p.eventId),
           if p.traceId.GetOr("") != "" then AddOnce(b.interactionIds, p.traceId.value) else b.interactionIds)
  }

  function BucketOf(lines: seq<Rating.PricedLine>, key: BucketKey): Bucket {
    if lines == [] then Bucket(key, 0, 0, 0, [], []) else Added(BucketOf(lines[..|lines| - 1], key), lines[|lines| - 1])
  }

  function BucketRecord(): (seq<Rating.PricedLine>, BucketKey) -> Bucket {
    (lines: seq<Rating.PricedLine>, key: BucketKey) => BucketOf(lines, key)
  }

  /** Hub fees are net and attract VAT; fees to LFIs are gross and contain it. */
  function SplitOf(key: BucketKey, amount: int): Vat.Split {
    if key.recipientType.Nebras? then Vat.SplitExclusive(amount) else Vat.SplitInclusive(amount)
  }

  function LineOf(b: Bucket): CostLine {
    var split := SplitOf(b.key, b.amount);
    CostLine(b.key, b.units, b.events, split.net, split.vat, split.gross, b.eventIds, b.interactionIds)
  }

  function NetOf(l: CostLine): int { l.net }

  function VatOf(l: CostLine): int { l.vat }

  function GrossOf(l: CostLine): int { l.gross }

  function InStream(s: PayableReconciliation.FeeStream): CostLine -> bool {
    (l: CostLine) => l.key.stream == s
  }

  function LinesOf(t: Taxonomy, priced: seq<Rating.PricedLine>): seq<CostLine> {
    Map(Records(Keep(priced, Rating.IsPayable), BucketKeyOf(t), BucketRecord()), LineOf)
  }

  function TotalsOf(lines: seq<CostLine>): Totals {
    Totals(SumBy(Keep(lines, InStream(PayableReconciliation.Hub)), NetOf),
           SumBy(Keep(lines, InStream(PayableReconciliation.LfiPayment)), NetOf),
           SumBy(Keep(lines, InStream(PayableReconciliation.LfiData)), NetOf),
           SumBy(lines, NetOf), SumBy(lines, VatOf), SumBy(lines, GrossOf))
  }

  function StatementOf(t: Taxonomy, priced: seq<Rating.PricedLine>): Result<Statement, Error> {
    if FirstOf(priced, LineError).Some? then Err(FirstOf(priced, LineError).value)
    else Ok(Statement(LinesOf(t, priced), TotalsOf(LinesOf(t, priced))))
  }

  // ---------------------------------------------------------------- the loop over buckets

  lemma BucketSnoc(t: Taxonomy, p: Rating.PricedLine)
    ensures forall ys: seq<Rating.PricedLine> ::
      BucketRecord()(ys + [p], KeyOf(t, p)) == Added(BucketRecord()(ys, KeyOf(t, p)), p)
  {
    forall ys: seq<Rating.PricedLine> ensures BucketRecord()(ys + [p], KeyOf(t, p))
        == Added(BucketRecord()(ys, KeyOf(t, p)), p) {
      assert (ys + [p])[..|ys|] == ys;
    }
  }

  method FillBucket(t: Taxonomy, p: Rating.PricedLine, order: seq<BucketKey>, buckets: map<BucketKey, Bucket>,
      ghost before: seq<Rating.PricedLine>)
    returns (order': seq<BucketKey>, buckets': map<BucketKey, Bucket>)
    requires Recorded(before, BucketKeyOf(t), BucketRecord(), order, buckets)
    ensures Recorded(before + [p], BucketKeyOf(t), BucketRecord(), order', buckets')
  {
    var key := KeyOf(t, p);
    BucketSnoc(t, p);
    order', buckets' := UpdateRecord(order, buckets, key, Bucket(key, 0, 0, 0, [], []), (b: Bucket) => Added(b, p),
                                     before, p, BucketKeyOf(t), BucketRecord());
  }

  method FillBuckets(t: Taxonomy, priced: seq<Rating.PricedLine>)
    returns (refused: Option<Error>, order: seq<BucketKey>, buckets: map<BucketKey, Bucket>)
    ensures refused == FirstOf(priced, LineError)
    ensures refused.None? ==> Recorded(Keep(priced, Rating.IsPayable), BucketKeyOf(t), BucketRecord(), order, buckets)
  {
    refused, order, buckets := None, [], map[];
    for i := 0 to |priced|
      invariant refused.None? && FirstOf(priced[..i], LineError).None?
      invariant Recorded(Keep(priced[..i], Rating.IsPayable), BucketKeyOf(t), BucketRecord(), order, buckets)
    {
      var p := priced[i];
      assert priced[..i + 1] == priced[..i] + [p];
      FirstOfSnoc(priced, i, LineError);
      KeepSnoc(priced[..i], p, Rating.IsPayable);
      if Rating.IsPayable(p) {
        refused := LineError(p);
        if refused.Some? {
          FirstOfStays(priced, i + 1, LineError);
          return;
        }
        order, buckets := FillBucket(t, p, order, buckets, Keep(priced[..i], Rating.IsPayable));
      }
    }
    assert priced[..|priced|] == priced;
  }

  method BuildExpectedCostStatement(t: Taxonomy, priced: seq<Rating.PricedLine>)
      returns (result: Result<Statement, Error>)
    ensures result == StatementOf(t, priced)
  {
    var refused, order, buckets := FillBuckets(t, priced);
    if refused.Some? { return Err(refused.value); }
    var listed := ReadRecords(order, buckets, Keep(priced, Rating.IsPayable), BucketKeyOf(t), BucketRecord());
    var lines := Map(listed, LineOf);
    result := Ok(Statement(lines, TotalsOf(lines)));
  }

  // ---------------------------------------------------------------- the statement against the rating

  function HubNet(l: CostLine): int { if l.key.stream.Hub? then l.net else 0 }

  function LfiGross(l: CostLine): int { if l.key.stream.Hub? then 0 else l.gross }

  lemma {:induction false} BucketAmount(lines: seq<Rating.PricedLine>, key: BucketKey)
    ensures BucketOf(lines, key).amount == SumBy(lines, Rating.AmountOf) && BucketOf(lines, key).key == key
  {
    if lines != [] {
      BucketAmount(lines[..|lines| - 1], key);
    }
  }

  /** A bucket holds lines of one side only. */
  lemma BucketIsOneSided(t: Taxonomy, payable: seq<Rating.PricedLine>, k: BucketKey)
    requires forall p :: p in payable ==> Rating.IsPayable(p)
    ensures var ms := Members(payable, BucketKeyOf(t), k);
      forall p :: p in ms ==>
          (Rating.IsHub(p) <==> k.stream.Hub?) && (Rating.IsHub(p) <==> k.recipientType.Nebras?)
          && (Rating.IsLfi(p) <==> !k.stream.Hub?)
  {
    forall p | p in Members(payable, BucketKeyOf(t), k) ensures p in payable && KeyOf(t, p) == k {
      MembersExact(payable, BucketKeyOf(t), k, p);
    }
  }

  lemma BucketLine(t: Taxonomy, payable: seq<Rating.PricedLine>, k: BucketKey)
    requires (forall p :: p in payable ==> Rating.IsPayable(p)) && Members(payable, BucketKeyOf(t), k) != []
    ensures var ms := Members(payable, BucketKeyOf(t), k);
      && HubNet(LineOf(BucketOf(ms, k))) == SumBy(ms, Rating.HubAmount)
      && LfiGross(LineOf(BucketOf(ms, k))) == SumBy(ms, Rating.LfiAmount)
  {
    var ms := Members(payable, BucketKeyOf(t), k);
    BucketIsOneSided(t, payable, k);
    BucketAmount(ms, k);
    assert ms[0] in ms;
    if k.stream.Hub? {
      SumCongruence(ms, Rating.AmountOf, Rating.HubAmount);
      SumZero(ms, Rating.LfiAmount);
    } else {
      SumCongruence(ms, Rating.AmountOf, Rating.LfiAmount);
      SumZero(ms, Rating.HubAmount);
    }
  }

  lemma {:induction false} BucketsConserve(t: Taxonomy, payable: seq<Rating.PricedLine>)
    requires forall p :: p in payable ==> Rating.IsPayable(p)
    ensures var lines := Map(Records(payable, BucketKeyOf(t), BucketRecord()), LineOf);
      SumBy(lines, HubNet) == SumBy(payable, Rating.HubAmount)
          && SumBy(lines, LfiGross) == SumBy(payable, Rating.LfiAmount)
  {
    var buckets := Records(payable, BucketKeyOf(t), BucketRecord());
    var hubNet := (b: Bucket) => HubNet(LineOf(b));
    var lfiGross := (b: Bucket) => LfiGross(LineOf(b));
    SumOfMap(buckets, LineOf, HubNet, hubNet);
    SumOfMap(buckets, LineOf, LfiGross, lfiGross);
    forall k | k in Keys(payable, BucketKeyOf(t))
      ensures hubNet(BucketRecord()(Members(payable, BucketKeyOf(t), k), k))
        == SumBy(Members(payable, BucketKeyOf(t), k), Rating.HubAmount)
      ensures lfiGross(BucketRecord()(Members(payable, BucketKeyOf(t), k), k))
        == SumBy(Members(payable, BucketKeyOf(t), k), Rating.LfiAmount)
    {
      MembersEmpty(payable, BucketKeyOf(t), k);
      BucketLine(t, payable, k);
    }
    SumOverRecords(payable, BucketKeyOf(t), BucketRecord(), hubNet, Rating.HubAmount);
    SumOverRecords(payable, BucketKeyOf(t), BucketRecord(), lfiGross, Rating.LfiAmount);
  }

  /** What the statement expects of LFIs, with VAT. */
  function LfiGrossTotal(lines: seq<CostLine>): int { SumBy(lines, LfiGross) }

  /** The Hub's net and the LFIs' gross on the statement are the payable totals of the rating it was projected from. */
  lemma {:induction false} CostAgreesWithRating(t: Taxonomy, priced: seq<Rating.PricedLine>,
      clients: seq<Rating.Client>)
    ensures var lines, rated := LinesOf(t, priced), Rating.Rated(priced, clients).totals;
      TotalsOf(lines).hubNet == rated.payableHub && LfiGrossTotal(lines) == rated.payableLfi
  {
    var payable := Keep(priced, Rating.IsPayable);
    KeepExact(priced, Rating.IsPayable);
    BucketsConserve(t, payable);
    SumOfKept(LinesOf(t, priced), InStream(PayableReconciliation.Hub), NetOf, HubNet);
    SumOfKept(payable, Rating.IsHub, Rating.AmountOf, Rating.HubAmount);
    SumOfKept(payable, Rating.IsLfi, Rating.AmountOf, Rating.LfiAmount);
    KeepTwice(priced, Rating.IsPayable, Rating.IsHub, Rating.IsHub);
    KeepTwice(priced, Rating.IsPayable, Rating.IsLfi, Rating.IsLfi);
    Rating.RatingConserves(priced, clients);
  }

  predicate Ties(l: CostLine) { l.gross == l.net + l.vat }

  lemma LineTies(b: Bucket)
    ensures Ties(LineOf(b))
  {
  }

  /** The three streams make up the net. */
  lemma StreamsMakeUpNet(lines: seq<CostLine>)
    ensures var totals := TotalsOf(lines); totals.net == totals.hubNet + totals.lfiPaymentNet + totals.lfiDataNet
  {
    SumSplitsInThree(lines, InStream(PayableReconciliation.Hub), InStream(PayableReconciliation.LfiPayment),
        InStream(PayableReconciliation.LfiData), NetOf);
  }

  lemma GrossIsNetAndVat(lines: seq<CostLine>)
    requires forall i :: 0 <= i < |lines| ==> Ties(lines[i])
    ensures TotalsOf(lines).gross == TotalsOf(lines).net + TotalsOf(lines).vat
  {
    SumLinear(lines, NetOf, VatOf, GrossOf);
  }

  /** The statement's totals tie: the three streams make up the net, and net and VAT the gross. */
  lemma TotalsTie(t: Taxonomy, priced: seq<Rating.PricedLine>)
    ensures var totals := TotalsOf(LinesOf(t, priced));
      && totals.net == totals.hubNet + totals.lfiPaymentNet + totals.lfiDataNet
      && totals.gross == totals.net + totals.vat
  {
    var buckets := Records(Keep(priced, Rating.IsPayable), BucketKeyOf(t), BucketRecord());
    var lines := LinesOf(t, priced);
    forall i | 0 <= i < |lines| ensures Ties(lines[i]) {
      LineTies(buckets[i]);
    }
    StreamsMakeUpNet(lines);
    GrossIsNetAndVat(lines);
  }

  function UnitsOf(l: CostLine): int { l.units }

  function EventsOf(l: CostLine): int { l.events }

  lemma {:induction false} BucketCounts(lines: seq<Rating.PricedLine>, key: BucketKey)
    ensures BucketOf(lines, key).units == SumBy(lines, Rating.FigureOf(Rating.Units))
    ensures BucketOf(lines, key).events == SumBy(lines, Rating.FigureOf(Rating.Events))
  {
    if lines != [] {
      BucketCounts(lines[..|lines| - 1], key);
    }
  }

  /** The statement counts every payable line once, with its units. */
  lemma CostCountsEveryLine(t: Taxonomy, priced: seq<Rating.PricedLine>)
    ensures SumBy(LinesOf(t, priced), UnitsOf) == SumBy(Keep(priced, Rating.IsPayable), Rating.FigureOf(Rating.Units))
    ensures SumBy(LinesOf(t, priced), EventsOf) == |Keep(priced, Rating.IsPayable)|
  {
    var payable := Keep(priced, Rating.IsPayable);
    var buckets := Records(payable, BucketKeyOf(t), BucketRecord());
    var units, events := (b: Bucket) => b.units as int, (b: Bucket) => b.events as int;
    SumOfMap(buckets, LineOf, UnitsOf, units);
    SumOfMap(buckets, LineOf, EventsOf, events);
    forall ys: seq<Rating.PricedLine>, k: BucketKey
      ensures units(BucketRecord()(ys, k)) == SumBy(ys, Rating.FigureOf(Rating.Units))
      ensures events(BucketRecord()(ys, k)) == SumBy(ys, Rating.FigureOf(Rating.Events))
    {
      BucketCounts(ys, k);
    }
    SumOverRecords(payable, BucketKeyOf(t), BucketRecord(), units, Rating.FigureOf(Rating.Units));
    SumOverRecords(payable, BucketKeyOf(t), BucketRecord(), events, Rating.FigureOf(Rating.Events));
    SumOnes(payable, Rating.FigureOf(Rating.Events));
  }

  // ---------------------------------------------------------------- the statement against the reconciliation

  /** The line as the reconciliation reads it: it matches on less than the statement groups by. */
  function AsExpected(l: CostLine): PayableReconciliation.ExpectedLine {
    PayableReconciliation.ExpectedLine(l.key.recipientType, l.key.recipientId, l.key.stream, l.key.feeClass, l.units,
        l.net, l.vat, l.eventIds, l.interactionIds)
  }

  function MatchKey(k: BucketKey): PayableReconciliation.Key {
    PayableReconciliation.Key(k.recipientType, k.recipientId, k.feeClass)
  }

  ghost predicate Distinguishes(keys: seq<BucketKey>) {
    forall a, b :: a in keys && b in keys && MatchKey(a) == MatchKey(b) ==> a == b
  }

  lemma DistinctMatchKeys(keys: seq<BucketKey>)
    requires NoDuplicates(keys)
    ensures NoDuplicates(Map(keys, MatchKey)) <==> Distinguishes(keys)
  {
    if NoDuplicates(Map(keys, MatchKey)) {
      forall a, b | a in keys && b in keys && MatchKey(a) == MatchKey(b) ensures a == b {
        var i, j :| 0 <= i < |keys| && 0 <= j < |keys| && keys[i] == a && keys[j] == b;
        assert Map(keys, MatchKey)[i] == Map(keys, MatchKey)[j];
      }
    }
    if Distinguishes(keys) {
      forall i, j | 0 <= i < j < |keys| ensures Map(keys, MatchKey)[i] != Map(keys, MatchKey)[j] {
        assert keys[i] in keys && keys[j] in keys && keys[i] != keys[j];
      }
    }
  }

  /** The statement can be reconciled — its match keys are unique — exactly when no two payable lines that share a
      match key fall into different buckets: by API family, product family or attribution. */
  lemma {:induction false} ReconcilableExactly(t: Taxonomy, priced: seq<Rating.PricedLine>)
    ensures PayableReconciliation.UniqueKeys(Map(LinesOf(t, priced), AsExpected)) <==>
      forall p, q | p in Keep(priced, Rating.IsPayable) && q in Keep(priced, Rating.IsPayable) ::
        MatchKey(KeyOf(t, p)) == MatchKey(KeyOf(t, q)) ==> KeyOf(t, p) == KeyOf(t, q)
  {
    var payable := Keep(priced, Rating.IsPayable);
    var keys := Keys(payable, BucketKeyOf(t));
    forall i | 0 <= i < |keys| ensures LinesOf(t, priced)[i].key == keys[i] {
      BucketAmount(Members(payable, BucketKeyOf(t), keys[i]), keys[i]);
    }
    assert Map(Map(LinesOf(t, priced), AsExpected), PayableReconciliation.KeyOfExpected) == Map(keys, MatchKey);
    DistinctMatchKeys(keys);
    KeysAreLines(t, payable);
  }

  lemma KeysAreLines(t: Taxonomy, payable: seq<Rating.PricedLine>)
    ensures Distinguishes(Keys(payable, BucketKeyOf(t))) <==>
      forall p, q ::
          p in payable && q in payable && MatchKey(KeyOf(t, p)) == MatchKey(KeyOf(t, q)) ==> KeyOf(t, p) == KeyOf(t, q)
  {
    var keys := Keys(payable, BucketKeyOf(t));
    forall k ensures k in keys <==> exists p :: p in payable && KeyOf(t, p) == k {
      KeysExact(payable, BucketKeyOf(t), k);
    }
  }

  /** Two Hub calls of one fee class to endpoints of different API families are enough to make a statement that the
      reconciliation refuses. */
  lemma TwoFamiliesCannotBeReconciled(t: Taxonomy, p: Rating.PricedLine, q: Rating.PricedLine)
    requires Rating.IsHub(p) && Rating.IsHub(q) && p.feeClass == q.feeClass
    requires t.apiFamily(p.endpoint.GetOr("")) != t.apiFamily(q.endpoint.GetOr(""))
    ensures !PayableReconciliation.UniqueKeys(Map(LinesOf(t, [p, q]), AsExpected))
  {
    ReconcilableExactly(t, [p, q]);
    KeepExact([p, q], Rating.IsPayable);
    assert p in Keep([p, q], Rating.IsPayable) && q in Keep([p, q], Rating.IsPayable);
    assert MatchKey(KeyOf(t, p)) == MatchKey(KeyOf(t, q)) && KeyOf(t, p) != KeyOf(t, q);
  }
}
