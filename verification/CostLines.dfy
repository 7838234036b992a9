/** What every line of an expected cost statement says, in terms of the priced lines it was made from. */
module CostLines {
  import opened Collections
  import opened ExpectedCost
  import PayableReconciliation
  import Rating
  import Vat

  // ---------------------------------------------------------------- which priced lines a cost line stands for

  /** A Hub fee: owed to the scheme, outside any segment, in the family of the endpoint it came through. */
  predicate IsHubFee(t: Taxonomy, p: Rating.PricedLine, k: BucketKey) {
    && p.side == Rating.PayableHub
    && k.recipientType == PayableReconciliation.Nebras && k.recipientId == "NEBRAS"
    && k.stream == PayableReconciliation.Hub && k.segment == Unclassified
    && k.family == t.productFamily(t.apiFamily(p.endpoint.GetOr("")))
  }

  /** A fee owed to the LFI on the line, for a payment or for data, corporate or retail by its fee class. */
  predicate IsLfiFee(p: Rating.PricedLine, k: BucketKey) {
    && p.side == Rating.PayableLfi
    && k.recipientType == PayableReconciliation.UnderlyingLfi && k.recipientId == p.counterpartyLfiId.GetOr("")
    && (if |p.feeClass| >= 8 && p.feeClass[..8] == "payment."
        then k.stream == PayableReconciliation.LfiPayment && k.family == Payments
        else k.stream == PayableReconciliation.LfiData && k.family == Data)
    && k.segment == (if p.feeClass == "payment.corporate" || p.feeClass == "data.corporate_page" then Corporate
                     else Retail)
  }

  /** Who inside the institution bears it: what is configured for the client, if anything is. */
  predicate IsAttributed(t: Taxonomy, p: Rating.PricedLine, k: BucketKey) {
    if p.clientId.Some? && p.clientId.value != "" && p.clientId.value in t.attribution
    then k.internalProduct == t.attribution[p.clientId.value].internalProduct
      && k.costCentre == t.attribution[p.clientId.value].costCentre
    else k.internalProduct == "" && k.costCentre == ""
  }

  function FallsInto(t: Taxonomy, k: BucketKey): Rating.PricedLine -> bool {
    (p: Rating.PricedLine) =>
      && (IsHubFee(t, p, k) || IsLfiFee(p, k))
      && k.feeClass == p.feeClass && k.apiFamily == t.apiFamily(p.endpoint.GetOr(""))
      && IsAttributed(t, p, k)
  }

  lemma PrefixIsTaken(s: string)
    ensures "payment." <= s <==> |s| >= 8 && s[..8] == "payment."
  {
  }

  lemma FallsIntoExactly(t: Taxonomy, p: Rating.PricedLine, k: BucketKey)
    ensures FallsInto(t, k)(p) <==> Rating.IsPayable(p) && KeyOf(t, p) == k
  {
    PrefixIsTaken(p.feeClass);
    if FallsInto(t, k)(p) {
      assert KeyOf(t, p).segment == k.segment && KeyOf(t, p).stream == k.stream && KeyOf(t, p).family == k.family;
    }
  }

  lemma BucketHoldsItsLines(t: Taxonomy, priced: seq<Rating.PricedLine>, k: BucketKey)
    ensures Members(Keep(priced, Rating.IsPayable), BucketKeyOf(t), k) == Keep(priced, FallsInto(t, k))
  {
    var payable := Keep(priced, Rating.IsPayable);
    var mine := (p: Rating.PricedLine) => KeyOf(t, p) == k;
    MembersAreKept(payable, BucketKeyOf(t), k, mine);
    forall p | p in priced ensures FallsInto(t, k)(p) == (Rating.IsPayable(p) && mine(p)) {
      FallsIntoExactly(t, p, k);
    }
    KeepTwice(priced, Rating.IsPayable, mine, FallsInto(t, k));
  }

  lemma LineIsOfItsBucket(t: Taxonomy, priced: seq<Rating.PricedLine>, l: CostLine)
    requires l in LinesOf(t, priced)
    ensures l == LineOf(BucketOf(Keep(priced, FallsInto(t, l.key)), l.key))
    ensures exists p :: p in priced && FallsInto(t, l.key)(p)
  {
    var payable := Keep(priced, Rating.IsPayable);
    var buckets := Records(payable, BucketKeyOf(t), BucketRecord());
    var i :| 0 <= i < |buckets| && LineOf(buckets[i]) == l;
    var k := RecordIn(payable, BucketKeyOf(t), BucketRecord(), buckets[i]);
    BucketHoldsItsLines(t, priced, k);
    BucketAmount(Keep(priced, FallsInto(t, k)), k);
    KeepExact(priced, Rating.IsPayable);
    var p :| p in payable && BucketKeyOf(t)(p) == k;
    FallsIntoExactly(t, p, k);
  }

  /** Net fees to the scheme attract VAT at 5 percent of the net, fees to an LFI contain it at 5/105 of the gross, both
      to the nearest milli-fil. */
  ghost predicate PricedWithVat(l: CostLine, amount: int) {
    && l.gross == l.net + l.vat
    && (l.key.recipientType == PayableReconciliation.Nebras ==>
      l.net == amount && 2 * Abs(100 * l.vat - 5 * amount) <= 100)
    && (l.key.recipientType == PayableReconciliation.UnderlyingLfi ==>
      l.gross == amount && 2 * Abs(105 * l.vat - 5 * amount) <= 105)
  }

  lemma SplitPricesWithVat(b: Bucket)
    requires b.key.recipientType.Nebras? || b.key.recipientType.UnderlyingLfi?
    ensures PricedWithVat(LineOf(b), b.amount)
  {
    Vat.VatIsNear(b.amount);
  }

  /** Every line of the statement states the units, the number and the price of the payable lines it stands for, with
      the VAT of its recipient. */
  lemma EveryCostLineSaysItsFees(t: Taxonomy, priced: seq<Rating.PricedLine>, l: CostLine)
    requires l in LinesOf(t, priced)
    ensures var fees := Keep(priced, FallsInto(t, l.key));
      && l.units == SumBy(fees, (p: Rating.PricedLine) => p.units)
      && l.events == |fees| > 0
      && PricedWithVat(l, SumBy(fees, (p: Rating.PricedLine) => p.amount))
  {
    var fees := Keep(priced, FallsInto(t, l.key));
    LineIsOfItsBucket(t, priced, l);
    KeepExact(priced, FallsInto(t, l.key));
    BucketCounts(fees, l.key);
    BucketAmount(fees, l.key);
    SumCongruence(fees, Rating.FigureOf(Rating.Units), (p: Rating.PricedLine) => p.units);
    SumCongruence(fees, Rating.AmountOf, (p: Rating.PricedLine) => p.amount);
    SumOnes(fees, Rating.FigureOf(Rating.Events));
    SplitPricesWithVat(BucketOf(fees, l.key));
  }

  function KeyStated(l: CostLine): BucketKey { l.key }

  /** The statement has one line for everything some payable line falls into, and no other. */
  lemma {:induction false} CostLinesAreForWhatIsPayable(t: Taxonomy, priced: seq<Rating.PricedLine>, k: BucketKey)
    ensures NoDuplicates(Map(LinesOf(t, priced), KeyStated))
    ensures k in Map(LinesOf(t, priced), KeyStated) <==> exists p :: p in priced && FallsInto(t, k)(p)
  {
    var payable := Keep(priced, Rating.IsPayable);
    var keys := Keys(payable, BucketKeyOf(t));
    forall i | 0 <= i < |keys| ensures LinesOf(t, priced)[i].key == keys[i] {
      BucketAmount(Members(payable, BucketKeyOf(t), keys[i]), keys[i]);
    }
    assert Map(LinesOf(t, priced), KeyStated) == keys;
    MembersEmpty(payable, BucketKeyOf(t), k);
    BucketHoldsItsLines(t, priced, k);
    KeepNothing(priced, FallsInto(t, k));
  }

  // ---------------------------------------------------------------- what a line cites

  lemma {:induction false} BucketCites(lines: seq<Rating.PricedLine>, k: BucketKey, id: string)
    ensures NoDuplicates(BucketOf(lines, k).eventIds) && NoDuplicates(BucketOf(lines, k).interactionIds)
    ensures id in BucketOf(lines, k).eventIds <==> exists p :: p in lines && p.eventId == id
    ensures id in BucketOf(lines, k).interactionIds <==> id != "" && exists p :: p in lines && p.traceId == Some(id)
  {
    if lines != [] {
      var init, last := lines[..|lines| - 1], lines[|lines| - 1];
      assert lines == init + [last];
      BucketCites(init, k, id);
      BucketCites(init, k, last.eventId);
      BucketCites(init, k, last.traceId.GetOr(""));
    }
  }

  /** Every line cites each event and each interaction it stands for, once. */
  lemma EveryCostLineCitesItsFees(t: Taxonomy, priced: seq<Rating.PricedLine>, l: CostLine, id: string)
    requires l in LinesOf(t, priced)
    ensures NoDuplicates(l.eventIds) && NoDuplicates(l.interactionIds)
    ensures id in l.eventIds <==> exists p :: p in priced && FallsInto(t, l.key)(p) && p.eventId == id
    ensures id in l.interactionIds <==>
      id != "" && exists p :: p in priced && FallsInto(t, l.key)(p) && p.traceId == Some(id)
  {
    LineIsOfItsBucket(t, priced, l);
    KeepExact(priced, FallsInto(t, l.key));
    BucketCites(Keep(priced, FallsInto(t, l.key)), l.key, id);
  }

  // ---------------------------------------------------------------- totals and refusal

  /** Each total is that of its own stream, and of all lines. */
  lemma TotalsAreOfTheirStreams(lines: seq<CostLine>)
    ensures var totals := TotalsOf(lines);
      && totals.hubNet == SumBy(lines, (l: CostLine) => if l.key.stream == PayableReconciliation.Hub then l.net else 0)
      && totals.lfiPaymentNet
        == SumBy(lines, (l: CostLine) => if l.key.stream == PayableReconciliation.LfiPayment then l.net else 0)
      && totals.lfiDataNet
        == SumBy(lines, (l: CostLine) => if l.key.stream == PayableReconciliation.LfiData then l.net else 0)
      && totals.net == SumBy(lines, (l: CostLine) => l.net)
      && totals.vat == SumBy(lines, (l: CostLine) => l.vat)
      && totals.gross == SumBy(lines, (l: CostLine) => l.gross)
  {
    SumOfKept(lines, InStream(PayableReconciliation.Hub), NetOf,
      (l: CostLine) => if l.key.stream == PayableReconciliation.Hub then l.net else 0);
    SumOfKept(lines, InStream(PayableReconciliation.LfiPayment), NetOf,
      (l: CostLine) => if l.key.stream == PayableReconciliation.LfiPayment then l.net else 0);
    SumOfKept(lines, InStream(PayableReconciliation.LfiData), NetOf,
      (l: CostLine) => if l.key.stream == PayableReconciliation.LfiData then l.net else 0);
    SumCongruence(lines, NetOf, (l: CostLine) => l.net);
    SumCongruence(lines, VatOf, (l: CostLine) => l.vat);
    SumCongruence(lines, GrossOf, (l: CostLine) => l.gross);
  }

  /** The line says which endpoint it came through and, unless it is a Hub fee, to which LFI it is owed. */
  predicate Attributable(p: Rating.PricedLine) {
    && (p.side == Rating.PayableHub || p.side == Rating.PayableLfi ==> p.endpoint.Some? && !Blank(p.endpoint.value))
    && (p.side == Rating.PayableLfi ==> p.counterpartyLfiId.Some? && !Blank(p.counterpartyLfiId.value))
  }

  /** The statement is made exactly when every payable line says where it belongs. */
  lemma StatementRefusedExactly(t: Taxonomy, priced: seq<Rating.PricedLine>)
    ensures StatementOf(t, priced).Ok? <==> forall p :: p in priced ==> Attributable(p)
    ensures StatementOf(t, priced).Ok? ==>
      var made := StatementOf(t, priced).value;
      made.lines == LinesOf(t, priced) && made.totals == TotalsOf(made.lines)
  {
    FirstOfNone(priced, LineError);
    assert Blank("");
    forall p | p in priced ensures LineError(p).None? <==> Attributable(p) {
    }
  }

  /** What the first line that cannot be attributed is refused for. */
  ghost predicate FirstUnattributable(priced: seq<Rating.PricedLine>, i: nat, e: Error) {
    && i < |priced| && !Attributable(priced[i]) && (forall j :: 0 <= j < i ==> Attributable(priced[j]))
    && e == (if Blank(priced[i].endpoint.GetOr("")) then NoEndpoint(priced[i].eventId)
             else NoCounterparty(priced[i].eventId))
  }

  /** The refusal names the first line that cannot be attributed and what is missing on it. */
  lemma RefusalNamesTheFirst(t: Taxonomy, priced: seq<Rating.PricedLine>)
    requires StatementOf(t, priced).Err?
    ensures exists i: nat :: FirstUnattributable(priced, i, StatementOf(t, priced).error)
  {
    var i := FirstOfFails(priced, LineError);
    assert Blank("");
    forall j | 0 <= j < i ensures Attributable(priced[j]) {
      assert LineError(priced[j]).None?;
    }
    assert FirstUnattributable(priced, i, StatementOf(t, priced).error);
  }

  // ---------------------------------------------------------------- what the reconciliation is told

  function UnitsExpected(l: PayableReconciliation.ExpectedLine): int { l.units }

  function NetExpected(l: PayableReconciliation.ExpectedLine): int { l.net }

  function VatExpected(l: PayableReconciliation.ExpectedLine): int { l.vat }

  /** The reconciliation is told of the statement's recipients, streams, fee classes and citations, line by line … */
  lemma ReconciliationIsToldEachLine(l: CostLine)
    ensures var e := AsExpected(l);
      && e.recipientType == l.key.recipientType && e.recipientId == l.key.recipientId && e.feeStream == l.key.stream
      && e.feeClass == l.key.feeClass && e.eventIds == l.eventIds && e.interactionIds == l.interactionIds
  {
  }

  /** … and expects, in all, the statement's net and VAT and the units of its lines. */
  lemma ReconciliationExpectsTheTotals(t: Taxonomy, priced: seq<Rating.PricedLine>)
    ensures var lines := LinesOf(t, priced);
      var expected := Map(lines, AsExpected);
      && SumBy(expected, NetExpected) == TotalsOf(lines).net && SumBy(expected, VatExpected) == TotalsOf(lines).vat
      && SumBy(expected, UnitsExpected) == SumBy(Keep(priced, Rating.IsPayable), (p: Rating.PricedLine) => p.units)
  {
    var lines := LinesOf(t, priced);
    SumOfMap(lines, AsExpected, NetExpected, NetOf);
    SumOfMap(lines, AsExpected, VatExpected, VatOf);
    SumOfMap(lines, AsExpected, UnitsExpected, UnitsOf);
    CostCountsEveryLine(t, priced);
    SumCongruence(Keep(priced, Rating.IsPayable), Rating.FigureOf(Rating.Units), (p: Rating.PricedLine) => p.units);
  }
}
