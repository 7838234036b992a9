/** The whole of a rating run once its lines are priced: the batch caps, applied in place, and then the statements. */
module RatingRun {
  import opened Collections
  import opened Rating
  import BatchCaps

  datatype Run = Run(rated: RatingResult, adjustments: seq<BatchCaps.Adjustment>)

  /** The run, if no batch mixes capped fee classes with others. */
  function RunOf(priced: seq<PricedLine>, caps: map<string, nat>, clients: seq<Client>): Run {
    Run(Rated(BatchCaps.Capped(priced, caps), clients),
        BatchCaps.AdjustmentsOf(priced, caps, BatchCaps.BatchIds(priced)))
  }

  method RateUsage(lines: seq<PricedLine>, caps: map<string, nat>, clients: seq<Client>)
      returns (result: Result<Run, BatchCaps.Error>)
    ensures result.Ok? <==> BatchCaps.NoneMixed(lines, caps, BatchCaps.BatchIds(lines))
    ensures result.Ok? ==> result.value == RunOf(lines, caps, clients)
    ensures result.Err? ==> var ids := BatchCaps.BatchIds(lines);
      exists j :: 0 <= j < |ids| && BatchCaps.FirstMixed(lines, caps, ids, j)
          && result.error == BatchCaps.MixedFeeClasses(ids[j])
  {
    var priced := new PricedLine[|lines|](i requires 0 <= i < |lines| => lines[i]);
    assert priced[..] == lines;
    var adjustments := BatchCaps.ApplyBatchCaps(priced, caps);
    if adjustments.Err? {
      return Err(adjustments.error);
    }
    var rated := RateStatements(priced[..], clients);
    result := Ok(Run(rated, adjustments.value));
  }

  lemma {:induction false} SumOfSides(lines: seq<PricedLine>)
    ensures SumBy(lines, AmountOf) == SumBy(Keep(lines, IsReceivable), AmountOf) + SumBy(Keep(lines, IsHub), AmountOf)
      + SumBy(Keep(lines, IsLfi), AmountOf) + SumBy(Keep(lines, IsFree), AmountOf)
  {
    if lines != [] {
      var init, last := lines[..|lines| - 1], lines[|lines| - 1];
      SumOfSides(init);
      SumSnoc(Keep(init, IsReceivable), last, AmountOf);
      SumSnoc(Keep(init, IsHub), last, AmountOf);
      SumSnoc(Keep(init, IsLfi), last, AmountOf);
      SumSnoc(Keep(init, IsFree), last, AmountOf);
    }
  }

  /** A line that costs its counterparty nothing is priced at nothing and belongs to no batch. */
  predicate FreeIsFree(p: PricedLine) {
    IsFree(p) ==> p.amount == 0 && !BatchCaps.HasBatch(p)
  }

  predicate AllFree(lines: seq<PricedLine>) {
    forall p :: p in lines ==> FreeIsFree(p)
  }

  lemma FreeStaysFree(lines: seq<PricedLine>, caps: map<string, nat>)
    requires AllFree(lines)
    ensures SumBy(Keep(BatchCaps.Capped(lines, caps), IsFree), AmountOf) == 0
  {
    var after := BatchCaps.Capped(lines, caps);
    KeepExact(after, IsFree);
    forall p | p in Keep(after, IsFree) ensures AmountOf(p) == 0 {
      var i :| 0 <= i < |after| && after[i] == p;
      assert lines[i] in lines && after[i] == BatchCaps.CappedLine(lines, caps, i);
    }
    SumZero(Keep(after, IsFree), AmountOf);
  }

  /** Money is conserved from the priced lines to the statements: the three totals, what is left on free lines, which is
      nothing, and what the adjustments say was saved are what was priced before any cap. */
  lemma {:induction false} RunConserves(lines: seq<PricedLine>, caps: map<string, nat>, clients: seq<Client>)
    ensures var run := RunOf(lines, caps, clients);
      var stated := run.rated.totals.receivable + run.rated.totals.payableHub + run.rated.totals.payableLfi;
      && stated + SumBy(Keep(run.rated.priced, IsFree), AmountOf) + SumBy(run.adjustments, BatchCaps.SavedOf)
        == SumBy(lines, AmountOf)
      && (AllFree(lines) ==> stated + SumBy(run.adjustments, BatchCaps.SavedOf) == SumBy(lines, AmountOf))
  {
    var after := BatchCaps.Capped(lines, caps);
    BatchCaps.CappingSavesWhatItReports(lines, caps);
    SumOfSides(after);
    RatingConserves(after, clients);
    if AllFree(lines) {
      FreeStaysFree(lines, caps);
    }
  }
}
