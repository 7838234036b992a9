/** What the batch caps do, told by the fields of the priced lines and the card's caps alone. */
module CappedBatches {
  import opened Collections
  import opened BatchCaps
  import Money
  import Rating
  import RatingRun

  function InBatch(id: string): Priced -> bool {
    (p: Priced) => p.batchId == Some(id)
  }

  /** What the lines of a batch were priced at. */
  function PricedAt(lines: seq<Priced>, id: string): int {
    SumBy(Keep(lines, InBatch(id)), (p: Priced) => p.amount)
  }

  /** Every line of the batch is of a fee class with this one cap. */
  ghost predicate GovernedBy(lines: seq<Priced>, caps: map<string, nat>, id: string, cap: nat) {
    && (exists p :: p in lines && p.batchId == Some(id))
    && (forall p :: p in lines && p.batchId == Some(id) ==> p.feeClass in caps && caps[p.feeClass] == cap)
  }

  /** Two lines of the batch, one of a capped fee class and the other of a fee class with another cap or none. */
  ghost predicate Mixes(lines: seq<Priced>, caps: map<string, nat>, id: string) {
    exists p, q ::
      && p in lines && q in lines && p.batchId == Some(id) && q.batchId == Some(id)
      && p.feeClass in caps && (q.feeClass in caps ==> caps[q.feeClass] != caps[p.feeClass])
  }

  lemma BatchIsKept(lines: seq<Priced>, id: string)
    requires id != ""
    ensures Batch(lines, id) == Keep(lines, InBatch(id)) && Gross(lines, id) == PricedAt(lines, id)
    ensures forall p :: p in Batch(lines, id) <==> p in lines && p.batchId == Some(id)
  {
    MembersAreKept(lines, BatchOf, id, InBatch(id));
    KeepExact(lines, InBatch(id));
    SumCongruence(Batch(lines, id), Rating.AmountOf, (p: Priced) => p.amount);
  }

  lemma CapsFound(caps: map<string, nat>, batch: seq<Priced>)
    ensures forall p :: p in batch ==> CapFor(caps)(p) in Map(batch, CapFor(caps))
    ensures forall c :: c in Map(batch, CapFor(caps)) ==> exists p :: p in batch && CapFor(caps)(p) == c
  {
    forall p | p in batch ensures CapFor(caps)(p) in Map(batch, CapFor(caps)) {
      MapIn(batch, p, CapFor(caps));
    }
    forall c | c in Map(batch, CapFor(caps)) ensures exists p :: p in batch && CapFor(caps)(p) == c {
      var i :| 0 <= i < |batch| && CapFor(caps)(batch[i]) == c;
      assert batch[i] in batch;
    }
  }

  /** A batch is governed by a cap exactly when all of its lines are. */
  lemma {:induction false} BatchIsGovernedExactly(lines: seq<Priced>, caps: map<string, nat>, id: string, cap: nat)
    requires id != ""
    ensures BatchVerdict(lines, caps, id) == CapAt(cap) <==> GovernedBy(lines, caps, id, cap)
  {
    var batch := Batch(lines, id);
    var found := Map(batch, CapFor(caps));
    BatchIsKept(lines, id);
    CapsFound(caps, batch);
    if GovernedBy(lines, caps, id, cap) {
      var p :| p in lines && p.batchId == Some(id);
      assert p in batch && CapFor(caps)(p) == Some(cap);
      assert found != [] && forall c :: c in found ==> c == Some(cap);
      assert found[0] in found;
    }
    if VerdictOn(found) == CapAt(cap) {
      assert found[0] in found && found[0] == Some(cap);
      forall p | p in lines && p.batchId == Some(id) ensures p.feeClass in caps && caps[p.feeClass] == cap {
        assert CapFor(caps)(p) in found;
      }
      assert batch[0] in batch;
    }
  }

  lemma VerdictIsMixedExactly(found: seq<Option<nat>>)
    ensures VerdictOn(found) == Mixed <==> exists c, d :: c in found && d in found && c.Some? && d != c
  {
    if VerdictOn(found) == Mixed {
      var c :| c in found && c.Some?;
      assert found[0] in found;
      var d :| d in found && d != c;
      assert c in found && d in found && c.Some? && d != c;
    }
  }

  lemma MixesIsMixed(lines: seq<Priced>, caps: map<string, nat>, id: string)
    requires id != "" && Mixes(lines, caps, id)
    ensures BatchVerdict(lines, caps, id) == Mixed
  {
    var p, q :|
      && p in lines && q in lines && p.batchId == Some(id) && q.batchId == Some(id)
      && p.feeClass in caps && (q.feeClass in caps ==> caps[q.feeClass] != caps[p.feeClass]);
    var batch := Batch(lines, id);
    BatchIsKept(lines, id);
    MapIn(batch, p, CapFor(caps));
    MapIn(batch, q, CapFor(caps));
    VerdictIsMixedExactly(Map(batch, CapFor(caps)));
  }

  lemma MixedMixes(lines: seq<Priced>, caps: map<string, nat>, id: string)
    requires id != "" && BatchVerdict(lines, caps, id) == Mixed
    ensures Mixes(lines, caps, id)
  {
    var batch := Batch(lines, id);
    var found := Map(batch, CapFor(caps));
    BatchIsKept(lines, id);
    VerdictIsMixedExactly(found);
    var c, d :| c in found && d in found && c.Some? && d != c;
    var i :| 0 <= i < |batch| && found[i] == c;
    var j :| 0 <= j < |batch| && found[j] == d;
    assert batch[i] in batch && batch[j] in batch;
  }

  /** A batch is refused as mixed exactly when a line of it is capped and another one is not, or differently. */
  lemma BatchMixesExactly(lines: seq<Priced>, caps: map<string, nat>, id: string)
    requires id != ""
    ensures BatchVerdict(lines, caps, id) == Mixed <==> Mixes(lines, caps, id)
  {
    if Mixes(lines, caps, id) {
      MixesIsMixed(lines, caps, id);
    } else if BatchVerdict(lines, caps, id) == Mixed {
      MixedMixes(lines, caps, id);
    }
  }

  /** A rating run is refused exactly when some batch of it mixes caps. */
  lemma {:induction false} RunRefusedExactly(lines: seq<Priced>, caps: map<string, nat>)
    ensures NoneMixed(lines, caps, BatchIds(lines)) <==> forall id :: id != "" ==> !Mixes(lines, caps, id)
  {
    NoEmptyId(lines);
    forall id | id != "" ensures Mixes(lines, caps, id) <==>
        id in BatchIds(lines) && BatchVerdict(lines, caps, id).Mixed? {
      BatchMixesExactly(lines, caps, id);
      if Mixes(lines, caps, id) {
        var p :| p in lines && p.batchId == Some(id);
        BatchIdsExact(lines, p);
      }
    }
  }

  lemma OverCapExactly(lines: seq<Priced>, caps: map<string, nat>, id: string, cap: nat)
    requires id != ""
    ensures OverCap(lines, caps, id) && BatchVerdict(lines, caps, id).cap == cap
      <==> GovernedBy(lines, caps, id, cap) && PricedAt(lines, id) > cap
  {
    BatchIsGovernedExactly(lines, caps, id, cap);
    BatchIsKept(lines, id);
  }

  /** A line of a batch priced above its cap keeps everything but its amount, and says what that was. */
  lemma LineOverItsCap(lines: seq<Priced>, caps: map<string, nat>, i: nat, id: string, cap: nat)
    requires i < |lines| && id != "" && lines[i].batchId == Some(id)
    requires GovernedBy(lines, caps, id, cap) && PricedAt(lines, id) > cap
    ensures var line := Capped(lines, caps)[i];
      line == lines[i].(amount := line.amount, cappedFrom := Some(lines[i].amount))
  {
    OverCapExactly(lines, caps, id, cap);
  }

  /** Every other line is left as it was. */
  lemma LineLeftAlone(lines: seq<Priced>, caps: map<string, nat>, i: nat)
    requires i < |lines|
    requires var id := lines[i].batchId.GetOr("");
      id == "" || forall cap :: GovernedBy(lines, caps, id, cap) ==> PricedAt(lines, id) <= cap
    ensures Capped(lines, caps)[i] == lines[i]
  {
    var id := BatchOf(lines[i]);
    if HasBatch(lines[i]) && OverCap(lines, caps, id) {
      OverCapExactly(lines, caps, id, BatchVerdict(lines, caps, id).cap);
    }
  }

  lemma {:induction false} NotTheLast(lines: seq<Priced>, i: nat, j: nat, id: string)
    requires i < j < |lines| && BatchOf(lines[i]) == BatchOf(lines[j]) == id
    ensures |Batch(lines[..i], id)| < |Batch(lines[..j], id)| < |Batch(lines, id)|
  {
    assert lines[..j][..i] == lines[..i];
    RankIsInside(lines[..j], i, id);
    RankIsInside(lines, j, id);
  }

  /** Every line but the last of a batch over its cap is charged its proportion of the cap, to the nearest milli-fil. */
  lemma ChargedInProportion(lines: seq<Priced>, caps: map<string, nat>, i: nat, j: nat, id: string, cap: nat)
    requires i < j < |lines| && id != "" && lines[i].batchId == lines[j].batchId == Some(id)
    requires GovernedBy(lines, caps, id, cap) && PricedAt(lines, id) > cap
    ensures 2 * Abs(Capped(lines, caps)[i].amount * PricedAt(lines, id) - lines[i].amount * cap) <= PricedAt(lines, id)
  {
    var gross, rank := PricedAt(lines, id), Rank(lines, i);
    OverCapExactly(lines, caps, id, cap);
    BatchIsKept(lines, id);
    NotTheLast(lines, i, j, id);
    PositionsLocate(lines, id, rank);
    RankLeadsBack(lines, i);
    assert Batch(lines, id)[rank] == lines[i];
    Money.RoundingError(lines[i].amount * cap, gross);
    assert Capped(lines, caps)[i].amount == Money.DivideHalfUp(lines[i].amount * cap, gross);
  }

  /** Together the lines of a batch over its cap are charged the cap. */
  lemma ChargedTheCap(lines: seq<Priced>, caps: map<string, nat>, id: string, cap: nat)
    requires id != "" && GovernedBy(lines, caps, id, cap) && PricedAt(lines, id) > cap
    ensures PricedAt(Capped(lines, caps), id) == cap
  {
    OverCapExactly(lines, caps, id, cap);
    CappedBatchCostsItsCap(lines, caps, id);
    BatchIsKept(Capped(lines, caps), id);
  }

  // ---------------------------------------------------------------- what is reported

  function AdjustedBatch(a: Adjustment): string { a.batchId }

  function IsOverCap(lines: seq<Priced>, caps: map<string, nat>): string -> bool {
    (id: string) => OverCap(lines, caps, id)
  }

  lemma {:induction false} AdjustmentsAmong(lines: seq<Priced>, caps: map<string, nat>, ids: seq<string>)
    ensures Map(AdjustmentsOf(lines, caps, ids), AdjustedBatch) == Keep(ids, IsOverCap(lines, caps))
    ensures forall a :: a in AdjustmentsOf(lines, caps, ids) ==>
      a.batchId in ids && OverCap(lines, caps, a.batchId) && a == AdjustmentOf(lines, caps, a.batchId)
  {
    if ids != [] {
      AdjustmentsAmong(lines, caps, ids[..|ids| - 1]);
    }
  }

  lemma {:induction false} KeptStayDistinct(ids: seq<string>, p: string -> bool)
    requires NoDuplicates(ids)
    ensures NoDuplicates(Keep(ids, p))
  {
    if ids != [] {
      var init, last := ids[..|ids| - 1], ids[|ids| - 1];
      KeptStayDistinct(init, p);
      KeepExact(init, p);
      forall i | 0 <= i < |init| ensures init[i] != last {
        assert ids[i] != ids[|init|];
      }
    }
  }

  lemma {:induction false} AdjustedOnce(lines: seq<Priced>, caps: map<string, nat>, id: string)
    ensures var adjusted := Map(AdjustmentsOf(lines, caps, BatchIds(lines)), AdjustedBatch);
      NoDuplicates(adjusted) && (id in adjusted <==> id in BatchIds(lines) && OverCap(lines, caps, id))
  {
    AdjustmentsAmong(lines, caps, BatchIds(lines));
    KeptStayDistinct(BatchIds(lines), IsOverCap(lines, caps));
    KeepExact(BatchIds(lines), IsOverCap(lines, caps));
  }

  lemma ListedAndOverCap(lines: seq<Priced>, caps: map<string, nat>, id: string)
    ensures id in BatchIds(lines) && OverCap(lines, caps, id)
      <==> id != "" && exists cap :: GovernedBy(lines, caps, id, cap) && PricedAt(lines, id) > cap
  {
    NoEmptyId(lines);
    if id != "" {
      if OverCap(lines, caps, id) {
        OverCapExactly(lines, caps, id, BatchVerdict(lines, caps, id).cap);
      }
      forall cap | GovernedBy(lines, caps, id, cap) && PricedAt(lines, id) > cap
        ensures id in BatchIds(lines) && OverCap(lines, caps, id)
      {
        OverCapExactly(lines, caps, id, cap);
        var p :| p in lines && p.batchId == Some(id);
        BatchIdsExact(lines, p);
      }
    }
  }

  /** Exactly the batches priced above the one cap that governs them are reported, once each. */
  lemma AdjustedExactly(lines: seq<Priced>, caps: map<string, nat>, clients: seq<Rating.Client>, id: string)
    ensures var adjusted := Map(RatingRun.RunOf(lines, caps, clients).adjustments, AdjustedBatch);
      && NoDuplicates(adjusted)
      && (id in adjusted <==> id != "" && exists cap :: GovernedBy(lines, caps, id, cap) && PricedAt(lines, id) > cap)
  {
    AdjustedOnce(lines, caps, id);
    ListedAndOverCap(lines, caps, id);
  }

  /** A report states what the batch was priced at, its cap, the difference, and how many lines it has. */
  lemma {:induction false} AdjustmentSaysWhatWasSaved(lines: seq<Priced>, caps: map<string, nat>,
      clients: seq<Rating.Client>, a: Adjustment)
    requires a in RatingRun.RunOf(lines, caps, clients).adjustments
    ensures a.gross == PricedAt(lines, a.batchId) > a.capped && a.saved == a.gross - a.capped
    ensures a.capped >= 0 && GovernedBy(lines, caps, a.batchId, a.capped)
    ensures a.transactionCount == |Keep(lines, InBatch(a.batchId))|
  {
    AdjustmentsAmong(lines, caps, BatchIds(lines));
    NoEmptyId(lines);
    OverCapExactly(lines, caps, a.batchId, BatchVerdict(lines, caps, a.batchId).cap);
    BatchIsKept(lines, a.batchId);
  }

  // ---------------------------------------------------------------- which batch refuses the run

  /** The first line of the batch stands at `i`. */
  ghost predicate StartsAt(lines: seq<Priced>, id: string, i: nat) {
    i < |lines| && lines[i].batchId == Some(id) && forall j :: 0 <= j < i ==> lines[j].batchId != Some(id)
  }

  /** Both are listed, the first before the second. */
  ghost predicate ListedBefore(ids: seq<string>, a: string, b: string) {
    exists k, m :: 0 <= k < m < |ids| && ids[k] == a && ids[m] == b
  }

  lemma StillListedBefore(ids: seq<string>, more: seq<string>, a: string, b: string)
    requires ListedBefore(ids, a, b)
    ensures ListedBefore(ids + more, a, b)
  {
    var k, m :| 0 <= k < m < |ids| && ids[k] == a && ids[m] == b;
    assert (ids + more)[k] == a && (ids + more)[m] == b;
  }

  lemma ListedLast(ids: seq<string>, a: string, b: string)
    requires a in ids
    ensures ListedBefore(ids + [b], a, b)
  {
    var k :| 0 <= k < |ids| && ids[k] == a;
    assert (ids + [b])[k] == a && (ids + [b])[|ids|] == b;
  }

  lemma BatchIdsSnoc(lines: seq<Priced>, last: Priced)
    ensures BatchIds(lines + [last]) == BatchIds(lines)
      + if HasBatch(last) && BatchOf(last) !in BatchIds(lines) then [BatchOf(last)] else []
  {
    KeepSnoc(lines, last, HasBatch);
    if HasBatch(last) {
      KeysSnoc(Keep(lines, HasBatch), last, BatchOf);
    }
  }

  lemma ListedEarlier(lines: seq<Priced>, last: Priced, a: string, b: string)
    requires ListedBefore(BatchIds(lines), a, b)
    ensures ListedBefore(BatchIds(lines + [last]), a, b)
  {
    BatchIdsSnoc(lines, last);
    var more := if HasBatch(last) && BatchOf(last) !in BatchIds(lines) then [BatchOf(last)] else [];
    StillListedBefore(BatchIds(lines), more, a, b);
  }

  lemma ListedNow(lines: seq<Priced>, last: Priced, a: string, b: string)
    requires a in BatchIds(lines) && b != "" && last.batchId == Some(b)
    requires forall i :: 0 <= i < |lines| ==> lines[i].batchId != Some(b)
    ensures ListedBefore(BatchIds(lines + [last]), a, b)
  {
    BatchIdsSnoc(lines, last);
    NotListedBefore(lines, b);
    ListedLast(BatchIds(lines), a, b);
  }

  lemma Listed(lines: seq<Priced>, id: string, i: nat)
    requires id != "" && i < |lines| && lines[i].batchId == Some(id)
    ensures id in BatchIds(lines)
  {
    assert lines[i] in lines;
    BatchIdsExact(lines, lines[i]);
  }

  lemma {:induction false} ListedWhereTheyStart(lines: seq<Priced>, a: string, b: string, i: nat, j: nat)
    requires a != "" && b != "" && StartsAt(lines, a, i) && StartsAt(lines, b, j) && i < j
    ensures ListedBefore(BatchIds(lines), a, b)
  {
    var init, last := lines[..|lines| - 1], lines[|lines| - 1];
    assert lines == init + [last];
    if j < |init| {
      ListedWhereTheyStart(init, a, b, i, j);
      ListedEarlier(init, last, a, b);
    } else {
      Listed(init, a, i);
      ListedNow(init, last, a, b);
    }
  }

  lemma NotListedBefore(lines: seq<Priced>, id: string)
    requires id != "" && forall i :: 0 <= i < |lines| ==> lines[i].batchId != Some(id)
    ensures id !in BatchIds(lines)
  {
    KeysExact(Keep(lines, HasBatch), BatchOf, id);
    KeepExact(lines, HasBatch);
  }

  /** The batch a run is refused for mixes caps, and no batch that starts before it does. */
  lemma {:induction false} RefusedForTheFirst(lines: seq<Priced>, caps: map<string, nat>, n: nat)
    requires n < |BatchIds(lines)| && FirstMixed(lines, caps, BatchIds(lines), n)
    ensures Mixes(lines, caps, BatchIds(lines)[n])
    ensures forall id, i: nat, j: nat ::
      id != "" && StartsAt(lines, id, i) && StartsAt(lines, BatchIds(lines)[n], j) && i < j ==> !Mixes(lines, caps, id)
  {
    var ids := BatchIds(lines);
    var first := ids[n];
    assert first in ids;
    NoEmptyId(lines);
    BatchMixesExactly(lines, caps, first);
    forall id, i: nat, j: nat | id != "" && StartsAt(lines, id, i) && StartsAt(lines, first, j) && i < j
      ensures !Mixes(lines, caps, id)
    {
      ListedWhereTheyStart(lines, id, first, i, j);
      var k, m :| 0 <= k < m < |ids| && ids[k] == id && ids[m] == first;
      assert m == n;
      assert ids[..n][k] == id;
      assert ids[k] in ids[..n];
      BatchMixesExactly(lines, caps, id);
    }
  }
}
