/** What the verdicts of a payable reconciliation mean: which pairs are wrong recipients, and when a run is clean. */
module ReconciliationVerdicts {
  import opened Collections
  import opened PayableReconciliation
  import opened ReconciliationTheorems

  // ---------------------------------------------------------------- wrong recipients

  function ExpectedOfClass(f: string): ExpectedLine -> bool {
    (e: ExpectedLine) => e.feeClass == f
  }

  function PairOfClass(f: string): Pair -> bool {
    (p: Pair) => p.own.feeClass == f
  }

  /** The pairing restricted to one fee class. */
  function ClassPairing(p: Pairing, f: string): Pairing {
    Pairing(Keep(p.pairs, PairOfClass(f)), Keep(p.expectedLeft, ExpectedOfClass(f)),
        Keep(p.chargesLeft, SameFeeClass(f)))
  }

  /** What the pairing of one fee class should be: its first leftover expectation against its only
      leftover charge, and nothing at all when there is no such unambiguous charge. */
  function UnambiguousPairing(own: seq<ExpectedLine>, charges: seq<Charge>): Pairing {
    if own != [] && |charges| == 1 then Pairing([Pair(own[0], charges[0])], own[1..], [])
    else Pairing([], own, charges)
  }

  lemma OtherClassUntouched(cs: seq<Charge>, c: Charge, f: string)
    requires DistinctKeys(cs) && c in cs
    ensures Keep(Keep(cs, OtherKey(c.key)), SameFeeClass(f)) ==
      if c.key.feeClass == f then Keep(Keep(cs, SameFeeClass(f)), OtherKey(c.key)) else Keep(cs, SameFeeClass(f))
  {
    if c.key.feeClass == f {
      var both := (x: Charge) => x.key != c.key && x.key.feeClass == f;
      KeepTwice(cs, OtherKey(c.key), SameFeeClass(f), both);
      KeepTwice(cs, SameFeeClass(f), OtherKey(c.key), both);
    } else {
      KeepTwice(cs, OtherKey(c.key), SameFeeClass(f), SameFeeClass(f));
    }
  }

  lemma OnlyCharge(cs: seq<Charge>)
    requires |cs| == 1
    ensures Keep(cs, OtherKey(cs[0].key)) == []
  {
    KeepNothing(cs, OtherKey(cs[0].key));
  }

  /** The order-dependent loop settles every fee class independently and unambiguously. */
  lemma {:induction false} PairingIsExact(own: seq<ExpectedLine>, charges: seq<Charge>, f: string)
    requires DistinctKeys(charges)
    ensures ClassPairing(PairRecipients(own, charges), f)
         == UnambiguousPairing(Keep(own, ExpectedOfClass(f)), Keep(charges, SameFeeClass(f)))
  {
    if own != [] {
      var init, e := own[..|own| - 1], own[|own| - 1];
      PairingIsExact(init, charges, f);
      PairingPartitions(init, charges);
      PairingStep(PairRecipients(init, charges), e, f);
    }
  }

  lemma PairingStep(before: Pairing, e: ExpectedLine, f: string)
    requires DistinctKeys(before.chargesLeft)
    ensures var candidates := Keep(before.chargesLeft, SameFeeClass(e.feeClass));
      |candidates| == 1 ==>
        ClassPairing(Pairing(before.pairs + [Pair(e, candidates[0])], before.expectedLeft,
            Keep(before.chargesLeft, OtherKey(candidates[0].key))), f)
        == if e.feeClass == f then ClassPairing(before,
            f).(pairs := ClassPairing(before, f).pairs + [Pair(e, candidates[0])], chargesLeft := [])
           else ClassPairing(before, f)
    ensures ClassPairing(before.(expectedLeft := before.expectedLeft + [e]), f) ==
      if e.feeClass == f then ClassPairing(before, f).(expectedLeft := ClassPairing(before, f).expectedLeft + [e])
          else ClassPairing(before, f)
  {
    var candidates := Keep(before.chargesLeft, SameFeeClass(e.feeClass));
    KeepSnoc(before.expectedLeft, e, ExpectedOfClass(f));
    if |candidates| == 1 {
      KeepExact(before.chargesLeft, SameFeeClass(e.feeClass));
      assert candidates[0] in candidates;
      KeepSnoc(before.pairs, Pair(e, candidates[0]), PairOfClass(f));
      OtherClassUntouched(before.chargesLeft, candidates[0], f);
      OnlyCharge(candidates);
    }
  }

  /** In a run, a wrong-recipient pair agrees on the fee class and disagrees on the counterparty, no charge is
      used twice, and no fee class is left with one unclaimed charge beside an unbilled expectation. */
  lemma WrongRecipientsAreUnambiguous(input: Input)
    requires Refusal(input).None?
    ensures var p := WorkOf(input).pairing;
      && (forall q :: q in p.pairs ==> q.own.feeClass == q.claimed.key.feeClass)
      && (forall q :: q in p.pairs ==>
           (q.own.recipientType, q.own.recipientId) != (q.claimed.key.recipientType, q.claimed.key.recipientId))
      && DistinctKeys(Map(p.pairs, ClaimOf))
      && (forall e, f :: e in p.expectedLeft && f == e.feeClass ==> |Keep(p.chargesLeft, SameFeeClass(f))| != 1)
  {
    var w := WorkOf(input);
    RunPartitions(input);
    forall q | q in w.pairing.pairs
      ensures q.own.feeClass == q.claimed.key.feeClass
      ensures (q.own.recipientType, q.own.recipientId) != (q.claimed.key.recipientType, q.claimed.key.recipientId)
    {
      PairedInClass(w.unmatchedExpected, w.unmatchedCharges, q);
      LeftoversDisagree(input, q);
    }
    PairedChargesDistinct(w.unmatchedExpected, w.unmatchedCharges);
    forall e, f | e in w.pairing.expectedLeft && f == e.feeClass
        ensures |Keep(w.pairing.chargesLeft, SameFeeClass(f))| != 1 {
      PairingIsExact(w.unmatchedExpected, w.unmatchedCharges, f);
      KeepExact(w.pairing.expectedLeft, ExpectedOfClass(f));
      assert e in Keep(w.pairing.expectedLeft, ExpectedOfClass(f));
    }
  }

  lemma PairedInClass(own: seq<ExpectedLine>, charges: seq<Charge>, q: Pair)
    requires DistinctKeys(charges) && q in PairRecipients(own, charges).pairs
    ensures q.own in own && q.claimed in charges && q.own.feeClass == q.claimed.key.feeClass
  {
    var f, p := q.own.feeClass, PairRecipients(own, charges);
    PairingIsExact(own, charges, f);
    KeepExact(p.pairs, PairOfClass(f));
    KeepExact(own, ExpectedOfClass(f));
    KeepExact(charges, SameFeeClass(f));
    var mine := Keep(p.pairs, PairOfClass(f));
    assert q in mine;
    assert mine == [Pair(Keep(own, ExpectedOfClass(f))[0], Keep(charges, SameFeeClass(f))[0])];
    assert Keep(charges, SameFeeClass(f))[0] in Keep(charges, SameFeeClass(f));
  }

  lemma LeftoversDisagree(input: Input, q: Pair)
    requires q.own in WorkOf(input).unmatchedExpected && q.claimed in WorkOf(input).unmatchedCharges
    requires q.own.feeClass == q.claimed.key.feeClass
    ensures (q.own.recipientType, q.own.recipientId) != (q.claimed.key.recipientType, q.claimed.key.recipientId)
  {
    var w := WorkOf(input);
    KeepExact(input.expectedLines, Unbilled(Index(w.primary)));
    KeepExact(w.primary, Unclaimed(KeySet(Map(input.expectedLines, KeyOfExpected))));
    var i :| 0 <= i < |input.expectedLines| && input.expectedLines[i] == q.own;
    assert Map(input.expectedLines, KeyOfExpected)[i] == KeyOfExpected(q.own);
  }

  lemma PairedChargesDistinct(own: seq<ExpectedLine>, charges: seq<Charge>)
    requires DistinctKeys(charges)
    ensures DistinctKeys(Map(PairRecipients(own, charges).pairs, ClaimOf))
  {
    var p := PairRecipients(own, charges);
    PairingPartitions(own, charges);
    var all := Map(p.pairs, ClaimOf) + p.chargesLeft;
    MapPermutation(all, charges, KeyOfCharge);
    DistinctByCount(Map(all, KeyOfCharge), Map(charges, KeyOfCharge));
    MapConcat(Map(p.pairs, ClaimOf), p.chargesLeft, KeyOfCharge);
    var ks := Map(all, KeyOfCharge);
    assert Map(Map(p.pairs, ClaimOf), KeyOfCharge) == ks[..|p.pairs|];
  }

  /** Reordering keeps elements distinct. */
  lemma DistinctByCount(xs: seq<Key>, ys: seq<Key>)
    requires multiset(xs) == multiset(ys) && NoDuplicates(ys)
    ensures NoDuplicates(xs)
  {
    forall i, j | 0 <= i < j < |xs| ensures xs[i] != xs[j] {
      if xs[i] == xs[j] {
        CountTwice(xs, i, j);
        DistinctMeansOnce(ys, xs[i]);
      }
    }
  }

  lemma CountTwice(xs: seq<Key>, i: nat, j: nat)
    requires i < j < |xs| && xs[i] == xs[j]
    ensures multiset(xs)[xs[i]] >= 2
  {
    assert xs == xs[..i] + [xs[i]] + xs[i + 1..j] + [xs[j]] + xs[j + 1..];
  }

  // ---------------------------------------------------------------- a clean run

  /** The document bills what was expected, to the unit and within tolerance. */
  ghost predicate Covers(d: Document, late: set<string>, e: ExpectedLine, tolerance: int) {
    var g := Members(PriceableLines(d, late), KeyOfLine, KeyOfExpected(e));
    && g != []
    && SumBy(g, UnitsOfLine) == e.units
    && Abs(SumBy(g, NetOfLine) - e.net) <= tolerance
    && Abs(SumBy(g, VatOfLine) - e.vat) <= tolerance
  }

  /** The document makes a charge under the key. */
  ghost predicate Charges(d: Document, late: set<string>, k: Key) {
    k in Keys(PriceableLines(d, late), KeyOfLine)
  }

  ghost predicate AllInPeriod(input: Input) {
    forall d :: d in input.documents ==> d.period == input.period
  }

  ghost predicate NoneRefused(ds: seq<Document>, late: set<string>) {
    forall d, l :: d in ds && l in d.lines ==> Dispose(d.period, late, l) in {AcceptedPenalty, Priceable}
  }

  /** No two of the documents charge the same key. */
  ghost predicate ChargedOnce(ds: seq<Document>, late: set<string>) {
    forall i, j, k :: 0 <= i < j < |ds| && Charges(ds[i], late, k) ==> !Charges(ds[j], late, k)
  }

  ghost predicate AllExpected(input: Input) {
    forall d, k :: d in input.documents && Charges(d, input.latePaidPeriods, k) ==>
      k in KeySet(Map(input.expectedLines, KeyOfExpected))
  }

  ghost predicate AllCovered(input: Input) {
    forall e :: e in input.expectedLines ==>
      exists d :: d in input.documents && Covers(d, input.latePaidPeriods, e, input.tolerance)
  }

  /** Every document is of the period, every line is accepted or priceable, and every key is charged by one document and
      expected. */
  ghost predicate BilledOnce(input: Input) {
    && AllInPeriod(input)
    && NoneRefused(input.documents, input.latePaidPeriods)
    && ChargedOnce(input.documents, input.latePaidPeriods)
    && AllExpected(input)
  }

  /** A clean run, in terms of the inputs alone. */
  ghost predicate Clean(input: Input) {
    BilledOnce(input) && AllCovered(input)
  }

  /** The seven ways a break can arise, all empty. */
  ghost predicate NothingToReport(input: Input, w: Work) {
    && Keep(input.documents, OffPeriod(input.period)) == []
    && RefusedBreaks(input, w) == []
    && w.duplicates == []
    && Keep(w.pairs, Differs(input.tolerance)) == []
    && w.unmatchedExpected == [] && w.unmatchedCharges == []
  }

  lemma NoBreaksMeansNothing(input: Input, w: Work)
    requires input.documents != [] && Partitions(input, w)
    ensures Breaks(input, w) == [] <==> NothingToReport(input, w)
  {
    assert |multiset(Map(w.pairing.pairs, OwnOf))| + |multiset(w.pairing.expectedLeft)|
        == |multiset(w.unmatchedExpected)|;
    assert |multiset(Map(w.pairing.pairs, ClaimOf))| + |multiset(w.pairing.chargesLeft)|
        == |multiset(w.unmatchedCharges)|;
    assert |Breaks(input, w)| == |ProviderBreaks(input, w)| + |MatchBreaks(input, w)|;
  }

  lemma {:induction false} NoRefusals(ds: seq<Document>, late: set<string>)
    ensures Flatten(Map(ds, LineBreaks(late))) == [] <==> NoneRefused(ds, late)
  {
    if ds != [] {
      var n := |ds| - 1;
      assert ds == ds[..n] + [ds[n]] && ds[..n + 1] == ds;
      FlattenMapSnoc(ds, n, LineBreaks(late));
      NoRefusals(ds[..n], late);
      KeepNothing(ds[n].lines, Refused(ds[n].period, late));
      assert LineBreaks(late)(ds[n]) == [] <==> Keep(ds[n].lines, Refused(ds[n].period, late)) == [];
    }
  }

  lemma ChargeKeys(d: Document, late: set<string>)
    ensures Map(ChargesOf(late)(d), KeyOfCharge) == Keys(PriceableLines(d, late), KeyOfLine)
  {
    var cs, ks := ChargesOf(late)(d), Keys(PriceableLines(d, late), KeyOfLine);
    assert forall i :: 0 <= i < |cs| ==> cs[i] == ChargeFor(d, PriceableLines(d, late))(ks[i]);
  }

  /** Every comparable charge is some document's charge for a key it bills, and conversely. */
  lemma {:induction false} ComparableExact(ds: seq<Document>, late: set<string>, c: Charge)
    ensures c in Flatten(Map(ds, ChargesOf(late))) <==>
      exists d :: d in ds && Charges(d, late, c.key) && c == ChargeFor(d, PriceableLines(d, late))(c.key)
  {
    if ds != [] {
      var n := |ds| - 1;
      assert ds == ds[..n] + [ds[n]] && ds[..n + 1] == ds;
      FlattenMapSnoc(ds, n, ChargesOf(late));
      ComparableExact(ds[..n], late, c);
      ChargesOfExact(ds[n], late, c);
    }
  }

  lemma ChargesOfExact(d: Document, late: set<string>, c: Charge)
    ensures c in ChargesOf(late)(d) <==> Charges(d, late, c.key) && c == ChargeFor(d, PriceableLines(d, late))(c.key)
  {
    var cs, ks := ChargesOf(late)(d), Keys(PriceableLines(d, late), KeyOfLine);
    assert forall i :: 0 <= i < |cs| ==> cs[i] == ChargeFor(d, PriceableLines(d, late))(ks[i]);
    if Charges(d, late, c.key) && c == ChargeFor(d, PriceableLines(d, late))(c.key) {
      var i :| 0 <= i < |ks| && ks[i] == c.key;
      assert cs[i] == c;
    }
  }

  lemma {:induction false} LastKeysBilled(ds: seq<Document>, late: set<string>, k: Key)
    requires ds != []
    ensures k in Map(Flatten(Map(ds, ChargesOf(late))), KeyOfCharge) <==>
      k in Map(Flatten(Map(ds[..|ds| - 1], ChargesOf(late))), KeyOfCharge) || Charges(ds[|ds| - 1], late, k)
  {
    var n := |ds| - 1;
    assert ds[..n + 1] == ds;
    FlattenMapSnoc(ds, n, ChargesOf(late));
    MapConcat(Flatten(Map(ds[..n], ChargesOf(late))), ChargesOf(late)(ds[n]), KeyOfCharge);
    ChargeKeys(ds[n], late);
  }

  lemma {:induction false} KeysBilled(ds: seq<Document>, late: set<string>, k: Key)
    ensures k in Map(Flatten(Map(ds, ChargesOf(late))), KeyOfCharge) <==> exists d :: d in ds && Charges(d, late, k)
  {
    if ds != [] {
      var n := |ds| - 1;
      assert ds == ds[..n] + [ds[n]];
      LastKeysBilled(ds, late, k);
      KeysBilled(ds[..n], late, k);
    }
  }

  lemma {:induction false} ChargedOnceIsDistinct(ds: seq<Document>, late: set<string>)
    ensures DistinctKeys(Flatten(Map(ds, ChargesOf(late)))) <==> ChargedOnce(ds, late)
  {
    if ds != [] {
      var n := |ds| - 1;
      ChargedOnceIsDistinct(ds[..n], late);
      LastDocumentDistinct(ds, late);
      ChargedOnceSplit(ds, late);
    }
  }

  lemma LastChargesDistinct(ds: seq<Document>, late: set<string>)
    requires ds != []
    ensures var n := |ds| - 1;
      DistinctKeys(Flatten(Map(ds, ChargesOf(late)))) <==>
      DistinctKeys(Flatten(Map(ds[..n], ChargesOf(late))))
      && forall k :: k in Map(Flatten(Map(ds[..n], ChargesOf(late))), KeyOfCharge) ==> !Charges(ds[n], late, k)
  {
    var n := |ds| - 1;
    var before, last := Flatten(Map(ds[..n], ChargesOf(late))), ChargesOf(late)(ds[n]);
    assert ds[..n + 1] == ds;
    FlattenMapSnoc(ds, n, ChargesOf(late));
    MapConcat(before, last, KeyOfCharge);
    DistinctConcat(Map(before, KeyOfCharge), Map(last, KeyOfCharge));
    ChargeKeys(ds[n], late);
  }

  lemma {:induction false} LastDocumentDistinct(ds: seq<Document>, late: set<string>)
    requires ds != []
    ensures var n := |ds| - 1;
      DistinctKeys(Flatten(Map(ds, ChargesOf(late)))) <==>
      DistinctKeys(Flatten(Map(ds[..n], ChargesOf(late))))
      && forall i, k :: 0 <= i < n && Charges(ds[i], late, k) ==> !Charges(ds[n], late, k)
  {
    var n := |ds| - 1;
    var billed := Map(Flatten(Map(ds[..n], ChargesOf(late))), KeyOfCharge);
    LastChargesDistinct(ds, late);
    forall k ensures k in billed <==> exists i :: 0 <= i < n && Charges(ds[i], late, k) {
      KeysBilled(ds[..n], late, k);
      if i :| 0 <= i < n && Charges(ds[i], late, k) {
        assert ds[i] in ds[..n];
      }
    }
  }

  lemma ChargedOnceSplit(ds: seq<Document>, late: set<string>)
    requires ds != []
    ensures var n := |ds| - 1;
      ChargedOnce(ds, late) <==>
      ChargedOnce(ds[..n], late) && forall i, k :: 0 <= i < n && Charges(ds[i], late, k) ==> !Charges(ds[n], late, k)
  {
    var n := |ds| - 1;
    assert forall i :: 0 <= i < n ==> ds[..n][i] == ds[i];
    if ChargedOnce(ds[..n], late) && forall i, k :: 0 <= i < n && Charges(ds[i], late, k) ==> !Charges(ds[n], late, k) {
      forall i, j, k | 0 <= i < j < |ds| && Charges(ds[i], late, k) ensures !Charges(ds[j], late, k) {
        if j < n {
          assert Charges(ds[..n][i], late, k);
          assert !Charges(ds[..n][j], late, k);
        }
      }
    }
  }

  lemma NoDuplicatesExactly(cs: seq<Charge>)
    ensures Duplicates(cs) == [] <==> DistinctKeys(cs)
  {
    DuplicatesPartition(cs);
    assert |multiset(Primary(cs))| + |multiset(Duplicates(cs))| == |multiset(cs)|;
    KeysAllDistinct(cs, KeyOfCharge);
  }

  /** With each key charged once, the index is the documents' own charges. */
  lemma IndexMeaning(input: Input, k: Key)
    requires WorkOf(input).inPeriod == input.documents && DistinctKeys(WorkOf(input).comparable)
    ensures var index := Index(WorkOf(input).primary);
      && (k in index <==> exists d :: d in input.documents && Charges(d, input.latePaidPeriods, k))
      && (forall d :: d in input.documents && Charges(d, input.latePaidPeriods, k) ==>
           k in index && index[k] == ChargeFor(d, PriceableLines(d, input.latePaidPeriods))(k))
  {
    var w, late := WorkOf(input), input.latePaidPeriods;
    DuplicatesPartition(w.comparable);
    NoDuplicatesExactly(w.comparable);
    assert multiset(w.primary) == multiset(w.comparable);
    IndexExact(w.primary);
    var index := Index(w.primary);
    forall d | d in input.documents && Charges(d, late, k)
      ensures k in index && index[k] == ChargeFor(d, PriceableLines(d, late))(k)
    {
      var c := ChargeFor(d, PriceableLines(d, late))(k);
      ComparableExact(w.inPeriod, late, c);
      assert c in multiset(w.primary);
    }
    if k in index {
      assert index[k] in multiset(w.comparable);
      ComparableExact(w.inPeriod, late, index[k]);
    }
  }

  lemma {:induction false} MatchesExact(lines: seq<ExpectedLine>, index: map<Key, Charge>, q: Pair)
    ensures q in Matches(lines, index) <==>
      q.own in lines && KeyOfExpected(q.own) in index && q.claimed == index[KeyOfExpected(q.own)]
  {
    if lines != [] {
      var init, last := lines[..|lines| - 1], lines[|lines| - 1];
      assert lines == init + [last];
      MatchesExact(init, index, q);
    }
  }

  lemma AgreesMeansCovers(d: Document, late: set<string>, e: ExpectedLine, tolerance: int)
    requires Charges(d, late, KeyOfExpected(e))
    ensures Covers(d, late, e, tolerance) <==>
      Variance(tolerance, Pair(e, ChargeFor(d, PriceableLines(d, late))(KeyOfExpected(e)))).None?
  {
    MembersEmpty(PriceableLines(d, late), KeyOfLine, KeyOfExpected(e));
  }

  lemma CoversMeansCharges(d: Document, late: set<string>, e: ExpectedLine, tolerance: int)
    requires Covers(d, late, e, tolerance)
    ensures Charges(d, late, KeyOfExpected(e))
  {
    MembersEmpty(PriceableLines(d, late), KeyOfLine, KeyOfExpected(e));
  }

  /** With every document in period and every key charged once, the matching half reports nothing exactly when
      the documents and the expectation cover each other. */
  lemma MatchingIsCleanExactly(input: Input)
    requires WorkOf(input).inPeriod == input.documents && DistinctKeys(WorkOf(input).comparable)
    ensures var w := WorkOf(input);
      (Keep(w.pairs, Differs(input.tolerance)) == [] && w.unmatchedExpected == [] && w.unmatchedCharges == []) <==>
      AllExpected(input) && AllCovered(input)
  {
    ChargesAllExpected(input);
    ExpectationsAllCovered(input);
  }

  lemma ChargesAllExpected(input: Input)
    requires WorkOf(input).inPeriod == input.documents && DistinctKeys(WorkOf(input).comparable)
    ensures WorkOf(input).unmatchedCharges == [] <==>
      forall d, k ::
          d in input.documents && Charges(d, input.latePaidPeriods, k)
          ==> k in KeySet(Map(input.expectedLines, KeyOfExpected))
  {
    var w, late, expected := WorkOf(input), input.latePaidPeriods, KeySet(Map(input.expectedLines, KeyOfExpected));
    KeepNothing(w.primary, Unclaimed(expected));
    DuplicatesPartition(w.comparable);
    IndexExact(w.primary);
    if w.unmatchedCharges == [] {
      forall d, k | d in input.documents && Charges(d, late, k) ensures k in expected {
        IndexMeaning(input, k);
        assert !Unclaimed(expected)(Index(w.primary)[k]);
      }
    }
    if forall d, k :: d in input.documents && Charges(d, late, k) ==> k in expected {
      forall c | c in w.primary ensures !Unclaimed(expected)(c) {
        IndexMeaning(input, c.key);
      }
    }
  }

  lemma ExpectationsAllCovered(input: Input)
    requires WorkOf(input).inPeriod == input.documents && DistinctKeys(WorkOf(input).comparable)
    ensures var w := WorkOf(input);
      (Keep(w.pairs, Differs(input.tolerance)) == [] && w.unmatchedExpected == []) <==>
      forall e :: e in input.expectedLines ==> exists d ::
          d in input.documents && Covers(d, input.latePaidPeriods, e, input.tolerance)
  {
    var w, late, index := WorkOf(input), input.latePaidPeriods, Index(WorkOf(input).primary);
    KeepNothing(w.pairs, Differs(input.tolerance));
    KeepNothing(input.expectedLines, Unbilled(index));
    if Keep(w.pairs, Differs(input.tolerance)) == [] && w.unmatchedExpected == [] {
      forall e | e in input.expectedLines ensures exists d ::
          d in input.documents && Covers(d, late, e, input.tolerance) {
        BilledMeansCovered(input, e);
      }
    }
    if forall e :: e in input.expectedLines ==> exists d ::
        d in input.documents && Covers(d, late, e, input.tolerance) {
      forall e | e in input.expectedLines ensures KeyOfExpected(e) in index
          && Variance(input.tolerance, Pair(e, index[KeyOfExpected(e)])).None? {
        var d :| d in input.documents && Covers(d, late, e, input.tolerance);
        CoversMeansCharges(d, late, e, input.tolerance);
        AgreesMeansCovers(d, late, e, input.tolerance);
        IndexMeaning(input, KeyOfExpected(e));
      }
      forall q | q in w.pairs ensures !Differs(input.tolerance)(q) {
        MatchesExact(input.expectedLines, index, q);
      }
    }
  }

  lemma BilledMeansCovered(input: Input, e: ExpectedLine)
    requires WorkOf(input).inPeriod == input.documents && DistinctKeys(WorkOf(input).comparable)
    requires e in input.expectedLines && KeyOfExpected(e) in Index(WorkOf(input).primary)
    requires forall q :: q in WorkOf(input).pairs ==> !Differs(input.tolerance)(q)
    ensures exists d :: d in input.documents && Covers(d, input.latePaidPeriods, e, input.tolerance)
  {
    var late, k, index := input.latePaidPeriods, KeyOfExpected(e), Index(WorkOf(input).primary);
    IndexMeaning(input, k);
    var d :| d in input.documents && Charges(d, late, k);
    MatchesExact(input.expectedLines, index, Pair(e, index[k]));
    AgreesMeansCovers(d, late, e, input.tolerance);
  }

  lemma {:induction false} NothingToReportIsClean(input: Input, w: Work)
    requires w == WorkOf(input) && w.inPeriod == input.documents && AllInPeriod(input)
    ensures NothingToReport(input, w) <==> Clean(input)
  {
    KeepNothing(input.documents, OffPeriod(input.period));
    NoRefusals(input.documents, input.latePaidPeriods);
    NoDuplicatesExactly(w.comparable);
    ChargedOnceIsDistinct(input.documents, input.latePaidPeriods);
    if DistinctKeys(w.comparable) {
      MatchingIsCleanExactly(input);
    }
  }

  /** The run reports no break exactly when its inputs are clean. */
  lemma {:induction false} NoBreaksExactlyWhenClean(input: Input)
    requires Refusal(input).None?
    ensures Reconciled(input, WorkOf(input)).breaks == [] <==> Clean(input)
  {
    var w := WorkOf(input);
    RunPartitions(input);
    NoBreaksMeansNothing(input, w);
    KeepNothing(input.documents, OffPeriod(input.period));
    if AllInPeriod(input) {
      KeepAll(input.documents, InPeriod(input.period));
      NothingToReportIsClean(input, w);
    }
  }
}
