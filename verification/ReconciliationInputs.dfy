/** What the phases of a reconciliation leave over, read off its documents and expected lines: which charges come too
    late, which nobody expected, and which expectations nobody billed. */
module ReconciliationInputs {
  import opened Collections
  import opened PayableReconciliation
  import opened ReconciliationTheorems
  import opened ReconciliationVerdicts

  // ---------------------------------------------------------------- first and later charges of a key

  lemma PrimarySnoc(cs: seq<Charge>, c: Charge)
    ensures Primary(cs + [c]) == if c.key in Keys(cs, KeyOfCharge) then Primary(cs) else Primary(cs) + [c]
  {
    var gs, after := Groups(cs, KeyOfCharge), Groups(cs + [c], KeyOfCharge);
    GroupsSnoc(cs, c, KeyOfCharge);
    if KeyOfCharge(c) in Keys(cs, KeyOfCharge) {
      var i :| 0 <= i < |gs| && after == gs[i := gs[i] + [c]];
      assert gs[i] != [];
      assert forall j :: 0 <= j < |gs| ==> Primary(cs + [c])[j] == Primary(cs)[j];
    }
  }

  lemma Cancelled<T>(p: multiset<T>, d: multiset<T>, d': multiset<T>, x: multiset<T>)
    requires p + d' == p + d + x
    ensures d' == d + x
  {
    forall t: T ensures d'[t] == (d + x)[t] {
      assert (p + d')[t] == (p + d + x)[t];
    }
  }

  lemma DuplicatesSnoc(cs: seq<Charge>, c: Charge)
    ensures multiset(Duplicates(cs + [c]))
      == multiset(Duplicates(cs)) + if c.key in Keys(cs, KeyOfCharge) then multiset{c} else multiset{}
  {
    PrimarySnoc(cs, c);
    DuplicatesPartition(cs);
    DuplicatesPartition(cs + [c]);
    assert multiset(cs + [c]) == multiset(cs) + multiset{c};
    if c.key in Keys(cs, KeyOfCharge) {
      Cancelled(multiset(Primary(cs)), multiset(Duplicates(cs)), multiset(Duplicates(cs + [c])), multiset{c});
    } else {
      assert multiset(Primary(cs) + [c]) == multiset(Primary(cs)) + multiset{c};
      Cancelled(multiset(Primary(cs + [c])), multiset(Duplicates(cs)), multiset(Duplicates(cs + [c])), multiset{});
    }
  }

  /** A further document's charges are primary under keys not charged before and duplicates under the others. */
  lemma {:induction false} FilingMore(cs: seq<Charge>, more: seq<Charge>, c: Charge)
    requires DistinctKeys(more)
    ensures c in Primary(cs + more) <==> c in Primary(cs) || (c in more && c.key !in Keys(cs, KeyOfCharge))
    ensures c in Duplicates(cs + more) <==> c in Duplicates(cs) || (c in more && c.key in Keys(cs, KeyOfCharge))
  {
    if more == [] {
      assert cs + more == cs;
    } else {
      var init, last := more[..|more| - 1], more[|more| - 1];
      assert cs + more == (cs + init) + [last] && more == init + [last];
      DistinctInit(more);
      FilingMore(cs, init, c);
      PrimarySnoc(cs + init, last);
      DuplicatesSnoc(cs + init, last);
      assert c in Duplicates(cs + more) <==> c in multiset(Duplicates(cs + more));
      assert c in Duplicates(cs + init) <==> c in multiset(Duplicates(cs + init));
      NewKey(cs, more);
    }
  }

  lemma DistinctInit(cs: seq<Charge>)
    requires cs != [] && DistinctKeys(cs)
    ensures DistinctKeys(cs[..|cs| - 1])
  {
    assert Map(cs[..|cs| - 1], KeyOfCharge) == Map(cs, KeyOfCharge)[..|cs| - 1];
  }

  lemma NewKey(cs: seq<Charge>, more: seq<Charge>)
    requires more != [] && DistinctKeys(more)
    ensures var k := more[|more| - 1].key;
      k in Keys(cs + more[..|more| - 1], KeyOfCharge) <==> k in Keys(cs, KeyOfCharge)
  {
    var init, k := more[..|more| - 1], more[|more| - 1].key;
    KeysExact(cs + init, KeyOfCharge, k);
    KeysExact(cs, KeyOfCharge, k);
    forall c | c in init ensures c.key != k {
      var i :| 0 <= i < |init| && init[i] == c;
      assert Map(more, KeyOfCharge)[i] != Map(more, KeyOfCharge)[|more| - 1];
    }
  }

  /** The `i`-th document is the first to charge the key. */
  ghost predicate ChargesFirst(ds: seq<Document>, late: set<string>, i: nat, k: Key)
    requires i < |ds|
  {
    Charges(ds[i], late, k) && forall h :: 0 <= h < i ==> !Charges(ds[h], late, k)
  }

  /** The `i`-th document charges a key that an earlier one has charged. */
  ghost predicate ChargesAgain(ds: seq<Document>, late: set<string>, i: nat, k: Key)
    requires i < |ds|
  {
    Charges(ds[i], late, k) && exists h :: 0 <= h < i && Charges(ds[h], late, k)
  }

  function ChargeIn(d: Document, late: set<string>, k: Key): Charge {
    ChargeFor(d, PriceableLines(d, late))(k)
  }

  ghost predicate ChargedIn(ds: seq<Document>, late: set<string>, k: Key) {
    exists h :: 0 <= h < |ds| && Charges(ds[h], late, k)
  }

  ghost predicate FirstAt(ds: seq<Document>, late: set<string>, i: nat, c: Charge)
    requires i < |ds|
  {
    ChargesFirst(ds, late, i, c.key) && c == ChargeIn(ds[i], late, c.key)
  }

  ghost predicate AgainAt(ds: seq<Document>, late: set<string>, i: nat, c: Charge)
    requires i < |ds|
  {
    ChargesAgain(ds, late, i, c.key) && c == ChargeIn(ds[i], late, c.key)
  }

  ghost predicate Somewhere(n: nat, p: int -> bool) {
    exists i :: 0 <= i < n && p(i)
  }

  lemma SomewhereSnoc(n: nat, p: int -> bool, q: int -> bool)
    requires forall i :: 0 <= i < n ==> p(i) == q(i)
    ensures Somewhere(n + 1, p) <==> Somewhere(n, q) || p(n)
  {
    if i :| 0 <= i < n && q(i) {
      assert p(i);
    }
  }

  ghost function FirstPlace(ds: seq<Document>, late: set<string>, c: Charge): int -> bool {
    (i: int) => 0 <= i < |ds| && FirstAt(ds, late, i, c)
  }

  ghost function LaterPlace(ds: seq<Document>, late: set<string>, c: Charge): int -> bool {
    (i: int) => 0 <= i < |ds| && AgainAt(ds, late, i, c)
  }

  /** Some document is the first to make the charge. */
  ghost predicate IsFirst(ds: seq<Document>, late: set<string>, c: Charge) {
    Somewhere(|ds|, FirstPlace(ds, late, c))
  }

  /** Some document makes the charge after another has charged its key. */
  ghost predicate IsLater(ds: seq<Document>, late: set<string>, c: Charge) {
    Somewhere(|ds|, LaterPlace(ds, late, c))
  }

  function Comparable(ds: seq<Document>, late: set<string>): seq<Charge> {
    Flatten(Map(ds, ChargesOf(late)))
  }

  lemma ChargedBefore(ds: seq<Document>, late: set<string>, k: Key)
    ensures k in Keys(Comparable(ds, late), KeyOfCharge) <==> ChargedIn(ds, late, k)
  {
    var cs := Comparable(ds, late);
    KeysExact(cs, KeyOfCharge, k);
    KeysBilled(ds, late, k);
    if exists c :: c in cs && KeyOfCharge(c) == k {
      var c :| c in cs && KeyOfCharge(c) == k;
      MapIn(cs, c, KeyOfCharge);
    }
    if k in Map(cs, KeyOfCharge) {
      var i :| 0 <= i < |cs| && Map(cs, KeyOfCharge)[i] == k;
      assert cs[i] in cs && KeyOfCharge(cs[i]) == k;
    }
  }

  lemma {:induction false} FiledByDocument(ds: seq<Document>, late: set<string>, c: Charge)
    ensures c in Primary(Comparable(ds, late)) <==> IsFirst(ds, late, c)
    ensures c in Duplicates(Comparable(ds, late)) <==> IsLater(ds, late, c)
  {
    if ds != [] {
      var n := |ds| - 1;
      var init, last := ds[..n], ds[n];
      assert ds[..n + 1] == ds;
      FiledByDocument(init, late, c);
      FlattenMapSnoc(ds, n, ChargesOf(late));
      ChargesAreDistinct(last, late);
      FilingMore(Comparable(init, late), ChargesOf(late)(last), c);
      ChargesOfExact(last, late, c);
      ChargedBefore(init, late, c.key);
      LastFiles(ds, late, c);
    }
  }

  lemma ChargesAreDistinct(d: Document, late: set<string>)
    ensures DistinctKeys(ChargesOf(late)(d))
  {
    ChargeKeys(d, late);
  }

  /** First and later charges of some documents and of one more. */
  lemma LastFiles(ds: seq<Document>, late: set<string>, c: Charge)
    requires ds != []
    ensures var init := ds[..|ds| - 1];
      && (IsFirst(ds, late, c) <==> IsFirst(init, late, c) || (Made(ds, late, c) && !ChargedIn(init, late, c.key)))
      && (IsLater(ds, late, c) <==> IsLater(init, late, c) || (Made(ds, late, c) && ChargedIn(init, late, c.key)))
  {
    var n := |ds| - 1;
    PlacesAtLast(ds, late, c);
    forall i | 0 <= i < n
      ensures FirstPlace(ds, late, c)(i) == FirstPlace(ds[..n], late, c)(i)
      ensures LaterPlace(ds, late, c)(i) == LaterPlace(ds[..n], late, c)(i)
    {
      PlacesInPrefix(ds, late, n, i, c);
    }
    SomewhereSnoc(n, FirstPlace(ds, late, c), FirstPlace(ds[..n], late, c));
    SomewhereSnoc(n, LaterPlace(ds, late, c), LaterPlace(ds[..n], late, c));
  }

  lemma PlacesInPrefix(ds: seq<Document>, late: set<string>, n: nat, i: nat, c: Charge)
    requires i < n <= |ds|
    ensures FirstAt(ds, late, i, c) <==> FirstAt(ds[..n], late, i, c)
    ensures AgainAt(ds, late, i, c) <==> AgainAt(ds[..n], late, i, c)
  {
    PrefixFiles(ds, late, n, i, c.key);
    assert ds[..n][i] == ds[i];
  }

  /** The last document makes the charge. */
  ghost predicate Made(ds: seq<Document>, late: set<string>, c: Charge)
    requires ds != []
  {
    Charges(ds[|ds| - 1], late, c.key) && c == ChargeIn(ds[|ds| - 1], late, c.key)
  }

  lemma PlacesAtLast(ds: seq<Document>, late: set<string>, c: Charge)
    requires ds != []
    ensures FirstAt(ds, late, |ds| - 1, c) <==> Made(ds, late, c) && !ChargedIn(ds[..|ds| - 1], late, c.key)
    ensures AgainAt(ds, late, |ds| - 1, c) <==> Made(ds, late, c) && ChargedIn(ds[..|ds| - 1], late, c.key)
  {
    LastIsFirst(ds, late, c.key);
  }

  lemma LastIsFirst(ds: seq<Document>, late: set<string>, k: Key)
    requires ds != []
    ensures var n := |ds| - 1;
      && (ChargesFirst(ds, late, n, k) <==> Charges(ds[n], late, k) && !ChargedIn(ds[..n], late, k))
      && (ChargesAgain(ds, late, n, k) <==> Charges(ds[n], late, k) && ChargedIn(ds[..n], late, k))
  {
    var n := |ds| - 1;
    assert forall h :: 0 <= h < n ==> ds[..n][h] == ds[h];
    if ChargedIn(ds[..n], late, k) {
      var h :| 0 <= h < n && Charges(ds[..n][h], late, k);
      assert Charges(ds[h], late, k);
    }
    if h :| 0 <= h < n && Charges(ds[h], late, k) {
      assert Charges(ds[..n][h], late, k);
    }
  }

  lemma PrefixFiles(ds: seq<Document>, late: set<string>, n: nat, i: nat, k: Key)
    requires i < n <= |ds|
    ensures ChargesFirst(ds, late, i, k) <==> ChargesFirst(ds[..n], late, i, k)
    ensures ChargesAgain(ds, late, i, k) <==> ChargesAgain(ds[..n], late, i, k)
  {
    assert forall h :: 0 <= h < n ==> ds[..n][h] == ds[h];
  }

  // ---------------------------------------------------------------- what is left once keys are matched

  /** The documents that bill the period. */
  function Billing(input: Input): seq<Document> {
    Keep(input.documents, InPeriod(input.period))
  }

  ghost predicate IsBilled(input: Input, k: Key) {
    ChargedIn(Billing(input), input.latePaidPeriods, k)
  }

  predicate IsExpected(input: Input, k: Key) {
    k in KeySet(Map(input.expectedLines, KeyOfExpected))
  }

  /** Billed, and expected by nobody. */
  ghost predicate Surplus(input: Input, k: Key) {
    IsBilled(input, k) && !IsExpected(input, k)
  }

  /** Expected under the fee class, and billed under no such key. */
  ghost predicate Overdue(input: Input, feeClass: string, e: ExpectedLine) {
    e.feeClass == feeClass && !IsBilled(input, KeyOfExpected(e))
  }

  lemma FiledInRun(input: Input, c: Charge)
    ensures c in WorkOf(input).primary <==> IsFirst(Billing(input), input.latePaidPeriods, c)
    ensures c in WorkOf(input).duplicates <==> IsLater(Billing(input), input.latePaidPeriods, c)
  {
    FiledByDocument(Billing(input), input.latePaidPeriods, c);
  }

  lemma BilledKeys(input: Input, k: Key)
    ensures k in Index(WorkOf(input).primary) <==> IsBilled(input, k)
  {
    var w := WorkOf(input);
    DuplicatesPartition(w.comparable);
    IndexExact(w.primary);
    ChargedBefore(Billing(input), input.latePaidPeriods, k);
    assert k in KeySet(Map(w.primary, KeyOfCharge)) <==> k in Keys(w.comparable, KeyOfCharge);
  }

  lemma UnmatchedChargesOfRun(input: Input)
    ensures var w := WorkOf(input);
      && DistinctKeys(w.unmatchedCharges)
      && (forall c :: c in w.unmatchedCharges <==> c in w.primary && !IsExpected(input, c.key))
      && (forall k :: Surplus(input, k) <==> exists c :: c in w.unmatchedCharges && c.key == k)
  {
    var w := WorkOf(input);
    var p := Unclaimed(KeySet(Map(input.expectedLines, KeyOfExpected)));
    DuplicatesPartition(w.comparable);
    KeepExact(w.primary, p);
    KeepKeepsDistinct(w.primary, p);
    IndexExact(w.primary);
    forall k ensures Surplus(input, k) <==> exists c :: c in w.unmatchedCharges && c.key == k {
      BilledKeys(input, k);
      if Surplus(input, k) {
        assert Index(w.primary)[k] in w.unmatchedCharges;
      }
    }
  }

  lemma {:induction false} KeepKeepsDistinct(cs: seq<Charge>, p: Charge -> bool)
    requires DistinctKeys(cs)
    ensures DistinctKeys(Keep(cs, p))
  {
    if cs != [] {
      var init, last := cs[..|cs| - 1], cs[|cs| - 1];
      DistinctInit(cs);
      KeepKeepsDistinct(init, p);
      if p(last) {
        KeepExact(init, p);
        var ks := Map(Keep(init, p), KeyOfCharge);
        forall i | 0 <= i < |ks| ensures ks[i] != last.key {
          assert Keep(init, p)[i] in init;
          var j :| 0 <= j < |init| && init[j] == Keep(init, p)[i];
          assert Map(cs, KeyOfCharge)[j] != Map(cs, KeyOfCharge)[|cs| - 1];
        }
        assert Map(Keep(cs, p), KeyOfCharge) == ks + [last.key];
      }
    }
  }

  // ---------------------------------------------------------------- what is left once recipients are paired

  /** One surplus key of the fee class, and an overdue expectation to meet it. */
  ghost predicate Reassigned(input: Input, feeClass: string) {
    && (exists k :: SoleSurplus(input, feeClass, k))
    && (exists e :: e in input.expectedLines && Overdue(input, feeClass, e))
  }

  ghost predicate SoleSurplus(input: Input, feeClass: string, k: Key) {
    && Surplus(input, k) && k.feeClass == feeClass
    && forall other :: Surplus(input, other) && other.feeClass == feeClass ==> other == k
  }

  /** The one charge of its fee class. */
  ghost predicate OnlyOfClass(cs: seq<Charge>, feeClass: string, c: Charge) {
    c in cs && c.key.feeClass == feeClass && forall b :: b in cs && b.key.feeClass == feeClass ==> b.key == c.key
  }

  lemma OneIsOnly(cs: seq<Charge>, feeClass: string)
    requires |Keep(cs, SameFeeClass(feeClass))| == 1
    ensures OnlyOfClass(cs, feeClass, Keep(cs, SameFeeClass(feeClass))[0])
  {
    var mine := Keep(cs, SameFeeClass(feeClass));
    KeepExact(cs, SameFeeClass(feeClass));
    assert mine[0] in mine;
    forall b | b in cs && b.key.feeClass == feeClass ensures b.key == mine[0].key {
      assert b in mine;
    }
  }

  lemma OnlyIsOne(cs: seq<Charge>, feeClass: string, c: Charge)
    requires DistinctKeys(cs) && OnlyOfClass(cs, feeClass, c)
    ensures |Keep(cs, SameFeeClass(feeClass))| == 1
  {
    var mine := Keep(cs, SameFeeClass(feeClass));
    KeepExact(cs, SameFeeClass(feeClass));
    KeepKeepsDistinct(cs, SameFeeClass(feeClass));
    assert c in mine;
    var ks := Map(mine, KeyOfCharge);
    assert mine[0] in mine && mine[|mine| - 1] in mine;
    assert ks[0] == c.key && ks[|mine| - 1] == c.key;
  }

  lemma OverdueOfClass(input: Input, feeClass: string)
    ensures Keep(WorkOf(input).unmatchedExpected, ExpectedOfClass(feeClass))
      == Keep(input.expectedLines, IsOverdue(input, feeClass))
  {
    var index := Index(WorkOf(input).primary);
    forall e: ExpectedLine ensures IsOverdue(input, feeClass)(e) <==>
        Unbilled(index)(e) && ExpectedOfClass(feeClass)(e) {
      BilledKeys(input, KeyOfExpected(e));
    }
    KeepTwice(input.expectedLines, Unbilled(index), ExpectedOfClass(feeClass), IsOverdue(input, feeClass));
  }

  ghost function IsOverdue(input: Input, feeClass: string): ExpectedLine -> bool {
    (e: ExpectedLine) => Overdue(input, feeClass, e)
  }

  /** A fee class has its one charge and its first expectation paired exactly when it is reassigned. */
  lemma PairingOfClass(input: Input, feeClass: string)
    ensures var w := WorkOf(input);
      var own := Keep(input.expectedLines, IsOverdue(input, feeClass));
      && (Reassigned(input, feeClass) <==> own != [] && |Keep(w.unmatchedCharges, SameFeeClass(feeClass))| == 1)
      && Keep(w.pairing.chargesLeft, SameFeeClass(feeClass))
           == (if Reassigned(input, feeClass) then [] else Keep(w.unmatchedCharges, SameFeeClass(feeClass)))
      && (Reassigned(input, feeClass) ==>
        own != [] && Keep(w.pairing.expectedLeft, ExpectedOfClass(feeClass)) == own[1..])
      && (!Reassigned(input, feeClass) ==> Keep(w.pairing.expectedLeft, ExpectedOfClass(feeClass)) == own)
  {
    var w := WorkOf(input);
    UnmatchedChargesOfRun(input);
    OverdueOfClass(input, feeClass);
    PairingIsExact(w.unmatchedExpected, w.unmatchedCharges, feeClass);
    KeepNothing(input.expectedLines, IsOverdue(input, feeClass));
    SoleSurplusOfRun(input, feeClass);
  }

  lemma SoleSurplusOfRun(input: Input, feeClass: string)
    ensures (exists k :: SoleSurplus(input, feeClass, k))
      <==> |Keep(WorkOf(input).unmatchedCharges, SameFeeClass(feeClass))| == 1
  {
    var cs := WorkOf(input).unmatchedCharges;
    UnmatchedChargesOfRun(input);
    if k :| SoleSurplus(input, feeClass, k) {
      var c :| c in cs && c.key == k;
      forall b | b in cs && b.key.feeClass == feeClass ensures b.key == c.key {
        assert Surplus(input, b.key);
      }
      OnlyIsOne(cs, feeClass, c);
    }
    if |Keep(cs, SameFeeClass(feeClass))| == 1 {
      var c := Keep(cs, SameFeeClass(feeClass))[0];
      OneIsOnly(cs, feeClass);
      assert SoleSurplus(input, feeClass, c.key);
    }
  }

  /** The charges left over are those of a surplus key, each at its first document, whose fee class is not
      reassigned. */
  lemma ChargesLeftOfRun(input: Input, c: Charge)
    ensures c in WorkOf(input).pairing.chargesLeft <==>
      c in WorkOf(input).primary && !IsExpected(input, c.key) && !Reassigned(input, c.key.feeClass)
  {
    var w, f := WorkOf(input), c.key.feeClass;
    UnmatchedChargesOfRun(input);
    PairingOfClass(input, f);
    KeepExact(w.pairing.chargesLeft, SameFeeClass(f));
    KeepExact(w.unmatchedCharges, SameFeeClass(f));
    assert c in w.pairing.chargesLeft <==> c in Keep(w.pairing.chargesLeft, SameFeeClass(f));
    assert c in w.unmatchedCharges <==> c in Keep(w.unmatchedCharges, SameFeeClass(f));
  }

  /** The element passes after another that does. */
  ghost predicate PassesAgain<T(!new)>(xs: seq<T>, p: T -> bool, x: T) {
    exists j :: 0 <= j < |xs| && xs[j] == x && p(x) && AnyBefore(xs, p, j)
  }

  ghost predicate AnyBefore<T(!new)>(xs: seq<T>, p: T -> bool, j: nat)
    requires j <= |xs|
  {
    exists i :: 0 <= i < j && p(xs[i])
  }

  lemma PassesAgainSnoc<T(!new)>(xs: seq<T>, p: T -> bool, x: T)
    requires xs != []
    ensures var n := |xs| - 1;
      PassesAgain(xs, p, x) <==> PassesAgain(xs[..n], p, x) || (x == xs[n] && p(x) && AnyBefore(xs, p, n))
  {
    var n := |xs| - 1;
    forall j | 0 <= j <= n ensures AnyBefore(xs[..n], p, j) <==> AnyBefore(xs, p, j) {
      assert forall i :: 0 <= i < j ==> xs[..n][i] == xs[i];
    }
    if PassesAgain(xs[..n], p, x) {
      var j :| 0 <= j < n && xs[..n][j] == x && p(x) && AnyBefore(xs[..n], p, j);
      assert xs[j] == x && AnyBefore(xs, p, j);
    }
    if PassesAgain(xs, p, x) {
      var j :| 0 <= j < |xs| && xs[j] == x && p(x) && AnyBefore(xs, p, j);
      if j < n {
        assert xs[..n][j] == x && AnyBefore(xs[..n], p, j);
      }
    }
  }

  lemma AnyBeforeKept<T(!new)>(xs: seq<T>, p: T -> bool)
    ensures AnyBefore(xs, p, |xs|) <==> Keep(xs, p) != []
  {
    KeepExact(xs, p);
    if Keep(xs, p) != [] {
      assert Keep(xs, p)[0] in Keep(xs, p);
    }
  }

  lemma {:induction false} KeepTail<T(!new)>(xs: seq<T>, p: T -> bool, x: T)
    requires Keep(xs, p) != []
    ensures x in Keep(xs, p)[1..] <==> PassesAgain(xs, p, x)
  {
    var n := |xs| - 1;
    var init := xs[..n];
    PassesAgainSnoc(xs, p, x);
    AnyBeforeKept(init, p);
    assert AnyBefore(init, p, n) <==> AnyBefore(xs, p, n) by { SameBefore(xs, p, n); }
    if Keep(init, p) != [] {
      KeepTail(init, p, x);
      if p(xs[n]) {
        assert Keep(xs, p)[1..] == Keep(init, p)[1..] + [xs[n]];
      }
    } else {
      NothingAgain(init, p, x);
    }
  }

  lemma SameBefore<T(!new)>(xs: seq<T>, p: T -> bool, n: nat)
    requires n <= |xs|
    ensures AnyBefore(xs[..n], p, n) <==> AnyBefore(xs, p, n)
  {
    assert forall i :: 0 <= i < n ==> xs[..n][i] == xs[i];
  }

  lemma NothingAgain<T(!new)>(xs: seq<T>, p: T -> bool, x: T)
    requires Keep(xs, p) == []
    ensures !PassesAgain(xs, p, x)
  {
    KeepNothing(xs, p);
  }

  /** The expectations left over are the overdue ones, save the first of a fee class that is reassigned. */
  ghost predicate LeftOver(input: Input, j: nat)
    requires j < |input.expectedLines|
  {
    var e := input.expectedLines[j];
    && Overdue(input, e.feeClass, e)
    && (Reassigned(input, e.feeClass) ==> AnyBefore(input.expectedLines, IsOverdue(input, e.feeClass), j))
  }

  ghost predicate IsLeftOver(input: Input, e: ExpectedLine) {
    exists j :: 0 <= j < |input.expectedLines| && input.expectedLines[j] == e && LeftOver(input, j)
  }

  lemma LeftOverUnassigned(input: Input, e: ExpectedLine)
    requires !Reassigned(input, e.feeClass)
    ensures IsLeftOver(input, e) <==> e in Keep(input.expectedLines, IsOverdue(input, e.feeClass))
  {
    KeepExact(input.expectedLines, IsOverdue(input, e.feeClass));
    if e in Keep(input.expectedLines, IsOverdue(input, e.feeClass)) {
      var j :| 0 <= j < |input.expectedLines| && input.expectedLines[j] == e;
      assert LeftOver(input, j);
    }
  }

  lemma LeftOverReassigned(input: Input, e: ExpectedLine)
    requires Reassigned(input, e.feeClass)
    ensures IsLeftOver(input, e) <==> PassesAgain(input.expectedLines, IsOverdue(input, e.feeClass), e)
  {
    var xs, p := input.expectedLines, IsOverdue(input, e.feeClass);
    if PassesAgain(xs, p, e) {
      var j :| 0 <= j < |xs| && xs[j] == e && p(e) && AnyBefore(xs, p, j);
      assert LeftOver(input, j);
    }
  }

  lemma ExpectedLeftOfRun(input: Input, e: ExpectedLine)
    ensures e in WorkOf(input).pairing.expectedLeft <==> IsLeftOver(input, e)
  {
    var w, f := WorkOf(input), e.feeClass;
    PairingOfClass(input, f);
    KeepExact(w.pairing.expectedLeft, ExpectedOfClass(f));
    assert e in w.pairing.expectedLeft <==> e in Keep(w.pairing.expectedLeft, ExpectedOfClass(f));
    if Reassigned(input, f) {
      KeepTail(input.expectedLines, IsOverdue(input, f), e);
      LeftOverReassigned(input, e);
    } else {
      LeftOverUnassigned(input, e);
    }
  }
}
