/** What every line of an expected memo, of its comparison with the scheme's and of a re-rating says, in terms of the
    lines it was made from. */
module MemoLines {
  import opened Collections
  import opened Memo
  import Rating
  import RatedStatements

  // ---------------------------------------------------------------- the expectation

  /** Every memo line shows the units, events, amount and value receivable of its counterparty and fee class. */
  lemma EveryMemoLineSaysWhatIsOwed(priced: seq<Rating.PricedLine>, l: ExpectedLine, f: Rating.Figure)
    requires l in ExpectedMemo(priced)
    ensures LineFigure(f)(l)
      == SumBy(Keep(priced, RatedStatements.OwedFor(l.ref.tppId, l.ref.feeClass)), Rating.FigureOf(f))
  {
    var receivable := Keep(priced, Rating.IsReceivable);
    var k := RecordIn(receivable, RefOf, LineRecord(), l);
    LineOfFigure(Members(receivable, RefOf, k), k, f);
    var owed := (p: Rating.PricedLine) => p.tppId == k.tppId && p.feeClass == k.feeClass;
    MembersAreKept(receivable, RefOf, k, owed);
    KeepTwice(priced, Rating.IsReceivable, owed, RatedStatements.OwedFor(k.tppId, k.feeClass));
  }

  /** The memo has one line for each counterparty and fee class anything is receivable for, and no other. */
  lemma {:induction false} MemoLinesAreForWhatIsOwed(priced: seq<Rating.PricedLine>, ref: LineRef)
    ensures NoDuplicates(Map(ExpectedMemo(priced), ExpectedRef))
    ensures ref in Map(ExpectedMemo(priced), ExpectedRef)
      <==> exists p :: p in priced && RatedStatements.OwedFor(ref.tppId, ref.feeClass)(p)
  {
    var receivable := Keep(priced, Rating.IsReceivable);
    forall k | k in Keys(receivable, RefOf) ensures LineOf(Members(receivable, RefOf, k), k).ref == k {
      LineOfFigure(Members(receivable, RefOf, k), k, Rating.Amount);
    }
    RecordKeys(receivable, RefOf, LineRecord(), ExpectedRef);
    KeepExact(priced, Rating.IsReceivable);
    KeysExact(receivable, RefOf, ref);
    if ref in Keys(receivable, RefOf) {
      var p :| p in receivable && RefOf(p) == ref;
      assert RatedStatements.OwedFor(ref.tppId, ref.feeClass)(p);
    }
    forall p | p in priced && RatedStatements.OwedFor(ref.tppId, ref.feeClass)(p)
        ensures ref in Keys(receivable, RefOf) {
      assert p in receivable && RefOf(p) == ref;
    }
  }

  // ---------------------------------------------------------------- which memos are accepted

  /** The line has a counterparty, no negative figure, and a reference no earlier line has. */
  ghost predicate Sound(lines: seq<SchemeLine>, i: nat)
    requires i < |lines|
  {
    && !Blank(lines[i].tppId) && lines[i].units >= 0 && lines[i].amount >= 0
    && forall j :: 0 <= j < i ==> lines[j].tppId != lines[i].tppId || lines[j].feeClass != lines[i].feeClass
  }

  /** What is wrong with an unsound line. */
  ghost predicate Wrong(lines: seq<SchemeLine>, i: nat, e: Error)
    requires i < |lines|
  {
    var l := lines[i];
    match e
    case BlankCounterparty => Blank(l.tppId)
    case NegativeFigure => !Blank(l.tppId) && (l.units < 0 || l.amount < 0)
    case RepeatedLine(ref) =>
      && !Blank(l.tppId) && l.units >= 0 && l.amount >= 0 && ref == LineRef(l.tppId, l.feeClass)
      && exists j :: 0 <= j < i && lines[j].tppId == l.tppId && lines[j].feeClass == l.feeClass
  }

  lemma LineIsSoundExactly(lines: seq<SchemeLine>, i: nat)
    requires i < |lines|
    ensures LineError(lines[..i], lines[i]).None? <==> Sound(lines, i)
    ensures LineError(lines[..i], lines[i]).Some? ==> Wrong(lines, i, LineError(lines[..i], lines[i]).value)
  {
    var refs := Map(lines[..i], SchemeRef);
    forall j | 0 <= j < i ensures refs[j] == LineRef(lines[j].tppId, lines[j].feeClass) && refs[j] in refs {
    }
    if SchemeRef(lines[i]) in refs {
      var j :| 0 <= j < i && refs[j] == SchemeRef(lines[i]);
    }
  }

  ghost predicate FirstUnsound(lines: seq<SchemeLine>, i: nat, e: Error) {
    i < |lines| && Wrong(lines, i, e) && forall j :: 0 <= j < i ==> Sound(lines, j)
  }

  /** A memo is accepted exactly when all of its lines are sound, and otherwise refused for its first unsound line. */
  lemma {:induction false} MemoRefusedExactly(lines: seq<SchemeLine>)
    ensures FirstError(lines).None? <==> forall i :: 0 <= i < |lines| ==> Sound(lines, i)
    ensures FirstError(lines).Some? ==> exists i: nat :: FirstUnsound(lines, i, FirstError(lines).value)
  {
    if lines != [] {
      var n := |lines| - 1;
      var init := lines[..n];
      MemoRefusedExactly(init);
      LineIsSoundExactly(lines, n);
      forall i | 0 <= i < n
        ensures Sound(lines, i) <==> Sound(init, i)
        ensures forall e :: Wrong(init, i, e) ==> Wrong(lines, i, e)
      {
      }
      if FirstError(init).Some? {
        var i: nat :| FirstUnsound(init, i, FirstError(init).value);
        assert FirstUnsound(lines, i, FirstError(lines).value);
      } else if FirstError(lines).Some? {
        assert FirstUnsound(lines, n, FirstError(lines).value);
      }
    }
  }

  // ---------------------------------------------------------------- the comparison

  lemma FoundAt<T(!new), K(!new)>(xs: seq<T>, key: T -> K, k: K)
    requires NoDuplicates(Map(xs, key))
    ensures Lookup(xs, key, k).None? <==> forall x :: x in xs ==> key(x) != k
    ensures forall x :: x in xs && key(x) == k ==> Lookup(xs, key, k) == Some(x)
  {
    OnlyMember(xs, key, k);
    MembersEmpty(xs, key, k);
    KeysExact(xs, key, k);
    forall x | x in xs && key(x) == k ensures Lookup(xs, key, k) == Some(x) {
      MembersExact(xs, key, k, x);
    }
  }

  /** What a compared line says of our own memo. */
  ghost predicate SaysOwn(expected: seq<ExpectedLine>, l: DiffLine) {
    && (forall e :: e in expected && e.ref == l.ref ==>
      l.expectedUnits == e.units && l.expected == e.amount && !l.presence.MemoOnly?)
    && ((forall e :: e in expected ==> e.ref != l.ref) ==>
      l.expectedUnits == 0 && l.expected == 0 && l.presence.MemoOnly?)
  }

  /** What it says of the scheme's. */
  ghost predicate SaysScheme(memo: seq<SchemeLine>, l: DiffLine) {
    && (forall m :: m in memo && LineRef(m.tppId, m.feeClass) == l.ref ==>
      l.memoUnits == m.units && l.memo == m.amount && !l.presence.ExpectedOnly?)
    && ((forall m :: m in memo ==> LineRef(m.tppId, m.feeClass) != l.ref) ==>
      l.memoUnits == 0 && l.memo == 0 && l.presence.ExpectedOnly?)
  }

  lemma OwnSide(expected: seq<ExpectedLine>, memo: seq<SchemeLine>, threshold: nat, r: LineRef)
    requires NoDuplicates(Map(expected, ExpectedRef)) && r in RefsOf(expected, memo)
    ensures SaysOwn(expected, Compare(expected, memo, threshold, r))
  {
    FoundAt(expected, ExpectedRef, r);
    RefIsSomewhere(expected, memo, r);
    MembersEmpty(expected, ExpectedRef, r);
    MembersEmpty(memo, SchemeRef, r);
  }

  lemma SchemeSide(expected: seq<ExpectedLine>, memo: seq<SchemeLine>, threshold: nat, r: LineRef)
    requires NoDuplicates(Map(memo, SchemeRef)) && r in RefsOf(expected, memo)
    ensures SaysScheme(memo, Compare(expected, memo, threshold, r))
  {
    FoundAt(memo, SchemeRef, r);
    RefIsSomewhere(expected, memo, r);
    MembersEmpty(expected, ExpectedRef, r);
    MembersEmpty(memo, SchemeRef, r);
    forall m | m in memo ensures SchemeRef(m) == LineRef(m.tppId, m.feeClass) {
    }
  }

  /** Every compared line shows what either memo says at its reference, nothing where one is silent, on which sides it
      stands, and whether the difference exceeds the threshold. */
  lemma EveryComparisonSaysBothMemos(expected: seq<ExpectedLine>, memo: seq<SchemeLine>, threshold: nat, l: DiffLine)
    requires NoDuplicates(Map(expected, ExpectedRef)) && FirstError(memo).None?
    requires l in DiffOf(expected, memo, threshold).lines
    ensures SaysOwn(expected, l) && SaysScheme(memo, l)
    ensures l.variance == l.memo - l.expected && (l.material <==> Abs(l.memo - l.expected) > threshold)
  {
    var refs := RefsOf(expected, memo);
    var i :| 0 <= i < |refs| && DiffOf(expected, memo, threshold).lines[i] == l;
    AcceptedLinesAreDistinct(memo);
    OwnSide(expected, memo, threshold, refs[i]);
    SchemeSide(expected, memo, threshold, refs[i]);
  }

  /** The two counters count the lines by whether they are material. */
  lemma ComparisonCounts(expected: seq<ExpectedLine>, memo: seq<SchemeLine>, threshold: nat)
    ensures var d := DiffOf(expected, memo, threshold);
      && d.breaks == SumBy(d.lines, (l: DiffLine) => if l.material then 1 else 0)
      && d.matched == |d.lines| - d.breaks
  {
    var lines := DiffOf(expected, memo, threshold).lines;
    SumOnes(Keep(lines, IsBreak), (l: DiffLine) => 1);
    SumOfKept(lines, IsBreak, (l: DiffLine) => 1, (l: DiffLine) => if l.material then 1 else 0);
    EveryReferenceIsJudgedOnce(expected, memo, threshold);
  }

  // ---------------------------------------------------------------- re-rating

  /** What a rating charges at a reference. */
  ghost predicate Charges(lines: seq<ExpectedLine>, r: LineRef, amount: int) {
    && (forall l :: l in lines && l.ref == r ==> amount == l.amount)
    && ((forall l :: l in lines ==> l.ref != r) ==> amount == 0)
  }

  lemma ChargedAt(lines: seq<ExpectedLine>, r: LineRef)
    requires NoDuplicates(Map(lines, ExpectedRef))
    ensures Charges(lines, r, AmountAt(lines, ExpectedRef, ExpectedAmount, r))
  {
    FoundAt(lines, ExpectedRef, r);
  }

  function DeltaRef(d: Delta): LineRef { d.ref }

  /** Every delta shows what either rating charges at its reference and the difference, and every reference of either
      rating has one delta. */
  lemma EveryDeltaSaysBothRatings(previous: seq<ExpectedLine>, corrected: seq<ExpectedLine>, d: Delta)
    requires NoDuplicates(Map(previous, ExpectedRef)) && NoDuplicates(Map(corrected, ExpectedRef))
    requires d in Deltas(previous, corrected)
    ensures Charges(previous, d.ref, d.previous) && Charges(corrected, d.ref, d.corrected)
    ensures d.delta == d.corrected - d.previous
    ensures NoDuplicates(Map(Deltas(previous, corrected), DeltaRef))
    ensures forall l :: l in previous || l in corrected ==> l.ref in Map(Deltas(previous, corrected), DeltaRef)
  {
    var all := Map(previous, ExpectedRef) + Map(corrected, ExpectedRef);
    var refs := Keys(all, Same);
    var i :| 0 <= i < |refs| && Deltas(previous, corrected)[i] == d;
    ChargedAt(previous, refs[i]);
    ChargedAt(corrected, refs[i]);
    assert Map(Deltas(previous, corrected), DeltaRef) == refs;
    Covered(previous, all);
    Covered(corrected, all);
  }
}
