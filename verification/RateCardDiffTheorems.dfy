/** The difference is a faithful patch: it is empty exactly when the cards are equal, and applying it to the old card
    gives the new one. */
module RateCardDiffTheorems {
  import opened Collections
  import opened Paths
  import opened RateCardDiff

  // ---------------------------------------------------------------- applying a change

  /** Sets what a path leads to. Nothing at a key removes the key; nothing at an index ends the array there. */
  function Put(j: Json, path: seq<Step>, v: Option<Json>): Json
    decreases |path|, 0
  {
    if path == [] then v.GetOr(Null)
    else
      match path[0]
      case Key(k) => PutField(j, k, path[1..], v)
      case Index(i) => PutItem(j, i, path[1..], v)
  }

  function PutField(j: Json, k: string, rest: seq<Step>, v: Option<Json>): Json
    decreases |rest|, 1
  {
    if !j.Obj? then j
    else if rest == [] then Obj(if v.Some? then j.fields[k := v.value] else j.fields - {k})
    else if k in j.fields then Obj(j.fields[k := Put(j.fields[k], rest, v)])
    else j
  }

  function PutItem(j: Json, i: nat, rest: seq<Step>, v: Option<Json>): Json
    decreases |rest|, 1
  {
    if !j.Arr? then j
    else if i < |j.items| then
      if rest == [] && v.None? then Arr(j.items[..i])
      else Arr(j.items[i := if rest == [] then v.value else Put(j.items[i], rest, v)])
    else if rest == [] && i == |j.items| && v.Some? then Arr(j.items + [v.value])
    else j
  }

  /** Applies changes in order. */
  function Patch(j: Json, changes: seq<Change>): Json {
    if changes == [] then j
    else Put(Patch(j, changes[..|changes| - 1]), changes[|changes| - 1].path, changes[|changes| - 1].what.after)
  }

  lemma PatchSnoc(j: Json, changes: seq<Change>, c: Change)
    ensures Patch(j, changes + [c]) == Put(Patch(j, changes), c.path, c.what.after)
  {
    assert (changes + [c])[..|changes|] == changes;
  }

  lemma {:induction false} PatchConcat(j: Json, xs: seq<Change>, ys: seq<Change>)
    ensures Patch(j, xs + ys) == Patch(Patch(j, xs), ys)
  {
    if ys == [] {
      assert xs + ys == xs;
    } else {
      var init, last := ys[..|ys| - 1], ys[|ys| - 1];
      assert xs + ys == (xs + init) + [last];
      PatchSnoc(j, xs + init, last);
      PatchConcat(j, xs, init);
    }
  }

  // ---------------------------------------------------------------- changes below one key or index

  /** A change of the whole value gives the new value. */
  ghost predicate Replaces(changes: seq<Change>) {
    forall c :: c in changes && c.path == [] ==> c.what.after.Some?
  }

  lemma DiffReplaces(left: Json, right: Json, order: Listing)
    ensures Replaces(Diff(left, right, order))
  {
    if left.Obj? && right.Obj? {
      FieldsGoDeeper(left, right, order(left.fields.Keys + right.fields.Keys), order);
    } else if left.Arr? && right.Arr? {
      ItemsGoDeeper(left, right, Longer(left, right), order);
    }
  }

  lemma {:induction false} FieldsGoDeeper(left: Json, right: Json, keys: seq<string>, order: Listing)
    requires left.Obj? && right.Obj?
    ensures forall c :: c in FieldsDiff(left, right, keys, order) ==> c.path != []
  {
    if keys != [] {
      FieldsGoDeeper(left, right, keys[..|keys| - 1], order);
    }
  }

  lemma {:induction false} ItemsGoDeeper(left: Json, right: Json, n: nat, order: Listing)
    requires left.Arr? && right.Arr?
    ensures forall c :: c in ItemsDiff(left, right, n, order) ==> c.path != []
  {
    if n > 0 {
      ItemsGoDeeper(left, right, n - 1, order);
    }
  }

  /** Changes below a key patch what is at the key. */
  lemma {:induction false} PatchBelowKey(fields: map<string, Json>, k: string, changes: seq<Change>)
    requires k in fields && Replaces(changes)
    ensures Patch(Obj(fields), Map(changes, Under(Key(k)))) == Obj(fields[k := Patch(fields[k], changes)])
  {
    if changes == [] {
      assert fields[k := fields[k]] == fields;
    } else {
      var init, c := changes[..|changes| - 1], changes[|changes| - 1];
      assert c in changes;
      PatchBelowKey(fields, k, init);
      MapSnoc(init, c, Under(Key(k)));
      assert changes == init + [c];
      PatchSnoc(Obj(fields), Map(init, Under(Key(k))), Under(Key(k))(c));
      var patched := fields[k := Patch(fields[k], init)];
      assert ([Key(k)] + c.path)[1..] == c.path;
      assert Put(Obj(patched), [Key(k)] + c.path, c.what.after) == PutField(Obj(patched), k, c.path, c.what.after);
      assert patched[k := Put(patched[k], c.path, c.what.after)]
          == fields[k := Put(Patch(fields[k], init), c.path, c.what.after)];
    }
  }

  lemma {:induction false} PatchBelowIndex(items: seq<Json>, i: nat, changes: seq<Change>)
    requires i < |items| && Replaces(changes)
    ensures Patch(Arr(items), Map(changes, Under(Index(i)))) == Arr(items[i := Patch(items[i], changes)])
  {
    if changes == [] {
      assert items[i := items[i]] == items;
    } else {
      var init, c := changes[..|changes| - 1], changes[|changes| - 1];
      assert c in changes;
      PatchBelowIndex(items, i, init);
      MapSnoc(init, c, Under(Index(i)));
      assert changes == init + [c];
      PatchSnoc(Arr(items), Map(init, Under(Index(i))), Under(Index(i))(c));
      var patched := items[i := Patch(items[i], init)];
      assert ([Index(i)] + c.path)[1..] == c.path;
      assert Put(Arr(patched), [Index(i)] + c.path, c.what.after) == PutItem(Arr(patched), i, c.path, c.what.after);
      assert patched[i := Put(patched[i], c.path, c.what.after)]
          == items[i := Put(Patch(items[i], init), c.path, c.what.after)];
    }
  }

  // ---------------------------------------------------------------- the patch

  /** As on the right for the listed keys and as on the left for the others. */
  function Mixed(left: map<string, Json>, right: map<string, Json>, keys: seq<string>): map<string, Json> {
    map k | k in left.Keys + right.Keys && (if k in keys then k in right else k in left) ::
        if k in keys then right[k] else left[k]
  }

  /** As on the right up to index `n` and as on the left beyond; cut short where the right ends. */
  function Spliced(left: seq<Json>, right: seq<Json>, n: nat): seq<Json> {
    if n <= |right| then right[..n] + (if n <= |left| then left[n..] else []) else right
  }

  lemma MixedSnoc(left: map<string, Json>, right: map<string, Json>, keys: seq<string>, k: string)
    requires k !in keys
    ensures k in Mixed(left, right, keys) <==> k in left
    ensures k in left ==> Mixed(left, right, keys)[k] == left[k]
    ensures Mixed(left, right, keys + [k])
      == if k in right then Mixed(left, right, keys)[k := right[k]] else Mixed(left, right, keys) - {k}
  {
    var before, after := Mixed(left, right, keys), Mixed(left, right, keys + [k]);
    if k in right {
      assert after == before[k := right[k]];
    } else {
      assert after == before - {k};
    }
  }

  lemma PatchOnce(j: Json, c: Change)
    ensures Patch(j, [c]) == Put(j, c.path, c.what.after)
  {
    assert [] + [c] == [c];
    PatchSnoc(j, [], c);
  }

  lemma PatchField(left: Json, right: Json, keys: seq<string>, k: string, order: Listing)
    requires Lists(order) && left.Obj? && right.Obj? && k !in keys
    ensures Patch(Obj(Mixed(left.fields, right.fields, keys)), FieldDiff(left, right, k, order))
      == Obj(Mixed(left.fields, right.fields, keys + [k]))
    decreases left, 0, 0
  {
    var l, r := left.fields, right.fields;
    var before := Mixed(l, r, keys);
    MixedSnoc(l, r, keys, k);
    if k in l && k in r {
      PatchIsFaithful(l[k], r[k], order);
      DiffReplaces(l[k], r[k], order);
      PatchBelowKey(before, k, Diff(l[k], r[k], order));
    } else if k in l || k in r {
      PatchOnce(Obj(before), Placed([Key(k)], Delta(Field(l, k), Field(r, k))));
    } else {
      assert before - {k} == before;
    }
  }

  lemma {:induction false} PatchFields(left: Json, right: Json, keys: seq<string>, order: Listing)
    requires Lists(order) && left.Obj? && right.Obj? && NoDuplicates(keys)
    ensures Patch(left, FieldsDiff(left, right, keys, order)) == Obj(Mixed(left.fields, right.fields, keys))
    decreases left, 1, |keys|
  {
    if keys == [] {
      assert Mixed(left.fields, right.fields, []) == left.fields;
    } else {
      var init, k := keys[..|keys| - 1], keys[|keys| - 1];
      assert keys == init + [k];
      PatchFields(left, right, init, order);
      PatchField(left, right, init, k, order);
      PatchConcat(left, FieldsDiff(left, right, init, order), FieldDiff(left, right, k, order));
    }
  }

  lemma SplicedSnoc(left: seq<Json>, right: seq<Json>, i: nat)
    requires i < |left| || i < |right|
    ensures i < |left| && i <= |right| ==> i < |Spliced(left, right, i)| && Spliced(left, right, i)[i] == left[i]
    ensures i >= |left| && i < |right| ==> |Spliced(left, right, i)| == i
    ensures i >= |right| ==> i >= |Spliced(left, right, i)| || Spliced(left, right, i)[..i] == right
    ensures Spliced(left, right, i + 1) ==
      if i >= |right| then right
      else if i < |left| then Spliced(left, right, i)[i := right[i]]
      else Spliced(left, right, i) + [right[i]]
  {
    if i < |right| {
      assert right[..i + 1] == right[..i] + [right[i]];
    }
  }

  lemma PatchItem(left: Json, right: Json, i: nat, order: Listing)
    requires Lists(order) && left.Arr? && right.Arr? && i < Longer(left, right)
    ensures Patch(Arr(Spliced(left.items, right.items, i)), ItemDiff(left, right, i, order))
      == Arr(Spliced(left.items, right.items, i + 1))
    decreases left, 0, 0
  {
    var l, r := left.items, right.items;
    var before := Spliced(l, r, i);
    SplicedSnoc(l, r, i);
    if i < |l| && i < |r| {
      PatchIsFaithful(l[i], r[i], order);
      DiffReplaces(l[i], r[i], order);
      PatchBelowIndex(before, i, Diff(l[i], r[i], order));
    } else {
      PatchOnce(Arr(before), Placed([Index(i)], Delta(Item(l, i), Item(r, i))));
    }
  }

  lemma {:induction false} PatchItems(left: Json, right: Json, n: nat, order: Listing)
    requires Lists(order) && left.Arr? && right.Arr? && n <= Longer(left, right)
    ensures Patch(left, ItemsDiff(left, right, n, order)) == Arr(Spliced(left.items, right.items, n))
    decreases left, 1, n
  {
    if n == 0 {
      assert Spliced(left.items, right.items, 0) == left.items;
    } else {
      var before, here := ItemsDiff(left, right, n - 1, order), ItemDiff(left, right, n - 1, order);
      PatchItems(left, right, n - 1, order);
      PatchItem(left, right, n - 1, order);
      assert Patch(left, before + here) == Patch(Patch(left, before), here) by {
        PatchConcat(left, before, here);
      }
    }
  }

  /** Applying the changes, each setting what its path leads to, turns the old card into the new one. */
  lemma PatchIsFaithful(left: Json, right: Json, order: Listing)
    requires Lists(order)
    ensures Patch(left, Diff(left, right, order)) == right
    decreases left, 2, 0
  {
    if left.Obj? && right.Obj? {
      var keys := order(left.fields.Keys + right.fields.Keys);
      PatchFields(left, right, keys, order);
      assert Mixed(left.fields, right.fields, keys) == right.fields;
    } else if left.Arr? && right.Arr? {
      PatchItems(left, right, Longer(left, right), order);
      assert Spliced(left.items, right.items, Longer(left, right)) == right.items;
    } else if left != right {
      PatchSnoc(left, [], Placed([], Delta(Some(left), Some(right))));
    }
  }

  /** There is nothing to review exactly when the cards are equal. */
  lemma NoChangesExactlyWhenEqual(left: Json, right: Json, order: Listing)
    requires Lists(order)
    ensures Diff(left, right, order) == [] <==> left == right
  {
    PatchIsFaithful(left, right, order);
    if left == right {
      NoChanges(left, order);
    }
  }

  lemma NoChanges(j: Json, order: Listing)
    requires Lists(order)
    ensures Diff(j, j, order) == []
    decreases j, 1, 0
  {
    if j.Obj? {
      NoFieldChanges(j, order(j.fields.Keys + j.fields.Keys), order);
    } else if j.Arr? {
      NoItemChanges(j, |j.items|, order);
    }
  }

  lemma {:induction false} NoFieldChanges(j: Json, keys: seq<string>, order: Listing)
    requires Lists(order) && j.Obj?
    ensures FieldsDiff(j, j, keys, order) == []
    decreases j, 0, |keys|
  {
    if keys != [] {
      NoFieldChanges(j, keys[..|keys| - 1], order);
      if keys[|keys| - 1] in j.fields {
        NoChanges(j.fields[keys[|keys| - 1]], order);
      }
    }
  }

  lemma {:induction false} NoItemChanges(j: Json, n: nat, order: Listing)
    requires Lists(order) && j.Arr?
    ensures ItemsDiff(j, j, n, order) == []
    decreases j, 0, n
  {
    if n > 0 {
      NoItemChanges(j, n - 1, order);
      if n - 1 < |j.items| {
        NoChanges(j.items[n - 1], order);
      }
    }
  }

  /** A review is refused exactly when the proposed card keeps the old version, changed or not. */
  lemma ReviewRefusedExactly(before: Json, after: Json, order: Listing)
    requires Lists(order)
    ensures PrepareReview(before, after, order).Err? <==> Version(before) == Version(after)
    ensures PrepareReview(before, after, order).Ok? ==>
      Patch(before, PrepareReview(before, after, order).value) == after
  {
    NoChangesExactlyWhenEqual(before, after, order);
    PatchIsFaithful(before, after, order);
  }

  // ---------------------------------------------------------------- what each change says

  /** What a path leads to. */
  function ValueAt(j: Json, path: seq<Step>): Option<Json>
    decreases |path|
  {
    if path == [] then Some(j)
    else
      match path[0]
      case Key(k) => if j.Obj? && k in j.fields then ValueAt(j.fields[k], path[1..]) else None
      case Index(i) => if j.Arr? && i < |j.items| then ValueAt(j.items[i], path[1..]) else None
  }

  /** The change reports what each card holds at its path, and the two differ. */
  ghost predicate Truthful(c: Change, left: Json, right: Json) {
    c.what.before == ValueAt(left, c.path) && c.what.after == ValueAt(right, c.path) && c.what.before != c.what.after
  }

  ghost predicate AllTruthful(changes: seq<Change>, left: Json, right: Json) {
    forall c :: c in changes ==> Truthful(c, left, right)
  }

  lemma TruthfulBelow(changes: seq<Change>, step: Step, left: Json, right: Json, l: Json, r: Json)
    requires AllTruthful(changes, l, r)
    requires forall path ::
      ValueAt(left, [step] + path) == ValueAt(l, path) && ValueAt(right, [step] + path) == ValueAt(r, path)
    ensures AllTruthful(Map(changes, Under(step)), left, right)
  {
    forall c | c in Map(changes, Under(step)) ensures Truthful(c, left, right) {
      var i :| 0 <= i < |changes| && c == Under(step)(changes[i]);
      assert changes[i] in changes && Truthful(changes[i], l, r);
    }
  }

  lemma OneStep(j: Json, step: Step, path: seq<Step>)
    ensures ([step] + path)[1..] == path
    ensures step.Key? && j.Obj? && step.key in j.fields
      ==> ValueAt(j, [step] + path) == ValueAt(j.fields[step.key], path)
    ensures step.Index? && j.Arr? && step.index < |j.items|
      ==> ValueAt(j, [step] + path) == ValueAt(j.items[step.index], path)
  {
    assert ([step] + path)[1..] == path;
  }

  /** Every change an approver is shown is true of both cards, at any depth. */
  lemma ChangesAreTruthful(left: Json, right: Json, order: Listing)
    ensures AllTruthful(Diff(left, right, order), left, right)
    decreases left, 2, 0
  {
    if left.Obj? && right.Obj? {
      FieldsAreTruthful(left, right, order(left.fields.Keys + right.fields.Keys), order);
    } else if left.Arr? && right.Arr? {
      ItemsAreTruthful(left, right, Longer(left, right), order);
    }
  }

  lemma {:induction false} FieldsAreTruthful(left: Json, right: Json, keys: seq<string>, order: Listing)
    requires left.Obj? && right.Obj?
    ensures AllTruthful(FieldsDiff(left, right, keys, order), left, right)
    decreases left, 1, |keys|
  {
    if keys != [] {
      FieldsAreTruthful(left, right, keys[..|keys| - 1], order);
      FieldIsTruthful(left, right, keys[|keys| - 1], order);
    }
  }

  lemma FieldIsTruthful(left: Json, right: Json, k: string, order: Listing)
    requires left.Obj? && right.Obj?
    ensures AllTruthful(FieldDiff(left, right, k, order), left, right)
    decreases left, 0, 0
  {
    OneStep(left, Key(k), []);
    OneStep(right, Key(k), []);
    assert [Key(k)] + [] == [Key(k)];
    if k in left.fields && k in right.fields {
      ChangesAreTruthful(left.fields[k], right.fields[k], order);
      forall path: seq<Step>
        ensures ValueAt(left, [Key(k)] + path) == ValueAt(left.fields[k], path)
        ensures ValueAt(right, [Key(k)] + path) == ValueAt(right.fields[k], path)
      {
        OneStep(left, Key(k), path);
        OneStep(right, Key(k), path);
      }
      TruthfulBelow(Diff(left.fields[k], right.fields[k], order), Key(k), left, right, left.fields[k], right.fields[k]);
    }
  }

  lemma {:induction false} ItemsAreTruthful(left: Json, right: Json, n: nat, order: Listing)
    requires left.Arr? && right.Arr?
    ensures AllTruthful(ItemsDiff(left, right, n, order), left, right)
    decreases left, 1, n
  {
    if n > 0 {
      ItemsAreTruthful(left, right, n - 1, order);
      ItemIsTruthful(left, right, n - 1, order);
    }
  }

  lemma ItemIsTruthful(left: Json, right: Json, i: nat, order: Listing)
    requires left.Arr? && right.Arr?
    ensures AllTruthful(ItemDiff(left, right, i, order), left, right)
    decreases left, 0, 0
  {
    OneStep(left, Index(i), []);
    OneStep(right, Index(i), []);
    assert [Index(i)] + [] == [Index(i)];
    if i < |left.items| && i < |right.items| {
      ChangesAreTruthful(left.items[i], right.items[i], order);
      forall path: seq<Step>
        ensures ValueAt(left, [Index(i)] + path) == ValueAt(left.items[i], path)
        ensures ValueAt(right, [Index(i)] + path) == ValueAt(right.items[i], path)
      {
        OneStep(left, Index(i), path);
        OneStep(right, Index(i), path);
      }
      TruthfulBelow(Diff(left.items[i], right.items[i], order), Index(i), left, right, left.items[i], right.items[i]);
    }
  }
}
