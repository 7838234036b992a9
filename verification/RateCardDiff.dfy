/** The field-by-field difference between two rate cards, as the reviewer of a change sees it.
    A path is the list of keys and indexes that lead to a value; `None` stands for `undefined`. */
module RateCardDiff {
  import opened Collections
  import opened Paths

  datatype Json =
    | Null
    | Bool(b: bool)
    | Num(n: int)
    | Str(s: string)
    | Arr(items: seq<Json>)
    | Obj(fields: map<string, Json>)

  datatype Delta = Delta(before: Option<Json>, after: Option<Json>)

  type Change = Placed<Delta>

  /** A way of listing keys: each of them, once. The source lists them sorted. */
  type Listing = set<string> -> seq<string>

  ghost predicate Lists(order: Listing) {
    forall ks: set<string> :: NoDuplicates(order(ks)) && forall k :: k in order(ks) <==> k in ks
  }

  function Field(fields: map<string, Json>, k: string): Option<Json> {
    if k in fields then Some(fields[k]) else None
  }

  function Item(items: seq<Json>, i: nat): Option<Json> {
    if i < |items| then Some(items[i]) else None
  }

  /** Objects are compared key by key and arrays index by index; anything else that differs is one change. */
  function Diff(left: Json, right: Json, order: Listing): seq<Change>
    decreases left, 2, 0
  {
    if left.Obj? && right.Obj? then FieldsDiff(left, right, order(left.fields.Keys + right.fields.Keys), order)
    else if left.Arr? && right.Arr? then ItemsDiff(left, right, Longer(left, right), order)
    else if left == right then []
    else [Placed([], Delta(Some(left), Some(right)))]
  }

  function Longer(left: Json, right: Json): nat
    requires left.Arr? && right.Arr?
  {
    if |left.items| > |right.items| then |left.items| else |right.items|
  }

  function FieldsDiff(left: Json, right: Json, keys: seq<string>, order: Listing): seq<Change>
    requires left.Obj? && right.Obj?
    decreases left, 1, |keys|
  {
    if keys == [] then []
    else FieldsDiff(left, right, keys[..|keys| - 1], order) + FieldDiff(left, right, keys[|keys| - 1], order)
  }

  function FieldDiff(left: Json, right: Json, k: string, order: Listing): seq<Change>
    requires left.Obj? && right.Obj?
    decreases left, 0, 0
  {
    if k in left.fields && k in right.fields then Map(Diff(left.fields[k], right.fields[k], order), Under(Key(k)))
    else if k in left.fields || k in right.fields then [Placed([Key(k)],
        Delta(Field(left.fields, k), Field(right.fields, k)))]
    else []
  }

  function ItemsDiff(left: Json, right: Json, n: nat, order: Listing): seq<Change>
    requires left.Arr? && right.Arr?
    decreases left, 1, n
  {
    if n == 0 then [] else ItemsDiff(left, right, n - 1, order) + ItemDiff(left, right, n - 1, order)
  }

  function ItemDiff(left: Json, right: Json, i: nat, order: Listing): seq<Change>
    requires left.Arr? && right.Arr?
    decreases left, 0, 0
  {
    if i < |left.items| && i < |right.items| then Map(Diff(left.items[i], right.items[i], order), Under(Index(i)))
    else if i < |left.items| || i < |right.items| then [Placed([Index(i)],
        Delta(Item(left.items, i), Item(right.items, i)))]
    else []
  }

  // ---------------------------------------------------------------- the recursive walk

  class Walker {
    var changes: seq<Change>

    constructor ()
      ensures changes == []
    {
      changes := [];
    }

    method Walk(left: Json, right: Json, path: seq<Step>, order: Listing)
      modifies this
      ensures changes == old(changes) + Map(Diff(left, right, order), At(path))
      decreases left, 2
    {
      if left.Obj? && right.Obj? {
        WalkFields(left, right, order(left.fields.Keys + right.fields.Keys), path, order);
      } else if left.Arr? && right.Arr? {
        WalkItems(left, right, path, order);
      } else if left != right {
        changes := changes + [Placed(path, Delta(Some(left), Some(right)))];
        assert path + [] == path;
      }
    }

    method WalkFields(left: Json, right: Json, keys: seq<string>, path: seq<Step>, order: Listing)
      requires left.Obj? && right.Obj?
      modifies this
      ensures changes == old(changes) + Map(FieldsDiff(left, right, keys, order), At(path))
      decreases left, 1
    {
      ghost var before := changes;
      for i := 0 to |keys|
        invariant changes == before + Map(FieldsDiff(left, right, keys[..i], order), At(path))
      {
        WalkField(left, right, keys[i], path, order);
        assert keys[..i + 1][..i] == keys[..i];
        MapConcat(FieldsDiff(left, right, keys[..i], order), FieldDiff(left, right, keys[i], order), At(path));
      }
      assert keys[..|keys|] == keys;
    }

    method WalkField(left: Json, right: Json, k: string, path: seq<Step>, order: Listing)
      requires left.Obj? && right.Obj?
      modifies this
      ensures changes == old(changes) + Map(FieldDiff(left, right, k, order), At(path))
      decreases left, 0
    {
      if k in left.fields && k in right.fields {
        Walk(left.fields[k], right.fields[k], path + [Key(k)], order);
        AtUnder(Diff(left.fields[k], right.fields[k], order), path, Key(k));
      } else if k in left.fields || k in right.fields {
        changes := changes + [Placed(path + [Key(k)], Delta(Field(left.fields, k), Field(right.fields, k)))];
      }
    }

    method WalkItems(left: Json, right: Json, path: seq<Step>, order: Listing)
      requires left.Arr? && right.Arr?
      modifies this
      ensures changes == old(changes) + Map(ItemsDiff(left, right, Longer(left, right), order), At(path))
      decreases left, 1
    {
      ghost var before := changes;
      for i := 0 to Longer(left, right)
        invariant changes == before + Map(ItemsDiff(left, right, i, order), At(path))
      {
        WalkItem(left, right, i, path, order);
        MapConcat(ItemsDiff(left, right, i, order), ItemDiff(left, right, i, order), At(path));
      }
    }

    method WalkItem(left: Json, right: Json, i: nat, path: seq<Step>, order: Listing)
      requires left.Arr? && right.Arr?
      modifies this
      ensures changes == old(changes) + Map(ItemDiff(left, right, i, order), At(path))
      decreases left, 0
    {
      if i < |left.items| && i < |right.items| {
        Walk(left.items[i], right.items[i], path + [Index(i)], order);
        AtUnder(Diff(left.items[i], right.items[i], order), path, Index(i));
      } else if i < |left.items| || i < |right.items| {
        changes := changes + [Placed(path + [Index(i)], Delta(Item(left.items, i), Item(right.items, i)))];
      }
    }
  }

  method DiffRateCards(before: Json, after: Json, order: Listing) returns (changes: seq<Change>)
    ensures changes == Diff(before, after, order)
  {
    var walker := new Walker();
    walker.Walk(before, after, [], order);
    changes := walker.changes;
    AtRoot(changes);
    AtRoot(Diff(before, after, order));
  }

  // ---------------------------------------------------------------- the review

  datatype ReviewError = NoChanges | SameVersion

  function Version(card: Json): Option<Json> {
    if card.Obj? then Field(card.fields, "version") else None
  }

  /** The change list a reviewer signs off, for a card that differs and carries a new version. */
  function PrepareReview(before: Json, after: Json, order: Listing): Result<seq<Change>, ReviewError> {
    var changes := Diff(before, after, order);
    if |changes| == 0 then Err(NoChanges)
    else if Version(before) == Version(after) then Err(SameVersion)
    else Ok(changes)
  }
}
