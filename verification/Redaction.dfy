/** Screening a payload tree for customer detail: wherever it is nested, an entry with a telling name and a string of a
    telling form give way to a marker. Which names and forms are telling are parameters. */
module Redaction {
  import opened Collections
  import opened Paths

  datatype Node =
    | Null
    | Bool(b: bool)
    | Num(n: int)
    | Str(s: string)
    | Arr(items: seq<Node>)
    | Obj(entries: seq<Entry>)

  /** Objects list their entries in order. */
  datatype Entry = Entry(key: string, value: Node)

  datatype Screen = Screen(isCustomerKey: string -> bool, shapeOf: string -> Option<string>)

  datatype Reason = ByKey | ByShape(shape: string)

  type Removed = Placed<Reason>

  const MARKER := "[redacted]"

  predicate IsMarker(node: Node) { node == Str(MARKER) }

  /** A customer-named entry is replaced whole unless it already is the marker. */
  predicate ReplacedWhole(screen: Screen, e: Entry) {
    screen.isCustomerKey(e.key) && !IsMarker(e.value)
  }

  predicate IsShaped(screen: Screen, s: string) {
    s != MARKER && screen.shapeOf(s).Some?
  }

  function Redact(screen: Screen, node: Node): Node {
    match node
    case Str(s) => if IsShaped(screen, s) then Str(MARKER) else node
    case Arr(items) => Arr(seq(|items|, i requires 0 <= i < |items| => Redact(screen, items[i])))
    case Obj(entries) => Obj(seq(|entries|, i requires 0 <= i < |entries| =>
      Entry(entries[i].key, if ReplacedWhole(screen, entries[i]) then Str(MARKER)
          else Redact(screen, entries[i].value))))
    case _ => node
  }

  /** What is reported, in the order in which the walk meets it. */
  function Removals(screen: Screen, node: Node): seq<Removed>
    decreases node, 2, 0
  {
    match node
    case Str(s) => if IsShaped(screen, s) then [Placed([], ByShape(screen.shapeOf(s).value))] else []
    case Arr(items) => ItemRemovals(screen, node, |items|)
    case Obj(entries) => EntryRemovals(screen, node, |entries|)
    case _ => []
  }

  function ItemRemovals(screen: Screen, node: Node, k: nat): seq<Removed>
    requires node.Arr? && k <= |node.items|
    decreases node, 1, k
  {
    if k == 0 then []
    else ItemRemovals(screen, node, k - 1) + Map(Removals(screen, node.items[k - 1]), Under(Index(k - 1)))
  }

  function EntryRemovals(screen: Screen, node: Node, k: nat): seq<Removed>
    requires node.Obj? && k <= |node.entries|
    decreases node, 1, k
  {
    if k == 0 then [] else EntryRemovals(screen, node, k - 1) + OneEntryRemovals(screen, node.entries[k - 1])
  }

  function OneEntryRemovals(screen: Screen, e: Entry): seq<Removed>
    decreases e, 0, 0
  {
    if ReplacedWhole(screen, e) then [Placed([Key(e.key)], ByKey)]
        else Map(Removals(screen, e.value), Under(Key(e.key)))
  }

  // ---------------------------------------------------------------- the recursive walk

  class Redactor {
    var removed: seq<Removed>

    constructor ()
      ensures removed == []
    {
      removed := [];
    }

    method Walk(screen: Screen, node: Node, path: seq<Step>) returns (out: Node)
      modifies this
      ensures out == Redact(screen, node)
      ensures removed == old(removed) + Map(Removals(screen, node), At(path))
      decreases node, 1
    {
      match node
      case Str(s) =>
        out := node;
        if s != MARKER {
          var shape := screen.shapeOf(s);
          if shape.Some? {
            assert path + [] == path;
            removed := removed + [Placed(path, ByShape(shape.value))];
            out := Str(MARKER);
          }
        }
      case Arr(_) => out := WalkItems(screen, node, path);
      case Obj(_) => out := WalkEntries(screen, node, path);
      case _ => out := node;
    }

    method WalkItems(screen: Screen, node: Node, path: seq<Step>) returns (out: Node)
      requires node.Arr?
      modifies this
      ensures out == Redact(screen, node)
      ensures removed == old(removed) + Map(ItemRemovals(screen, node, |node.items|), At(path))
      decreases node, 0
    {
      var items: seq<Node> := [];
      ghost var before := removed;
      for k := 0 to |node.items|
        invariant items == Redact(screen, node).items[..k]
        invariant removed == before + Map(ItemRemovals(screen, node, k), At(path))
      {
        var item := Walk(screen, node.items[k], path + [Index(k)]);
        items := items + [item];
        ItemsSnoc(screen, node, k, path);
      }
      out := Arr(items);
    }

    method WalkEntries(screen: Screen, node: Node, path: seq<Step>) returns (out: Node)
      requires node.Obj?
      modifies this
      ensures out == Redact(screen, node)
      ensures removed == old(removed) + Map(EntryRemovals(screen, node, |node.entries|), At(path))
      decreases node, 0
    {
      var entries: seq<Entry> := [];
      ghost var before := removed;
      for k := 0 to |node.entries|
        invariant entries == Redact(screen, node).entries[..k]
        invariant removed == before + Map(EntryRemovals(screen, node, k), At(path))
      {
        var entry := WalkEntry(screen, node.entries[k], path);
        entries := entries + [entry];
        EntriesSnoc(screen, node, k, path);
      }
      out := Obj(entries);
    }

    method WalkEntry(screen: Screen, e: Entry, path: seq<Step>) returns (out: Entry)
      modifies this
      ensures out == RedactEntry(screen, e)
      ensures removed == old(removed) + Map(OneEntryRemovals(screen, e), At(path))
      decreases e, 0
    {
      if screen.isCustomerKey(e.key) && e.value != Str(MARKER) {
        removed := removed + [Placed(path + [Key(e.key)], ByKey)];
        out := Entry(e.key, Str(MARKER));
      } else {
        var value := Walk(screen, e.value, path + [Key(e.key)]);
        AtUnder(Removals(screen, e.value), path, Key(e.key));
        out := Entry(e.key, value);
      }
    }
  }

  lemma EntriesSnoc(screen: Screen, node: Node, k: nat, path: seq<Step>)
    requires node.Obj? && k < |node.entries|
    ensures Redact(screen, node).entries[..k + 1] == Redact(screen, node).entries[..k]
      + [RedactEntry(screen, node.entries[k])]
    ensures Map(EntryRemovals(screen, node, k + 1), At(path))
      == Map(EntryRemovals(screen, node, k), At(path)) + Map(OneEntryRemovals(screen, node.entries[k]), At(path))
  {
    MapConcat(EntryRemovals(screen, node, k), OneEntryRemovals(screen, node.entries[k]), At(path));
  }

  lemma ItemsSnoc(screen: Screen, node: Node, k: nat, path: seq<Step>)
    requires node.Arr? && k < |node.items|
    ensures Redact(screen, node).items[..k + 1] == Redact(screen, node).items[..k] + [Redact(screen, node.items[k])]
    ensures Map(ItemRemovals(screen, node, k + 1), At(path))
      == Map(ItemRemovals(screen, node, k), At(path)) + Map(Removals(screen, node.items[k]), At(path + [Index(k)]))
  {
    AtUnder(Removals(screen, node.items[k]), path, Index(k));
    MapConcat(ItemRemovals(screen, node, k), Map(Removals(screen, node.items[k]), Under(Index(k))), At(path));
  }

  function RedactEntry(screen: Screen, e: Entry): Entry {
    Entry(e.key, if ReplacedWhole(screen, e) then Str(MARKER) else Redact(screen, e.value))
  }

  method RedactProviderPayload(screen: Screen, value: Node) returns (redacted: Node, removed: seq<Removed>)
    ensures redacted == Redact(screen, value)
    ensures removed == Removals(screen, value)
  {
    var redactor := new Redactor();
    redacted := redactor.Walk(screen, value, []);
    removed := redactor.removed;
    AtRoot(Removals(screen, value));
  }

  // ---------------------------------------------------------------- idempotent and complete

  /** No identifier-shaped string anywhere, and nothing but the marker under a customer-named key. */
  predicate Clean(screen: Screen, node: Node) {
    match node
    case Str(s) => !IsShaped(screen, s)
    case Arr(items) => forall i :: 0 <= i < |items| ==> Clean(screen, items[i])
    case Obj(entries) => forall i :: 0 <= i < |entries| ==>
      (screen.isCustomerKey(entries[i].key) ==> IsMarker(entries[i].value)) && Clean(screen, entries[i].value)
    case _ => true
  }

  /** Whatever goes in, what comes out is clean. */
  lemma {:induction false} RedactionIsComplete(screen: Screen, node: Node)
    ensures Clean(screen, Redact(screen, node))
  {
    match node
    case Arr(items) =>
      forall i | 0 <= i < |items| ensures Clean(screen, Redact(screen, items[i])) {
        RedactionIsComplete(screen, items[i]);
      }
    case Obj(entries) =>
      var out := Redact(screen, node).entries;
      forall i | 0 <= i < |entries|
        ensures (screen.isCustomerKey(out[i].key) ==> IsMarker(out[i].value)) && Clean(screen, out[i].value)
      {
        RedactionIsComplete(screen, entries[i].value);
      }
    case _ =>
  }

  /** A payload is clean exactly when redaction changes nothing, and exactly when it reports nothing. */
  lemma {:induction false} NothingRemovedExactly(screen: Screen, node: Node)
    ensures Removals(screen, node) == [] <==> Clean(screen, node)
    ensures Redact(screen, node) == node <==> Clean(screen, node)
    decreases node, 1, 0
  {
    match node
    case Arr(items) =>
      NoItemRemovedExactly(screen, node, |items|);
      CleanItemsExactly(screen, node);
    case Obj(entries) =>
      NoEntryRemovedExactly(screen, node, |entries|);
      CleanEntriesExactly(screen, node);
    case _ =>
  }

  lemma {:induction false} NoItemRemovedExactly(screen: Screen, node: Node, k: nat)
    requires node.Arr? && k <= |node.items|
    ensures ItemRemovals(screen, node, k) == [] <==> forall i :: 0 <= i < k ==> Clean(screen, node.items[i])
    decreases node, 0, k
  {
    if k > 0 {
      NoItemRemovedExactly(screen, node, k - 1);
      NothingRemovedExactly(screen, node.items[k - 1]);
    }
  }

  lemma CleanItemsExactly(screen: Screen, node: Node)
    requires node.Arr?
    ensures Redact(screen, node) == node <==> Clean(screen, node)
    decreases node, 0, 0
  {
    var out := Redact(screen, node);
    forall i | 0 <= i < |node.items| ensures out.items[i] == node.items[i] <==> Clean(screen, node.items[i]) {
      NothingRemovedExactly(screen, node.items[i]);
    }
  }

  predicate CleanEntry(screen: Screen, e: Entry) {
    (screen.isCustomerKey(e.key) ==> IsMarker(e.value)) && Clean(screen, e.value)
  }

  lemma {:induction false} NoEntryRemovedExactly(screen: Screen, node: Node, k: nat)
    requires node.Obj? && k <= |node.entries|
    ensures EntryRemovals(screen, node, k) == [] <==> forall i :: 0 <= i < k ==> CleanEntry(screen, node.entries[i])
    decreases node, 0, k
  {
    if k > 0 {
      NoEntryRemovedExactly(screen, node, k - 1);
      NothingRemovedExactly(screen, node.entries[k - 1].value);
    }
  }

  lemma CleanEntriesExactly(screen: Screen, node: Node)
    requires node.Obj?
    ensures Redact(screen, node) == node <==> Clean(screen, node)
    decreases node, 0, 0
  {
    var out := Redact(screen, node);
    forall i | 0 <= i < |node.entries| ensures out.entries[i] == node.entries[i]
        <==> CleanEntry(screen, node.entries[i]) {
      NothingRemovedExactly(screen, node.entries[i].value);
    }
  }

  /** A second pass changes nothing and reports nothing. */
  lemma RedactionIsIdempotent(screen: Screen, node: Node)
    ensures Redact(screen, Redact(screen, node)) == Redact(screen, node)
    ensures Removals(screen, Redact(screen, node)) == []
  {
    RedactionIsComplete(screen, node);
    NothingRemovedExactly(screen, Redact(screen, node));
  }

  // ---------------------------------------------------------------- exactly what is reported

  function FieldIndex(entries: seq<Entry>, k: string): (i: nat)
    ensures i <= |entries|
    ensures i < |entries| ==> entries[i].key == k
    ensures forall j :: 0 <= j < i ==> entries[j].key != k
  {
    if entries == [] || entries[0].key == k then 0 else 1 + FieldIndex(entries[1..], k)
  }

  /** What a path leads to. */
  function Follow(node: Node, path: seq<Step>): Option<Node>
    decreases |path|
  {
    if path == [] then Some(node)
    else
      match path[0]
      case Key(k) =>
        if node.Obj? && FieldIndex(node.entries, k) < |node.entries|
        then Follow(node.entries[FieldIndex(node.entries, k)].value, path[1..]) else None
      case Index(i) =>
        if node.Arr? && i < |node.items| then Follow(node.items[i], path[1..]) else None
  }

  /** No object names a key twice. */
  predicate UniqueKeys(node: Node) {
    match node
    case Arr(items) => forall i :: 0 <= i < |items| ==> UniqueKeys(items[i])
    case Obj(entries) =>
      (forall i, j :: 0 <= i < j < |entries| ==> entries[i].key != entries[j].key) && forall i ::
          0 <= i < |entries| ==> UniqueKeys(entries[i].value)
    case _ => true
  }

  ghost predicate PathIn(removed: seq<Removed>, path: seq<Step>) {
    exists i :: 0 <= i < |removed| && removed[i].path == path
  }

  lemma PathInConcat(xs: seq<Removed>, ys: seq<Removed>, path: seq<Step>)
    ensures PathIn(xs + ys, path) <==> PathIn(xs, path) || PathIn(ys, path)
  {
    if PathIn(xs, path) {
      var i :| 0 <= i < |xs| && xs[i].path == path;
      assert (xs + ys)[i].path == path;
    }
    if PathIn(ys, path) {
      var i :| 0 <= i < |ys| && ys[i].path == path;
      assert (xs + ys)[|xs| + i].path == path;
    }
  }

  lemma PathInUnder(removed: seq<Removed>, step: Step, path: seq<Step>)
    ensures PathIn(Map(removed, Under(step)), path) <==> path != [] && path[0] == step && PathIn(removed, path[1..])
  {
    var below := Map(removed, Under(step));
    if PathIn(below, path) {
      var i :| 0 <= i < |below| && below[i].path == path;
      assert path == [step] + removed[i].path && removed[i].path == path[1..];
    }
    if path != [] && path[0] == step && PathIn(removed, path[1..]) {
      var i :| 0 <= i < |removed| && removed[i].path == path[1..];
      assert path == [step] + path[1..] && below[i].path == path;
    }
  }

  lemma {:induction false} ItemPaths(screen: Screen, node: Node, k: nat, path: seq<Step>)
    requires node.Arr? && k <= |node.items|
    ensures PathIn(ItemRemovals(screen, node, k), path) <==>
      path != [] && path[0].Index? && path[0].index < k
          && PathIn(Removals(screen, node.items[path[0].index]), path[1..])
  {
    if k > 0 {
      ItemPaths(screen, node, k - 1, path);
      PathInConcat(ItemRemovals(screen, node, k - 1), Map(Removals(screen, node.items[k - 1]), Under(Index(k - 1))),
          path);
      PathInUnder(Removals(screen, node.items[k - 1]), Index(k - 1), path);
    }
  }

  lemma OneEntryPaths(screen: Screen, e: Entry, path: seq<Step>)
    ensures PathIn(OneEntryRemovals(screen, e), path) <==>
      path != [] && path[0] == Key(e.key) && if ReplacedWhole(screen, e) then path[1..] == []
          else PathIn(Removals(screen, e.value), path[1..])
  {
    if ReplacedWhole(screen, e) {
      assert OneEntryRemovals(screen, e)[0].path == [Key(e.key)];
      assert path != [] ==> path == [path[0]] + path[1..];
    } else {
      PathInUnder(Removals(screen, e.value), Key(e.key), path);
    }
  }

  lemma {:induction false} EntryPaths(screen: Screen, node: Node, k: nat, path: seq<Step>)
    requires node.Obj? && UniqueKeys(node) && k <= |node.entries|
    ensures PathIn(EntryRemovals(screen, node, k), path) <==>
      path != [] && path[0].Key? && FieldIndex(node.entries, path[0].key) < k
      && PathIn(OneEntryRemovals(screen, node.entries[FieldIndex(node.entries, path[0].key)]), path)
  {
    if k > 0 {
      EntryPaths(screen, node, k - 1, path);
      PathInConcat(EntryRemovals(screen, node, k - 1), OneEntryRemovals(screen, node.entries[k - 1]), path);
      OneEntryPaths(screen, node.entries[k - 1], path);
      if path != [] && path[0] == Key(node.entries[k - 1].key) {
        assert FieldIndex(node.entries, path[0].key) == k - 1;
      }
    }
  }

  /** The path leads to something that redaction turns into the marker. */
  predicate NewlyMarked(screen: Screen, node: Node, path: seq<Step>) {
    Follow(node, path).Some? && !IsMarker(Follow(node, path).value)
        && Follow(Redact(screen, node), path) == Some(Str(MARKER))
  }

  lemma SameFieldIndex(screen: Screen, node: Node, k: string)
    requires node.Obj?
    ensures FieldIndex(Redact(screen, node).entries, k) == FieldIndex(node.entries, k)
  {
    var out, i, j := Redact(screen, node).entries, FieldIndex(Redact(screen, node).entries, k),
        FieldIndex(node.entries, k);
    if i < |out| {
      assert node.entries[i].key == k;
    }
    if j < |out| {
      assert out[j].key == k;
    }
  }

  /** Following a path into an object, before and after redaction. */
  lemma FollowField(screen: Screen, node: Node, path: seq<Step>)
    requires node.Obj? && path != [] && path[0].Key? && FieldIndex(node.entries, path[0].key) < |node.entries|
    ensures var e := node.entries[FieldIndex(node.entries, path[0].key)];
      NewlyMarked(screen, node, path) <==>
          if ReplacedWhole(screen, e) then path[1..] == [] else NewlyMarked(screen, e.value, path[1..])
  {
    var e, rest := node.entries[FieldIndex(node.entries, path[0].key)], path[1..];
    SameFieldIndex(screen, node, path[0].key);
    assert Follow(node, path) == Follow(e.value, rest);
    assert Follow(Redact(screen, node), path) == Follow(RedactEntry(screen, e).value, rest);
    if ReplacedWhole(screen, e) && rest != [] {
      assert Follow(Str(MARKER), rest) == None;
    }
  }

  /** The reported paths are exactly the places where the marker newly stands. */
  lemma {:induction false} ReportedExactly(screen: Screen, node: Node, path: seq<Step>)
    requires UniqueKeys(node)
    ensures PathIn(Removals(screen, node), path) <==> NewlyMarked(screen, node, path)
    decreases node
  {
    match node
    case Arr(items) =>
      ItemPaths(screen, node, |items|, path);
      if path != [] && path[0].Index? && path[0].index < |items| {
        ReportedExactly(screen, items[path[0].index], path[1..]);
      }
    case Obj(entries) =>
      EntryPaths(screen, node, |entries|, path);
      if path != [] && path[0].Key? {
        var i := FieldIndex(entries, path[0].key);
        if i < |entries| {
          FollowField(screen, node, path);
          OneEntryPaths(screen, entries[i], path);
          ReportedExactly(screen, entries[i].value, path[1..]);
        }
      }
    case Str(s) =>
      if IsShaped(screen, s) {
        assert Removals(screen, node)[0].path == [];
      }
    case _ =>
  }
}
