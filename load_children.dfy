/**
 * `createLoadChildren` / `loadChildren` of `serverTree.ts`: fetch a parent's
 * items, upsert one child per item in fetch order, attach the child keys to the
 * parent, all inside one load run. The fetch is a parameter: how its promise
 * settled. `mapItem` is a function from an item to what it gives back, together
 * with the store updates it issues itself before returning.
 */
module LoadChildren {
  import opened Values
  import opened Outcomes
  import opened Toasts
  import opened AsyncRunner
  import opened ServerTree

  /** What `mapItem(item)` does: its own store updates, then the child's `{ key, name, data }`. */
  datatype Mapped = Mapped(effects: seq<TreeOp>, key: string, name: Value, data: Data)

  /** The store updates one item causes: the mapper's own, then the child's upsert. */
  function ItemOps(m: Mapped): seq<TreeOp>
  {
    m.effects + [UpsertOp(m.key, m.name, m.data)]
  }

  /** The updates of the `forEach` over `items`, in fetch order. */
  function FlatOps<T>(items: seq<T>, mapItem: T -> Mapped): seq<TreeOp>
    decreases |items|
  {
    if |items| == 0 then []
    else FlatOps(items[..|items| - 1], mapItem) + ItemOps(mapItem(items[|items| - 1]))
  }

  /** `childKeys`: the mapped keys in fetch order. */
  function ChildKeys<T>(items: seq<T>, mapItem: T -> Mapped): (r: seq<string>)
    ensures |r| == |items|
    ensures forall i :: 0 <= i < |items| ==> r[i] == mapItem(items[i]).key
    decreases |items|
  {
    if |items| == 0 then []
    else ChildKeys(items[..|items| - 1], mapItem) + [mapItem(items[|items| - 1]).key]
  }

  /** Every store update `loadChildren` makes, for each way the fetch can settle. */
  function Updates<T>(parent: string, fetched: Outcome<seq<T>>, mapItem: T -> Mapped): seq<TreeOp>
  {
    match fetched
    case Err(_) => []
    case Ok(items) =>
      if |items| == 0 then [SetChildrenOp(parent, [])]
      else FlatOps(items, mapItem) + [SetChildrenOp(parent, ChildKeys(items, mapItem))]
  }

  /** The record `loadChildren` leaves. */
  function Loaded<T>(t: Tree, parent: string, fetched: Outcome<seq<T>>, mapItem: T -> Mapped): Tree
  {
    ApplyOps(t, Updates(parent, fetched, mapItem))
  }

  /** The notices of one `loadChildren`: the runner's on a failed fetch, else the empty or the success message. */
  function LoadNotices<T>(fetched: Outcome<seq<T>>, emptyMsg: string, successMsg: string): seq<Notice>
  {
    match fetched
    case Err(e) => [Notice(ErrorToast, Message(e))]
    case Ok(items) =>
      if |items| == 0 then [Notice(ErrorToast, emptyMsg)] else [Notice(SuccessToast, successMsg)]
  }

  /** A failed fetch changes no node. */
  lemma FailedLoadKeepsTree<T>(t: Tree, parent: string, e: Thrown, mapItem: T -> Mapped)
    ensures Loaded(t, parent, Err(e), mapItem) == t
  {
  }

  /** An empty result clears a present parent's children and touches nothing else. */
  lemma EmptyLoadClears<T>(t: Tree, parent: string, mapItem: T -> Mapped)
    ensures var r := Loaded(t, parent, Ok([]), mapItem);
      && r.keys == t.keys
      && (parent in t.nodes ==> parent in r.nodes && r.nodes[parent] == t.nodes[parent].(children := []))
      && (parent !in t.nodes ==> r == t)
      && (forall k :: k != parent ==> NodeAt(r, k) == NodeAt(t, k))
  {
    assert Updates(parent, Outcome<seq<T>>.Ok([]), mapItem) == [SetChildrenOp(parent, [])];
    assert ApplyOps(t, [SetChildrenOp(parent, [])]) == Attach(t, parent, []);
  }

  lemma {:induction false} FlatOpsUpserts<T>(items: seq<T>, mapItem: T -> Mapped, i: nat)
    requires i < |items|
    ensures UpsertOp(mapItem(items[i]).key, mapItem(items[i]).name, mapItem(items[i]).data) in FlatOps(items, mapItem)
    decreases |items|
  {
    var last := |items| - 1;
    var m := mapItem(items[last]);
    if i == last {
      assert ItemOps(m)[|ItemOps(m)| - 1] == UpsertOp(m.key, m.name, m.data);
    } else {
      assert items[..last][i] == items[i];
      FlatOpsUpserts(items[..last], mapItem, i);
    }
  }

  /**
   * A non-empty result upserts every mapped child, keeps a present parent, and
   * gives the parent exactly the mapped keys in fetch order.
   */
  lemma LoadAttachesChildren<T>(t: Tree, parent: string, items: seq<T>, mapItem: T -> Mapped)
    requires |items| > 0
    ensures var r := Loaded(t, parent, Ok(items), mapItem);
      && (forall i :: 0 <= i < |items| ==> mapItem(items[i]).key in r.nodes)
      && (parent in t.nodes ==> parent in r.nodes)
      && (parent in r.nodes ==> r.nodes[parent].children == ChildKeys(items, mapItem))
  {
    var flat := FlatOps(items, mapItem);
    var mid := ApplyOps(t, flat);
    var attach := SetChildrenOp(parent, ChildKeys(items, mapItem));
    ApplyOpsSnoc(t, flat, attach);
    ApplyOpsKeys(t, flat);
    forall i | 0 <= i < |items| ensures mapItem(items[i]).key in mid.nodes {
      FlatOpsUpserts(items, mapItem, i);
      var j :| 0 <= j < |flat| && flat[j] == UpsertOp(mapItem(items[i]).key, mapItem(items[i]).name, mapItem(items[i]).data);
      assert flat[j].UpsertOp?;
    }
  }

  /** A key no update aims at keeps its node. */
  lemma LoadLeavesOthers<T>(t: Tree, parent: string, fetched: Outcome<seq<T>>, mapItem: T -> Mapped, k: string)
    requires OnKey(Updates(parent, fetched, mapItem), k) == []
    ensures NodeAt(Loaded(t, parent, fetched, mapItem), k) == NodeAt(t, k)
  {
    ApplyOpsAt(t, Updates(parent, fetched, mapItem), k);
  }

  /**
   * When no item's updates aim at the parent, a successful load keeps the
   * parent's name and data and gives it exactly the mapped keys in fetch order
   * (none for an empty result); an absent parent stays absent.
   */
  lemma ParentAfterLoad<T>(t: Tree, parent: string, items: seq<T>, mapItem: T -> Mapped)
    requires !Touched(items, mapItem, parent)
    ensures NodeAt(Loaded(t, parent, Ok(items), mapItem), parent) ==
      if parent in t.nodes then Some(t.nodes[parent].(children := ChildKeys(items, mapItem))) else None
  {
    var attach := SetChildrenOp(parent, ChildKeys(items, mapItem));
    var front := if |items| == 0 then [] else FlatOps(items, mapItem);
    assert Updates(parent, Ok(items), mapItem) == front + [attach];
    forall op | op in front ensures Target(op) != parent {
      FlatOpsMember(items, mapItem, op);
    }
    OnKeyNone(front, parent);
    OnKeyAppend(front, [attach], parent);
    assert OnKey([attach], parent) == [attach];
    ApplyOpsAt(t, front + [attach], parent);
    assert FoldAt(NodeAt(t, parent), [attach]) == StepAt(NodeAt(t, parent), attach);
  }

  /** The updates of one key start with its creation, if it has updates at all. */
  predicate CreatesFirst(ops: seq<TreeOp>)
  {
    |ops| == 0 || ops[0].UpsertOp?
  }

  /** Items whose every mapping creates each key it touches before it sets that key's children. */
  ghost predicate WellAnchored<T>(items: seq<T>, mapItem: T -> Mapped)
  {
    forall i, k :: 0 <= i < |items| ==> CreatesFirst(OnKey(ItemOps(mapItem(items[i])), k))
  }

  /** A mapper that only returns `{ key, name, data }` qualifies. */
  lemma PlainMapperAnchored(m: Mapped, k: string)
    requires m.effects == []
    ensures CreatesFirst(OnKey(ItemOps(m), k))
  {
    assert ItemOps(m) == [UpsertOp(m.key, m.name, m.data)];
  }

  lemma {:induction false} FlatOpsCreateFirst<T>(items: seq<T>, mapItem: T -> Mapped, k: string)
    requires WellAnchored(items, mapItem)
    ensures CreatesFirst(OnKey(FlatOps(items, mapItem), k))
    decreases |items|
  {
    if |items| > 0 {
      var last := |items| - 1;
      assert WellAnchored(items[..last], mapItem) by {
        forall i, k' | 0 <= i < last ensures CreatesFirst(OnKey(ItemOps(mapItem(items[..last][i])), k')) {
          assert items[..last][i] == items[i];
        }
      }
      FlatOpsCreateFirst(items[..last], mapItem, k);
      OnKeyAppend(FlatOps(items[..last], mapItem), ItemOps(mapItem(items[last])), k);
      assert CreatesFirst(OnKey(ItemOps(mapItem(items[last])), k));
    }
  }

  lemma {:induction false} FlatOpsMember<T>(items: seq<T>, mapItem: T -> Mapped, op: TreeOp)
    ensures op in FlatOps(items, mapItem) <==> exists i :: 0 <= i < |items| && op in ItemOps(mapItem(items[i]))
    decreases |items|
  {
    if |items| > 0 {
      var last := |items| - 1;
      var front := items[..last];
      FlatOpsMember(front, mapItem, op);
      assert FlatOps(items, mapItem) == FlatOps(front, mapItem) + ItemOps(mapItem(items[last]));
      if op in FlatOps(front, mapItem) {
        var i :| 0 <= i < last && op in ItemOps(mapItem(front[i]));
        assert front[i] == items[i];
      }
      if exists i :: 0 <= i < |items| && op in ItemOps(mapItem(items[i])) {
        var i :| 0 <= i < |items| && op in ItemOps(mapItem(items[i]));
        if i < last {
          assert front[i] == items[i];
          assert op in FlatOps(front, mapItem);
        }
      }
    }
  }

  /** Some item's updates aim at `k`. */
  ghost predicate Touched<T>(items: seq<T>, mapItem: T -> Mapped, k: string)
  {
    exists i, op :: 0 <= i < |items| && op in ItemOps(mapItem(items[i])) && Target(op) == k
  }

  /** Some item's updates set the children of `k`. */
  ghost predicate ChildrenSet<T>(items: seq<T>, mapItem: T -> Mapped, k: string)
  {
    exists i, op :: 0 <= i < |items| && op in ItemOps(mapItem(items[i])) && Target(op) == k && op.SetChildrenOp?
  }

  /** Every item update aimed at `k` that upserts sets field `f` to `v`, and every one that sets children gives `cs`. */
  ghost predicate Agrees<T>(items: seq<T>, mapItem: T -> Mapped, k: string, f: string, v: Value, cs: seq<string>)
  {
    forall i, op :: 0 <= i < |items| && op in ItemOps(mapItem(items[i])) && Target(op) == k ==>
      (op.UpsertOp? ==> f in op.data && op.data[f] == v) && (op.SetChildrenOp? ==> op.children == cs)
  }

  /** Every item upsert aimed at `k` gives the name `name`. */
  ghost predicate Names<T>(items: seq<T>, mapItem: T -> Mapped, k: string, name: Value)
  {
    forall i, op :: 0 <= i < |items| && op in ItemOps(mapItem(items[i])) && Target(op) == k && op.UpsertOp? ==> op.name == name
  }

  /**
   * For a key other than the parent that some mapped item touches, the updates a
   * non-empty load aims at it start with an upsert and are exactly the items'
   * updates aimed at it.
   */
  lemma LoadOpsOnKey<T>(parent: string, items: seq<T>, mapItem: T -> Mapped, k: string)
    requires |items| > 0 && WellAnchored(items, mapItem) && k != parent && Touched(items, mapItem, k)
    ensures var ops := OnKey(Updates(parent, Ok(items), mapItem), k);
      && |ops| > 0 && ops[0].UpsertOp?
      && forall op :: op in ops <==> Target(op) == k && exists i :: 0 <= i < |items| && op in ItemOps(mapItem(items[i]))
  {
    var flat := FlatOps(items, mapItem);
    var attach := SetChildrenOp(parent, ChildKeys(items, mapItem));
    assert Updates(parent, Ok(items), mapItem) == flat + [attach];
    OnKeyAppend(flat, [attach], k);
    assert OnKey([attach], k) == [];
    assert OnKey(flat + [attach], k) == OnKey(flat, k);
    FlatOpsCreateFirst(items, mapItem, k);
    var i, op :| 0 <= i < |items| && op in ItemOps(mapItem(items[i])) && Target(op) == k;
    FlatOpsMember(items, mapItem, op);
    OnKeyMember(flat, k, op);
    forall op' ensures op' in OnKey(flat, k) <==> Target(op') == k && exists i :: 0 <= i < |items| && op' in ItemOps(mapItem(items[i])) {
      OnKeyMember(flat, k, op');
      FlatOpsMember(items, mapItem, op');
    }
  }

  /** A key's updates start with its creation when each `setChildren` on it follows an upsert of it. */
  lemma {:induction false} EarlierUpsertCreatesFirst(ops: seq<TreeOp>, k: string)
    requires forall j :: 0 <= j < |ops| && ops[j].SetChildrenOp? && Target(ops[j]) == k ==>
      exists i :: 0 <= i < j && ops[i].UpsertOp? && Target(ops[i]) == k
    ensures CreatesFirst(OnKey(ops, k))
    decreases |ops|
  {
    if |ops| > 0 && Target(ops[0]) != k {
      forall j | 0 <= j < |ops[1..]| && ops[1..][j].SetChildrenOp? && Target(ops[1..][j]) == k
        ensures exists i :: 0 <= i < j && ops[1..][i].UpsertOp? && Target(ops[1..][i]) == k
      {
        assert ops[1..][j] == ops[j + 1];
        var i :| 0 <= i < j + 1 && ops[i].UpsertOp? && Target(ops[i]) == k;
        assert ops[1..][i - 1] == ops[i];
      }
      EarlierUpsertCreatesFirst(ops[1..], k);
    }
  }

  /** Anchored updates stay anchored when only `setChildren` calls follow them. */
  lemma AnchoredThenSets(a: seq<TreeOp>, b: seq<TreeOp>)
    requires Anchored(a)
    requires forall op :: op in b ==> op.SetChildrenOp?
    ensures Anchored(a + b)
  {
    if |a| > 0 && a[0].UpsertOp? {
      assert (a + b)[0] == a[0];
    } else {
      assert forall i :: 0 <= i < |b| ==> b[i] in b;
      assert forall i :: 0 <= i < |a + b| ==> (a + b)[i] == if i < |a| then a[i] else b[i - |a|];
    }
  }

  /** The updates one load aims at any key are anchored, for a mapper that creates what it gives children to. */
  lemma UpdatesAnchored<T>(parent: string, fetched: Outcome<seq<T>>, mapItem: T -> Mapped, k: string)
    requires fetched.Ok? ==> WellAnchored(fetched.value, mapItem)
    ensures Anchored(OnKey(Updates(parent, fetched, mapItem), k))
  {
    var ops := Updates(parent, fetched, mapItem);
    if fetched.Ok? {
      var items := fetched.value;
      var attach := ops[|ops| - 1];
      var front := if |items| == 0 then [] else FlatOps(items, mapItem);
      assert ops == front + [attach];
      OnKeyAppend(front, [attach], k);
      if |items| > 0 {
        FlatOpsCreateFirst(items, mapItem, k);
      }
      assert OnKey([attach], k) == [] || OnKey([attach], k) == [attach];
      AnchoredThenSets(OnKey(front, k), OnKey([attach], k));
    }
  }

  /** Some update a non-empty load aims at `k` sets its children exactly when some item's does. */
  lemma SetsOnKey<T>(parent: string, items: seq<T>, mapItem: T -> Mapped, k: string)
    requires |items| > 0 && WellAnchored(items, mapItem) && k != parent && Touched(items, mapItem, k)
    ensures (exists op :: op in OnKey(Updates(parent, Ok(items), mapItem), k) && op.SetChildrenOp?) <==> ChildrenSet(items, mapItem, k)
  {
    LoadOpsOnKey(parent, items, mapItem, k);
    if ChildrenSet(items, mapItem, k) {
      var i, op :| 0 <= i < |items| && op in ItemOps(mapItem(items[i])) && Target(op) == k && op.SetChildrenOp?;
      assert op in OnKey(Updates(parent, Ok(items), mapItem), k);
    }
  }

  /**
   * A key other than the parent that some mapped item touches ends, after a
   * non-empty load, with a node whose field `f` holds `v`, when every item upsert
   * aimed at the key sets `f` to `v`.
   */
  lemma LoadedKey<T>(t: Tree, parent: string, items: seq<T>, mapItem: T -> Mapped, k: string, f: string, v: Value, cs: seq<string>)
    requires |items| > 0 && WellAnchored(items, mapItem) && k != parent && Touched(items, mapItem, k)
    requires Agrees(items, mapItem, k, f, v, cs)
    ensures var n := NodeAt(Loaded(t, parent, Ok(items), mapItem), k);
      n.Some? && f in n.value.data && n.value.data[f] == v
  {
    LoadedKeyNode(t, parent, items, mapItem, k, f, v, cs);
  }

  /** Under the same conditions, when some item sets the key's children and all such agree on `cs`, the children are `cs`. */
  lemma LoadedKeyChildren<T>(t: Tree, parent: string, items: seq<T>, mapItem: T -> Mapped, k: string, f: string, v: Value, cs: seq<string>)
    requires |items| > 0 && WellAnchored(items, mapItem) && k != parent && Touched(items, mapItem, k)
    requires Agrees(items, mapItem, k, f, v, cs) && ChildrenSet(items, mapItem, k)
    ensures var n := NodeAt(Loaded(t, parent, Ok(items), mapItem), k);
      n.Some? && n.value.children == cs
  {
    LoadedKeyNode(t, parent, items, mapItem, k, f, v, cs);
  }

  /** What the items agree on holds of every update the load aims at the key. */
  lemma AgreesOnKey<T>(parent: string, items: seq<T>, mapItem: T -> Mapped, k: string, f: string, v: Value, cs: seq<string>)
    requires |items| > 0 && WellAnchored(items, mapItem) && k != parent && Touched(items, mapItem, k)
    requires Agrees(items, mapItem, k, f, v, cs)
    ensures forall op :: op in OnKey(Updates(parent, Ok(items), mapItem), k) ==>
      (op.UpsertOp? ==> f in op.data && op.data[f] == v) && (op.SetChildrenOp? ==> op.children == cs)
  {
    LoadOpsOnKey(parent, items, mapItem, k);
    forall op | op in OnKey(Updates(parent, Ok(items), mapItem), k)
      ensures (op.UpsertOp? ==> f in op.data && op.data[f] == v) && (op.SetChildrenOp? ==> op.children == cs)
    {
      var i :| 0 <= i < |items| && op in ItemOps(mapItem(items[i]));
    }
  }

  /** LoadedKey and LoadedKeyChildren together; when no item sets the key's children it keeps the ones it had. */
  lemma LoadedKeyNode<T>(t: Tree, parent: string, items: seq<T>, mapItem: T -> Mapped, k: string, f: string, v: Value, cs: seq<string>)
    requires |items| > 0 && WellAnchored(items, mapItem) && k != parent && Touched(items, mapItem, k)
    requires Agrees(items, mapItem, k, f, v, cs)
    ensures var n := NodeAt(Loaded(t, parent, Ok(items), mapItem), k);
      && n.Some? && f in n.value.data && n.value.data[f] == v
      && n.value.children ==
        if ChildrenSet(items, mapItem, k) then cs
        else if k in t.nodes then t.nodes[k].children else []
  {
    var all := Updates(parent, Ok(items), mapItem);
    var ops := OnKey(all, k);
    LoadOpsOnKey(parent, items, mapItem, k);
    AgreesOnKey(parent, items, mapItem, k, f, v, cs);
    SetsOnKey(parent, items, mapItem, k);
    FoldCreated(NodeAt(t, k), ops, f, v, cs);
    ApplyOpsAt(t, all, k);
    assert NodeAt(Loaded(t, parent, Ok(items), mapItem), k) == FoldAt(NodeAt(t, k), ops);
  }

  /** Under the same conditions, a name every item's upsert of the key gives, not null or undefined, is its name. */
  lemma LoadedKeyName<T>(t: Tree, parent: string, items: seq<T>, mapItem: T -> Mapped, k: string, name: Value)
    requires |items| > 0 && WellAnchored(items, mapItem) && k != parent && Touched(items, mapItem, k)
    requires !Nullish(name) && Names(items, mapItem, k, name)
    ensures var n := NodeAt(Loaded(t, parent, Ok(items), mapItem), k);
      n.Some? && n.value.name == name
  {
    var ops := OnKey(Updates(parent, Ok(items), mapItem), k);
    LoadOpsOnKey(parent, items, mapItem, k);
    forall op | op in ops && op.UpsertOp? ensures op.name == name {
      var i :| 0 <= i < |items| && op in ItemOps(mapItem(items[i]));
    }
    FoldCreatedName(NodeAt(t, k), ops, name);
    ApplyOpsAt(t, Updates(parent, Ok(items), mapItem), k);
  }

  /**
   * Loading the same result twice leaves the record as loading it once, for any
   * mapper that creates what it gives children to.
   */
  lemma LoadTwiceSame<T>(t: Tree, parent: string, fetched: Outcome<seq<T>>, mapItem: T -> Mapped)
    requires fetched.Ok? ==> WellAnchored(fetched.value, mapItem)
    ensures Loaded(Loaded(t, parent, fetched, mapItem), parent, fetched, mapItem) == Loaded(t, parent, fetched, mapItem)
  {
    var ops := Updates(parent, fetched, mapItem);
    forall k ensures Anchored(OnKey(ops, k)) {
      UpdatesAnchored(parent, fetched, mapItem, k);
    }
    ApplyOpsIdempotent(t, ops);
  }

  /** Two loads that touch no common key give the same nodes in either order (only the key order may differ). */
  lemma DisjointLoadsCommute<T, U>(
    t: Tree,
    p1: string, f1: Outcome<seq<T>>, m1: T -> Mapped,
    p2: string, f2: Outcome<seq<U>>, m2: U -> Mapped)
    requires forall k :: OnKey(Updates(p1, f1, m1), k) == [] || OnKey(Updates(p2, f2, m2), k) == []
    ensures Loaded(Loaded(t, p1, f1, m1), p2, f2, m2).nodes == Loaded(Loaded(t, p2, f2, m2), p1, f1, m1).nodes
  {
    DisjointOpsCommute(t, Updates(p1, f1, m1), Updates(p2, f2, m2));
  }

  /** The loader a hook builds over its runner and its store. */
  class Loader {
    const runner: Runner
    const store: TreeStore

    constructor (runner: Runner, store: TreeStore)
      ensures this.runner == runner && this.store == store
    {
      this.runner := runner;
      this.store := store;
    }

    /** The `forEach` over a non-empty result: each item's effects, then its upsert; the keys collected in order. */
    method MapItems<T>(items: seq<T>, mapItem: T -> Mapped) returns (childKeys: seq<string>)
      modifies store
      ensures store.tree == ApplyOps(old(store.tree), FlatOps(items, mapItem))
      ensures childKeys == ChildKeys(items, mapItem)
    {
      childKeys := [];
      var i := 0;
      while i < |items|
        invariant 0 <= i <= |items|
        invariant childKeys == ChildKeys(items[..i], mapItem)
        invariant store.tree == ApplyOps(old(store.tree), FlatOps(items[..i], mapItem))
      {
        var m := mapItem(items[i]);
        ghost var before := store.tree;
        store.ApplyAll(m.effects);
        childKeys := childKeys + [m.key];
        store.UpsertNode(m.key, m.name, m.data);
        ApplyOpsSnoc(before, m.effects, UpsertOp(m.key, m.name, m.data));
        assert items[..i + 1][..i] == items[..i];
        ApplyOpsAppend(old(store.tree), FlatOps(items[..i], mapItem), ItemOps(m));
        i := i + 1;
      }
      assert items[..i] == items;
    }

    /**
     * `loadChildren({ parentKey, fetcher, mapItem, emptyMsg, successMsg })`,
     * with `fetched` the settled `fetcher()`. Resolves with the fetched items, or
     * rejects with the fetch's error.
     */
    method LoadChildren<T>(parent: string, fetched: Outcome<seq<T>>, mapItem: T -> Mapped, emptyMsg: string, successMsg: string)
      returns (r: Outcome<seq<T>>)
      modifies runner, runner.toasts, store
      ensures store.tree == Loaded(old(store.tree), parent, fetched, mapItem)
      ensures runner.toasts.log == old(runner.toasts.log) + LoadNotices(fetched, emptyMsg, successMsg)
      ensures runner.State() == Settled(Started(old(runner.State()), Load), Load, fetched)
      ensures r == fetched
    {
      runner.Start(Load);
      match fetched {
        case Err(_) =>
        case Ok(items) =>
          if |items| == 0 {
            runner.toasts.Error(emptyMsg);
            store.SetChildren(parent, []);
            assert ApplyOps(old(store.tree), [SetChildrenOp(parent, [])]) == Attach(old(store.tree), parent, []);
          } else {
            var childKeys := MapItems(items, mapItem);
            store.SetChildren(parent, childKeys);
            ApplyOpsSnoc(old(store.tree), FlatOps(items, mapItem), SetChildrenOp(parent, childKeys));
            runner.toasts.Success(successMsg);
          }
      }
      var called;
      r, called := runner.Settle(Load, fetched);
    }
  }
}
