/**
 * `useTree` of `use-tree.ts`: turns the flat record into nested nodes. Roots are
 * the keys no node lists as a child, in record order; `build` projects a key,
 * caching the node before it projects the children, so shared and cyclic
 * children give back the node already made.
 */
module UseTree {
  import opened Values
  import opened Outcomes
  import opened Keys
  import opened ServerTree

  /** `k` appears in some node's `children`. */
  ghost predicate Referenced(t: Tree, k: string)
  {
    exists p :: p in t.nodes && k in t.nodes[p].children
  }

  /** Every key some node lists as a child. */
  function ChildSet(t: Tree): (r: set<string>)
    ensures forall c :: c in r <==> Referenced(t, c)
  {
    set p, c | p in t.nodes && c in t.nodes[p].children :: c
  }

  /** `allKeys.filter((k) => !childKeys.has(k))` */
  function Roots(t: Tree): seq<string>
  {
    Without(t.keys, ChildSet(t))
  }

  /** The roots are exactly the stored keys that no node lists as a child, each once, in record order. */
  lemma RootsAreUnreferenced(t: Tree)
    requires Valid(t)
    ensures forall k :: k in Roots(t) <==> k in t.nodes && !Referenced(t, k)
    ensures Distinct(Roots(t))
  {
  }

  lemma {:induction false} WithoutSnoc(keys: seq<string>, k: string, gone: set<string>)
    ensures Without(keys + [k], gone) == Without(keys, gone) + (if k in gone then [] else [k])
    decreases |keys|
  {
    if |keys| == 0 {
      assert keys + [k] == [k];
      assert [k][1..] == [];
    } else {
      assert (keys + [k])[1..] == keys[1..] + [k];
      WithoutSnoc(keys[1..], k, gone);
    }
  }

  lemma WithoutPrefix(keys: seq<string>, i: nat, gone: set<string>)
    requires i < |keys|
    ensures Without(keys[..i + 1], gone) == Without(keys[..i], gone) + (if keys[i] in gone then [] else [keys[i]])
  {
    assert keys[..i + 1] == keys[..i] + [keys[i]];
    WithoutSnoc(keys[..i], keys[i], gone);
  }

  /** Root detection: one pass collecting every child key into a set, then a filter of the key order. */
  method FindRoots(t: Tree) returns (roots: seq<string>)
    requires Valid(t)
    ensures roots == Roots(t)
  {
    var childKeys: set<string> := {};
    var i := 0;
    while i < |t.keys|
      invariant 0 <= i <= |t.keys|
      invariant forall c :: c in childKeys <==> exists j :: 0 <= j < i && c in t.nodes[t.keys[j]].children
    {
      var cs := t.nodes[t.keys[i]].children;
      var j := 0;
      while j < |cs|
        invariant 0 <= j <= |cs|
        invariant forall c :: c in childKeys <==> (exists j' :: 0 <= j' < i && c in t.nodes[t.keys[j']].children) || c in cs[..j]
      {
        assert cs[..j + 1] == cs[..j] + [cs[j]];
        childKeys := childKeys + {cs[j]};
        j := j + 1;
      }
      assert cs[..j] == cs;
      i := i + 1;
    }
    assert childKeys == ChildSet(t) by {
      forall c ensures c in childKeys <==> Referenced(t, c) {
        if Referenced(t, c) {
          var p :| p in t.nodes && c in t.nodes[p].children;
          var j :| 0 <= j < |t.keys| && t.keys[j] == p;
        }
      }
    }
    roots := [];
    i := 0;
    while i < |t.keys|
      invariant 0 <= i <= |t.keys|
      invariant roots == Without(t.keys[..i], childKeys)
    {
      WithoutPrefix(t.keys, i, childKeys);
      if t.keys[i] !in childKeys {
        roots := roots + [t.keys[i]];
      }
      i := i + 1;
    }
    assert t.keys[..i] == t.keys;
  }

  /** `NestedNode`: `type` is `kind` here. `children` is absent (`None`) until it is assigned. */
  class NestedNode {
    const name: Value
    const data: Data
    const kind: string
    const itemKey: string
    var children: Option<seq<NestedNode>>

    constructor (name: Value, data: Data, kind: string, itemKey: string)
      ensures this.name == name && this.data == data && this.kind == kind && this.itemKey == itemKey
      ensures children == None
    {
      this.name := name;
      this.data := data;
      this.kind := kind;
      this.itemKey := itemKey;
      children := None;
    }
  }

  /** The cached node of `k` copies the stored node: its key, the key's kind, its name and its data. */
  ghost predicate Shaped(t: Tree, cache: map<string, NestedNode>, k: string)
    requires k in cache
  {
    && k in t.nodes
    && cache[k].itemKey == k
    && cache[k].kind == KindOf(k)
    && cache[k].name == t.nodes[k].name
    && cache[k].data == t.nodes[k].data
  }

  /**
   * The cached node of `k` is finished: no `children` when the stored list is
   * empty, else the cached nodes of the stored child keys, in order.
   */
  ghost predicate Finished(t: Tree, cache: map<string, NestedNode>, k: string)
    requires k in cache && k in t.nodes
    reads cache[k]
  {
    var cs := t.nodes[k].children;
    var n := cache[k];
    && (|cs| == 0 ==> n.children == None)
    && (|cs| > 0 ==>
          && n.children.Some? && |n.children.value| == |cs|
          && forall i :: 0 <= i < |cs| ==> cs[i] in cache && n.children.value[i] == cache[cs[i]])
  }

  /** Every cached node is shaped, and every one not still being built is finished. */
  ghost predicate Projected(t: Tree, cache: map<string, NestedNode>, pending: set<string>)
    reads cache.Values
  {
    && pending <= cache.Keys
    && (forall k :: k in cache ==> Shaped(t, cache, k))
    && (forall k :: k in cache && k !in pending ==> Finished(t, cache, k))
  }

  lemma ReachableFromChild(t: Tree, k: string, c: string, d: string)
    requires k in t.nodes && c in t.nodes[k].children && Reachable(t, c, d)
    ensures Reachable(t, k, d)
  {
    var p :| IsPath(t, p) && p[0] == c && p[|p| - 1] == d;
    var q := [k] + p;
    assert IsPath(t, q) by {
      forall i | 0 <= i < |q| - 1 ensures q[i] in t.nodes && q[i + 1] in t.nodes[q[i]].children {
        if i > 0 {
          assert q[i] == p[i - 1] && q[i + 1] == p[i];
        }
      }
    }
  }

  /** `b` keeps every entry of `a`. */
  ghost predicate Extends(a: map<string, NestedNode>, b: map<string, NestedNode>)
  {
    forall k :: k in a ==> k in b && b[k] == a[k]
  }

  lemma ExtendsTrans(a: map<string, NestedNode>, b: map<string, NestedNode>, c: map<string, NestedNode>)
    requires Extends(a, b) && Extends(b, c)
    ensures Extends(a, c)
  {
  }

  /** With nothing pending, every key reachable from a cached key is cached, so none is missing. */
  lemma FinishedCovers(t: Tree, cache: map<string, NestedNode>, roots: seq<string>)
    requires Projected(t, cache, {})
    requires forall j :: 0 <= j < |roots| ==> roots[j] in cache
    ensures forall k, d :: k in roots && Reachable(t, k, d) ==> d in t.nodes
  {
    forall k, d | k in roots && Reachable(t, k, d) ensures d in t.nodes {
      forall c, e | c in cache.Keys && c in t.nodes && e in t.nodes[c].children ensures e in cache.Keys {
        assert Finished(t, cache, c);
        var i :| 0 <= i < |t.nodes[c].children| && t.nodes[c].children[i] == e;
      }
      ClosedHoldsReachable(t, k, cache.Keys);
      assert Shaped(t, cache, d);
    }
  }

  /** Caching a new, shaped node as pending keeps the projection consistent. */
  lemma CacheUnfinished(t: Tree, cache: map<string, NestedNode>, pending: set<string>, key: string, node: NestedNode)
    requires Projected(t, cache, pending) && key !in cache && key in t.nodes
    requires node.itemKey == key && node.kind == KindOf(key)
    requires node.name == t.nodes[key].name && node.data == t.nodes[key].data
    ensures Projected(t, cache[key := node], pending + {key})
  {
    var cache' := cache[key := node];
    forall k | k in cache' && k !in pending + {key} ensures Finished(t, cache', k) {
      assert Finished(t, cache, k);
    }
  }

  /** A pending node found finished leaves the pending set. */
  lemma Unpend(t: Tree, cache: map<string, NestedNode>, pending: set<string>, key: string)
    requires Projected(t, cache, pending) && key in cache && key in t.nodes && Finished(t, cache, key)
    ensures Projected(t, cache, pending - {key})
  {
  }

  /** The memoised projection over one record, with the cache `build` closes over. */
  class Projector {
    const store: Tree
    var cache: map<string, NestedNode>

    constructor (store: Tree)
      ensures this.store == store && cache == map[]
    {
      this.store := store;
      cache := map[];
    }

    /**
     * `build(key)`. A cached key returns its node unchanged. `None` is the
     * `TypeError` of destructuring a missing node: some key reachable from `key`
     * is not stored. `pending` holds the keys whose builds are still running.
     */
    method Build(key: string, ghost pending: set<string>) returns (r: Option<NestedNode>)
      requires Projected(store, cache, pending)
      modifies this
      ensures Extends(old(cache), cache)
      ensures key in old(cache) ==> r == Some(old(cache)[key]) && cache == old(cache)
      ensures r.Some? ==> key in cache && r.value == cache[key] && Projected(store, cache, pending)
      ensures r.None? ==> exists d :: Reachable(store, key, d) && d !in store.nodes
      decreases store.nodes.Keys - cache.Keys, 2
    {
      if key in cache {
        return Some(cache[key]);
      }
      if key !in store.nodes {
        assert IsPath(store, [key]);
        return None;
      }
      r := BuildNew(key, pending);
    }

    /** The uncached, stored `key`: its node is cached first, then its children are built in order. */
    method BuildNew(key: string, ghost pending: set<string>) returns (r: Option<NestedNode>)
      requires Projected(store, cache, pending) && key !in cache && key in store.nodes
      modifies this
      ensures Extends(old(cache), cache)
      ensures r.Some? ==> key in cache && r.value == cache[key] && Projected(store, cache, pending)
      ensures r.None? ==> exists d :: Reachable(store, key, d) && d !in store.nodes
      decreases store.nodes.Keys - cache.Keys, 1
    {
      var node := Enter(key, pending);
      ghost var cached := cache;
      var cs := store.nodes[key].children;
      assert key in old(store.nodes.Keys - cache.Keys) - (store.nodes.Keys - cache.Keys);
      if |cs| > 0 {
        var kids := BuildChildren(key, node, cs, pending + {key});
        ExtendsTrans(old(cache), cached, cache);
        if kids.None? {
          return None;
        }
        Finish(key, node, kids.value, pending + {key});
      } else {
        Unpend(store, cache, pending + {key}, key);
      }
      assert pending + {key} - {key} == pending;
      r := Some(node);
    }

    /** `const node = {...}; cache.set(key, node)`: the new node is cached before its children are built. */
    method Enter(key: string, ghost pending: set<string>) returns (node: NestedNode)
      requires Projected(store, cache, pending) && key !in cache && key in store.nodes
      modifies this
      ensures cache == old(cache)[key := node] && Extends(old(cache), cache)
      ensures Projected(store, cache, pending + {key}) && fresh(node) && node.children == None
    {
      var stored := store.nodes[key];
      node := new NestedNode(stored.name, stored.data, KindOf(key), key);
      CacheUnfinished(store, cache, pending, key, node);
      cache := cache[key := node];
    }

    /** `node.children = ...` on the pending node of `key`, whose children's nodes are `kids`. */
    method Finish(key: string, node: NestedNode, kids: seq<NestedNode>, ghost pending: set<string>)
      requires Projected(store, cache, pending) && key in cache && cache[key] == node
      requires |kids| == |store.nodes[key].children| > 0
      requires forall j :: 0 <= j < |kids| ==> store.nodes[key].children[j] in cache && kids[j] == cache[store.nodes[key].children[j]]
      modifies node
      ensures Projected(store, cache, pending - {key})
    {
      node.children := Some(kids);
      forall k | k in cache && k !in pending - {key} && k != key ensures Finished(store, cache, k) {
        assert cache[k].itemKey == k;
        assert old(Finished(store, cache, k));
      }
    }

    /** `children.map((childKey) => build(childKey))` for the node of `key`, which is cached and still pending. */
    method BuildChildren(key: string, node: NestedNode, cs: seq<string>, ghost pending: set<string>) returns (r: Option<seq<NestedNode>>)
      requires Projected(store, cache, pending)
      requires key in cache && cache[key] == node && key in pending
      requires key in store.nodes && cs == store.nodes[key].children
      modifies this
      ensures Extends(old(cache), cache)
      ensures r.Some? ==> Projected(store, cache, pending)
      ensures r.Some? ==> |r.value| == |cs| && forall j :: 0 <= j < |cs| ==> cs[j] in cache && r.value[j] == cache[cs[j]]
      ensures r.None? ==> exists d :: Reachable(store, key, d) && d !in store.nodes
      decreases store.nodes.Keys - cache.Keys, 3
    {
      var kids: seq<NestedNode> := [];
      var i := 0;
      while i < |cs|
        invariant 0 <= i <= |cs| && |kids| == i
        invariant key in cache
        invariant Projected(store, cache, pending)
        invariant Extends(old(cache), cache)
        invariant forall j :: 0 <= j < i ==> cs[j] in cache && kids[j] == cache[cs[j]]
      {
        ghost var before := cache;
        var child := Build(cs[i], pending);
        if child.None? {
          ghost var d :| Reachable(store, cs[i], d) && d !in store.nodes;
          ReachableFromChild(store, key, cs[i], d);
          return None;
        }
        forall j | 0 <= j < i ensures cs[j] in cache && kids[j] == cache[cs[j]] {
          assert cs[j] in before && kids[j] == before[cs[j]];
        }
        kids := kids + [child.value];
        i := i + 1;
      }
      r := Some(kids);
    }
  }

  /**
   * `useTree(nodesMap)`: the roots found, each built through one shared cache.
   * It throws (`None`) exactly when some key reachable from a root has no
   * stored node; otherwise every root's node is in the cache, and every cached
   * node is finished.
   */
  method Project(t: Tree) returns (r: Option<seq<NestedNode>>, ghost cache: map<string, NestedNode>)
    requires Valid(t)
    ensures r.None? <==> exists k, d :: k in Roots(t) && Reachable(t, k, d) && d !in t.nodes
    ensures r.Some? ==> Projected(t, cache, {})
    ensures r.Some? ==>
      && |r.value| == |Roots(t)|
      && forall i :: 0 <= i < |r.value| ==> Roots(t)[i] in cache && r.value[i] == cache[Roots(t)[i]]
  {
    var roots := FindRoots(t);
    var p := new Projector(t);
    var nodes: seq<NestedNode> := [];
    var i := 0;
    while i < |roots|
      invariant 0 <= i <= |roots| && |nodes| == i
      invariant p.store == t && Projected(t, p.cache, {})
      invariant forall j :: 0 <= j < i ==> roots[j] in p.cache && nodes[j] == p.cache[roots[j]]
    {
      ghost var before := p.cache;
      var n := p.Build(roots[i], {});
      if n.None? {
        return None, p.cache;
      }
      forall j | 0 <= j < i ensures roots[j] in p.cache && nodes[j] == p.cache[roots[j]] {
        assert roots[j] in before && nodes[j] == before[roots[j]];
      }
      nodes := nodes + [n.value];
      i := i + 1;
    }
    FinishedCovers(t, p.cache, roots);
    return Some(nodes), p.cache;
  }
}
