/**
 * The flat sidebar store of `serverTree.ts`: a record from node key to node,
 * changed only through `upsertNode`, `setChildren` and `removeSubtree`. The
 * functions give the record each action produces; `TreeStore` is the state
 * that the React setter updates, one whole-record replacement per action.
 */
module ServerTree {
  import opened Values
  import opened Outcomes

  /** `ITreeNode`. A missing `children` list reads as the empty list everywhere. */
  datatype Node = Node(name: Value, children: seq<string>, data: Data)

  /**
   * The record of nodes. `keys` is the record's own key order (insertion order,
   * since no node key looks like an array index), `nodes` the node under each key.
   */
  datatype Tree = Tree(keys: seq<string>, nodes: map<string, Node>)

  predicate Distinct(s: seq<string>)
  {
    forall i, j :: 0 <= i < j < |s| ==> s[i] != s[j]
  }

  /** The key order lists every key of the record exactly once. */
  predicate Valid(t: Tree)
  {
    && Distinct(t.keys)
    && (forall k :: k in t.nodes ==> k in t.keys)
    && (forall k :: k in t.keys ==> k in t.nodes)
  }

  const Empty: Tree := Tree([], map[])

  /** `t[k]`, with `None` for `undefined`. */
  function NodeAt(t: Tree, k: string): Option<Node>
  {
    if k in t.nodes then Some(t.nodes[k]) else None
  }

  /** `next[k] = n` on a copy: a new key goes last in the key order, an existing key keeps its place. */
  function Put(t: Tree, k: string, n: Node): (r: Tree)
    ensures NodeAt(r, k) == Some(n)
    ensures forall j :: j != k ==> NodeAt(r, j) == NodeAt(t, j)
    ensures r.keys == if k in t.nodes then t.keys else t.keys + [k]
    ensures Valid(t) ==> Valid(r)
  {
    Tree(if k in t.nodes then t.keys else t.keys + [k], t.nodes[k := n])
  }

  /** A second assignment to the same key wins, and the key keeps the place the first gave it. */
  lemma PutTwice(t: Tree, k: string, a: Node, b: Node)
    ensures Put(Put(t, k, a), k, b) == Put(t, k, b)
  {
    assert t.nodes[k := a][k := b] == t.nodes[k := b];
  }

  /** `keys` without the entries in `gone`, in the same order. */
  function Without(keys: seq<string>, gone: set<string>): (r: seq<string>)
    ensures forall k :: k in r <==> k in keys && k !in gone
    ensures Distinct(keys) ==> Distinct(r)
  {
    if |keys| == 0 then []
    else if keys[0] in gone then Without(keys[1..], gone)
    else [keys[0]] + Without(keys[1..], gone)
  }

  /** `Without` only looks at the keys that are listed. */
  lemma {:induction false} WithoutListed(keys: seq<string>, g1: set<string>, g2: set<string>)
    requires forall k :: k in keys ==> (k in g1 <==> k in g2)
    ensures Without(keys, g1) == Without(keys, g2)
  {
    if |keys| > 0 {
      WithoutListed(keys[1..], g1, g2);
    }
  }

  lemma {:induction false} WithoutNothing(keys: seq<string>)
    ensures Without(keys, {}) == keys
  {
    if |keys| > 0 {
      WithoutNothing(keys[1..]);
      assert [keys[0]] + keys[1..] == keys;
    }
  }

  /** `delete next[k]` */
  function Delete(t: Tree, k: string): (r: Tree)
    ensures NodeAt(r, k) == None
    ensures forall j :: j != k ==> NodeAt(r, j) == NodeAt(t, j)
  {
    Tree(Without(t.keys, {k}), t.nodes - {k})
  }

  /** The node `upsertNode(k, name, data)` writes over `existing`. */
  function Upserted(existing: Option<Node>, name: Value, d: Data): Node
  {
    match existing
    case None => Node(Coalesce(name, VUndefined), [], d)
    case Some(n) => Node(Coalesce(name, n.name), n.children, n.data + d)
  }

  /**
   * `upsertNode(k, name, data)`: a new node starts with no children and the given
   * data; an existing one keeps its children, takes the new data field by field
   * over the old, and keeps its old name only when `name` is null or undefined.
   */
  function Upsert(t: Tree, k: string, name: Value, d: Data): (r: Tree)
    ensures k in r.nodes
    ensures k !in t.nodes ==> r.keys == t.keys + [k] && r.nodes[k] == Node(Coalesce(name, VUndefined), [], d)
    ensures k in t.nodes ==> r.keys == t.keys
    ensures k in t.nodes ==> r.nodes[k].children == t.nodes[k].children
    ensures k in t.nodes ==> r.nodes[k].data == t.nodes[k].data + d
    ensures k in t.nodes ==> r.nodes[k].name == (if Nullish(name) then t.nodes[k].name else name)
    ensures forall j :: j != k ==> NodeAt(r, j) == NodeAt(t, j)
    ensures Valid(t) ==> Valid(r)
  {
    Put(t, k, Upserted(NodeAt(t, k), name, d))
  }

  /**
   * `setChildren(parent, children)`: a present parent gets exactly `children`
   * and keeps its name and data; an absent one stays absent.
   */
  function Attach(t: Tree, p: string, cs: seq<string>): (r: Tree)
    ensures p in t.nodes ==> p in r.nodes && r.nodes[p] == t.nodes[p].(children := cs)
    ensures p !in t.nodes ==> r == t
    ensures r.keys == t.keys
    ensures forall j :: j != p ==> NodeAt(r, j) == NodeAt(t, j)
    ensures Valid(t) ==> Valid(r)
  {
    if p in t.nodes then Put(t, p, t.nodes[p].(children := cs)) else t
  }

  /** Two upserts of one key are one upsert with the later name first and the data merged in order. */
  lemma UpsertTwice(t: Tree, k: string, n1: Value, d1: Data, n2: Value, d2: Data)
    ensures Upsert(Upsert(t, k, n1, d1), k, n2, d2) == Upsert(t, k, Coalesce(n2, n1), d1 + d2)
  {
    var a := Upsert(Upsert(t, k, n1, d1), k, n2, d2);
    var b := Upsert(t, k, Coalesce(n2, n1), d1 + d2);
    if k in t.nodes {
      MergeAssoc(t.nodes[k].data, d1, d2);
    }
    assert a.nodes[k] == b.nodes[k];
    assert a.nodes == b.nodes;
  }

  /** Repeating an upsert changes nothing. */
  lemma UpsertIdempotent(t: Tree, k: string, n: Value, d: Data)
    ensures Upsert(Upsert(t, k, n, d), k, n, d) == Upsert(t, k, n, d)
  {
    var once := Upsert(t, k, n, d);
    var twice := Upsert(once, k, n, d);
    assert once.nodes[k].data + d == once.nodes[k].data;
    assert twice.nodes[k] == once.nodes[k];
    assert twice.nodes == once.nodes;
  }

  /** An upsert after `setChildren` on a present node keeps the children just set. */
  lemma UpsertKeepsAttached(t: Tree, p: string, cs: seq<string>, n: Value, d: Data)
    requires p in t.nodes
    ensures Upsert(Attach(t, p, cs), p, n, d).nodes[p].children == cs
  {
  }

  /** The later `setChildren` of one parent wins. */
  lemma AttachTwice(t: Tree, p: string, a: seq<string>, b: seq<string>)
    ensures Attach(Attach(t, p, a), p, b) == Attach(t, p, b)
  {
    if p in t.nodes {
      assert Attach(Attach(t, p, a), p, b).nodes == Attach(t, p, b).nodes;
    }
  }

  /** One store update, as the loaders issue them. */
  datatype TreeOp =
    | UpsertOp(key: string, name: Value, data: Data)
    | SetChildrenOp(parent: string, children: seq<string>)

  /** The key an update writes to. */
  function Target(op: TreeOp): string
  {
    match op
    case UpsertOp(k, _, _) => k
    case SetChildrenOp(p, _) => p
  }

  /** What one update does to the node under its own key (`None`: no node there). */
  function StepAt(o: Option<Node>, op: TreeOp): Option<Node>
  {
    match op
    case UpsertOp(_, n, d) => Some(Upserted(o, n, d))
    case SetChildrenOp(_, cs) => if o.Some? then Some(o.value.(children := cs)) else None
  }

  function ApplyOp(t: Tree, op: TreeOp): (r: Tree)
    ensures NodeAt(r, Target(op)) == StepAt(NodeAt(t, Target(op)), op)
    ensures forall j :: j != Target(op) ==> NodeAt(r, j) == NodeAt(t, j)
    ensures Valid(t) ==> Valid(r)
  {
    match op
    case UpsertOp(k, n, d) => Upsert(t, k, n, d)
    case SetChildrenOp(p, cs) => Attach(t, p, cs)
  }

  /** The updates applied in order, each to the record the previous one left. */
  function ApplyOps(t: Tree, ops: seq<TreeOp>): Tree
    decreases |ops|
  {
    if |ops| == 0 then t else ApplyOps(ApplyOp(t, ops[0]), ops[1..])
  }

  /** The updates aimed at `k`, in order. */
  function OnKey(ops: seq<TreeOp>, k: string): (r: seq<TreeOp>)
    ensures forall i :: 0 <= i < |r| ==> Target(r[i]) == k
  {
    if |ops| == 0 then []
    else if Target(ops[0]) == k then [ops[0]] + OnKey(ops[1..], k)
    else OnKey(ops[1..], k)
  }

  /** Updates applied in order to a single node. */
  function FoldAt(o: Option<Node>, ops: seq<TreeOp>): Option<Node>
    decreases |ops|
  {
    if |ops| == 0 then o else FoldAt(StepAt(o, ops[0]), ops[1..])
  }

  lemma {:induction false} ApplyOpsValid(t: Tree, ops: seq<TreeOp>)
    requires Valid(t)
    ensures Valid(ApplyOps(t, ops))
    decreases |ops|
  {
    if |ops| > 0 {
      ApplyOpsValid(ApplyOp(t, ops[0]), ops[1..]);
    }
  }

  /** A key's node after a run of updates depends only on its old node and the updates aimed at it. */
  lemma {:induction false} ApplyOpsAt(t: Tree, ops: seq<TreeOp>, k: string)
    ensures NodeAt(ApplyOps(t, ops), k) == FoldAt(NodeAt(t, k), OnKey(ops, k))
    decreases |ops|
  {
    if |ops| > 0 {
      ApplyOpsAt(ApplyOp(t, ops[0]), ops[1..], k);
      if Target(ops[0]) == k {
        assert ([ops[0]] + OnKey(ops[1..], k))[1..] == OnKey(ops[1..], k);
      }
    }
  }

  lemma {:induction false} ApplyOpsAppend(t: Tree, a: seq<TreeOp>, b: seq<TreeOp>)
    ensures ApplyOps(t, a + b) == ApplyOps(ApplyOps(t, a), b)
    decreases |a|
  {
    if |a| == 0 {
      assert a + b == b;
    } else {
      assert (a + b)[0] == a[0];
      assert (a + b)[1..] == a[1..] + b;
      ApplyOpsAppend(ApplyOp(t, a[0]), a[1..], b);
    }
  }

  lemma ApplyOpsSnoc(t: Tree, ops: seq<TreeOp>, op: TreeOp)
    ensures ApplyOps(t, ops + [op]) == ApplyOp(ApplyOps(t, ops), op)
  {
    ApplyOpsAppend(t, ops, [op]);
    assert [op][1..] == [];
  }

  lemma {:induction false} OnKeyAppend(a: seq<TreeOp>, b: seq<TreeOp>, k: string)
    ensures OnKey(a + b, k) == OnKey(a, k) + OnKey(b, k)
    decreases |a|
  {
    if |a| == 0 {
      assert a + b == b;
    } else {
      assert (a + b)[1..] == a[1..] + b;
      OnKeyAppend(a[1..], b, k);
    }
  }

  /**
   * Updates never remove a key; every upserted key ends up present; and when every
   * upserted key is present already, the key order does not move.
   */
  lemma {:induction false} ApplyOpsKeys(t: Tree, ops: seq<TreeOp>)
    ensures forall k :: k in t.nodes ==> k in ApplyOps(t, ops).nodes
    ensures forall i :: 0 <= i < |ops| && ops[i].UpsertOp? ==> ops[i].key in ApplyOps(t, ops).nodes
    ensures (forall i :: 0 <= i < |ops| && ops[i].UpsertOp? ==> ops[i].key in t.nodes) ==> ApplyOps(t, ops).keys == t.keys
    decreases |ops|
  {
    if |ops| > 0 {
      var t1 := ApplyOp(t, ops[0]);
      ApplyOpsKeys(t1, ops[1..]);
      assert forall k :: k in t.nodes ==> k in t1.nodes by {
        forall k | k in t.nodes ensures k in t1.nodes {
          if k != Target(ops[0]) {
            assert NodeAt(t1, k) == NodeAt(t, k);
          }
        }
      }
      forall i | 0 <= i < |ops| && ops[i].UpsertOp? ensures ops[i].key in ApplyOps(t, ops).nodes {
        if i > 0 {
          assert ops[1..][i - 1] == ops[i];
        }
      }
      if forall i :: 0 <= i < |ops| && ops[i].UpsertOp? ==> ops[i].key in t.nodes {
        forall i | 0 <= i < |ops[1..]| && ops[1..][i].UpsertOp? ensures ops[1..][i].key in t1.nodes {
          assert ops[1..][i] == ops[i + 1];
        }
      }
    }
  }

  /** Two records with the same node under every key have the same node map. */
  lemma SameNodes(t1: Tree, t2: Tree)
    requires forall k :: NodeAt(t1, k) == NodeAt(t2, k)
    ensures t1.nodes == t2.nodes
  {
    assert forall k :: k in t1.nodes <==> k in t2.nodes by {
      forall k ensures k in t1.nodes <==> k in t2.nodes {
        assert NodeAt(t1, k) == NodeAt(t2, k);
      }
    }
    forall k | k in t1.nodes ensures t1.nodes[k] == t2.nodes[k] {
      assert NodeAt(t1, k) == NodeAt(t2, k);
    }
  }

  // A summary of what a run of updates leaves in a node that exists.

  /** The last name that an upsert in `ops` gives and that is not null or undefined. */
  function LastName(ops: seq<TreeOp>): Option<Value>
    decreases |ops|
  {
    if |ops| == 0 then None
    else
      var later := LastName(ops[1..]);
      if later.Some? then later
      else if ops[0].UpsertOp? && !Nullish(ops[0].name) then Some(ops[0].name)
      else None
  }

  /** The list the last `setChildren` in `ops` gives. */
  function LastChildren(ops: seq<TreeOp>): Option<seq<string>>
    decreases |ops|
  {
    if |ops| == 0 then None
    else
      var later := LastChildren(ops[1..]);
      if later.Some? then later
      else if ops[0].SetChildrenOp? then Some(ops[0].children)
      else None
  }

  /** The data of every upsert in `ops`, merged in order. */
  function MergedData(ops: seq<TreeOp>): Data
    decreases |ops|
  {
    if |ops| == 0 then map[]
    else (if ops[0].UpsertOp? then ops[0].data else map[]) + MergedData(ops[1..])
  }

  lemma MergeAssoc(a: Data, b: Data, c: Data)
    ensures (a + b) + c == a + (b + c)
  {
  }

  /** On a node that exists, a run of updates keeps the last name, the last children list and all the data. */
  lemma {:induction false} FoldPresent(x: Node, ops: seq<TreeOp>)
    ensures FoldAt(Some(x), ops) == Some(Node(
      if LastName(ops).Some? then LastName(ops).value else x.name,
      if LastChildren(ops).Some? then LastChildren(ops).value else x.children,
      x.data + MergedData(ops)))
    decreases |ops|
  {
    if |ops| == 0 {
      assert x.data + map[] == x.data;
    } else {
      var y := StepAt(Some(x), ops[0]).value;
      assert FoldAt(Some(x), ops) == FoldAt(Some(y), ops[1..]);
      FoldPresent(y, ops[1..]);
      var rest := ops[1..];
      var m := MergedData(rest);
      match ops[0]
      case UpsertOp(_, n, d) =>
        assert y == Node(Coalesce(n, x.name), x.children, x.data + d);
        assert MergedData(ops) == d + m;
        MergeAssoc(x.data, d, m);
        assert LastChildren(ops) == LastChildren(rest);
      case SetChildrenOp(_, cs) =>
        assert y == x.(children := cs);
        assert MergedData(ops) == map[] + m;
        assert map[] + m == m;
        assert LastName(ops) == LastName(rest);
    }
  }

  lemma {:induction false} OnKeyMember(ops: seq<TreeOp>, k: string, op: TreeOp)
    ensures op in OnKey(ops, k) <==> op in ops && Target(op) == k
    decreases |ops|
  {
    if |ops| > 0 {
      OnKeyMember(ops[1..], k, op);
      assert op in ops <==> op == ops[0] || op in ops[1..] by {
        assert ops == [ops[0]] + ops[1..];
      }
    }
  }

  /** Updates none of which aims at `k` leave `k` nothing. */
  lemma {:induction false} OnKeyNone(ops: seq<TreeOp>, k: string)
    requires forall op :: op in ops ==> Target(op) != k
    ensures OnKey(ops, k) == []
    decreases |ops|
  {
    if |ops| > 0 {
      assert ops[0] in ops;
      OnKeyNone(ops[1..], k);
    }
  }

  /** When every upsert that sets field `f` sets it to `v`, so does their merge. */
  lemma {:induction false} MergedDataField(ops: seq<TreeOp>, f: string, v: Value)
    requires forall op :: op in ops && op.UpsertOp? && f in op.data ==> op.data[f] == v
    ensures f in MergedData(ops) ==> MergedData(ops)[f] == v
    decreases |ops|
  {
    if |ops| > 0 {
      assert forall op :: op in ops[1..] ==> op in ops;
      MergedDataField(ops[1..], f, v);
      assert ops[0] in ops;
    }
  }

  /** When every `setChildren` in `ops` gives `cs`, the last one does, and there is one exactly when some update is one. */
  lemma {:induction false} LastChildrenUniform(ops: seq<TreeOp>, cs: seq<string>)
    requires forall op :: op in ops && op.SetChildrenOp? ==> op.children == cs
    ensures LastChildren(ops).Some? <==> exists op :: op in ops && op.SetChildrenOp?
    ensures LastChildren(ops).Some? ==> LastChildren(ops).value == cs
    decreases |ops|
  {
    if |ops| > 0 {
      assert forall op :: op in ops[1..] ==> op in ops;
      LastChildrenUniform(ops[1..], cs);
      assert ops[0] in ops;
      assert forall op :: op in ops ==> op == ops[0] || op in ops[1..] by {
        assert ops == [ops[0]] + ops[1..];
      }
    }
  }

  /** When every upsert in `ops` names `name`, the last name given is `name`. */
  lemma {:induction false} LastNameUniform(ops: seq<TreeOp>, name: Value)
    requires forall op :: op in ops && op.UpsertOp? ==> op.name == name
    ensures LastName(ops).Some? ==> LastName(ops).value == name
    decreases |ops|
  {
    if |ops| > 0 {
      assert forall op :: op in ops[1..] ==> op in ops;
      LastNameUniform(ops[1..], name);
      assert ops[0] in ops;
    }
  }

  /**
   * The node a key ends with when its updates start with an upsert, every upsert
   * sets field `f` to `v`, and every `setChildren` gives `cs`: it exists, has
   * `f` set to `v`, and has `cs` as children if any update set them, else the
   * children it had (none for a new node).
   */
  lemma FoldCreated(o: Option<Node>, ops: seq<TreeOp>, f: string, v: Value, cs: seq<string>)
    requires |ops| > 0 && ops[0].UpsertOp?
    requires forall op :: op in ops && op.UpsertOp? ==> f in op.data && op.data[f] == v
    requires forall op :: op in ops && op.SetChildrenOp? ==> op.children == cs
    ensures FoldAt(o, ops).Some?
    ensures f in FoldAt(o, ops).value.data && FoldAt(o, ops).value.data[f] == v
    ensures FoldAt(o, ops).value.children ==
      if exists op :: op in ops && op.SetChildrenOp? then cs
      else if o.Some? then o.value.children else []
  {
    var rest := ops[1..];
    var y := StepAt(o, ops[0]).value;
    assert FoldAt(o, ops) == FoldAt(Some(y), rest);
    TailMembers(ops);
    FoldPresent(y, rest);
    assert ops[0] in ops;
    assert f in y.data && y.data[f] == v;
    MergedDataField(rest, f, v);
    LastChildrenUniform(rest, cs);
    ChildrenSetInTail(ops);
  }

  lemma TailMembers(ops: seq<TreeOp>)
    requires |ops| > 0
    ensures forall op :: op in ops[1..] ==> op in ops
    ensures forall op :: op in ops ==> op == ops[0] || op in ops[1..]
  {
    assert ops == [ops[0]] + ops[1..];
  }

  /** After a leading upsert, some update gives children exactly when some later one does. */
  lemma ChildrenSetInTail(ops: seq<TreeOp>)
    requires |ops| > 0 && ops[0].UpsertOp?
    ensures (exists op :: op in ops && op.SetChildrenOp?) <==> (exists op :: op in ops[1..] && op.SetChildrenOp?)
  {
    TailMembers(ops);
  }

  /** Under the same start, a name that every upsert gives and that is not null or undefined is the node's name. */
  lemma FoldCreatedName(o: Option<Node>, ops: seq<TreeOp>, name: Value)
    requires |ops| > 0 && ops[0].UpsertOp? && !Nullish(name)
    requires forall op :: op in ops && op.UpsertOp? ==> op.name == name
    ensures FoldAt(o, ops).Some? && FoldAt(o, ops).value.name == name
  {
    var rest := ops[1..];
    var y := StepAt(o, ops[0]).value;
    assert FoldAt(o, ops) == FoldAt(Some(y), rest);
    assert forall op :: op in rest ==> op in ops;
    assert ops[0] in ops;
    FoldPresent(y, rest);
    LastNameUniform(rest, name);
  }

  /** No node appears under a key that is only ever given children. */
  lemma {:induction false} FoldWithoutUpsert(ops: seq<TreeOp>)
    requires forall i :: 0 <= i < |ops| ==> ops[i].SetChildrenOp?
    ensures FoldAt(None, ops) == None
    decreases |ops|
  {
    if |ops| > 0 {
      FoldWithoutUpsert(ops[1..]);
    }
  }

  /**
   * The updates of one key either create the node first or never create it:
   * no `setChildren` is lost on an absent node and then undone by a later create.
   */
  predicate Anchored(ops: seq<TreeOp>)
  {
    |ops| == 0 || ops[0].UpsertOp? || forall i :: 0 <= i < |ops| ==> ops[i].SetChildrenOp?
  }

  lemma FoldIdempotent(o: Option<Node>, ops: seq<TreeOp>)
    requires Anchored(ops)
    ensures FoldAt(FoldAt(o, ops), ops) == FoldAt(o, ops)
  {
    if |ops| == 0 {
    } else if o.Some? {
      FoldPresent(o.value, ops);
      var y := FoldAt(o, ops).value;
      FoldPresent(y, ops);
      assert (o.value.data + MergedData(ops)) + MergedData(ops) == o.value.data + MergedData(ops);
    } else if ops[0].UpsertOp? {
      var c := Upserted(None, ops[0].name, ops[0].data);
      FoldPresent(c, ops[1..]);
      var y := FoldAt(o, ops).value;
      FoldPresent(y, ops);
      var m := MergedData(ops[1..]);
      assert MergedData(ops) == ops[0].data + m;
      assert (ops[0].data + m) + (ops[0].data + m) == ops[0].data + m;
    } else {
      FoldWithoutUpsert(ops);
    }
  }

  /** Applying the same updates a second time leaves the record as the first time left it. */
  lemma ApplyOpsIdempotent(t: Tree, ops: seq<TreeOp>)
    requires forall k :: Anchored(OnKey(ops, k))
    ensures ApplyOps(ApplyOps(t, ops), ops) == ApplyOps(t, ops)
  {
    var once := ApplyOps(t, ops);
    var twice := ApplyOps(once, ops);
    forall k ensures NodeAt(twice, k) == NodeAt(once, k) {
      ApplyOpsAt(t, ops, k);
      ApplyOpsAt(once, ops, k);
      FoldIdempotent(NodeAt(t, k), OnKey(ops, k));
    }
    SameNodes(twice, once);
    ApplyOpsKeys(t, ops);
    ApplyOpsKeys(once, ops);
  }

  /** Two runs of updates that touch no common key give the same nodes in either order. */
  lemma DisjointOpsCommute(t: Tree, a: seq<TreeOp>, b: seq<TreeOp>)
    requires forall k :: OnKey(a, k) == [] || OnKey(b, k) == []
    ensures ApplyOps(ApplyOps(t, a), b).nodes == ApplyOps(ApplyOps(t, b), a).nodes
  {
    ApplyOpsAppend(t, a, b);
    ApplyOpsAppend(t, b, a);
    forall k ensures NodeAt(ApplyOps(t, a + b), k) == NodeAt(ApplyOps(t, b + a), k) {
      ApplyOpsAt(t, a + b, k);
      ApplyOpsAt(t, b + a, k);
      OnKeyAppend(a, b, k);
      OnKeyAppend(b, a, k);
      assert OnKey(a + b, k) == OnKey(b + a, k);
    }
    SameNodes(ApplyOps(t, a + b), ApplyOps(t, b + a));
  }

  // Reachability through `children`, for `removeSubtree`.

  /** A walk from a stored node to one of its children, step by step. */
  ghost predicate IsPath(t: Tree, p: seq<string>)
  {
    |p| >= 1 && forall i :: 0 <= i < |p| - 1 ==> p[i] in t.nodes && p[i + 1] in t.nodes[p[i]].children
  }

  /** `k` is `root`, or a child of a stored node reachable from `root`. */
  ghost predicate Reachable(t: Tree, root: string, k: string)
  {
    exists p :: IsPath(t, p) && p[0] == root && p[|p| - 1] == k
  }

  lemma ReachableStep(t: Tree, root: string, k: string, c: string)
    requires Reachable(t, root, k) && k in t.nodes && c in t.nodes[k].children
    ensures Reachable(t, root, c)
  {
    var p :| IsPath(t, p) && p[0] == root && p[|p| - 1] == k;
    var q := p + [c];
    assert IsPath(t, q) by {
      forall i | 0 <= i < |q| - 1 ensures q[i] in t.nodes && q[i + 1] in t.nodes[q[i]].children {
        if i < |p| - 1 {
          assert q[i] == p[i] && q[i + 1] == p[i + 1];
        }
      }
    }
    assert q[0] == root && q[|q| - 1] == c;
  }

  /** A set that holds a walk's start and the children of each of its stored nodes holds the walk's end. */
  lemma {:induction false} PathInside(t: Tree, p: seq<string>, done: set<string>)
    requires IsPath(t, p) && p[0] in done
    requires forall d, c :: d in done && d in t.nodes && c in t.nodes[d].children ==> c in done
    ensures p[|p| - 1] in done
    decreases |p|
  {
    if |p| > 1 {
      var q := p[..|p| - 1];
      assert IsPath(t, q) by {
        forall i | 0 <= i < |q| - 1 ensures q[i] in t.nodes && q[i + 1] in t.nodes[q[i]].children {
          assert q[i] == p[i] && q[i + 1] == p[i + 1];
        }
      }
      PathInside(t, q, done);
      assert p[|p| - 2] in t.nodes && p[|p| - 1] in t.nodes[p[|p| - 2]].children;
    }
  }

  /** A set that holds `root` and is closed under children holds every key reachable from `root`. */
  lemma ClosedHoldsReachable(t: Tree, root: string, done: set<string>)
    requires root in done
    requires forall d, c :: d in done && d in t.nodes && c in t.nodes[d].children ==> c in done
    ensures forall k :: Reachable(t, root, k) ==> k in done
  {
    forall k | Reachable(t, root, k) ensures k in done {
      var p :| IsPath(t, p) && p[0] == root && p[|p| - 1] == k;
      PathInside(t, p, done);
    }
  }

  /** What `removeSubtree`'s stack, copy and processed keys satisfy before each pop. */
  ghost predicate Removing(orig: Tree, root: string, next: Tree, stack: seq<string>, done: set<string>)
  {
    && (forall k :: NodeAt(next, k) == if k in done then None else NodeAt(orig, k))
    && next.keys == Without(orig.keys, done)
    && (forall d :: d in done ==> Reachable(orig, root, d))
    && (forall i :: 0 <= i < |stack| ==> Reachable(orig, root, stack[i]))
    && (root in done || root in stack)
    && (forall d, c :: d in done && d in orig.nodes && c in orig.nodes[d].children ==> c in done || c in stack)
  }

  lemma RemovalStart(orig: Tree, root: string)
    ensures Removing(orig, root, orig, [root], {})
  {
    WithoutNothing(orig.keys);
    assert IsPath(orig, [root]);
  }

  /** With the stack empty, the processed keys are exactly the keys reachable from `root`. */
  lemma RemovalEnd(orig: Tree, root: string, next: Tree, done: set<string>)
    requires Removing(orig, root, next, [], done)
    ensures forall k :: NodeAt(next, k) == if Reachable(orig, root, k) then None else NodeAt(orig, k)
    ensures Valid(orig) ==> Valid(next)
    ensures Valid(orig) ==> next.keys == Without(orig.keys, orig.nodes.Keys - next.nodes.Keys)
  {
    ClosedHoldsReachable(orig, root, done);
    if Valid(orig) {
      WithoutListed(orig.keys, done, orig.nodes.Keys - next.nodes.Keys);
      assert forall k :: k in next.nodes ==> k in next.keys by {
        forall k | k in next.nodes ensures k in next.keys {
          assert NodeAt(next, k) != None;
        }
      }
      assert forall k :: k in next.keys ==> k in next.nodes by {
        forall k | k in next.keys ensures k in next.nodes {
          assert NodeAt(next, k) == NodeAt(orig, k);
        }
      }
    }
  }

  /** The keys a popped key pushes: its children, if its node is still in the copy. */
  function Pushed(next: Tree, k: string): seq<string>
  {
    if k in next.nodes then next.nodes[k].children else []
  }

  /** Deleting a present key shrinks the record; deleting an absent one changes nothing. */
  lemma DeleteShrinks(t: Tree, k: string)
    ensures k in t.nodes ==> |Delete(t, k).nodes.Keys| < |t.nodes.Keys|
    ensures k !in t.nodes ==> Delete(t, k).nodes == t.nodes
  {
    if k in t.nodes {
      assert Delete(t, k).nodes.Keys == t.nodes.Keys - {k};
    }
  }

  /** One pop, push and delete keeps `Removing`. */
  lemma RemovalStep(orig: Tree, root: string, next: Tree, rest: seq<string>, k: string, done: set<string>)
    requires Removing(orig, root, next, rest + [k], done)
    ensures Removing(orig, root, Delete(next, k), rest + Pushed(next, k), done + {k})
  {
    var stack := rest + [k];
    var stack' := rest + Pushed(next, k);
    var next' := Delete(next, k);
    var done' := done + {k};
    assert stack[|stack| - 1] == k;
    assert Reachable(orig, root, k);
    if k in next.nodes {
      assert NodeAt(next, k) == NodeAt(orig, k);
      forall c | c in next.nodes[k].children ensures Reachable(orig, root, c) {
        ReachableStep(orig, root, k, c);
      }
    }
    assert forall i :: 0 <= i < |stack'| ==> Reachable(orig, root, stack'[i]) by {
      forall i | 0 <= i < |stack'| ensures Reachable(orig, root, stack'[i]) {
        if i < |rest| {
          assert stack'[i] == stack[i];
        } else {
          assert stack'[i] in Pushed(next, k);
        }
      }
    }
    assert forall x :: x in stack && x != k ==> x in stack' by {
      forall x | x in stack && x != k ensures x in stack' {
        var i :| 0 <= i < |stack| && stack[i] == x;
        assert i < |rest| && stack'[i] == x;
      }
    }
    forall d, c | d in done' && d in orig.nodes && c in orig.nodes[d].children ensures c in done' || c in stack' {
      if d == k && d !in done {
        assert k in next.nodes;
        assert c in Pushed(next, k);
      }
    }
    assert next'.keys == Without(orig.keys, done') by {
      WithoutTwice(orig.keys, done, k);
    }
  }

  lemma {:induction false} WithoutTwice(keys: seq<string>, gone: set<string>, k: string)
    ensures Without(Without(keys, gone), {k}) == Without(keys, gone + {k})
  {
    if |keys| > 0 {
      WithoutTwice(keys[1..], gone, k);
    }
  }

  /**
   * `next[keyOf(it)] = nodeOf(it)` for each item in turn, over a copy of
   * `base`: the `forEach` loops that build nodes by plain assignment.
   */
  function PutEach<T>(base: Tree, items: seq<T>, keyOf: T -> string, nodeOf: T -> Node): Tree
    decreases |items|
  {
    if |items| == 0 then base
    else
      var last := items[|items| - 1];
      Put(PutEach(base, items[..|items| - 1], keyOf, nodeOf), keyOf(last), nodeOf(last))
  }

  /** The keys of the items, in item order. */
  function KeysOf<T>(items: seq<T>, keyOf: T -> string): (r: seq<string>)
    ensures |r| == |items|
    ensures forall i :: 0 <= i < |items| ==> r[i] == keyOf(items[i])
    decreases |items|
  {
    if |items| == 0 then [] else KeysOf(items[..|items| - 1], keyOf) + [keyOf(items[|items| - 1])]
  }

  /** No later item has the key of the item at `i`. */
  predicate LastOfKey<T>(items: seq<T>, keyOf: T -> string, i: int)
    requires 0 <= i < |items|
  {
    forall j :: i < j < |items| ==> keyOf(items[j]) != keyOf(items[i])
  }

  lemma {:induction false} PutEachValid<T>(base: Tree, items: seq<T>, keyOf: T -> string, nodeOf: T -> Node)
    requires Valid(base)
    ensures Valid(PutEach(base, items, keyOf, nodeOf))
    decreases |items|
  {
    if |items| > 0 {
      PutEachValid(base, items[..|items| - 1], keyOf, nodeOf);
    }
  }

  /** The assignments add exactly the items' keys and remove none. */
  lemma {:induction false} PutEachKeys<T>(base: Tree, items: seq<T>, keyOf: T -> string, nodeOf: T -> Node)
    ensures forall k :: k in PutEach(base, items, keyOf, nodeOf).nodes <==> k in base.nodes || k in KeysOf(items, keyOf)
    decreases |items|
  {
    if |items| > 0 {
      var n := |items| - 1;
      PutEachKeys(base, items[..n], keyOf, nodeOf);
      assert KeysOf(items, keyOf) == KeysOf(items[..n], keyOf) + [keyOf(items[n])];
    }
  }

  /** A key no item has keeps its node. */
  lemma {:induction false} PutEachOthers<T>(base: Tree, items: seq<T>, keyOf: T -> string, nodeOf: T -> Node, k: string)
    requires k !in KeysOf(items, keyOf)
    ensures NodeAt(PutEach(base, items, keyOf, nodeOf), k) == NodeAt(base, k)
    decreases |items|
  {
    if |items| > 0 {
      var n := |items| - 1;
      assert KeysOf(items, keyOf) == KeysOf(items[..n], keyOf) + [keyOf(items[n])];
      PutEachOthers(base, items[..n], keyOf, nodeOf, k);
    }
  }

  /** The node under an item's key is the one of the last item with that key, whatever was there before. */
  lemma {:induction false} PutEachLastWins<T>(base: Tree, items: seq<T>, keyOf: T -> string, nodeOf: T -> Node, i: int)
    requires 0 <= i < |items| && LastOfKey(items, keyOf, i)
    ensures NodeAt(PutEach(base, items, keyOf, nodeOf), keyOf(items[i])) == Some(nodeOf(items[i]))
    decreases |items|
  {
    var n := |items| - 1;
    var front := items[..n];
    var prev := PutEach(base, front, keyOf, nodeOf);
    assert PutEach(base, items, keyOf, nodeOf) == Put(prev, keyOf(items[n]), nodeOf(items[n]));
    if i < n {
      assert front[i] == items[i];
      assert LastOfKey(front, keyOf, i) by {
        forall j | i < j < |front| ensures keyOf(front[j]) != keyOf(front[i]) {
          assert front[j] == items[j];
        }
      }
      PutEachLastWins(base, front, keyOf, nodeOf, i);
      assert keyOf(items[n]) != keyOf(items[i]);
    }
  }

  lemma DistinctSnoc(a: seq<string>, x: string)
    requires Distinct(a + [x])
    ensures Distinct(a) && x !in a
  {
    assert forall i :: 0 <= i < |a| ==> (a + [x])[i] == a[i];
    assert (a + [x])[|a|] == x;
  }

  /** Distinct new keys go after the existing ones, in item order. */
  lemma {:induction false} PutEachOrder<T>(base: Tree, items: seq<T>, keyOf: T -> string, nodeOf: T -> Node)
    requires Distinct(KeysOf(items, keyOf))
    requires forall i :: 0 <= i < |items| ==> keyOf(items[i]) !in base.nodes
    ensures PutEach(base, items, keyOf, nodeOf).keys == base.keys + KeysOf(items, keyOf)
    decreases |items|
  {
    if |items| > 0 {
      var n := |items| - 1;
      var front := items[..n];
      assert KeysOf(items, keyOf) == KeysOf(front, keyOf) + [keyOf(items[n])];
      DistinctSnoc(KeysOf(front, keyOf), keyOf(items[n]));
      assert forall i :: 0 <= i < |front| ==> front[i] == items[i];
      PutEachOrder(base, front, keyOf, nodeOf);
      PutEachKeys(base, front, keyOf, nodeOf);
      assert base.keys + KeysOf(items, keyOf) == (base.keys + KeysOf(front, keyOf)) + [keyOf(items[n])];
    }
  }

  /** The loop behind `PutEach`, pushing each key as it goes. */
  method PutEachCollecting<T>(base: Tree, items: seq<T>, keyOf: T -> string, nodeOf: T -> Node) returns (next: Tree, keys: seq<string>)
    ensures next == PutEach(base, items, keyOf, nodeOf)
    ensures keys == KeysOf(items, keyOf)
  {
    next := base;
    keys := [];
    var i := 0;
    while i < |items|
      invariant 0 <= i <= |items|
      invariant next == PutEach(base, items[..i], keyOf, nodeOf)
      invariant keys == KeysOf(items[..i], keyOf)
    {
      assert items[..i + 1][..i] == items[..i];
      keys := keys + [keyOf(items[i])];
      next := Put(next, keyOf(items[i]), nodeOf(items[i]));
      i := i + 1;
    }
    assert items[..i] == items;
  }

  /** The store a hook keeps in React state, replaced whole by each action. */
  class TreeStore {
    var tree: Tree

    constructor ()
      ensures tree == Empty
    {
      tree := Empty;
    }

    /** `setServers(t)`: replaces the whole record. */
    method Replace(t: Tree)
      modifies this
      ensures tree == t
    {
      tree := t;
    }

    method UpsertNode(k: string, name: Value, d: Data)
      modifies this
      ensures tree == Upsert(old(tree), k, name, d)
    {
      tree := Upsert(tree, k, name, d);
    }

    method SetChildren(p: string, cs: seq<string>)
      modifies this
      ensures tree == Attach(old(tree), p, cs)
    {
      tree := Attach(tree, p, cs);
    }

    /** The updates a loader's mapper issues, one after the other. */
    method ApplyAll(ops: seq<TreeOp>)
      modifies this
      ensures tree == ApplyOps(old(tree), ops)
    {
      var i := 0;
      while i < |ops|
        invariant 0 <= i <= |ops|
        invariant ApplyOps(tree, ops[i..]) == ApplyOps(old(tree), ops)
      {
        assert ops[i..][1..] == ops[i + 1..];
        tree := ApplyOp(tree, ops[i]);
        i := i + 1;
      }
    }

    /**
     * `removeSubtree(root)`: pops keys off a stack, pushes the children of each
     * node still in the copy, and deletes the key. Exactly the keys reachable from
     * `root` go; the rest keep their nodes (children lists that name removed keys
     * included) and their order. A key whose node is already gone pushes nothing,
     * so the loop ends on cyclic children too.
     */
    method RemoveSubtree(root: string)
      modifies this
      ensures forall k :: NodeAt(tree, k) == if Reachable(old(tree), root, k) then None else NodeAt(old(tree), k)
      ensures Valid(old(tree)) ==> Valid(tree)
      ensures Valid(old(tree)) ==> tree.keys == Without(old(tree).keys, old(tree).nodes.Keys - tree.nodes.Keys)
    {
      ghost var orig := tree;
      var next := tree;
      var stack := [root];
      ghost var done: set<string> := {};
      RemovalStart(orig, root);
      while |stack| > 0
        invariant Removing(orig, root, next, stack, done)
        decreases |next.nodes.Keys|, |stack|
      {
        var k := stack[|stack| - 1];
        var rest := stack[..|stack| - 1];
        assert stack == rest + [k];
        RemovalStep(orig, root, next, rest, k, done);
        DeleteShrinks(next, k);
        stack := rest;
        if k in next.nodes && |next.nodes[k].children| > 0 {
          stack := stack + next.nodes[k].children;
        }
        assert stack == rest + Pushed(next, k);
        next := Delete(next, k);
        done := done + {k};
      }
      RemovalEnd(orig, root, next, done);
      tree := next;
    }
  }
}
