/**
 * `useServerConnections` of `use-server-connections.ts`: the hook that keeps its
 * own tree of `server::<id>` nodes, does the server CRUD on it, and on connect
 * loads the `database::<id>::<name>` children of a server. Every backend call
 * is a parameter: how its promise settled.
 */
module ServerConnections {
  import opened Values
  import opened Outcomes
  import opened Toasts
  import opened AsyncRunner
  import opened Keys
  import opened ServerTree
  import opened LoadChildren

  /** `key("server", srv.id)` for a record's own `id`. */
  function SrvKeyOf(srv: Data): string
  {
    Key([S(ServerKind), V(Get(srv, "id"))])
  }

  /** `key("database", server.id, db.name)` */
  function DatabaseKeyOf(sid: Value, db: Data): string
  {
    Key([S(DatabaseKind), V(sid), V(Get(db, "name"))])
  }

  /** The `mapItem` of the database load: `{ key, name: db.name, data: { ...db, server_id } }`. */
  function DatabaseMapper(sid: Value): Data -> Mapped
  {
    db => Mapped([], DatabaseKeyOf(sid, db), Get(db, "name"), db + map["server_id" := sid])
  }

  /** `{ isConnected: hasConnected, default_database: server.default_database }` */
  function Marks(server: Data, h: bool): Data
  {
    map["isConnected" := VBool(h), "default_database" := Get(server, "default_database")]
  }

  // The notices the hook shows itself.
  function AddedMsg(name: Value): string { "Servidor \"" + ToStr(name) + "\" adicionado!" }
  function UpdatedMsg(name: Value): string { "Servidor \"" + ToStr(name) + "\" atualizado!" }
  const RemovedMsg := "Servidor removido com sucesso!"
  function ConnectedMsg(name: Value): string { "Conectado ao servidor \"" + ToStr(name) + "\"!" }
  const DatabasesEmpty := "Nenhum database encontrado para este servidor."
  function DatabasesSuccess(name: Value): string { "Databases do servidor \"" + ToStr(name) + "\" carregadas!" }

  /** `{ name: srv.name, children: [], data: srv }` */
  function ServerNode(srv: Data): Node
  {
    Node(Get(srv, "name"), [], srv)
  }

  /** The record `fetchServers` builds: `treeNodes[key("server", srv.id)]` for each server, over an empty record. */
  function ServerNodes(servers: seq<Data>): Tree
  {
    PutEach(Empty, servers, SrvKeyOf, ServerNode)
  }

  /**
   * `fetchServers` on a list of servers: a well-formed record with a node exactly
   * under each server key, the node under a key built from the last server with
   * that key, and, for distinct ids, the servers in fetch order.
   */
  lemma ServerNodesShape(servers: seq<Data>)
    ensures var r := ServerNodes(servers);
      && Valid(r)
      && (forall k :: k in r.nodes <==> k in KeysOf(servers, SrvKeyOf))
      && (forall i :: 0 <= i < |servers| && LastOfKey(servers, SrvKeyOf, i) ==> NodeAt(r, SrvKeyOf(servers[i])) == Some(ServerNode(servers[i])))
      && (Distinct(KeysOf(servers, SrvKeyOf)) ==> r.keys == KeysOf(servers, SrvKeyOf))
  {
    PutEachValid(Empty, servers, SrvKeyOf, ServerNode);
    PutEachKeys(Empty, servers, SrvKeyOf, ServerNode);
    forall i | 0 <= i < |servers| && LastOfKey(servers, SrvKeyOf, i)
      ensures NodeAt(ServerNodes(servers), SrvKeyOf(servers[i])) == Some(ServerNode(servers[i]))
    {
      PutEachLastWins(Empty, servers, SrvKeyOf, ServerNode, i);
    }
    if Distinct(KeysOf(servers, SrvKeyOf)) {
      PutEachOrder(Empty, servers, SrvKeyOf, ServerNode);
    }
  }

  /** An added server that was not in the record gets the node a later fetch builds for it (unless its name is `null`). */
  lemma AddMatchesFetch(t: Tree, srv: Data)
    requires SrvKeyOf(srv) !in t.nodes && !Get(srv, "name").VNull?
    ensures NodeAt(Upsert(t, SrvKeyOf(srv), Get(srv, "name"), srv), SrvKeyOf(srv)) == Some(ServerNode(srv))
  {
  }

  /** A record whose `id` is the number `id` has the key `editServer(id, ...)` and `removeServer(id)` use. */
  lemma SrvKeyOfNumber(srv: Data, id: int)
    requires Get(srv, "id") == VNum(id)
    ensures SrvKeyOf(srv) == ServerKey(id)
  {
    assert Texts([S(ServerKind), V(VNum(id))]) == Texts([S(ServerKind), N(id)]);
  }

  /**
   * `editServer` upserts the server's key: a server already in the record keeps
   * its children (the databases a connect loaded) and every field the updated
   * record does not carry, such as `isConnected`.
   */
  lemma EditKeepsConnection(t: Tree, id: int, updated: Data)
    requires ServerKey(id) in t.nodes
    ensures var n := NodeAt(Upsert(t, ServerKey(id), Get(updated, "name"), updated), ServerKey(id));
      && n.Some?
      && n.value.children == t.nodes[ServerKey(id)].children
      && (forall f :: f in t.nodes[ServerKey(id)].data && f !in updated ==> f in n.value.data && n.value.data[f] == t.nodes[ServerKey(id)].data[f])
      && (forall f :: f in updated ==> f in n.value.data && n.value.data[f] == updated[f])
  {
  }

  // ---- connectToServer ----

  /** What the connect task settles with: the connect call's rejection, else the database load's, else `hasConnected`. */
  function ConnectTask(connected: Outcome<bool>, fetched: Outcome<seq<Data>>): (r: Outcome<bool>)
    ensures connected.Err? ==> r == Err(connected.error)
    ensures connected.Ok? && fetched.Err? ==> r == Err(fetched.error)
    ensures connected.Ok? && fetched.Ok? ==> r == Ok(connected.value)
  {
    match connected
    case Err(e) => Err(e)
    case Ok(h) => if fetched.Err? then Err(fetched.error) else Ok(h)
  }

  /** The record after the connect task: mark the server, then load its databases. */
  function ConnectedTree(t: Tree, server: Data, connected: Outcome<bool>, fetched: Outcome<seq<Data>>): Tree
  {
    match connected
    case Err(_) => t
    case Ok(h) =>
      Loaded(Upsert(t, SrvKeyOf(server), Get(server, "name"), Marks(server, h)), SrvKeyOf(server), fetched,
             DatabaseMapper(Get(server, "id")))
  }

  /** The flags after the connect run, with the database load run nested inside it. */
  function ConnectFlags(f: Flags, connected: Outcome<bool>, fetched: Outcome<seq<Data>>): Flags
  {
    var inner := Started(f, Connect);
    var after := if connected.Ok? then Settled(Started(inner, Load), Load, fetched) else inner;
    Settled(after, Connect, ConnectTask(connected, fetched))
  }

  /** The notices of a connect: the connect notice and the load's, then the run's own on a rejection. */
  function ConnectNotices(server: Data, connected: Outcome<bool>, fetched: Outcome<seq<Data>>): seq<Notice>
  {
    ConnectOwnNotices(server, connected, fetched) + RunNotices(ConnectTask(connected, fetched))
  }

  /** The notices of the connect task itself: the connect notice, then the database load's. */
  function ConnectOwnNotices(server: Data, connected: Outcome<bool>, fetched: Outcome<seq<Data>>): seq<Notice>
  {
    var name := Get(server, "name");
    if connected.Ok? then [Notice(SuccessToast, ConnectedMsg(name))] + LoadNotices(fetched, DatabasesEmpty, DatabasesSuccess(name)) else []
  }

  /** The only update a database item issues is its own upsert, and it never aims at the server key. */
  lemma DatabaseItemOps(sid: Value, db: Data, sk: string)
    requires sk == Key([S(ServerKind), V(sid)])
    ensures ItemOps(DatabaseMapper(sid)(db)) == [UpsertOp(DatabaseKeyOf(sid, db), Get(db, "name"), db + map["server_id" := sid])]
    ensures DatabaseKeyOf(sid, db) != sk
  {
    DistinctKindsDistinctKeys([S(DatabaseKind), V(sid), V(Get(db, "name"))], [S(ServerKind), V(sid)]);
  }

  lemma DatabasesSkipServer(sid: Value, dbs: seq<Data>, sk: string)
    requires sk == Key([S(ServerKind), V(sid)])
    ensures !Touched(dbs, DatabaseMapper(sid), sk)
    ensures WellAnchored(dbs, DatabaseMapper(sid))
  {
    forall j | 0 <= j < |dbs| ensures forall op :: op in ItemOps(DatabaseMapper(sid)(dbs[j])) ==> Target(op) != sk {
      DatabaseItemOps(sid, dbs[j], sk);
    }
    forall j, k | 0 <= j < |dbs| ensures CreatesFirst(OnKey(ItemOps(DatabaseMapper(sid)(dbs[j])), k)) {
      PlainMapperAnchored(DatabaseMapper(sid)(dbs[j]), k);
    }
  }

  /**
   * After a successful connect and database fetch the server node holds the
   * connect marks and exactly the database keys, in fetch order (none for an
   * empty result); its other fields and, unless the new name is null or
   * undefined, its name stay as before (a node absent before is created).
   */
  lemma ConnectedServerNode(t: Tree, server: Data, h: bool, dbs: seq<Data>)
    ensures var sk := SrvKeyOf(server);
      var n := NodeAt(ConnectedTree(t, server, Ok(h), Ok(dbs)), sk);
      && n.Some?
      && n.value == Upserted(NodeAt(t, sk), Get(server, "name"), Marks(server, h)).(children := n.value.children)
      && |n.value.children| == |dbs|
      && (forall i :: 0 <= i < |dbs| ==> n.value.children[i] == DatabaseKeyOf(Get(server, "id"), dbs[i]))
  {
    var sid := Get(server, "id");
    var sk := SrvKeyOf(server);
    var t1 := Upsert(t, sk, Get(server, "name"), Marks(server, h));
    DatabasesSkipServer(sid, dbs, sk);
    ParentAfterLoad(t1, sk, dbs, DatabaseMapper(sid));
  }

  /** The connect marks land in the server node: `isConnected` is the connect result, `default_database` the server's. */
  lemma ConnectMarksServer(t: Tree, server: Data, h: bool, dbs: seq<Data>)
    ensures var n := NodeAt(ConnectedTree(t, server, Ok(h), Ok(dbs)), SrvKeyOf(server));
      && n.Some?
      && "isConnected" in n.value.data && n.value.data["isConnected"] == VBool(h)
      && "default_database" in n.value.data && n.value.data["default_database"] == Get(server, "default_database")
  {
    ConnectedServerNode(t, server, h, dbs);
  }

  /** A failed database fetch still leaves the server marked with the connect result. */
  lemma ConnectMarksOnFailedLoad(t: Tree, server: Data, h: bool, e: Thrown)
    ensures var n := NodeAt(ConnectedTree(t, server, Ok(h), Err(e)), SrvKeyOf(server));
      && n.Some?
      && "isConnected" in n.value.data && n.value.data["isConnected"] == VBool(h)
      && n.value.children == (if SrvKeyOf(server) in t.nodes then t.nodes[SrvKeyOf(server)].children else [])
  {
    FailedLoadKeepsTree(Upsert(t, SrvKeyOf(server), Get(server, "name"), Marks(server, h)), SrvKeyOf(server), e, DatabaseMapper(Get(server, "id")));
  }

  /**
   * Every fetched database gets a node that carries `server_id`; a database node
   * present before keeps its children (the schemas loaded under it).
   */
  lemma ConnectedDatabaseNode(t: Tree, server: Data, h: bool, dbs: seq<Data>, i: int)
    requires 0 <= i < |dbs|
    ensures var k := DatabaseKeyOf(Get(server, "id"), dbs[i]);
      var n := NodeAt(ConnectedTree(t, server, Ok(h), Ok(dbs)), k);
      && n.Some?
      && "server_id" in n.value.data && n.value.data["server_id"] == Get(server, "id")
      && n.value.children == (if k in t.nodes then t.nodes[k].children else [])
  {
    var sid := Get(server, "id");
    DatabaseNodeAt(t, server, h, dbs, i, sid, SrvKeyOf(server), DatabaseKeyOf(sid, dbs[i]));
  }

  lemma DatabaseNodeAt(t: Tree, server: Data, h: bool, dbs: seq<Data>, i: int, sid: Value, sk: string, k: string)
    requires 0 <= i < |dbs| && sid == Get(server, "id") && sk == SrvKeyOf(server) && k == DatabaseKeyOf(sid, dbs[i])
    ensures var n := NodeAt(ConnectedTree(t, server, Ok(h), Ok(dbs)), k);
      && n.Some?
      && "server_id" in n.value.data && n.value.data["server_id"] == sid
      && n.value.children == (if k in t.nodes then t.nodes[k].children else [])
  {
    var m := DatabaseMapper(sid);
    var t1 := Upsert(t, sk, Get(server, "name"), Marks(server, h));
    DatabaseLoadFacts(dbs, i, sid, sk, k);
    LoadedKeyNode(t1, sk, dbs, m, k, "server_id", sid, []);
    assert NodeAt(t1, k) == NodeAt(t, k);
  }

  /** What a database load's updates give a database key: the preconditions of the generic load lemmas. */
  lemma DatabaseLoadFacts(dbs: seq<Data>, i: int, sid: Value, sk: string, k: string)
    requires 0 <= i < |dbs| && sk == Key([S(ServerKind), V(sid)]) && k == DatabaseKeyOf(sid, dbs[i])
    ensures var m := DatabaseMapper(sid);
      && WellAnchored(dbs, m) && k != sk && Touched(dbs, m, k)
      && Agrees(dbs, m, k, "server_id", sid, [])
  {
    var m := DatabaseMapper(sid);
    DatabasesSkipServer(sid, dbs, sk);
    DatabaseItemOps(sid, dbs[i], sk);
    forall j | 0 <= j < |dbs|
      ensures forall op :: op in ItemOps(m(dbs[j])) ==> op.UpsertOp? && "server_id" in op.data && op.data["server_id"] == sid
    {
      DatabaseItemOps(sid, dbs[j], sk);
    }
    var own := UpsertOp(k, Get(dbs[i], "name"), dbs[i] + map["server_id" := sid]);
    assert own in ItemOps(m(dbs[i])) && Target(own) == k;
  }

  /** Every database loaded under a server is reachable from the server key, so `removeServer` removes it. */
  lemma DatabasesUnderServer(t: Tree, server: Data, h: bool, dbs: seq<Data>, i: int)
    requires 0 <= i < |dbs|
    ensures Reachable(ConnectedTree(t, server, Ok(h), Ok(dbs)), SrvKeyOf(server), DatabaseKeyOf(Get(server, "id"), dbs[i]))
  {
    var r := ConnectedTree(t, server, Ok(h), Ok(dbs));
    var sk := SrvKeyOf(server);
    ConnectedServerNode(t, server, h, dbs);
    assert IsPath(r, [sk]);
    assert r.nodes[sk].children[i] == DatabaseKeyOf(Get(server, "id"), dbs[i]);
    ReachableStep(r, sk, sk, DatabaseKeyOf(Get(server, "id"), dbs[i]));
  }

  /**
   * The connect run ends with `isConnecting` reset; the nested load run resets
   * `isLoading` (also a load already in flight); the error slot holds the
   * message of whichever call rejected, or is empty.
   */
  lemma ConnectRunEnds(f: Flags, connected: Outcome<bool>, fetched: Outcome<seq<Data>>)
    ensures var g := ConnectFlags(f, connected, fetched);
      && !g.isConnecting
      && g.isLoading == (connected.Err? && f.isLoading)
      && g.error == (if connected.Err? then Some(Message(connected.error))
                     else if fetched.Err? then Some(Message(fetched.error)) else None)
  {
  }

  /**
   * A failed database fetch after a connect shows the connect notice and then the
   * same error twice: once from the load's run and once from the connect's.
   */
  lemma FailedLoadErrorTwice(server: Data, h: bool, e: Thrown)
    ensures ConnectNotices(server, Ok(h), Err(e)) ==
      [Notice(SuccessToast, ConnectedMsg(Get(server, "name"))), Notice(ErrorToast, Message(e)), Notice(ErrorToast, Message(e))]
  {
  }

  class ServerConnections {
    const loader: Loader

    /** The hook's state: an empty record of its own, idle flags. */
    constructor (toasts: Toaster)
      ensures loader.runner.toasts == toasts && loader.runner.State() == Idle && loader.store.tree == Empty
      ensures fresh(loader) && fresh(loader.runner) && fresh(loader.store)
    {
      var runner := new Runner(toasts);
      var store := new TreeStore();
      loader := new Loader(runner, store);
    }

    /**
     * `fetchServers()`: on success, replaces the whole record with one node per
     * fetched server; rejects with the fetch's error otherwise.
     */
    method FetchServers(fetched: Outcome<seq<Data>>) returns (r: Outcome<()>)
      modifies loader.runner, loader.runner.toasts, loader.store
      ensures loader.store.tree == if fetched.Ok? then ServerNodes(fetched.value) else old(loader.store.tree)
      ensures loader.runner.toasts.log == old(loader.runner.toasts.log) + RunNotices(fetched)
      ensures loader.runner.State() == Settled(Started(old(loader.runner.State()), Load), Load, fetched)
      ensures r == if fetched.Ok? then Ok(()) else Err(fetched.error)
    {
      var runner := loader.runner;
      runner.Start(Load);
      if fetched.Ok? {
        var treeNodes, srvKeys := PutEachCollecting(Empty, fetched.value, SrvKeyOf, ServerNode);
        loader.store.Replace(treeNodes);
      }
      var settled, called := runner.Settle(Load, fetched);
      r := if settled.Ok? then Ok(()) else Err(settled.error);
    }

    /** `addServer(data)`, with `created` the settled `createServer(data)`. */
    method AddServer(created: Outcome<Data>) returns (r: Outcome<Data>)
      modifies loader.runner, loader.runner.toasts, loader.store
      ensures loader.store.tree ==
        if created.Ok? then Upsert(old(loader.store.tree), SrvKeyOf(created.value), Get(created.value, "name"), created.value)
        else old(loader.store.tree)
      ensures loader.runner.toasts.log == old(loader.runner.toasts.log) +
        if created.Ok? then [Notice(SuccessToast, AddedMsg(Get(created.value, "name")))] else RunNotices(created)
      ensures loader.runner.State() == Settled(Started(old(loader.runner.State()), Load), Load, created)
      ensures r == created
    {
      var runner := loader.runner;
      runner.Start(Load);
      if created.Ok? {
        var srv := created.value;
        loader.store.UpsertNode(SrvKeyOf(srv), Get(srv, "name"), srv);
        runner.toasts.Success(AddedMsg(Get(srv, "name")));
      }
      var called;
      r, called := runner.Settle(Load, created);
    }

    /** `getServer(id)`: a plain run around `getServerById(id)`. */
    method GetServer(id: int, fetched: Outcome<Data>) returns (r: Outcome<Data>)
      modifies loader.runner, loader.runner.toasts
      ensures loader.runner.toasts.log == old(loader.runner.toasts.log) + RunNotices(fetched)
      ensures loader.runner.State() == Settled(Started(old(loader.runner.State()), Load), Load, fetched)
      ensures r == fetched
    {
      var called;
      r, called := loader.runner.Run(None, fetched);
    }

    /** `editServer(id, data)`, with `updated` the settled `updateServer(id, ...)`. */
    method EditServer(id: int, updated: Outcome<Data>) returns (r: Outcome<Data>)
      modifies loader.runner, loader.runner.toasts, loader.store
      ensures loader.store.tree ==
        if updated.Ok? then Upsert(old(loader.store.tree), ServerKey(id), Get(updated.value, "name"), updated.value)
        else old(loader.store.tree)
      ensures loader.runner.toasts.log == old(loader.runner.toasts.log) +
        if updated.Ok? then [Notice(SuccessToast, UpdatedMsg(Get(updated.value, "name")))] else RunNotices(updated)
      ensures loader.runner.State() == Settled(Started(old(loader.runner.State()), Load), Load, updated)
      ensures r == updated
    {
      var runner := loader.runner;
      runner.Start(Load);
      if updated.Ok? {
        var srv := updated.value;
        loader.store.UpsertNode(ServerKey(id), Get(srv, "name"), srv);
        runner.toasts.Success(UpdatedMsg(Get(srv, "name")));
      }
      var called;
      r, called := runner.Settle(Load, updated);
    }

    /**
     * `removeServer(id)`, with `deleted` the settled `deleteServer(id)`: the
     * subtree under `server::<id>` goes only after the delete succeeded.
     */
    method RemoveServer(id: int, deleted: Outcome<()>) returns (r: Outcome<bool>)
      modifies loader.runner, loader.runner.toasts, loader.store
      ensures deleted.Ok? ==>
        forall k :: NodeAt(loader.store.tree, k) ==
          if Reachable(old(loader.store.tree), ServerKey(id), k) then None else NodeAt(old(loader.store.tree), k)
      ensures deleted.Err? ==> loader.store.tree == old(loader.store.tree)
      ensures loader.runner.toasts.log == old(loader.runner.toasts.log) +
        if deleted.Ok? then [Notice(SuccessToast, RemovedMsg)] else RunNotices(deleted)
      ensures loader.runner.State() == Settled(Started(old(loader.runner.State()), Load), Load, deleted)
      ensures r == if deleted.Ok? then Ok(true) else Err(deleted.error)
    {
      var runner := loader.runner;
      runner.Start(Load);
      var task: Outcome<bool> := Ok(true);
      if deleted.Ok? {
        loader.store.RemoveSubtree(ServerKey(id));
        runner.toasts.Success(RemovedMsg);
      } else {
        task := Err(deleted.error);
      }
      var called;
      r, called := runner.Settle(Load, task);
    }

    /**
     * `connectToServer(server)`, with `connected` the settled
     * `connectToPostgreServer(...)` and `fetched` the settled database fetch.
     * Resolves at once with true for a server already connected, with
     * `undefined` (`None`) while a connect is in flight, and otherwise with the
     * connect result once the databases are loaded.
     */
    method ConnectToServer(server: Data, connected: Outcome<bool>, fetched: Outcome<seq<Data>>) returns (r: Outcome<Option<bool>>)
      modifies loader.runner, loader.runner.toasts, loader.store
      ensures Truthy(Get(server, "isConnected")) ==> r == Ok(Some(true))
      ensures !Truthy(Get(server, "isConnected")) && old(loader.runner.isConnecting) ==> r == Ok(None)
      ensures Truthy(Get(server, "isConnected")) || old(loader.runner.isConnecting) ==>
        && loader.store.tree == old(loader.store.tree)
        && loader.runner.toasts.log == old(loader.runner.toasts.log)
        && loader.runner.State() == old(loader.runner.State())
      ensures !Truthy(Get(server, "isConnected")) && !old(loader.runner.isConnecting) ==>
        && loader.store.tree == ConnectedTree(old(loader.store.tree), server, connected, fetched)
        && loader.runner.toasts.log == old(loader.runner.toasts.log) + ConnectNotices(server, connected, fetched)
        && loader.runner.State() == ConnectFlags(old(loader.runner.State()), connected, fetched)
        && r == (if ConnectTask(connected, fetched).Ok? then Ok(Some(ConnectTask(connected, fetched).value))
                 else Err(ConnectTask(connected, fetched).error))
    {
      if Truthy(Get(server, "isConnected")) {
        return Ok(Some(true));
      }
      if loader.runner.isConnecting {
        return Ok(None);
      }
      r := ConnectRun(server, connected, fetched);
    }

    /** The `run` of `connectToServer`, past its two guards. */
    method ConnectRun(server: Data, connected: Outcome<bool>, fetched: Outcome<seq<Data>>) returns (r: Outcome<Option<bool>>)
      modifies loader.runner, loader.runner.toasts, loader.store
      ensures loader.store.tree == ConnectedTree(old(loader.store.tree), server, connected, fetched)
      ensures loader.runner.toasts.log == old(loader.runner.toasts.log) + ConnectNotices(server, connected, fetched)
      ensures loader.runner.State() == ConnectFlags(old(loader.runner.State()), connected, fetched)
      ensures r == (if ConnectTask(connected, fetched).Ok? then Ok(Some(ConnectTask(connected, fetched).value))
                    else Err(ConnectTask(connected, fetched).error))
    {
      var runner := loader.runner;
      runner.Start(Connect);
      var task := ConnectTaskRun(server, connected, fetched);
      var settled, called := runner.Settle(Connect, task);
      r := if settled.Ok? then Ok(Some(settled.value)) else Err(settled.error);
    }

    /**
     * The connect task: when `connectToPostgreServer` resolved with `h`, mark the
     * server node, show the connect notice, and await the database load; when
     * it rejected, nothing happens before the run's `catch`.
     */
    method ConnectTaskRun(server: Data, connected: Outcome<bool>, fetched: Outcome<seq<Data>>) returns (task: Outcome<bool>)
      modifies loader.runner, loader.runner.toasts, loader.store
      ensures loader.store.tree == ConnectedTree(old(loader.store.tree), server, connected, fetched)
      ensures loader.runner.toasts.log == old(loader.runner.toasts.log) + ConnectOwnNotices(server, connected, fetched)
      ensures loader.runner.State() ==
        if connected.Ok? then Settled(Started(old(loader.runner.State()), Load), Load, fetched) else old(loader.runner.State())
      ensures task == ConnectTask(connected, fetched)
    {
      match connected {
        case Err(e) =>
          task := Err(e);
        case Ok(h) =>
          var sk := SrvKeyOf(server);
          var name := Get(server, "name");
          loader.store.UpsertNode(sk, name, Marks(server, h));
          loader.runner.toasts.Success(ConnectedMsg(name));
          var loaded := loader.LoadChildren(sk, fetched, DatabaseMapper(Get(server, "id")), DatabasesEmpty, DatabasesSuccess(name));
          task := if loaded.Err? then Err(loaded.error) else Ok(h);
      }
    }
  }
}
