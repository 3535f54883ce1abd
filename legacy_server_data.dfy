/**
 * `useServersData` of `use-server-data.ts`: the older hook that does the work of
 * the newer ones inline. Each action copies the record, assigns whole nodes into
 * the copy and sets it back; a parent's children are replaced only when the
 * parent is there. Errors are shown and swallowed: an action that fails gives
 * back nothing instead of rethrowing.
 */
module LegacyServerData {
  import opened Values
  import opened Outcomes
  import opened Toasts
  import opened Keys
  import opened ServerTree
  import opened LoadChildren
  import opened ServerConnections
  import opened DbStructure

  /** `buildKey("server", serverId)` for the id as the caller passes it. */
  function ServerKeyFor(sid: Value): string
  {
    Key([S(ServerKind), V(sid)])
  }

  /**
   * The record `updateServerInTree(serverId, data, remove)` leaves. A removal
   * deletes the server key alone; anything else creates the node if needed and
   * merges `data` into it, the name falling back to the old one when
   * `data.name` is falsy.
   */
  function InTree(t: Tree, sid: Value, data: Data, remove: bool): (r: Tree)
    ensures var k := ServerKeyFor(sid);
      && (remove ==> NodeAt(r, k) == None)
      && (remove && k !in t.nodes ==> r == t)
      && (!remove ==> k in r.nodes && r.nodes[k].children == (if k in t.nodes then t.nodes[k].children else []))
      && (!remove ==> k in r.nodes && r.nodes[k].data == (if k in t.nodes then t.nodes[k].data + data else data))
      && (!remove ==> (k in r.nodes &&
            r.nodes[k].name == (if k in t.nodes && !Truthy(Get(data, "name")) then t.nodes[k].name else Get(data, "name"))))
      && (forall j :: j != k ==> NodeAt(r, j) == NodeAt(t, j))
      && (Valid(t) ==> Valid(r))
  {
    var k := ServerKeyFor(sid);
    if remove then
      if k in t.nodes then Delete(t, k) else t
    else if k in t.nodes then
      var n := t.nodes[k];
      Put(t, k, Node(Or(Get(data, "name"), n.name), n.children, n.data + data))
    else
      Put(t, k, Node(Get(data, "name"), [], data))
  }

  /** A present server reached from a removed one keeps its node: the removal is not a subtree removal. */
  lemma RemovalKeepsDescendants(t: Tree, sid: Value, c: string)
    requires ServerKeyFor(sid) in t.nodes && c in t.nodes[ServerKeyFor(sid)].children
    requires c in t.nodes && c != ServerKeyFor(sid)
    ensures Reachable(t, ServerKeyFor(sid), c)
    ensures NodeAt(InTree(t, sid, map[], true), c) == Some(t.nodes[c])
  {
    var k := ServerKeyFor(sid);
    assert IsPath(t, [k]);
    assert Reachable(t, k, k);
    ReachableStep(t, k, k, c);
  }

  /**
   * An empty name keeps the old name here, where `upsertNode` of the newer hooks
   * would write the empty string.
   */
  lemma EmptyNameFallsBack(t: Tree, sid: Value, data: Data)
    requires ServerKeyFor(sid) in t.nodes && Get(data, "name") == VStr("")
    ensures InTree(t, sid, data, false).nodes[ServerKeyFor(sid)].name == t.nodes[ServerKeyFor(sid)].name
    ensures Upsert(t, ServerKeyFor(sid), Get(data, "name"), data).nodes[ServerKeyFor(sid)].name == VStr("")
  {
  }

  // The database nodes the connect writes.

  function DbKeyFn(sid: Value): Data -> string
  {
    db => DatabaseKeyOf(sid, db)
  }

  /** `{ name: db.name, children: [], data: { ...db, server_id: server.id } }` */
  function DbNodeFn(sid: Value): Data -> Node
  {
    db => Node(Get(db, "name"), [], db + map["server_id" := sid])
  }

  /** The record the database `forEach` leaves: every database node assigned, then the server's children. */
  function DatabasesPut(t: Tree, sid: Value, dbs: seq<Data>): Tree
  {
    Attach(PutEach(t, dbs, DbKeyFn(sid), DbNodeFn(sid)), ServerKeyFor(sid), KeysOf(dbs, DbKeyFn(sid)))
  }

  /** The record `connectToServer` leaves, past the already-connected check. */
  function LegacyConnected(t: Tree, server: Data, connected: Outcome<bool>, fetched: Outcome<seq<Data>>): Tree
  {
    var sid := Get(server, "id");
    match connected
    case Err(_) => t
    case Ok(h) =>
      var marked := InTree(t, sid, Marks(server, h), false);
      if fetched.Ok? && |fetched.value| > 0 then DatabasesPut(marked, sid, fetched.value) else marked
  }

  /** The notices of `connectToServer`: an empty database list shows nothing. */
  function LegacyConnectNotices(server: Data, connected: Outcome<bool>, fetched: Outcome<seq<Data>>): seq<Notice>
  {
    match connected
    case Err(e) => [Notice(ErrorToast, Message(e))]
    case Ok(_) =>
      [Notice(SuccessToast, ConnectedMsg(Get(server, "name")))] +
      match fetched
      case Err(e) => [Notice(ErrorToast, Message(e))]
      case Ok(dbs) => if |dbs| == 0 then [] else [Notice(SuccessToast, DatabasesSuccess(Get(server, "name")))]
  }

  /** The error slot after `connectToServer`: the message of whichever call failed. */
  function LegacyConnectError(connected: Outcome<bool>, fetched: Outcome<seq<Data>>): Option<string>
  {
    if connected.Err? then Some(Message(connected.error))
    else if fetched.Err? then Some(Message(fetched.error))
    else None
  }

  lemma DatabaseKeysSkipServer(sid: Value, dbs: seq<Data>)
    ensures ServerKeyFor(sid) !in KeysOf(dbs, DbKeyFn(sid))
  {
    forall i | 0 <= i < |dbs| ensures KeysOf(dbs, DbKeyFn(sid))[i] != ServerKeyFor(sid) {
      DistinctKindsDistinctKeys([S(DatabaseKind), V(sid), V(Get(dbs[i], "name"))], [S(ServerKind), V(sid)]);
    }
  }

  /**
   * Each database node is overwritten whole, with no children, whatever the
   * record held under its key before (schemas loaded earlier included).
   */
  lemma ConnectOverwritesDatabase(t: Tree, server: Data, h: bool, dbs: seq<Data>, i: int)
    requires 0 <= i < |dbs| && LastOfKey(dbs, DbKeyFn(Get(server, "id")), i)
    ensures NodeAt(LegacyConnected(t, server, Ok(h), Ok(dbs)), DatabaseKeyOf(Get(server, "id"), dbs[i])) ==
      Some(Node(Get(dbs[i], "name"), [], dbs[i] + map["server_id" := Get(server, "id")]))
  {
    var sid := Get(server, "id");
    var marked := InTree(t, sid, Marks(server, h), false);
    DistinctKindsDistinctKeys([S(DatabaseKind), V(sid), V(Get(dbs[i], "name"))], [S(ServerKind), V(sid)]);
    PutEachLastWins(marked, dbs, DbKeyFn(sid), DbNodeFn(sid), i);
  }

  /**
   * After a connect the server node is there and marked; it gets the database
   * keys as children only when databases came back, and keeps its children
   * otherwise.
   */
  lemma ConnectMarksLegacyServer(t: Tree, server: Data, h: bool, fetched: Outcome<seq<Data>>)
    ensures var sk := ServerKeyFor(Get(server, "id"));
      var n := NodeAt(LegacyConnected(t, server, Ok(h), fetched), sk);
      && n.Some?
      && Get(n.value.data, "isConnected") == VBool(h)
      && n.value.name == (if sk in t.nodes then t.nodes[sk].name else VUndefined)
      && n.value.children ==
         if fetched.Ok? && |fetched.value| > 0 then KeysOf(fetched.value, DbKeyFn(Get(server, "id")))
         else if sk in t.nodes then t.nodes[sk].children else []
  {
    var sid := Get(server, "id");
    var marked := InTree(t, sid, Marks(server, h), false);
    MarkedServer(t, server, h, sid, ServerKeyFor(sid));
    if fetched.Ok? && |fetched.value| > 0 {
      DatabasesUnderLegacyServer(marked, sid, fetched.value, ServerKeyFor(sid));
    }
  }

  lemma MarkedServer(t: Tree, server: Data, h: bool, sid: Value, sk: string)
    requires sid == Get(server, "id") && sk == ServerKeyFor(sid)
    ensures var m := InTree(t, sid, Marks(server, h), false);
      && sk in m.nodes
      && Get(m.nodes[sk].data, "isConnected") == VBool(h)
      && m.nodes[sk].name == (if sk in t.nodes then t.nodes[sk].name else VUndefined)
      && m.nodes[sk].children == (if sk in t.nodes then t.nodes[sk].children else [])
  {
    assert "name" !in Marks(server, h);
  }

  lemma DatabasesUnderLegacyServer(t: Tree, sid: Value, dbs: seq<Data>, sk: string)
    requires sk == ServerKeyFor(sid) && sk in t.nodes
    ensures NodeAt(DatabasesPut(t, sid, dbs), sk) == Some(t.nodes[sk].(children := KeysOf(dbs, DbKeyFn(sid))))
  {
    DatabaseKeysSkipServer(sid, dbs);
    PutEachOthers(t, dbs, DbKeyFn(sid), DbNodeFn(sid), sk);
  }

  // Generic rows: the loops that assign several nodes per fetched item.

  datatype Row = Row(key: string, node: Node)

  /** `updated[row.key] = row.node` for each row in turn. */
  function PutAll(t: Tree, rows: seq<Row>): Tree
    decreases |rows|
  {
    if |rows| == 0 then t else PutAll(Put(t, rows[0].key, rows[0].node), rows[1..])
  }

  /** The rows of each item in turn, over a copy of `base`. */
  function PutRows<T>(base: Tree, items: seq<T>, rowsOf: T -> seq<Row>): Tree
    decreases |items|
  {
    if |items| == 0 then base
    else PutAll(PutRows(base, items[..|items| - 1], rowsOf), rowsOf(items[|items| - 1]))
  }

  /** No row of any item is written under `k`. */
  predicate MissesKey<T>(items: seq<T>, rowsOf: T -> seq<Row>, k: string)
  {
    forall i, j :: 0 <= i < |items| && 0 <= j < |rowsOf(items[i])| ==> rowsOf(items[i])[j].key != k
  }

  lemma {:induction false} PutAllKeeps(t: Tree, rows: seq<Row>, k: string)
    ensures k in t.nodes ==> k in PutAll(t, rows).nodes
    ensures (forall j :: 0 <= j < |rows| ==> rows[j].key != k) ==> NodeAt(PutAll(t, rows), k) == NodeAt(t, k)
    decreases |rows|
  {
    if |rows| > 0 {
      PutAllKeeps(Put(t, rows[0].key, rows[0].node), rows[1..], k);
      if forall j :: 0 <= j < |rows| ==> rows[j].key != k {
        assert rows[0].key != k;
        assert forall j :: 0 <= j < |rows[1..]| ==> rows[1..][j] == rows[j + 1];
      }
    }
  }

  lemma PutAllTwo(t: Tree, a: Row, b: Row)
    ensures PutAll(t, [a, b]) == Put(Put(t, a.key, a.node), b.key, b.node)
  {
    assert [a, b][1..] == [b];
    assert [b][1..] == [];
    var t1 := Put(t, a.key, a.node);
    assert PutAll(t, [a, b]) == PutAll(t1, [b]);
    assert PutAll(t1, [b]) == PutAll(Put(t1, b.key, b.node), []);
  }

  lemma PutAllFour(t: Tree, a: Row, b: Row, c: Row, d: Row)
    ensures PutAll(t, [a, b, c, d]) == Put(Put(Put(Put(t, a.key, a.node), b.key, b.node), c.key, c.node), d.key, d.node)
  {
    assert [a, b, c, d][1..] == [b, c, d];
    assert [b, c, d][1..] == [c, d];
    PutAllTwo(Put(Put(t, a.key, a.node), b.key, b.node), c, d);
  }

  /** The row loops remove no key, and change no node that no row names. */
  lemma {:induction false} PutRowsKeeps<T>(base: Tree, items: seq<T>, rowsOf: T -> seq<Row>, k: string)
    ensures k in base.nodes ==> k in PutRows(base, items, rowsOf).nodes
    ensures MissesKey(items, rowsOf, k) ==> NodeAt(PutRows(base, items, rowsOf), k) == NodeAt(base, k)
    decreases |items|
  {
    if |items| > 0 {
      var n := |items| - 1;
      var front := items[..n];
      PutRowsKeeps(base, front, rowsOf, k);
      PutAllKeeps(PutRows(base, front, rowsOf), rowsOf(items[n]), k);
      if MissesKey(items, rowsOf, k) {
        assert forall i :: 0 <= i < |front| ==> front[i] == items[i];
        assert MissesKey(front, rowsOf, k);
        assert forall j :: 0 <= j < |rowsOf(items[n])| ==> rowsOf(items[n])[j].key != k;
      }
    }
  }

  // Schemas: a schema node and its "Tabelas" group per schema.

  function SchemaKeyFn(sid: int, db: string): Data -> string
  {
    s => SchemaKey(sid, db, s)
  }

  /** The two assignments per schema, in code order. */
  function SchemaRows(sid: int, db: string): Data -> seq<Row>
  {
    s => [Row(SchemaKey(sid, db, s), Node(NameOf(s), [TablesGroupKey(sid, db, s)], SchemaData(sid, s))),
          Row(TablesGroupKey(sid, db, s), Node(VStr(TablesLabel), [], SchemaData(sid, s)))]
  }

  /** The record `getDatabaseSchemas` sets after a non-empty fetch. */
  function SchemasPut(t: Tree, sid: int, db: string, schemas: seq<Data>): Tree
  {
    Attach(PutRows(t, schemas, SchemaRows(sid, db)), DatabaseKey(sid, db), KeysOf(schemas, SchemaKeyFn(sid, db)))
  }

  lemma SchemaRowsApart(sid: int, db: string, schemas: seq<Data>)
    ensures MissesKey(schemas, SchemaRows(sid, db), DatabaseKey(sid, db))
  {
    forall i | 0 <= i < |schemas|
      ensures SchemaKey(sid, db, schemas[i]) != DatabaseKey(sid, db) && TablesGroupKey(sid, db, schemas[i]) != DatabaseKey(sid, db)
    {
      DistinctKindsDistinctKeys([S(SchemaKind), N(sid), S(db), V(NameOf(schemas[i]))], [S(DatabaseKind), N(sid), S(db)]);
      DistinctKindsDistinctKeys([S(SchemaTableKind), N(sid), S(db), V(NameOf(schemas[i]))], [S(DatabaseKind), N(sid), S(db)]);
    }
  }

  /** A present database node keeps its name and data and gets exactly the schema keys, in fetch order. */
  lemma SchemasAttach(t: Tree, sid: int, db: string, schemas: seq<Data>)
    ensures NodeAt(SchemasPut(t, sid, db, schemas), DatabaseKey(sid, db)) ==
      if DatabaseKey(sid, db) in t.nodes then Some(t.nodes[DatabaseKey(sid, db)].(children := KeysOf(schemas, SchemaKeyFn(sid, db))))
      else None
  {
    SchemaRowsApart(sid, db, schemas);
    PutRowsKeeps(t, schemas, SchemaRows(sid, db), DatabaseKey(sid, db));
  }

  // Tables: a table node and its three groups per table.

  function TableKeyFn(sid: int, db: string, schema: string): Data -> string
  {
    rec => TableKeyOf(TableKind, sid, db, schema, rec)
  }

  /** The four assignments per table, in code order. */
  function TableRows(sid: int, db: string, schema: string): Data -> seq<Row>
  {
    rec =>
      var d := TableData(schema, rec);
      var ck := TableKeyOf(TableColumnKind, sid, db, schema, rec);
      var ik := TableKeyOf(TableIndexKind, sid, db, schema, rec);
      var gk := TableKeyOf(TableTriggerKind, sid, db, schema, rec);
      [Row(TableKeyOf(TableKind, sid, db, schema, rec), Node(NameOf(rec), [ck, ik, gk], d)),
       Row(ck, Node(VStr(ColumnsLabel), [], d)),
       Row(ik, Node(VStr(IndexesLabel), [], d)),
       Row(gk, Node(VStr(TriggersLabel), [], d))]
  }

  /** The record `getSchemaTables` sets after a non-empty fetch. */
  function TablesPut(t: Tree, sid: int, db: string, schema: string, tables: seq<Data>): Tree
  {
    Attach(PutRows(t, tables, TableRows(sid, db, schema)), SchemaLevelKey(SchemaTableKind, sid, db, schema),
      KeysOf(tables, TableKeyFn(sid, db, schema)))
  }

  lemma TableRowKeys(sid: int, db: string, schema: string, rec: Data, p: string)
    requires p == SchemaLevelKey(SchemaTableKind, sid, db, schema)
    ensures forall j :: 0 <= j < |TableRows(sid, db, schema)(rec)| ==> TableRows(sid, db, schema)(rec)[j].key != p
  {
    var ps := [S(SchemaTableKind), N(sid), S(db), S(schema)];
    DistinctKindsDistinctKeys([S(TableKind), N(sid), S(db), S(schema), V(NameOf(rec))], ps);
    DistinctKindsDistinctKeys([S(TableColumnKind), N(sid), S(db), S(schema), V(NameOf(rec))], ps);
    DistinctKindsDistinctKeys([S(TableIndexKind), N(sid), S(db), S(schema), V(NameOf(rec))], ps);
    DistinctKindsDistinctKeys([S(TableTriggerKind), N(sid), S(db), S(schema), V(NameOf(rec))], ps);
  }

  lemma TableRowsApart(sid: int, db: string, schema: string, tables: seq<Data>)
    ensures MissesKey(tables, TableRows(sid, db, schema), SchemaLevelKey(SchemaTableKind, sid, db, schema))
  {
    forall i | 0 <= i < |tables| {
      TableRowKeys(sid, db, schema, tables[i], SchemaLevelKey(SchemaTableKind, sid, db, schema));
    }
  }

  /** A present "Tabelas" group keeps its name and data and gets exactly the table keys, in fetch order. */
  lemma TablesAttach(t: Tree, sid: int, db: string, schema: string, tables: seq<Data>)
    ensures var p := SchemaLevelKey(SchemaTableKind, sid, db, schema);
      NodeAt(TablesPut(t, sid, db, schema, tables), p) ==
        if p in t.nodes then Some(t.nodes[p].(children := KeysOf(tables, TableKeyFn(sid, db, schema)))) else None
  {
    TableRowsApart(sid, db, schema, tables);
    PutRowsKeeps(t, tables, TableRows(sid, db, schema), SchemaLevelKey(SchemaTableKind, sid, db, schema));
  }

  // Columns, indexes and triggers: one leaf node per item.

  function LeafKeyFn(kind: string, sid: int, db: string, schema: string, table: string): Data -> string
  {
    rec => LeafKeyOf(kind, sid, db, schema, table, rec)
  }

  /** `{ name: row.name, data: row }`: a leaf has no children. */
  function LeafNode(rec: Data): Node
  {
    Node(NameOf(rec), [], rec)
  }

  /** The record a leaf loader sets after a non-empty fetch: the leaves, then the children of `parentKind`'s key. */
  function LeavesPut(t: Tree, parentKind: string, leafKind: string, sid: int, db: string, schema: string, table: string,
                     items: seq<Data>): Tree
  {
    Attach(PutEach(t, items, LeafKeyFn(leafKind, sid, db, schema, table), LeafNode),
      TableLevelKey(parentKind, sid, db, schema, table), KeysOf(items, LeafKeyFn(leafKind, sid, db, schema, table)))
  }

  function ColumnsLoaded(t: Tree, sid: int, db: string, schema: string, table: string, items: seq<Data>): Tree
  {
    LeavesPut(t, TableColumnKind, ColumnKind, sid, db, schema, table, items)
  }

  function IndexesLoaded(t: Tree, sid: int, db: string, schema: string, table: string, items: seq<Data>): Tree
  {
    LeavesPut(t, TableIndexKind, IndexKind, sid, db, schema, table, items)
  }

  /** The trigger load as written: the trigger keys go under the table's `table_index` group. */
  function TriggersLoadedAsWritten(t: Tree, sid: int, db: string, schema: string, table: string, items: seq<Data>): Tree
  {
    LeavesPut(t, TableIndexKind, TriggerKind, sid, db, schema, table, items)
  }

  /** The trigger load as intended: the trigger keys go under the table's `table_trigger` group. */
  function TriggersLoaded(t: Tree, sid: int, db: string, schema: string, table: string, items: seq<Data>): Tree
  {
    LeavesPut(t, TableTriggerKind, TriggerKind, sid, db, schema, table, items)
  }

  /** Keys of different kinds at the table level never meet a leaf key. */
  lemma LeafKeysApart(kind: string, leafKind: string, sid: int, db: string, schema: string, table: string, items: seq<Data>)
    requires IsKindName(kind) && IsKindName(leafKind) && kind != leafKind
    ensures TableLevelKey(kind, sid, db, schema, table) !in KeysOf(items, LeafKeyFn(leafKind, sid, db, schema, table))
  {
    forall i | 0 <= i < |items|
      ensures KeysOf(items, LeafKeyFn(leafKind, sid, db, schema, table))[i] != TableLevelKey(kind, sid, db, schema, table)
    {
      DistinctKindsDistinctKeys([S(leafKind), N(sid), S(db), S(schema), S(table), V(NameOf(items[i]))],
        [S(kind), N(sid), S(db), S(schema), S(table)]);
    }
  }

  /**
   * A leaf load gives a present parent exactly the leaf keys in fetch order,
   * writes each leaf whole, and leaves every other key alone.
   */
  lemma LeavesAttach(t: Tree, parentKind: string, leafKind: string, sid: int, db: string, schema: string, table: string,
                     items: seq<Data>)
    requires IsKindName(parentKind) && IsKindName(leafKind) && parentKind != leafKind
    ensures var p := TableLevelKey(parentKind, sid, db, schema, table);
      NodeAt(LeavesPut(t, parentKind, leafKind, sid, db, schema, table, items), p) ==
        if p in t.nodes then Some(t.nodes[p].(children := KeysOf(items, LeafKeyFn(leafKind, sid, db, schema, table)))) else None
    ensures forall i :: 0 <= i < |items| && LastOfKey(items, LeafKeyFn(leafKind, sid, db, schema, table), i) ==>
      NodeAt(LeavesPut(t, parentKind, leafKind, sid, db, schema, table, items), LeafKeyOf(leafKind, sid, db, schema, table, items[i])) ==
        Some(LeafNode(items[i]))
  {
    var p := TableLevelKey(parentKind, sid, db, schema, table);
    var keyOf := LeafKeyFn(leafKind, sid, db, schema, table);
    LeafKeysApart(parentKind, leafKind, sid, db, schema, table, items);
    PutEachOthers(t, items, keyOf, LeafNode, p);
    LeavesWritten(t, parentKind, leafKind, sid, db, schema, table, items);
  }

  /** Each leaf a load writes last under its key is the whole leaf record. */
  lemma LeavesWritten(t: Tree, parentKind: string, leafKind: string, sid: int, db: string, schema: string, table: string,
                      items: seq<Data>)
    requires IsKindName(parentKind) && IsKindName(leafKind) && parentKind != leafKind
    ensures forall i :: 0 <= i < |items| && LastOfKey(items, LeafKeyFn(leafKind, sid, db, schema, table), i) ==>
      NodeAt(LeavesPut(t, parentKind, leafKind, sid, db, schema, table, items), LeafKeyOf(leafKind, sid, db, schema, table, items[i])) ==
        Some(LeafNode(items[i]))
  {
    var keyOf := LeafKeyFn(leafKind, sid, db, schema, table);
    LeafKeysApart(parentKind, leafKind, sid, db, schema, table, items);
    forall i | 0 <= i < |items| && LastOfKey(items, keyOf, i)
      ensures NodeAt(LeavesPut(t, parentKind, leafKind, sid, db, schema, table, items), keyOf(items[i])) == Some(LeafNode(items[i]))
    {
      PutEachLastWins(t, items, keyOf, LeafNode, i);
    }
  }

  /** A leaf load changes no key outside its leaves and its parent. */
  lemma LeavesOthers(t: Tree, parentKind: string, leafKind: string, sid: int, db: string, schema: string, table: string,
                     items: seq<Data>, k: string)
    requires k != TableLevelKey(parentKind, sid, db, schema, table)
    requires k !in KeysOf(items, LeafKeyFn(leafKind, sid, db, schema, table))
    ensures NodeAt(LeavesPut(t, parentKind, leafKind, sid, db, schema, table, items), k) == NodeAt(t, k)
  {
    PutEachOthers(t, items, LeafKeyFn(leafKind, sid, db, schema, table), LeafNode, k);
  }

  /**
   * The defect: loading indexes and then triggers leaves the index group with
   * the trigger keys as children, never the index keys, and the trigger group
   * untouched.
   */
  lemma TriggersOverwriteIndexes(t: Tree, sid: int, db: string, schema: string, table: string, idxs: seq<Data>, trgs: seq<Data>)
    requires TableLevelKey(TableIndexKind, sid, db, schema, table) in t.nodes && |trgs| > 0
    ensures var ip := TableLevelKey(TableIndexKind, sid, db, schema, table);
      var gp := TableLevelKey(TableTriggerKind, sid, db, schema, table);
      var r := TriggersLoadedAsWritten(IndexesLoaded(t, sid, db, schema, table, idxs), sid, db, schema, table, trgs);
      && NodeAt(r, ip) == Some(t.nodes[ip].(children := KeysOf(trgs, LeafKeyFn(TriggerKind, sid, db, schema, table))))
      && KeysOf(trgs, LeafKeyFn(TriggerKind, sid, db, schema, table)) != KeysOf(idxs, LeafKeyFn(IndexKind, sid, db, schema, table))
      && NodeAt(r, gp) == NodeAt(t, gp)
  {
    var ip := TableLevelKey(TableIndexKind, sid, db, schema, table);
    var gp := TableLevelKey(TableTriggerKind, sid, db, schema, table);
    var t1 := IndexesLoaded(t, sid, db, schema, table, idxs);
    LeavesAttach(t, TableIndexKind, IndexKind, sid, db, schema, table, idxs);
    LeavesAttach(t1, TableIndexKind, TriggerKind, sid, db, schema, table, trgs);
    DistinctKindsDistinctKeys([S(TableTriggerKind), N(sid), S(db), S(schema), S(table)], [S(TableIndexKind), N(sid), S(db), S(schema), S(table)]);
    LeafKeysApart(TableTriggerKind, IndexKind, sid, db, schema, table, idxs);
    LeafKeysApart(TableTriggerKind, TriggerKind, sid, db, schema, table, trgs);
    LeavesOthers(t, TableIndexKind, IndexKind, sid, db, schema, table, idxs, gp);
    LeavesOthers(t1, TableIndexKind, TriggerKind, sid, db, schema, table, trgs, gp);
    if |idxs| > 0 {
      DistinctKindsDistinctKeys([S(TriggerKind), N(sid), S(db), S(schema), S(table), V(NameOf(trgs[0]))],
        [S(IndexKind), N(sid), S(db), S(schema), S(table), V(NameOf(idxs[0]))]);
      assert KeysOf(trgs, LeafKeyFn(TriggerKind, sid, db, schema, table))[0] != KeysOf(idxs, LeafKeyFn(IndexKind, sid, db, schema, table))[0];
    }
  }

  /** With the intended parent, an index load and a later trigger load each keep their own group. */
  lemma TriggersKeepIndexes(t: Tree, sid: int, db: string, schema: string, table: string, idxs: seq<Data>, trgs: seq<Data>)
    ensures var ip := TableLevelKey(TableIndexKind, sid, db, schema, table);
      var gp := TableLevelKey(TableTriggerKind, sid, db, schema, table);
      var r := TriggersLoaded(IndexesLoaded(t, sid, db, schema, table, idxs), sid, db, schema, table, trgs);
      && NodeAt(r, ip) == (if ip in t.nodes then Some(t.nodes[ip].(children := KeysOf(idxs, LeafKeyFn(IndexKind, sid, db, schema, table)))) else None)
      && NodeAt(r, gp) == (if gp in t.nodes then Some(t.nodes[gp].(children := KeysOf(trgs, LeafKeyFn(TriggerKind, sid, db, schema, table)))) else None)
  {
    var ip := TableLevelKey(TableIndexKind, sid, db, schema, table);
    var gp := TableLevelKey(TableTriggerKind, sid, db, schema, table);
    var t1 := IndexesLoaded(t, sid, db, schema, table, idxs);
    LeavesAttach(t, TableIndexKind, IndexKind, sid, db, schema, table, idxs);
    LeavesAttach(t1, TableTriggerKind, TriggerKind, sid, db, schema, table, trgs);
    DistinctKindsDistinctKeys([S(TableTriggerKind), N(sid), S(db), S(schema), S(table)], [S(TableIndexKind), N(sid), S(db), S(schema), S(table)]);
    LeafKeysApart(TableIndexKind, TriggerKind, sid, db, schema, table, trgs);
    LeafKeysApart(TableTriggerKind, IndexKind, sid, db, schema, table, idxs);
    LeavesOthers(t1, TableTriggerKind, TriggerKind, sid, db, schema, table, trgs, ip);
    LeavesOthers(t, TableIndexKind, IndexKind, sid, db, schema, table, idxs, gp);
  }

  // The notices of the inline loaders that differ from the newer hooks' texts.
  const LegacyTablesEmpty := "Nenhuma tabela encontrada para este schema."
  function LegacyIndexesSuccess(table: string): string { "Índices da tabela \"" + table + "\" carregados com sucesso!" }

  /** What a loader gives back: the items, `[]` when there were none, nothing when the fetch failed. */
  function LoadResult(fetched: Outcome<seq<Data>>): (r: Option<seq<Data>>)
  {
    if fetched.Ok? then Some(fetched.value) else None
  }

  class LegacyServerData {
    var servers: Tree
    var isLoading: bool
    var isConnecting: bool
    var error: Option<string>
    const toasts: Toaster

    /** Both busy flags are down, as every action leaves them. */
    predicate Quiet()
      reads this
    {
      !isLoading && !isConnecting
    }

    constructor (toasts: Toaster)
      ensures servers == Empty && Quiet() && error == None && this.toasts == toasts
    {
      servers := Empty;
      isLoading := false;
      isConnecting := false;
      error := None;
      this.toasts := toasts;
    }

    /** `initLoadingState`: both flags and the error slot cleared. */
    method InitLoadingState()
      modifies this
      ensures Quiet() && error == None && servers == old(servers)
    {
      isLoading := false;
      isConnecting := false;
      error := None;
    }

    /** `handleError`: the message in the error slot and in an error notice. */
    method HandleError(e: Thrown)
      modifies this, toasts
      ensures error == Some(Message(e))
      ensures toasts.log == old(toasts.log) + [Notice(ErrorToast, Message(e))]
      ensures servers == old(servers) && isLoading == old(isLoading) && isConnecting == old(isConnecting)
    {
      error := Some(Message(e));
      toasts.Error(Message(e));
    }

    /** `updateServerInTree`, on a copy of the record. */
    method UpdateServerInTree(sid: Value, data: Data, remove: bool)
      modifies this
      ensures servers == InTree(old(servers), sid, data, remove)
      ensures isLoading == old(isLoading) && isConnecting == old(isConnecting) && error == old(error)
    {
      var updated := servers;
      var serverKey := ServerKeyFor(sid);
      if remove && serverKey !in updated.nodes {
        servers := updated;
        return;
      }
      if remove && serverKey in updated.nodes {
        updated := Delete(updated, serverKey);
        servers := updated;
        return;
      }
      ghost var orig := updated;
      if serverKey !in updated.nodes {
        updated := Put(updated, serverKey, Node(Get(data, "name"), [], data));
        assert data + data == data;
      }
      if serverKey in updated.nodes {
        ghost var copy := updated;
        var n := updated.nodes[serverKey];
        updated := Put(updated, serverKey, n.(name := Or(Get(data, "name"), n.name)));
        PutTwice(copy, serverKey, n, updated.nodes[serverKey]);
        ghost var named := updated.nodes[serverKey];
        n := updated.nodes[serverKey];
        updated := Put(updated, serverKey, n.(data := n.data + data));
        PutTwice(copy, serverKey, named, updated.nodes[serverKey]);
      }
      if serverKey !in orig.nodes {
        PutTwice(orig, serverKey, Node(Get(data, "name"), [], data), updated.nodes[serverKey]);
      }
      servers := updated;
    }

    /** `fetchServers`: a failure only sets the error slot, with no notice. */
    method FetchServers(fetched: Outcome<seq<Data>>)
      modifies this
      ensures servers == if fetched.Ok? then ServerNodes(fetched.value) else old(servers)
      ensures error == if fetched.Err? then Some(Message(fetched.error)) else None
      ensures toasts.log == old(toasts.log)
      ensures Quiet()
    {
      InitLoadingState();
      match fetched {
        case Ok(list) =>
          var tree, _ := PutEachCollecting(Empty, list, SrvKeyOf, ServerNode);
          servers := tree;
        case Err(e) =>
          error := Some(Message(e));
      }
      isLoading := false;
    }

    method AddServer(created: Outcome<Data>) returns (r: Option<Data>)
      modifies this, toasts
      ensures servers == if created.Ok? then InTree(old(servers), Get(created.value, "id"), created.value, false) else old(servers)
      ensures toasts.log == old(toasts.log) +
        if created.Ok? then [Notice(SuccessToast, AddedMsg(Get(created.value, "name")))] else [Notice(ErrorToast, Message(created.error))]
      ensures error == if created.Err? then Some(Message(created.error)) else None
      ensures r == if created.Ok? then Some(created.value) else None
      ensures Quiet()
    {
      InitLoadingState();
      match created {
        case Ok(srv) =>
          UpdateServerInTree(Get(srv, "id"), srv, false);
          toasts.Success(AddedMsg(Get(srv, "name")));
          r := Some(srv);
        case Err(e) =>
          HandleError(e);
          r := None;
      }
      isLoading := false;
    }

    method GetServer(id: int, fetched: Outcome<Data>) returns (r: Option<Data>)
      modifies this, toasts
      ensures servers == old(servers)
      ensures toasts.log == old(toasts.log) + if fetched.Ok? then [] else [Notice(ErrorToast, Message(fetched.error))]
      ensures error == if fetched.Err? then Some(Message(fetched.error)) else None
      ensures r == if fetched.Ok? then Some(fetched.value) else None
      ensures Quiet()
    {
      InitLoadingState();
      match fetched {
        case Ok(srv) =>
          r := Some(srv);
        case Err(e) =>
          HandleError(e);
          r := None;
      }
      isLoading := false;
    }

    /** `editServer`: the server is found by the id the caller passed, not the record's. */
    method EditServer(id: int, updated: Outcome<Data>) returns (r: Option<Data>)
      modifies this, toasts
      ensures servers == if updated.Ok? then InTree(old(servers), VNum(id), updated.value, false) else old(servers)
      ensures toasts.log == old(toasts.log) +
        if updated.Ok? then [Notice(SuccessToast, UpdatedMsg(Get(updated.value, "name")))] else [Notice(ErrorToast, Message(updated.error))]
      ensures error == if updated.Err? then Some(Message(updated.error)) else None
      ensures r == if updated.Ok? then Some(updated.value) else None
      ensures Quiet()
    {
      InitLoadingState();
      match updated {
        case Ok(srv) =>
          UpdateServerInTree(VNum(id), srv, false);
          toasts.Success(UpdatedMsg(Get(srv, "name")));
          r := Some(srv);
        case Err(e) =>
          HandleError(e);
          r := None;
      }
      isLoading := false;
    }

    /** `removeServer`: deletes the server key alone once the delete call resolved. */
    method RemoveServer(id: int, deleted: Outcome<()>)
      modifies this, toasts
      ensures servers == if deleted.Ok? then InTree(old(servers), VNum(id), map[], true) else old(servers)
      ensures toasts.log == old(toasts.log) +
        if deleted.Ok? then [Notice(SuccessToast, RemovedMsg)] else [Notice(ErrorToast, Message(deleted.error))]
      ensures error == if deleted.Err? then Some(Message(deleted.error)) else None
      ensures Quiet()
    {
      InitLoadingState();
      match deleted {
        case Ok(_) =>
          UpdateServerInTree(VNum(id), map[], true);
          toasts.Success(RemovedMsg);
        case Err(e) =>
          HandleError(e);
      }
      isLoading := false;
    }

    /**
     * `connectToServer`: an already connected server returns true and nothing
     * changes; otherwise the connect result is merged into the server node and,
     * when databases come back, their nodes are written and listed under the
     * server. A failed database fetch still returns the connect result.
     */
    method ConnectToServer(server: Data, connected: Outcome<bool>, fetched: Outcome<seq<Data>>) returns (r: Option<bool>)
      modifies this, toasts
      ensures Truthy(Get(server, "isConnected")) ==>
        && r == Some(true) && servers == old(servers) && error == old(error)
        && isLoading == old(isLoading) && isConnecting == old(isConnecting) && toasts.log == old(toasts.log)
      ensures !Truthy(Get(server, "isConnected")) ==>
        && servers == LegacyConnected(old(servers), server, connected, fetched)
        && toasts.log == old(toasts.log) + LegacyConnectNotices(server, connected, fetched)
        && error == LegacyConnectError(connected, fetched)
        && r == (if connected.Ok? then Some(connected.value) else None)
        && Quiet()
    {
      if Truthy(Get(server, "isConnected")) {
        return Some(true);
      }
      InitLoadingState();
      r := ConnectAndLoad(server, connected, fetched);
      isConnecting := false;
    }

    /** The `try` of `connectToServer`, with the database fetch nested in it. */
    method ConnectAndLoad(server: Data, connected: Outcome<bool>, fetched: Outcome<seq<Data>>) returns (r: Option<bool>)
      requires error == None
      modifies this, toasts
      ensures servers == LegacyConnected(old(servers), server, connected, fetched)
      ensures toasts.log == old(toasts.log) + LegacyConnectNotices(server, connected, fetched)
      ensures error == LegacyConnectError(connected, fetched)
      ensures r == (if connected.Ok? then Some(connected.value) else None)
      ensures isLoading == old(isLoading) && isConnecting == old(isConnecting)
    {
      var sid := Get(server, "id");
      match connected {
        case Err(e) =>
          HandleError(e);
          r := None;
        case Ok(h) =>
          MarkAndLoad(server, sid, h, fetched);
          r := Some(h);
      }
    }

    /** The `try` of `connectToServer` once the backend has answered: the marks, the notice and the database fetch. */
    method MarkAndLoad(server: Data, sid: Value, h: bool, fetched: Outcome<seq<Data>>)
      modifies this, toasts
      ensures servers ==
        var marked := InTree(old(servers), sid, Marks(server, h), false);
        if fetched.Ok? && |fetched.value| > 0 then DatabasesPut(marked, sid, fetched.value) else marked
      ensures toasts.log == old(toasts.log) + [Notice(SuccessToast, ConnectedMsg(Get(server, "name")))] +
        match fetched
        case Err(e) => [Notice(ErrorToast, Message(e))]
        case Ok(dbs) => if |dbs| == 0 then [] else [Notice(SuccessToast, DatabasesSuccess(Get(server, "name")))]
      ensures error == if fetched.Err? then Some(Message(fetched.error)) else old(error)
      ensures isLoading == old(isLoading) && isConnecting == old(isConnecting)
    {
      UpdateServerInTree(sid, Marks(server, h), false);
      toasts.Success(ConnectedMsg(Get(server, "name")));
      LoadDatabases(server, sid, fetched);
    }

    /** The inner `try` of `connectToServer`: the database fetch and the nodes it writes. */
    method LoadDatabases(server: Data, sid: Value, fetched: Outcome<seq<Data>>)
      modifies this, toasts
      ensures servers == if fetched.Ok? && |fetched.value| > 0 then DatabasesPut(old(servers), sid, fetched.value) else old(servers)
      ensures toasts.log == old(toasts.log) +
        match fetched
        case Err(e) => [Notice(ErrorToast, Message(e))]
        case Ok(dbs) => if |dbs| == 0 then [] else [Notice(SuccessToast, DatabasesSuccess(Get(server, "name")))]
      ensures error == if fetched.Err? then Some(Message(fetched.error)) else old(error)
      ensures isLoading == old(isLoading) && isConnecting == old(isConnecting)
    {
      match fetched {
        case Err(e) =>
          HandleError(e);
        case Ok(dbs) =>
          if |dbs| > 0 {
            var next, dbKeys := PutEachCollecting(servers, dbs, DbKeyFn(sid), DbNodeFn(sid));
            servers := Attach(next, ServerKeyFor(sid), dbKeys);
            toasts.Success(DatabasesSuccess(Get(server, "name")));
          }
      }
    }

    /** The two assignments per schema, pushing each schema key. */
    static method SchemaLoop(base: Tree, sid: int, db: string, schemas: seq<Data>) returns (next: Tree, keys: seq<string>)
      ensures next == PutRows(base, schemas, SchemaRows(sid, db))
      ensures keys == KeysOf(schemas, SchemaKeyFn(sid, db))
    {
      next := base;
      keys := [];
      var i := 0;
      while i < |schemas|
        invariant 0 <= i <= |schemas|
        invariant next == PutRows(base, schemas[..i], SchemaRows(sid, db))
        invariant keys == KeysOf(schemas[..i], SchemaKeyFn(sid, db))
      {
        var s := schemas[i];
        assert schemas[..i + 1][..i] == schemas[..i];
        ghost var before := next;
        var schemaKey := SchemaKey(sid, db, s);
        var schemaTablesKey := TablesGroupKey(sid, db, s);
        keys := keys + [schemaKey];
        var schemaNode := Node(NameOf(s), [schemaTablesKey], SchemaData(sid, s));
        var tablesNode := Node(VStr(TablesLabel), [], SchemaData(sid, s));
        next := Put(next, schemaKey, schemaNode);
        next := Put(next, schemaTablesKey, tablesNode);
        PutAllTwo(before, Row(schemaKey, schemaNode), Row(schemaTablesKey, tablesNode));
        i := i + 1;
      }
      assert schemas[..i] == schemas;
    }

    /** `getDatabaseSchemas`: an empty result returns `[]` and leaves the database's children as they were. */
    method GetDatabaseSchemas(sid: int, db: string, fetched: Outcome<seq<Data>>) returns (r: Option<seq<Data>>)
      modifies this, toasts
      ensures servers == if fetched.Ok? && |fetched.value| > 0 then SchemasPut(old(servers), sid, db, fetched.value) else old(servers)
      ensures toasts.log == old(toasts.log) + LoadNotices(fetched, SchemasEmpty, SchemasSuccess(db))
      ensures error == if fetched.Err? then Some(Message(fetched.error)) else None
      ensures r == LoadResult(fetched)
      ensures Quiet()
    {
      InitLoadingState();
      match fetched {
        case Err(e) =>
          HandleError(e);
          r := None;
        case Ok(schemas) =>
          if |schemas| == 0 {
            toasts.Error(SchemasEmpty);
          } else {
            var next, schemaKeys := SchemaLoop(servers, sid, db, schemas);
            servers := Attach(next, DatabaseKey(sid, db), schemaKeys);
            toasts.Success(SchemasSuccess(db));
          }
          r := Some(schemas);
      }
      isLoading := false;
    }

    /** The four assignments per table, pushing each table key. */
    static method TableLoop(base: Tree, sid: int, db: string, schema: string, tables: seq<Data>) returns (next: Tree, keys: seq<string>)
      ensures next == PutRows(base, tables, TableRows(sid, db, schema))
      ensures keys == KeysOf(tables, TableKeyFn(sid, db, schema))
    {
      next := base;
      keys := [];
      var i := 0;
      while i < |tables|
        invariant 0 <= i <= |tables|
        invariant next == PutRows(base, tables[..i], TableRows(sid, db, schema))
        invariant keys == KeysOf(tables[..i], TableKeyFn(sid, db, schema))
      {
        var tbl := tables[i];
        assert tables[..i + 1][..i] == tables[..i];
        ghost var before := next;
        var d := TableData(schema, tbl);
        var tblKey := TableKeyOf(TableKind, sid, db, schema, tbl);
        var tblColumnsKey := TableKeyOf(TableColumnKind, sid, db, schema, tbl);
        var tblIndexesKey := TableKeyOf(TableIndexKind, sid, db, schema, tbl);
        var tblTriggersKey := TableKeyOf(TableTriggerKind, sid, db, schema, tbl);
        keys := keys + [tblKey];
        var tblNode := Node(NameOf(tbl), [tblColumnsKey, tblIndexesKey, tblTriggersKey], d);
        next := Put(next, tblKey, tblNode);
        next := Put(next, tblColumnsKey, Node(VStr(ColumnsLabel), [], d));
        next := Put(next, tblIndexesKey, Node(VStr(IndexesLabel), [], d));
        next := Put(next, tblTriggersKey, Node(VStr(TriggersLabel), [], d));
        PutAllFour(before, Row(tblKey, tblNode), Row(tblColumnsKey, Node(VStr(ColumnsLabel), [], d)),
          Row(tblIndexesKey, Node(VStr(IndexesLabel), [], d)), Row(tblTriggersKey, Node(VStr(TriggersLabel), [], d)));
        i := i + 1;
      }
      assert tables[..i] == tables;
    }

    /** `getSchemaTables`: the tables go under the schema's "Tabelas" group. */
    method GetSchemaTables(sid: int, schema: string, db: string, fetched: Outcome<seq<Data>>) returns (r: Option<seq<Data>>)
      modifies this, toasts
      ensures servers == if fetched.Ok? && |fetched.value| > 0 then TablesPut(old(servers), sid, db, schema, fetched.value) else old(servers)
      ensures toasts.log == old(toasts.log) + LoadNotices(fetched, LegacyTablesEmpty, TablesSuccess(schema))
      ensures error == if fetched.Err? then Some(Message(fetched.error)) else None
      ensures r == LoadResult(fetched)
      ensures Quiet()
    {
      InitLoadingState();
      match fetched {
        case Err(e) =>
          HandleError(e);
          r := None;
        case Ok(tables) =>
          if |tables| == 0 {
            toasts.Error(LegacyTablesEmpty);
          } else {
            var next, tableKeys := TableLoop(servers, sid, db, schema, tables);
            servers := Attach(next, SchemaLevelKey(SchemaTableKind, sid, db, schema), tableKeys);
            toasts.Success(TablesSuccess(schema));
          }
          r := Some(tables);
      }
      isLoading := false;
    }

    /** The body shared by the three leaf loaders. */
    method LoadLeaves(parentKind: string, leafKind: string, sid: int, db: string, schema: string, table: string,
                      fetched: Outcome<seq<Data>>, emptyMsg: string, successMsg: string) returns (r: Option<seq<Data>>)
      modifies this, toasts
      ensures servers == if fetched.Ok? && |fetched.value| > 0 then LeavesPut(old(servers), parentKind, leafKind, sid, db, schema, table, fetched.value) else old(servers)
      ensures toasts.log == old(toasts.log) + LoadNotices(fetched, emptyMsg, successMsg)
      ensures error == if fetched.Err? then Some(Message(fetched.error)) else None
      ensures r == LoadResult(fetched)
      ensures Quiet()
    {
      InitLoadingState();
      match fetched {
        case Err(e) =>
          HandleError(e);
          r := None;
        case Ok(items) =>
          if |items| == 0 {
            toasts.Error(emptyMsg);
          } else {
            var next, leafKeys := PutEachCollecting(servers, items, LeafKeyFn(leafKind, sid, db, schema, table), LeafNode);
            servers := Attach(next, TableLevelKey(parentKind, sid, db, schema, table), leafKeys);
            toasts.Success(successMsg);
          }
          r := Some(items);
      }
      isLoading := false;
    }

    method GetTableColumns(sid: int, schema: string, table: string, db: string, fetched: Outcome<seq<Data>>) returns (r: Option<seq<Data>>)
      modifies this, toasts
      ensures servers == if fetched.Ok? && |fetched.value| > 0 then ColumnsLoaded(old(servers), sid, db, schema, table, fetched.value) else old(servers)
      ensures toasts.log == old(toasts.log) + LoadNotices(fetched, ColumnsEmpty, ColumnsSuccess(table))
      ensures error == if fetched.Err? then Some(Message(fetched.error)) else None
      ensures r == LoadResult(fetched)
      ensures Quiet()
    {
      r := LoadLeaves(TableColumnKind, ColumnKind, sid, db, schema, table, fetched, ColumnsEmpty, ColumnsSuccess(table));
    }

    method GetTableIndexes(sid: int, schema: string, table: string, db: string, fetched: Outcome<seq<Data>>) returns (r: Option<seq<Data>>)
      modifies this, toasts
      ensures servers == if fetched.Ok? && |fetched.value| > 0 then IndexesLoaded(old(servers), sid, db, schema, table, fetched.value) else old(servers)
      ensures toasts.log == old(toasts.log) + LoadNotices(fetched, IndexesEmpty, LegacyIndexesSuccess(table))
      ensures error == if fetched.Err? then Some(Message(fetched.error)) else None
      ensures r == LoadResult(fetched)
      ensures Quiet()
    {
      r := LoadLeaves(TableIndexKind, IndexKind, sid, db, schema, table, fetched, IndexesEmpty, LegacyIndexesSuccess(table));
    }

    /** `getTableTriggers` as written: the trigger keys go under the table's `table_index` group. */
    method GetTableTriggers(sid: int, schema: string, table: string, db: string, fetched: Outcome<seq<Data>>) returns (r: Option<seq<Data>>)
      modifies this, toasts
      ensures servers == if fetched.Ok? && |fetched.value| > 0 then TriggersLoadedAsWritten(old(servers), sid, db, schema, table, fetched.value) else old(servers)
      ensures toasts.log == old(toasts.log) + LoadNotices(fetched, TriggersEmpty, TriggersSuccess(table))
      ensures error == if fetched.Err? then Some(Message(fetched.error)) else None
      ensures r == LoadResult(fetched)
      ensures Quiet()
    {
      r := LoadLeaves(TableIndexKind, TriggerKind, sid, db, schema, table, fetched, TriggersEmpty, TriggersSuccess(table));
    }
  }
}
