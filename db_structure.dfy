/**
 * `useDbStructure` of `use-db-structure.ts`: the loaders below a database node.
 * Schemas hang under `database::<id>::<db>`, each with a "Tabelas" group; tables
 * hang under that group, each with "Colunas", "Índices" and "Triggers" groups;
 * columns, indexes and triggers hang under those. Every loader is one
 * `loadChildren` over the hook's own runner and the shared tree.
 */
module DbStructure {
  import opened Values
  import opened Outcomes
  import opened Toasts
  import opened AsyncRunner
  import opened Keys
  import opened ServerTree
  import opened LoadChildren

  /** A fetched record's `name` (`undefined` when it has none). */
  function NameOf(rec: Data): Value
  {
    Get(rec, "name")
  }

  // The keys the mappers build from a record's name.

  /** `key("schema", serverId, databaseName, schema.name)` */
  function SchemaKey(sid: int, db: string, rec: Data): string
  {
    Key([S(SchemaKind), N(sid), S(db), V(NameOf(rec))])
  }

  /** `key("schema_table", serverId, databaseName, schema.name)`: the schema's "Tabelas" group. */
  function TablesGroupKey(sid: int, db: string, rec: Data): string
  {
    Key([S(SchemaTableKind), N(sid), S(db), V(NameOf(rec))])
  }

  /** `key(kind, serverId, databaseName, schemaName, tbl.name)`: a table or one of its groups. */
  function TableKeyOf(kind: string, sid: int, db: string, schema: string, rec: Data): string
  {
    Key([S(kind), N(sid), S(db), S(schema), V(NameOf(rec))])
  }

  /** `key(kind, serverId, databaseName, schemaName, tableName, row.name)`: a column, index or trigger. */
  function LeafKeyOf(kind: string, sid: int, db: string, schema: string, table: string, rec: Data): string
  {
    Key([S(kind), N(sid), S(db), S(schema), S(table), V(NameOf(rec))])
  }

  /** `{ ...schema, server_id: serverId }` */
  function SchemaData(sid: int, rec: Data): Data
  {
    rec + map["server_id" := VNum(sid)]
  }

  /** `{ ...tbl, schema: schemaName }` */
  function TableData(schema: string, rec: Data): Data
  {
    rec + map["schema" := VStr(schema)]
  }

  const TablesLabel := "Tabelas"
  const ColumnsLabel := "Colunas"
  const IndexesLabel := "Índices"
  const TriggersLabel := "Triggers"

  /** The kinds of a table's three group nodes. */
  /** The name the table mapper gives a group of each kind. */
  function GroupLabel(kind: string): string
  {
    if kind == TableColumnKind then ColumnsLabel
    else if kind == TableIndexKind then IndexesLabel
    else TriggersLabel
  }

  /** The schema mapper: upserts the "Tabelas" group, then returns the schema itself. */
  function SchemaMapped(sid: int, db: string, rec: Data): Mapped
  {
    Mapped(
      [UpsertOp(TablesGroupKey(sid, db, rec), VStr(TablesLabel), SchemaData(sid, rec))],
      SchemaKey(sid, db, rec), NameOf(rec), SchemaData(sid, rec))
  }

  function SchemaMapper(sid: int, db: string): Data -> Mapped
  {
    (rec: Data) => SchemaMapped(sid, db, rec)
  }

  /**
   * The table mapper: upserts the table and its three groups, gives the table
   * the groups as children, then returns the table.
   */
  function TableMapped(sid: int, db: string, schema: string, rec: Data): Mapped
  {
    var d := TableData(schema, rec);
    var tk := TableKeyOf(TableKind, sid, db, schema, rec);
    var ck := TableKeyOf(TableColumnKind, sid, db, schema, rec);
    var ik := TableKeyOf(TableIndexKind, sid, db, schema, rec);
    var gk := TableKeyOf(TableTriggerKind, sid, db, schema, rec);
    Mapped(
      [UpsertOp(tk, NameOf(rec), d), UpsertOp(ck, VStr(ColumnsLabel), d), UpsertOp(ik, VStr(IndexesLabel), d),
       UpsertOp(gk, VStr(TriggersLabel), d), SetChildrenOp(tk, [ck, ik, gk])],
      tk, NameOf(rec), d)
  }

  function TableMapper(sid: int, db: string, schema: string): Data -> Mapped
  {
    (rec: Data) => TableMapped(sid, db, schema, rec)
  }

  /** The column, index and trigger mappers: the record itself under its leaf key, no effects. */
  function LeafMapper(kind: string, sid: int, db: string, schema: string, table: string): Data -> Mapped
  {
    (rec: Data) => Mapped([], LeafKeyOf(kind, sid, db, schema, table, rec), NameOf(rec), rec)
  }

  /** One step of the `setServers` after the schema load: the schema node, if there, gets its group as only child. */
  function LinkOp(sid: int, db: string, rec: Data): TreeOp
  {
    SetChildrenOp(SchemaKey(sid, db, rec), [TablesGroupKey(sid, db, rec)])
  }

  /** The whole `setServers` after the schema load, one step per schema in fetch order. */
  function LinkOps(sid: int, db: string, schemas: seq<Data>): (r: seq<TreeOp>)
    ensures |r| == |schemas|
    ensures forall j :: 0 <= j < |schemas| ==> r[j] == LinkOp(sid, db, schemas[j])
    decreases |schemas|
  {
    if |schemas| == 0 then []
    else LinkOps(sid, db, schemas[..|schemas| - 1]) + [LinkOp(sid, db, schemas[|schemas| - 1])]
  }

  /** The record `getDatabaseSchemas` leaves: the load, then the links when the load resolved. */
  function SchemasLoaded(t: Tree, sid: int, db: string, fetched: Outcome<seq<Data>>): Tree
  {
    var loaded := Loaded(t, DatabaseKey(sid, db), fetched, SchemaMapper(sid, db));
    match fetched
    case Err(_) => loaded
    case Ok(schemas) => ApplyOps(loaded, LinkOps(sid, db, schemas))
  }

  /** Every store update of `getDatabaseSchemas` on a resolved fetch. */
  function SchemaUpdates(sid: int, db: string, schemas: seq<Data>): seq<TreeOp>
  {
    Updates(DatabaseKey(sid, db), Ok(schemas), SchemaMapper(sid, db)) + LinkOps(sid, db, schemas)
  }

  // The notices of each loader.
  const SchemasEmpty := "Nenhum schema encontrado para este servidor."
  function SchemasSuccess(db: string): string { "Schemas do database \"" + db + "\" carregados com sucesso!" }
  function TablesEmpty(schema: string): string { "Nenhuma tabela encontrada para o schema \"" + schema + "\"." }
  function TablesSuccess(schema: string): string { "Tabelas do schema \"" + schema + "\" carregadas com sucesso!" }
  const ColumnsEmpty := "Nenhuma coluna encontrada para esta tabela."
  function ColumnsSuccess(table: string): string { "Colunas da tabela \"" + table + "\" carregadas com sucesso!" }
  const IndexesEmpty := "Nenhum índice encontrado para esta tabela."
  function IndexesSuccess(table: string): string { "Índices da tabela \"" + table + "\" carregadas com sucesso!" }
  const TriggersEmpty := "Nenhum gatilho encontrado para esta tabela."
  function TriggersSuccess(table: string): string { "Gatilhos da tabela \"" + table + "\" carregados com sucesso!" }

  // Key facts.

  lemma SchemaKeyParts(sid: int, db: string, a: Data, b: Data)
    ensures SchemaKey(sid, db, a) == SchemaKey(sid, db, b) <==> JoinText(NameOf(a)) == JoinText(NameOf(b))
    ensures TablesGroupKey(sid, db, a) == TablesGroupKey(sid, db, b) <==> JoinText(NameOf(a)) == JoinText(NameOf(b))
  {
    assert [S(SchemaKind), N(sid), S(db), V(NameOf(a))] == [S(SchemaKind), N(sid), S(db)] + [V(NameOf(a))];
    assert [S(SchemaKind), N(sid), S(db), V(NameOf(b))] == [S(SchemaKind), N(sid), S(db)] + [V(NameOf(b))];
    KeyLastPart([S(SchemaKind), N(sid), S(db)], V(NameOf(a)), V(NameOf(b)));
    assert [S(SchemaTableKind), N(sid), S(db), V(NameOf(a))] == [S(SchemaTableKind), N(sid), S(db)] + [V(NameOf(a))];
    assert [S(SchemaTableKind), N(sid), S(db), V(NameOf(b))] == [S(SchemaTableKind), N(sid), S(db)] + [V(NameOf(b))];
    KeyLastPart([S(SchemaTableKind), N(sid), S(db)], V(NameOf(a)), V(NameOf(b)));
  }

  /** A schema key, its group's key and the database key are three different keys. */
  lemma SchemaKeysApart(sid: int, db: string, a: Data, b: Data)
    ensures SchemaKey(sid, db, a) != TablesGroupKey(sid, db, b)
    ensures SchemaKey(sid, db, a) != DatabaseKey(sid, db)
    ensures TablesGroupKey(sid, db, a) != DatabaseKey(sid, db)
  {
    DistinctKindsDistinctKeys([S(SchemaKind), N(sid), S(db), V(NameOf(a))], [S(SchemaTableKind), N(sid), S(db), V(NameOf(b))]);
    DistinctKindsDistinctKeys([S(SchemaKind), N(sid), S(db), V(NameOf(a))], [S(DatabaseKind), N(sid), S(db)]);
    DistinctKindsDistinctKeys([S(SchemaTableKind), N(sid), S(db), V(NameOf(a))], [S(DatabaseKind), N(sid), S(db)]);
  }

  lemma TableKeyParts(kind: string, sid: int, db: string, schema: string, a: Data, b: Data)
    ensures TableKeyOf(kind, sid, db, schema, a) == TableKeyOf(kind, sid, db, schema, b) <==> JoinText(NameOf(a)) == JoinText(NameOf(b))
  {
    var ps := [S(kind), N(sid), S(db), S(schema)];
    assert [S(kind), N(sid), S(db), S(schema), V(NameOf(a))] == ps + [V(NameOf(a))];
    assert [S(kind), N(sid), S(db), S(schema), V(NameOf(b))] == ps + [V(NameOf(b))];
    KeyLastPart(ps, V(NameOf(a)), V(NameOf(b)));
  }

  /** Table-level keys of different kinds never meet, nor meet the schema's group key. */
  lemma TableKeysApart(k1: string, k2: string, sid: int, db: string, schema: string, a: Data, b: Data)
    requires IsKindName(k1) && IsKindName(k2)
    ensures k1 != k2 ==> TableKeyOf(k1, sid, db, schema, a) != TableKeyOf(k2, sid, db, schema, b)
    ensures k1 != SchemaTableKind ==> TableKeyOf(k1, sid, db, schema, a) != SchemaLevelKey(SchemaTableKind, sid, db, schema)
  {
    if k1 != k2 {
      DistinctKindsDistinctKeys([S(k1), N(sid), S(db), S(schema), V(NameOf(a))], [S(k2), N(sid), S(db), S(schema), V(NameOf(b))]);
    }
    if k1 != SchemaTableKind {
      DistinctKindsDistinctKeys([S(k1), N(sid), S(db), S(schema), V(NameOf(a))], [S(SchemaTableKind), N(sid), S(db), S(schema)]);
    }
  }

  /**
   * The "Tabelas" group a schema load creates for a record is the parent a table
   * load for `schema` fills exactly when the record's name prints as `schema`.
   */
  lemma TablesGroupIsTablesParent(sid: int, db: string, rec: Data, schema: string)
    ensures TablesGroupKey(sid, db, rec) == SchemaLevelKey(SchemaTableKind, sid, db, schema) <==> JoinText(NameOf(rec)) == schema
  {
    var ps := [S(SchemaTableKind), N(sid), S(db)];
    assert [S(SchemaTableKind), N(sid), S(db), V(NameOf(rec))] == ps + [V(NameOf(rec))];
    assert [S(SchemaTableKind), N(sid), S(db), S(schema)] == ps + [S(schema)];
    KeyLastPart(ps, V(NameOf(rec)), S(schema));
  }

  /**
   * The group of a kind a table load creates for a record is the parent the
   * column, index or trigger load for `table` fills exactly when the record's name
   * prints as `table`.
   */
  lemma GroupIsLeafParent(kind: string, sid: int, db: string, schema: string, rec: Data, table: string)
    ensures TableKeyOf(kind, sid, db, schema, rec) == TableLevelKey(kind, sid, db, schema, table) <==> JoinText(NameOf(rec)) == table
  {
    var ps := [S(kind), N(sid), S(db), S(schema)];
    assert [S(kind), N(sid), S(db), S(schema), V(NameOf(rec))] == ps + [V(NameOf(rec))];
    assert [S(kind), N(sid), S(db), S(schema), S(table)] == ps + [S(table)];
    KeyLastPart(ps, V(NameOf(rec)), S(table));
  }

  /** The two updates one schema causes: its group first, then itself. */
  lemma SchemaItemOps(sid: int, db: string, rec: Data)
    ensures ItemOps(SchemaMapper(sid, db)(rec)) ==
      [UpsertOp(TablesGroupKey(sid, db, rec), VStr(TablesLabel), SchemaData(sid, rec)),
       UpsertOp(SchemaKey(sid, db, rec), NameOf(rec), SchemaData(sid, rec))]
  {
  }

  /** The six updates one table causes: itself, its three groups, its children, and itself again. */
  lemma TableItemOps(sid: int, db: string, schema: string, rec: Data)
    ensures var d := TableData(schema, rec);
      var tk := TableKeyOf(TableKind, sid, db, schema, rec);
      var ck := TableKeyOf(TableColumnKind, sid, db, schema, rec);
      var ik := TableKeyOf(TableIndexKind, sid, db, schema, rec);
      var gk := TableKeyOf(TableTriggerKind, sid, db, schema, rec);
      ItemOps(TableMapper(sid, db, schema)(rec)) ==
        [UpsertOp(tk, NameOf(rec), d), UpsertOp(ck, VStr(ColumnsLabel), d), UpsertOp(ik, VStr(IndexesLabel), d),
         UpsertOp(gk, VStr(TriggersLabel), d), SetChildrenOp(tk, [ck, ik, gk]), UpsertOp(tk, NameOf(rec), d)]
  {
  }

  // Anchoring: every mapper creates a key before it sets that key's children.

  lemma SchemaMapperAnchored(sid: int, db: string, items: seq<Data>)
    ensures WellAnchored(items, SchemaMapper(sid, db))
  {
    forall i, k | 0 <= i < |items| ensures CreatesFirst(OnKey(ItemOps(SchemaMapper(sid, db)(items[i])), k)) {
      var ops := ItemOps(SchemaMapped(sid, db, items[i]));
      assert |ops| == 2 && ops[0].UpsertOp? && ops[1].UpsertOp?;
      EarlierUpsertCreatesFirst(ops, k);
    }
  }

  lemma TableMapperAnchored(sid: int, db: string, schema: string, items: seq<Data>)
    ensures WellAnchored(items, TableMapper(sid, db, schema))
  {
    forall i, k | 0 <= i < |items| ensures CreatesFirst(OnKey(ItemOps(TableMapper(sid, db, schema)(items[i])), k)) {
      var ops := ItemOps(TableMapped(sid, db, schema, items[i]));
      assert |ops| == 6 && ops[0].UpsertOp? && Target(ops[0]) == Target(ops[4]);
      assert forall j :: 0 <= j < 6 && j != 4 ==> ops[j].UpsertOp?;
      EarlierUpsertCreatesFirst(ops, k);
    }
  }

  lemma LeafMapperAnchored(kind: string, sid: int, db: string, schema: string, table: string, items: seq<Data>)
    ensures WellAnchored(items, LeafMapper(kind, sid, db, schema, table))
  {
    forall i, k | 0 <= i < |items| ensures CreatesFirst(OnKey(ItemOps(LeafMapper(kind, sid, db, schema, table)(items[i])), k)) {
      PlainMapperAnchored(LeafMapper(kind, sid, db, schema, table)(items[i]), k);
    }
  }

  // The schema load.

  /** What one schema's updates do: both upsert and carry `server_id`; one aimed at a group key names it "Tabelas". */
  lemma SchemaItemFacts(sid: int, db: string, other: Data, rec: Data)
    ensures forall op :: op in ItemOps(SchemaMapper(sid, db)(other)) ==>
      op.UpsertOp? && "server_id" in op.data && op.data["server_id"] == VNum(sid)
    ensures forall op :: op in ItemOps(SchemaMapper(sid, db)(other)) && Target(op) == TablesGroupKey(sid, db, rec) ==>
      op.name == VStr(TablesLabel)
  {
    SchemaItemOps(sid, db, other);
    SchemaKeysApart(sid, db, other, rec);
  }

  /** The links are `setChildren` calls, each aimed at some fetched schema's key. */
  lemma LinksTargets(sid: int, db: string, schemas: seq<Data>, k: string)
    ensures forall op :: op in OnKey(LinkOps(sid, db, schemas), k) ==>
      op.SetChildrenOp? && exists j :: 0 <= j < |schemas| && SchemaKey(sid, db, schemas[j]) == k
    ensures (forall j :: 0 <= j < |schemas| ==> SchemaKey(sid, db, schemas[j]) != k) ==> OnKey(LinkOps(sid, db, schemas), k) == []
  {
    var l := LinkOps(sid, db, schemas);
    forall op | op in OnKey(l, k)
      ensures op.SetChildrenOp? && exists j :: 0 <= j < |schemas| && SchemaKey(sid, db, schemas[j]) == k
    {
      OnKeyMember(l, k, op);
      var j :| 0 <= j < |l| && l[j] == op;
    }
    assert |OnKey(l, k)| > 0 ==> OnKey(l, k)[0] in OnKey(l, k);
  }

  /** The links aimed at a schema's key all give it that schema's group. */
  lemma LinksOnSchema(sid: int, db: string, schemas: seq<Data>, rec: Data)
    ensures forall op :: op in OnKey(LinkOps(sid, db, schemas), SchemaKey(sid, db, rec)) ==>
      op.SetChildrenOp? && op.children == [TablesGroupKey(sid, db, rec)]
  {
    var l := LinkOps(sid, db, schemas);
    forall op | op in OnKey(l, SchemaKey(sid, db, rec))
      ensures op.SetChildrenOp? && op.children == [TablesGroupKey(sid, db, rec)]
    {
      OnKeyMember(l, SchemaKey(sid, db, rec), op);
      var j :| 0 <= j < |l| && l[j] == op;
      SchemaKeyParts(sid, db, schemas[j], rec);
    }
  }

  lemma SchemasLoadedOk(t: Tree, sid: int, db: string, schemas: seq<Data>)
    ensures SchemasLoaded(t, sid, db, Ok(schemas)) == ApplyOps(t, SchemaUpdates(sid, db, schemas))
  {
    ApplyOpsAppend(t, Updates(DatabaseKey(sid, db), Ok(schemas), SchemaMapper(sid, db)), LinkOps(sid, db, schemas));
  }

  /** Running `getDatabaseSchemas` twice on the same result leaves the record as running it once. */
  lemma SchemaLoadTwiceSame(t: Tree, sid: int, db: string, fetched: Outcome<seq<Data>>)
    ensures SchemasLoaded(SchemasLoaded(t, sid, db, fetched), sid, db, fetched) == SchemasLoaded(t, sid, db, fetched)
  {
    match fetched {
      case Err(e) =>
        FailedLoadKeepsTree(t, DatabaseKey(sid, db), e, SchemaMapper(sid, db));
        FailedLoadKeepsTree(SchemasLoaded(t, sid, db, fetched), DatabaseKey(sid, db), e, SchemaMapper(sid, db));
      case Ok(schemas) =>
        var u := Updates(DatabaseKey(sid, db), Ok(schemas), SchemaMapper(sid, db));
        var l := LinkOps(sid, db, schemas);
        SchemaMapperAnchored(sid, db, schemas);
        forall k ensures Anchored(OnKey(u + l, k)) {
          UpdatesAnchored(DatabaseKey(sid, db), Ok(schemas), SchemaMapper(sid, db), k);
          OnKeyAppend(u, l, k);
          LinksTargets(sid, db, schemas, k);
          AnchoredThenSets(OnKey(u, k), OnKey(l, k));
        }
        ApplyOpsIdempotent(t, u + l);
        SchemasLoadedOk(t, sid, db, schemas);
        SchemasLoadedOk(SchemasLoaded(t, sid, db, fetched), sid, db, schemas);
    }
  }

  /**
   * A non-empty schema load creates every schema key, and a database node ends
   * with exactly the schema keys, in fetch order, as children.
   */
  lemma SchemaLoadAttaches(t: Tree, sid: int, db: string, schemas: seq<Data>)
    requires |schemas| > 0
    ensures var r := SchemasLoaded(t, sid, db, Ok(schemas));
      && (forall j :: 0 <= j < |schemas| ==> SchemaKey(sid, db, schemas[j]) in r.nodes)
      && (DatabaseKey(sid, db) in t.nodes ==> DatabaseKey(sid, db) in r.nodes)
      && (DatabaseKey(sid, db) in r.nodes ==>
            && |r.nodes[DatabaseKey(sid, db)].children| == |schemas|
            && forall j :: 0 <= j < |schemas| ==> r.nodes[DatabaseKey(sid, db)].children[j] == SchemaKey(sid, db, schemas[j]))
  {
    var parent := DatabaseKey(sid, db);
    var loaded := Loaded(t, parent, Ok(schemas), SchemaMapper(sid, db));
    var l := LinkOps(sid, db, schemas);
    LoadAttachesChildren(t, parent, schemas, SchemaMapper(sid, db));
    forall k | k in loaded.nodes ensures k in ApplyOps(loaded, l).nodes {
      ApplyOpsAt(loaded, l, k);
      LinksTargets(sid, db, schemas, k);
      var x := loaded.nodes[k];
      assert NodeAt(loaded, k) == Some(x);
      FoldPresent(x, OnKey(l, k));
    }
    forall j | 0 <= j < |schemas| ensures SchemaKey(sid, db, schemas[j]) != parent {
      SchemaKeysApart(sid, db, schemas[j], schemas[j]);
    }
    LinksTargets(sid, db, schemas, parent);
    ApplyOpsAt(loaded, l, parent);
  }

  /**
   * After a schema load, each fetched schema's node exists, carries `server_id`,
   * and has exactly its "Tabelas" group as children.
   */
  lemma SchemaNodeLinked(t: Tree, sid: int, db: string, schemas: seq<Data>, i: nat)
    requires i < |schemas|
    ensures var r := SchemasLoaded(t, sid, db, Ok(schemas));
      var sk := SchemaKey(sid, db, schemas[i]);
      && sk in r.nodes
      && r.nodes[sk].children == [TablesGroupKey(sid, db, schemas[i])]
      && "server_id" in r.nodes[sk].data && r.nodes[sk].data["server_id"] == VNum(sid)
  {
    var u := Updates(DatabaseKey(sid, db), Ok(schemas), SchemaMapper(sid, db));
    var sk := SchemaKey(sid, db, schemas[i]);
    var ops := OnKey(u + LinkOps(sid, db, schemas), sk);
    SchemaOpsAgree(sid, db, schemas, i);
    FoldCreated(NodeAt(t, sk), ops, "server_id", VNum(sid), [TablesGroupKey(sid, db, schemas[i])]);
    ApplyOpsAt(t, u + LinkOps(sid, db, schemas), sk);
    SchemasLoadedOk(t, sid, db, schemas);
  }

  /** The updates a schema load aims at a schema's key: an upsert first, `server_id` on each, and a link to its group. */
  lemma SchemaOpsAgree(sid: int, db: string, schemas: seq<Data>, i: nat)
    requires i < |schemas|
    ensures var ops := OnKey(Updates(DatabaseKey(sid, db), Ok(schemas), SchemaMapper(sid, db)) + LinkOps(sid, db, schemas),
                             SchemaKey(sid, db, schemas[i]));
      && |ops| > 0 && ops[0].UpsertOp?
      && (forall op :: op in ops && op.UpsertOp? ==> "server_id" in op.data && op.data["server_id"] == VNum(sid))
      && (forall op :: op in ops && op.SetChildrenOp? ==> op.children == [TablesGroupKey(sid, db, schemas[i])])
      && exists op :: op in ops && op.SetChildrenOp?
  {
    var parent := DatabaseKey(sid, db);
    var m := SchemaMapper(sid, db);
    var sk := SchemaKey(sid, db, schemas[i]);
    var cs := [TablesGroupKey(sid, db, schemas[i])];
    var u := Updates(parent, Ok(schemas), m);
    var l := LinkOps(sid, db, schemas);
    SchemaMapperAnchored(sid, db, schemas);
    SchemaKeysApart(sid, db, schemas[i], schemas[i]);
    SchemaItemOps(sid, db, schemas[i]);
    var own := ItemOps(m(schemas[i]))[1];
    assert own in ItemOps(m(schemas[i])) && Target(own) == sk;
    assert Touched(schemas, m, sk);
    LoadOpsOnKey(parent, schemas, m, sk);
    OnKeyAppend(u, l, sk);
    var ops := OnKey(u + l, sk);
    LinksOnSchema(sid, db, schemas, schemas[i]);
    forall op | op in ops
      ensures op.UpsertOp? ==> "server_id" in op.data && op.data["server_id"] == VNum(sid)
      ensures op.SetChildrenOp? ==> op.children == cs
    {
      if op in OnKey(u, sk) {
        var j :| 0 <= j < |schemas| && op in ItemOps(m(schemas[j]));
        SchemaItemFacts(sid, db, schemas[j], schemas[i]);
      }
    }
    var link := l[i];
    OnKeyMember(l, sk, link);
    assert link in ops;
  }

  /** The updates a schema load aims at a "Tabelas" group: one upsert at least, and every one names it and carries `server_id`. */
  lemma SchemaUpdatesOnGroup(sid: int, db: string, schemas: seq<Data>, i: nat)
    requires i < |schemas|
    ensures var m := SchemaMapper(sid, db);
      var gk := TablesGroupKey(sid, db, schemas[i]);
      Touched(schemas, m, gk) && Agrees(schemas, m, gk, "server_id", VNum(sid), []) && Names(schemas, m, gk, VStr(TablesLabel))
  {
    var m := SchemaMapper(sid, db);
    var gk := TablesGroupKey(sid, db, schemas[i]);
    SchemaItemOps(sid, db, schemas[i]);
    var own := ItemOps(m(schemas[i]))[0];
    assert own in ItemOps(m(schemas[i])) && Target(own) == gk;
    assert Touched(schemas, m, gk);
    forall j | 0 <= j < |schemas| {
      SchemaItemFacts(sid, db, schemas[j], schemas[i]);
    }
  }

  /** No link is aimed at a "Tabelas" group. */
  lemma LinksSkipGroups(sid: int, db: string, schemas: seq<Data>, rec: Data)
    ensures OnKey(LinkOps(sid, db, schemas), TablesGroupKey(sid, db, rec)) == []
  {
    forall j | 0 <= j < |schemas| ensures SchemaKey(sid, db, schemas[j]) != TablesGroupKey(sid, db, rec) {
      SchemaKeysApart(sid, db, schemas[j], rec);
    }
    LinksTargets(sid, db, schemas, TablesGroupKey(sid, db, rec));
  }

  /** The links leave a "Tabelas" group as the schema updates made it. */
  lemma GroupSkipsLinks(t: Tree, sid: int, db: string, schemas: seq<Data>, rec: Data)
    ensures NodeAt(SchemasLoaded(t, sid, db, Ok(schemas)), TablesGroupKey(sid, db, rec)) ==
            NodeAt(Loaded(t, DatabaseKey(sid, db), Ok(schemas), SchemaMapper(sid, db)), TablesGroupKey(sid, db, rec))
  {
    LinksSkipGroups(sid, db, schemas, rec);
    ApplyOpsAt(Loaded(t, DatabaseKey(sid, db), Ok(schemas), SchemaMapper(sid, db)), LinkOps(sid, db, schemas), TablesGroupKey(sid, db, rec));
  }

  /** After a schema load, each schema's "Tabelas" group exists, is named so, and carries `server_id`. */
  lemma TablesGroupCreated(t: Tree, sid: int, db: string, schemas: seq<Data>, i: nat)
    requires i < |schemas|
    ensures var r := SchemasLoaded(t, sid, db, Ok(schemas));
      var n := NodeAt(r, TablesGroupKey(sid, db, schemas[i]));
      && n.Some? && n.value.name == VStr(TablesLabel)
      && "server_id" in n.value.data && n.value.data["server_id"] == VNum(sid)
  {
    GroupSkipsLinks(t, sid, db, schemas, schemas[i]);
    TablesGroupLoaded(t, sid, db, schemas, i, DatabaseKey(sid, db), TablesGroupKey(sid, db, schemas[i]));
  }

  /** What the schema updates alone give a "Tabelas" group, with the parent and the group key named by parameters. */
  lemma TablesGroupLoaded(t: Tree, sid: int, db: string, schemas: seq<Data>, i: nat, p: string, k: string)
    requires i < |schemas| && p == DatabaseKey(sid, db) && k == TablesGroupKey(sid, db, schemas[i])
    ensures var n := NodeAt(Loaded(t, p, Ok(schemas), SchemaMapper(sid, db)), k);
      && n.Some? && n.value.name == VStr(TablesLabel)
      && "server_id" in n.value.data && n.value.data["server_id"] == VNum(sid)
  {
    TablesGroupData(t, sid, db, schemas, i, p, k);
    TablesGroupName(t, sid, db, schemas, i, p, k);
  }

  lemma TablesGroupData(t: Tree, sid: int, db: string, schemas: seq<Data>, i: nat, p: string, k: string)
    requires i < |schemas| && p == DatabaseKey(sid, db) && k == TablesGroupKey(sid, db, schemas[i])
    ensures var n := NodeAt(Loaded(t, p, Ok(schemas), SchemaMapper(sid, db)), k);
      n.Some? && "server_id" in n.value.data && n.value.data["server_id"] == VNum(sid)
  {
    SchemaMapperAnchored(sid, db, schemas);
    SchemaKeysApart(sid, db, schemas[i], schemas[i]);
    SchemaUpdatesOnGroup(sid, db, schemas, i);
    LoadedKey(t, p, schemas, SchemaMapper(sid, db), k, "server_id", VNum(sid), []);
  }

  lemma TablesGroupName(t: Tree, sid: int, db: string, schemas: seq<Data>, i: nat, p: string, k: string)
    requires i < |schemas| && p == DatabaseKey(sid, db) && k == TablesGroupKey(sid, db, schemas[i])
    ensures var n := NodeAt(Loaded(t, p, Ok(schemas), SchemaMapper(sid, db)), k);
      n.Some? && n.value.name == VStr(TablesLabel)
  {
    SchemaMapperAnchored(sid, db, schemas);
    SchemaKeysApart(sid, db, schemas[i], schemas[i]);
    SchemaUpdatesOnGroup(sid, db, schemas, i);
    LoadedKeyName(t, p, schemas, SchemaMapper(sid, db), k, VStr(TablesLabel));
  }

  // The table load.

  /** Two tables with one key have the same group keys. */
  lemma TableKeysAgree(sid: int, db: string, schema: string, a: Data, b: Data)
    requires TableKeyOf(TableKind, sid, db, schema, a) == TableKeyOf(TableKind, sid, db, schema, b)
    ensures TableKeyOf(TableColumnKind, sid, db, schema, a) == TableKeyOf(TableColumnKind, sid, db, schema, b)
    ensures TableKeyOf(TableIndexKind, sid, db, schema, a) == TableKeyOf(TableIndexKind, sid, db, schema, b)
    ensures TableKeyOf(TableTriggerKind, sid, db, schema, a) == TableKeyOf(TableTriggerKind, sid, db, schema, b)
  {
    TableKeyParts(TableKind, sid, db, schema, a, b);
    TableKeyParts(TableColumnKind, sid, db, schema, a, b);
    TableKeyParts(TableIndexKind, sid, db, schema, a, b);
    TableKeyParts(TableTriggerKind, sid, db, schema, a, b);
  }

  /** What one table's updates do to a table key: every upsert carries the schema, every `setChildren` gives the three groups. */
  lemma TableItemOnTable(sid: int, db: string, schema: string, other: Data, rec: Data)
    ensures forall op :: op in ItemOps(TableMapper(sid, db, schema)(other)) && Target(op) == TableKeyOf(TableKind, sid, db, schema, rec) ==>
      && (op.UpsertOp? ==> "schema" in op.data && op.data["schema"] == VStr(schema))
      && (op.SetChildrenOp? ==>
            op.children == [TableKeyOf(TableColumnKind, sid, db, schema, rec), TableKeyOf(TableIndexKind, sid, db, schema, rec),
                            TableKeyOf(TableTriggerKind, sid, db, schema, rec)])
  {
    TableItemOps(sid, db, schema, other);
    if TableKeyOf(TableKind, sid, db, schema, other) == TableKeyOf(TableKind, sid, db, schema, rec) {
      TableKeysAgree(sid, db, schema, other, rec);
    }
  }

  /**
   * Where one table's group keys can meet another table's group key of `kind`:
   * never at the table key, and only at the group of the same kind.
   */
  lemma GroupKeyLabels(sid: int, db: string, schema: string, other: Data, rec: Data, kind: string)
    requires IsGroupKind(kind)
    ensures var k := TableKeyOf(kind, sid, db, schema, rec);
      && TableKeyOf(TableKind, sid, db, schema, other) != k
      && (TableKeyOf(TableColumnKind, sid, db, schema, other) == k ==> GroupLabel(kind) == ColumnsLabel)
      && (TableKeyOf(TableIndexKind, sid, db, schema, other) == k ==> GroupLabel(kind) == IndexesLabel)
      && (TableKeyOf(TableTriggerKind, sid, db, schema, other) == k ==> GroupLabel(kind) == TriggersLabel)
  {
    TableKeysApart(TableKind, kind, sid, db, schema, other, rec);
    TableKeysApart(TableColumnKind, kind, sid, db, schema, other, rec);
    TableKeysApart(TableIndexKind, kind, sid, db, schema, other, rec);
    TableKeysApart(TableTriggerKind, kind, sid, db, schema, other, rec);
  }

  /** What one table's updates do to a key that is not its table key: only upserts aim at it, with the schema and the group's label `text`. */
  lemma TableItemOnGroup(sid: int, db: string, schema: string, other: Data, k: string, text: string)
    requires TableKeyOf(TableKind, sid, db, schema, other) != k
    requires TableKeyOf(TableColumnKind, sid, db, schema, other) == k ==> text == ColumnsLabel
    requires TableKeyOf(TableIndexKind, sid, db, schema, other) == k ==> text == IndexesLabel
    requires TableKeyOf(TableTriggerKind, sid, db, schema, other) == k ==> text == TriggersLabel
    ensures forall op :: op in ItemOps(TableMapper(sid, db, schema)(other)) && Target(op) == k ==>
      op.UpsertOp? && "schema" in op.data && op.data["schema"] == VStr(schema) && op.name == VStr(text)
  {
    TableItemOps(sid, db, schema, other);
  }

  /** The updates a table load aims at one table's key: one of them sets its children, all agree on the schema and the children. */
  lemma TableUpdatesOnTable(sid: int, db: string, schema: string, tables: seq<Data>, i: nat)
    requires i < |tables|
    ensures var m := TableMapper(sid, db, schema);
      var tk := TableKeyOf(TableKind, sid, db, schema, tables[i]);
      var cs := [TableKeyOf(TableColumnKind, sid, db, schema, tables[i]), TableKeyOf(TableIndexKind, sid, db, schema, tables[i]),
                 TableKeyOf(TableTriggerKind, sid, db, schema, tables[i])];
      Touched(tables, m, tk) && ChildrenSet(tables, m, tk) && Agrees(tables, m, tk, "schema", VStr(schema), cs)
  {
    var m := TableMapper(sid, db, schema);
    var rec := tables[i];
    var tk := TableKeyOf(TableKind, sid, db, schema, rec);
    TableItemOps(sid, db, schema, rec);
    var own := ItemOps(m(rec))[4];
    assert own in ItemOps(m(rec)) && Target(own) == tk && own.SetChildrenOp?;
    assert Touched(tables, m, tk) && ChildrenSet(tables, m, tk);
    forall j | 0 <= j < |tables| {
      TableItemOnTable(sid, db, schema, tables[j], rec);
    }
  }

  /**
   * After a non-empty table load, each fetched table's node exists, carries the
   * schema name, and has exactly its three groups as children.
   */
  lemma TableNodeShaped(t: Tree, sid: int, db: string, schema: string, tables: seq<Data>, i: nat)
    requires i < |tables|
    ensures var r := Loaded(t, SchemaLevelKey(SchemaTableKind, sid, db, schema), Ok(tables), TableMapper(sid, db, schema));
      var n := NodeAt(r, TableKeyOf(TableKind, sid, db, schema, tables[i]));
      && n.Some?
      && n.value.children == [TableKeyOf(TableColumnKind, sid, db, schema, tables[i]),
                              TableKeyOf(TableIndexKind, sid, db, schema, tables[i]),
                              TableKeyOf(TableTriggerKind, sid, db, schema, tables[i])]
      && "schema" in n.value.data && n.value.data["schema"] == VStr(schema)
  {
    var rec := tables[i];
    TableNodeAt(t, sid, db, schema, tables, i, SchemaLevelKey(SchemaTableKind, sid, db, schema), TableKeyOf(TableKind, sid, db, schema, rec),
                [TableKeyOf(TableColumnKind, sid, db, schema, rec), TableKeyOf(TableIndexKind, sid, db, schema, rec),
                 TableKeyOf(TableTriggerKind, sid, db, schema, rec)]);
  }

  /** TableNodeShaped with the parent key, the table key and its children named by parameters. */
  lemma TableNodeAt(t: Tree, sid: int, db: string, schema: string, tables: seq<Data>, i: nat, p: string, k: string, cs: seq<string>)
    requires i < |tables| && p == SchemaLevelKey(SchemaTableKind, sid, db, schema) && k == TableKeyOf(TableKind, sid, db, schema, tables[i])
    requires cs == [TableKeyOf(TableColumnKind, sid, db, schema, tables[i]), TableKeyOf(TableIndexKind, sid, db, schema, tables[i]),
                    TableKeyOf(TableTriggerKind, sid, db, schema, tables[i])]
    ensures var n := NodeAt(Loaded(t, p, Ok(tables), TableMapper(sid, db, schema)), k);
      n.Some? && n.value.children == cs && "schema" in n.value.data && n.value.data["schema"] == VStr(schema)
  {
    TableMapperAnchored(sid, db, schema, tables);
    TableKeysApart(TableKind, TableKind, sid, db, schema, tables[i], tables[i]);
    TableUpdatesOnTable(sid, db, schema, tables, i);
    LoadedKey(t, p, tables, TableMapper(sid, db, schema), k, "schema", VStr(schema), cs);
    LoadedKeyChildren(t, p, tables, TableMapper(sid, db, schema), k, "schema", VStr(schema), cs);
  }

  /** The updates a table load aims at one group key all upsert it, name it with its label, and carry the schema. */
  lemma TableUpdatesOnGroup(sid: int, db: string, schema: string, tables: seq<Data>, i: nat, kind: string)
    requires i < |tables| && IsGroupKind(kind)
    ensures var m := TableMapper(sid, db, schema);
      var gk := TableKeyOf(kind, sid, db, schema, tables[i]);
      Agrees(tables, m, gk, "schema", VStr(schema), []) && Names(tables, m, gk, VStr(GroupLabel(kind)))
  {
    var m := TableMapper(sid, db, schema);
    var gk := TableKeyOf(kind, sid, db, schema, tables[i]);
    forall j | 0 <= j < |tables|
      ensures forall op :: op in ItemOps(m(tables[j])) && Target(op) == gk ==>
        op.UpsertOp? && "schema" in op.data && op.data["schema"] == VStr(schema) && op.name == VStr(GroupLabel(kind))
    {
      GroupKeyLabels(sid, db, schema, tables[j], tables[i], kind);
      TableItemOnGroup(sid, db, schema, tables[j], gk, GroupLabel(kind));
    }
  }

  /** A table's own updates aim at each of its group keys. */
  lemma GroupTouched(sid: int, db: string, schema: string, tables: seq<Data>, i: nat, kind: string)
    requires i < |tables| && IsGroupKind(kind)
    ensures Touched(tables, TableMapper(sid, db, schema), TableKeyOf(kind, sid, db, schema, tables[i]))
  {
    var m := TableMapper(sid, db, schema);
    var rec := tables[i];
    TableItemOps(sid, db, schema, rec);
    var own := ItemOps(m(rec))[if kind == TableColumnKind then 1 else if kind == TableIndexKind then 2 else 3];
    assert own in ItemOps(m(rec)) && Target(own) == TableKeyOf(kind, sid, db, schema, rec);
  }

  /** After a non-empty table load, each table's group of each kind exists, has its label as name, and carries the schema name. */
  lemma TableGroupCreated(t: Tree, sid: int, db: string, schema: string, tables: seq<Data>, i: nat, kind: string)
    requires i < |tables| && IsGroupKind(kind)
    ensures var r := Loaded(t, SchemaLevelKey(SchemaTableKind, sid, db, schema), Ok(tables), TableMapper(sid, db, schema));
      var n := NodeAt(r, TableKeyOf(kind, sid, db, schema, tables[i]));
      n.Some? && n.value.name == VStr(GroupLabel(kind)) && "schema" in n.value.data && n.value.data["schema"] == VStr(schema)
  {
    GroupNodeAt(t, sid, db, schema, tables, i, kind, SchemaLevelKey(SchemaTableKind, sid, db, schema),
                TableKeyOf(kind, sid, db, schema, tables[i]), VStr(GroupLabel(kind)));
  }

  /** TableGroupCreated with the parent key, the group key and its name named by parameters. */
  lemma GroupNodeAt(t: Tree, sid: int, db: string, schema: string, tables: seq<Data>, i: nat, kind: string, p: string, k: string, name: Value)
    requires i < |tables| && IsGroupKind(kind) && p == SchemaLevelKey(SchemaTableKind, sid, db, schema)
    requires k == TableKeyOf(kind, sid, db, schema, tables[i]) && name == VStr(GroupLabel(kind))
    ensures var n := NodeAt(Loaded(t, p, Ok(tables), TableMapper(sid, db, schema)), k);
      n.Some? && n.value.name == name && "schema" in n.value.data && n.value.data["schema"] == VStr(schema)
  {
    GroupNodeData(t, sid, db, schema, tables, i, kind, p, k);
    GroupNodeName(t, sid, db, schema, tables, i, kind, p, k, name);
  }

  lemma GroupNodeData(t: Tree, sid: int, db: string, schema: string, tables: seq<Data>, i: nat, kind: string, p: string, k: string)
    requires i < |tables| && IsGroupKind(kind) && p == SchemaLevelKey(SchemaTableKind, sid, db, schema)
    requires k == TableKeyOf(kind, sid, db, schema, tables[i])
    ensures var n := NodeAt(Loaded(t, p, Ok(tables), TableMapper(sid, db, schema)), k);
      n.Some? && "schema" in n.value.data && n.value.data["schema"] == VStr(schema)
  {
    GroupLoadFacts(sid, db, schema, tables, i, kind);
    LoadedKey(t, p, tables, TableMapper(sid, db, schema), k, "schema", VStr(schema), []);
  }

  lemma GroupNodeName(t: Tree, sid: int, db: string, schema: string, tables: seq<Data>, i: nat, kind: string, p: string, k: string, name: Value)
    requires i < |tables| && IsGroupKind(kind) && p == SchemaLevelKey(SchemaTableKind, sid, db, schema)
    requires k == TableKeyOf(kind, sid, db, schema, tables[i]) && name == VStr(GroupLabel(kind))
    ensures var n := NodeAt(Loaded(t, p, Ok(tables), TableMapper(sid, db, schema)), k);
      n.Some? && n.value.name == name
  {
    GroupLoadFacts(sid, db, schema, tables, i, kind);
    LoadedKeyName(t, p, tables, TableMapper(sid, db, schema), k, name);
  }

  /** What a table load's updates give a group key: the preconditions of the generic load lemmas. */
  lemma GroupLoadFacts(sid: int, db: string, schema: string, tables: seq<Data>, i: nat, kind: string)
    requires i < |tables| && IsGroupKind(kind)
    ensures var m := TableMapper(sid, db, schema);
      var gk := TableKeyOf(kind, sid, db, schema, tables[i]);
      && WellAnchored(tables, m) && gk != SchemaLevelKey(SchemaTableKind, sid, db, schema) && Touched(tables, m, gk)
      && Agrees(tables, m, gk, "schema", VStr(schema), []) && Names(tables, m, gk, VStr(GroupLabel(kind)))
  {
    TableMapperAnchored(sid, db, schema, tables);
    TableKeysApart(kind, kind, sid, db, schema, tables[i], tables[i]);
    GroupTouched(sid, db, schema, tables, i, kind);
    TableUpdatesOnGroup(sid, db, schema, tables, i, kind);
  }

  /** Running `getSchemaTables` twice on the same result leaves the record as running it once. */
  lemma TableLoadTwiceSame(t: Tree, sid: int, db: string, schema: string, fetched: Outcome<seq<Data>>)
    ensures var p := SchemaLevelKey(SchemaTableKind, sid, db, schema);
      var m := TableMapper(sid, db, schema);
      Loaded(Loaded(t, p, fetched, m), p, fetched, m) == Loaded(t, p, fetched, m)
  {
    if fetched.Ok? {
      TableMapperAnchored(sid, db, schema, fetched.value);
    }
    LoadTwiceSame(t, SchemaLevelKey(SchemaTableKind, sid, db, schema), fetched, TableMapper(sid, db, schema));
  }

  // The column, index and trigger loads.

  /**
   * A non-empty leaf load creates every leaf key, and the group node ends with
   * exactly the leaf keys, in fetch order, as children.
   */
  lemma LeafLoadAttaches(t: Tree, kind: string, group: string, sid: int, db: string, schema: string, table: string, rows: seq<Data>)
    requires |rows| > 0
    ensures var p := TableLevelKey(group, sid, db, schema, table);
      var r := Loaded(t, p, Ok(rows), LeafMapper(kind, sid, db, schema, table));
      && (forall j :: 0 <= j < |rows| ==> LeafKeyOf(kind, sid, db, schema, table, rows[j]) in r.nodes)
      && (p in t.nodes ==> p in r.nodes)
      && (p in r.nodes ==>
            && |r.nodes[p].children| == |rows|
            && forall j :: 0 <= j < |rows| ==> r.nodes[p].children[j] == LeafKeyOf(kind, sid, db, schema, table, rows[j]))
  {
    LoadAttachesChildren(t, TableLevelKey(group, sid, db, schema, table), rows, LeafMapper(kind, sid, db, schema, table));
  }

  /** Running a leaf load twice on the same result leaves the record as running it once. */
  lemma LeafLoadTwiceSame(t: Tree, kind: string, group: string, sid: int, db: string, schema: string, table: string, fetched: Outcome<seq<Data>>)
    ensures var p := TableLevelKey(group, sid, db, schema, table);
      var m := LeafMapper(kind, sid, db, schema, table);
      Loaded(Loaded(t, p, fetched, m), p, fetched, m) == Loaded(t, p, fetched, m)
  {
    if fetched.Ok? {
      LeafMapperAnchored(kind, sid, db, schema, table, fetched.value);
    }
    LoadTwiceSame(t, TableLevelKey(group, sid, db, schema, table), fetched, LeafMapper(kind, sid, db, schema, table));
  }

  /**
   * The `setServers` updater after a schema load: every fetched schema already in
   * the record gets its "Tabelas" group as its only child.
   */
  method LinkSchemas(t: Tree, sid: int, db: string, schemas: seq<Data>) returns (next: Tree)
    ensures next == ApplyOps(t, LinkOps(sid, db, schemas))
  {
    next := t;
    var i := 0;
    while i < |schemas|
      invariant 0 <= i <= |schemas|
      invariant next == ApplyOps(t, LinkOps(sid, db, schemas[..i]))
    {
      assert schemas[..i + 1][..i] == schemas[..i];
      ApplyOpsSnoc(t, LinkOps(sid, db, schemas[..i]), LinkOp(sid, db, schemas[i]));
      next := Attach(next, SchemaKey(sid, db, schemas[i]), [TablesGroupKey(sid, db, schemas[i])]);
      i := i + 1;
    }
    assert schemas[..i] == schemas;
  }

  /** The hook: its own runner (`isConnecting` kept only for the runner's sake) and the shared tree. */
  class DbStructure {
    const loader: Loader

    constructor (toasts: Toaster, store: TreeStore)
      ensures loader.store == store && loader.runner.toasts == toasts
      ensures loader.runner.State() == Idle
      ensures fresh(loader) && fresh(loader.runner)
    {
      var runner := new Runner(toasts);
      loader := new Loader(runner, store);
    }

    /**
     * `getDatabaseSchemas(serverId, databaseName)`: loads the schemas under the
     * database node, then links each schema to its "Tabelas" group. A rejected
     * fetch skips the links and rejects with the same error.
     */
    method GetDatabaseSchemas(serverId: int, databaseName: string, fetched: Outcome<seq<Data>>) returns (r: Outcome<seq<Data>>)
      modifies loader.runner, loader.runner.toasts, loader.store
      ensures loader.store.tree == SchemasLoaded(old(loader.store.tree), serverId, databaseName, fetched)
      ensures loader.runner.toasts.log == old(loader.runner.toasts.log) + LoadNotices(fetched, SchemasEmpty, SchemasSuccess(databaseName))
      ensures loader.runner.State() == Settled(Started(old(loader.runner.State()), Load), Load, fetched)
      ensures r == fetched
    {
      var store := loader.store;
      r := loader.LoadChildren(DatabaseKey(serverId, databaseName), fetched, SchemaMapper(serverId, databaseName),
                               SchemasEmpty, SchemasSuccess(databaseName));
      if r.Ok? {
        var next := LinkSchemas(store.tree, serverId, databaseName, r.value);
        store.Replace(next);
      }
    }

    /** `getSchemaTables(serverId, schemaName, databaseName)` */
    method GetSchemaTables(serverId: int, schemaName: string, databaseName: string, fetched: Outcome<seq<Data>>)
      returns (r: Outcome<seq<Data>>)
      modifies loader.runner, loader.runner.toasts, loader.store
      ensures loader.store.tree ==
        Loaded(old(loader.store.tree), SchemaLevelKey(SchemaTableKind, serverId, databaseName, schemaName), fetched,
               TableMapper(serverId, databaseName, schemaName))
      ensures loader.runner.toasts.log == old(loader.runner.toasts.log) + LoadNotices(fetched, TablesEmpty(schemaName), TablesSuccess(schemaName))
      ensures loader.runner.State() == Settled(Started(old(loader.runner.State()), Load), Load, fetched)
      ensures r == fetched
    {
      r := loader.LoadChildren(SchemaLevelKey(SchemaTableKind, serverId, databaseName, schemaName), fetched,
                               TableMapper(serverId, databaseName, schemaName), TablesEmpty(schemaName), TablesSuccess(schemaName));
    }

    /** `getTableColumns(serverId, schemaName, tableName, databaseName)` */
    method GetTableColumns(serverId: int, schemaName: string, tableName: string, databaseName: string, fetched: Outcome<seq<Data>>)
      returns (r: Outcome<seq<Data>>)
      modifies loader.runner, loader.runner.toasts, loader.store
      ensures loader.store.tree ==
        Loaded(old(loader.store.tree), TableLevelKey(TableColumnKind, serverId, databaseName, schemaName, tableName), fetched,
               LeafMapper(ColumnKind, serverId, databaseName, schemaName, tableName))
      ensures loader.runner.toasts.log == old(loader.runner.toasts.log) + LoadNotices(fetched, ColumnsEmpty, ColumnsSuccess(tableName))
      ensures loader.runner.State() == Settled(Started(old(loader.runner.State()), Load), Load, fetched)
      ensures r == fetched
    {
      r := loader.LoadChildren(TableLevelKey(TableColumnKind, serverId, databaseName, schemaName, tableName), fetched,
                               LeafMapper(ColumnKind, serverId, databaseName, schemaName, tableName), ColumnsEmpty, ColumnsSuccess(tableName));
    }

    /** `getTableIndexes(serverId, schemaName, tableName, databaseName)` */
    method GetTableIndexes(serverId: int, schemaName: string, tableName: string, databaseName: string, fetched: Outcome<seq<Data>>)
      returns (r: Outcome<seq<Data>>)
      modifies loader.runner, loader.runner.toasts, loader.store
      ensures loader.store.tree ==
        Loaded(old(loader.store.tree), TableLevelKey(TableIndexKind, serverId, databaseName, schemaName, tableName), fetched,
               LeafMapper(IndexKind, serverId, databaseName, schemaName, tableName))
      ensures loader.runner.toasts.log == old(loader.runner.toasts.log) + LoadNotices(fetched, IndexesEmpty, IndexesSuccess(tableName))
      ensures loader.runner.State() == Settled(Started(old(loader.runner.State()), Load), Load, fetched)
      ensures r == fetched
    {
      r := loader.LoadChildren(TableLevelKey(TableIndexKind, serverId, databaseName, schemaName, tableName), fetched,
                               LeafMapper(IndexKind, serverId, databaseName, schemaName, tableName), IndexesEmpty, IndexesSuccess(tableName));
    }

    /** `getTableTriggers(serverId, schemaName, tableName, databaseName)` */
    method GetTableTriggers(serverId: int, schemaName: string, tableName: string, databaseName: string, fetched: Outcome<seq<Data>>)
      returns (r: Outcome<seq<Data>>)
      modifies loader.runner, loader.runner.toasts, loader.store
      ensures loader.store.tree ==
        Loaded(old(loader.store.tree), TableLevelKey(TableTriggerKind, serverId, databaseName, schemaName, tableName), fetched,
               LeafMapper(TriggerKind, serverId, databaseName, schemaName, tableName))
      ensures loader.runner.toasts.log == old(loader.runner.toasts.log) + LoadNotices(fetched, TriggersEmpty, TriggersSuccess(tableName))
      ensures loader.runner.State() == Settled(Started(old(loader.runner.State()), Load), Load, fetched)
      ensures r == fetched
    {
      r := loader.LoadChildren(TableLevelKey(TableTriggerKind, serverId, databaseName, schemaName, tableName), fetched,
                               LeafMapper(TriggerKind, serverId, databaseName, schemaName, tableName), TriggersEmpty, TriggersSuccess(tableName));
    }
  }
}
