/**
 * `renderItems` of `render-items.tsx`: what a sidebar cell does with its
 * nested node. The kind decides whether the cell can expand and which loader a
 * click calls; the loader's arguments are read back out of the node's key by
 * position, so a click on a node built by `key(...)` loads under that node.
 */
module RenderItems {
  import opened Values
  import opened Outcomes
  import opened Keys
  import opened UseTree

  /** `nodesWithChildren.includes(type)`: every kind but the three leaf kinds can expand. */
  predicate HasChildren(kind: string)
    ensures IsKindName(kind) ==> (HasChildren(kind) <==> kind != ColumnKind && kind != IndexKind && kind != TriggerKind)
  {
    kind in [ServerKind, DatabaseKind, SchemaKind, SchemaTableKind, TableKind, TableColumnKind, TableIndexKind, TableTriggerKind]
  }

  /** A loader call the click makes, with its arguments as received. */
  datatype Request =
    | Connect(server: Data)
    | Schemas(serverId: Value, database: Value)
    | Tables(serverId: Value, schema: Value, database: Value)
    /** `getTableColumns`, `getTableIndexes` or `getTableTriggers`, chosen by the group kind. */
    | TableLoad(group: string, serverId: Value, schema: Value, table: Value, database: Value)

  /** An element of the `split("::")` result by position: `undefined` past the end. */
  function PartAt(parts: seq<string>, i: nat): (r: Value)
  {
    if i < |parts| then VStr(parts[i]) else VUndefined
  }

  /**
   * `functionsByType[type]` and the call it makes: the server gets its record,
   * every other loader its arguments from fixed positions of the split key, the
   * server id through `Number`.
   */
  function LoaderFor(kind: string, itemKey: string, data: Data): (r: Option<Request>)
    ensures r.Some? <==> kind in {ServerKind, DatabaseKind, SchemaTableKind, TableColumnKind, TableIndexKind, TableTriggerKind}
    ensures r.Some? && r.value.TableLoad? ==> r.value.group == kind
  {
    var p := Split(itemKey);
    if kind == ServerKind then Some(Connect(data))
    else if kind == DatabaseKind then Some(Schemas(ToNumber(PartAt(p, 1)), PartAt(p, 2)))
    else if kind == SchemaTableKind then Some(Tables(ToNumber(PartAt(p, 1)), PartAt(p, 3), PartAt(p, 2)))
    else if IsGroupKind(kind) then Some(TableLoad(kind, ToNumber(PartAt(p, 1)), PartAt(p, 3), PartAt(p, 4), PartAt(p, 2)))
    else None
  }

  /** A schema or a table only opens and closes: neither has a loader. */
  lemma ToggleOnlyKinds(itemKey: string, data: Data)
    ensures LoaderFor(SchemaKind, itemKey, data) == None && LoaderFor(TableKind, itemKey, data) == None
    ensures HasChildren(SchemaKind) && HasChildren(TableKind)
  {
  }

  /** A printed server id is a Segment, and `Number` reads it back. */
  lemma ServerIdPart(sid: int)
    ensures Segment(IntToString(sid))
    ensures ToNumber(VStr(IntToString(sid))) == VNum(sid)
  {
    IntToStringNoColon(sid);
    NumberOfIntToString(sid);
  }

  /** Splitting a well-formed key gives back the printed parts. */
  lemma SplitKey(parts: seq<Part>)
    requires WellFormedParts(Texts(parts))
    ensures Split(Key(parts)) == Texts(parts)
  {
    SplitJoin(Texts(parts));
  }

  /** A click on `database::<sid>::<db>` loads the schemas of that server and database. */
  lemma DatabaseClick(sid: int, db: string, data: Data)
    requires !HasDelimiter(db)
    ensures LoaderFor(DatabaseKind, DatabaseKey(sid, db), data) == Some(Schemas(VNum(sid), VStr(db)))
  {
    var parts := [S(DatabaseKind), N(sid), S(db)];
    ServerIdPart(sid);
    KindNamesAreSegments(DatabaseKind);
    assert Texts(parts) == [DatabaseKind, IntToString(sid), db];
    SplitKey(parts);
  }

  /** A click on a "Tabelas" group loads the tables of the schema it names. */
  lemma TablesGroupClick(sid: int, db: string, schema: string, data: Data)
    requires Segment(db) && !HasDelimiter(schema)
    ensures LoaderFor(SchemaTableKind, SchemaLevelKey(SchemaTableKind, sid, db, schema), data) ==
      Some(Tables(VNum(sid), VStr(schema), VStr(db)))
  {
    var parts := [S(SchemaTableKind), N(sid), S(db), S(schema)];
    ServerIdPart(sid);
    KindNamesAreSegments(SchemaTableKind);
    assert Texts(parts) == [SchemaTableKind, IntToString(sid), db, schema];
    SplitKey(parts);
  }

  /** A click on a table's column, index or trigger group loads that group's rows for the table it names. */
  lemma TableGroupClick(kind: string, sid: int, db: string, schema: string, table: string, data: Data)
    requires IsGroupKind(kind)
    requires Segment(db) && Segment(schema) && !HasDelimiter(table)
    ensures LoaderFor(kind, TableLevelKey(kind, sid, db, schema, table), data) ==
      Some(TableLoad(kind, VNum(sid), VStr(schema), VStr(table), VStr(db)))
  {
    var parts := [S(kind), N(sid), S(db), S(schema), S(table)];
    ServerIdPart(sid);
    KindNamesAreSegments(kind);
    var texts := [kind, IntToString(sid), db, schema, table];
    assert Texts(parts) == texts;
    SplitKey(parts);
    var p := Split(TableLevelKey(kind, sid, db, schema, table));
    assert p == texts;
    assert PartAt(p, 1) == VStr(IntToString(sid));
  }

  /** A database name holding the delimiter comes back cut at its first "::". */
  lemma DelimiterInDatabaseName(sid: int, a: string, b: string, data: Data)
    requires Segment(a) && !HasDelimiter(b)
    ensures LoaderFor(DatabaseKind, DatabaseKey(sid, a + "::" + b), data) == Some(Schemas(VNum(sid), VStr(a)))
  {
    var s := IntToString(sid);
    var parts := [DatabaseKind, s, a, b];
    assert Texts([S(DatabaseKind), N(sid), S(a + "::" + b)]) == [DatabaseKind, s, a + "::" + b];
    var x := a + "::" + b;
    assert [DatabaseKind, s, x][1..] == [s, x] && [s, x][1..] == [x];
    assert Join([s, x]) == s + "::" + x;
    assert parts[1..] == [s, a, b] && [s, a, b][1..] == [a, b] && [a, b][1..] == [b];
    assert Join([a, b]) == x;
    assert Join([s, a, b]) == s + "::" + x;
    assert Join(parts) == Join([DatabaseKind, s, x]);
    ServerIdPart(sid);
    KindNamesAreSegments(DatabaseKind);
    SplitJoin(parts);
  }

  /**
   * `getSecondaryText`: a column shows its `data_type`, followed by " NOT NULL"
   * when `is_nullable` is falsy (a missing flag included); nothing else shows text.
   */
  function SecondaryText(kind: string, data: Data): (r: string)
    ensures kind != ColumnKind ==> r == ""
    ensures kind == ColumnKind ==> |r| >= |ToStr(Get(data, "data_type"))| && r[..|ToStr(Get(data, "data_type"))|] == ToStr(Get(data, "data_type"))
  {
    if kind == ColumnKind then
      ToStr(Get(data, "data_type")) + (if !Truthy(Get(data, "is_nullable")) then " NOT NULL" else "")
    else ""
  }

  /** A column reads "NOT NULL" exactly when its `is_nullable` is falsy. */
  lemma NotNullSuffix(data: Data, ty: string)
    requires Get(data, "data_type") == VStr(ty)
    ensures SecondaryText(ColumnKind, data) == ty + " NOT NULL" <==> !Truthy(Get(data, "is_nullable"))
    ensures Truthy(Get(data, "is_nullable")) ==> SecondaryText(ColumnKind, data) == ty
  {
    if Truthy(Get(data, "is_nullable")) {
      assert |ty + " NOT NULL"| != |ty|;
    }
  }

  /** One rendered cell: its `isExpanded`, which the list's `onClick` flips. */
  class Cell {
    var isExpanded: bool

    constructor ()
      ensures !isExpanded
    {
      isExpanded := false;
    }

    /**
     * `handleClick`: the cell always toggles, and calls the node's loader only
     * when it was closed before the click, so a collapse never fetches.
     */
    method HandleClick(item: NestedNode) returns (call: Option<Request>)
      modifies this
      ensures isExpanded == !old(isExpanded)
      ensures call == if old(isExpanded) then None else LoaderFor(item.kind, item.itemKey, item.data)
    {
      var func := LoaderFor(item.kind, item.itemKey, item.data);
      var wasExpanded := isExpanded;
      isExpanded := !isExpanded;
      if func.Some? && !wasExpanded {
        call := func;
      } else {
        call := None;
      }
    }
  }
}
