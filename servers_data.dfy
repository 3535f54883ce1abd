/**
 * `useServersData` of `src/hooks/useServersData.ts`: the oldest server store,
 * a list of server records in which each loaded level is nested as an array in
 * the record above it (databases in the server, schemas in the database, tables
 * in the schema, columns in the table). Every update maps over the list and
 * replaces only the element on the requested name path.
 */
module ServersData {
  import opened Values
  import opened Outcomes
  import opened Toasts
  import opened Lists

  datatype Table = Table(name: string, fields: Data, columns: Option<seq<Data>>)
  datatype Schema = Schema(name: string, fields: Data, tables: Option<seq<Table>>)
  datatype Database = Database(name: string, fields: Data, schemas: Option<seq<Schema>>)
  /** A server record; `fields` holds the rest of what the backend sends. */
  datatype Server = Server(id: int, name: string, fields: Data, isConnected: bool, databases: Option<seq<Database>>)

  // ---------------------------------------------------------------------------
  // The callbacks of the `map` and `filter` calls
  // ---------------------------------------------------------------------------

  function ServerIs(id: int): Server -> bool
  {
    (s: Server) => s.id == id
  }

  function ServerIsNot(id: int): Server -> bool
  {
    (s: Server) => s.id != id
  }

  /** `db.name === databaseName`: an omitted database name matches no database. */
  function DatabaseIs(name: Option<string>): Database -> bool
  {
    (d: Database) => name == Some(d.name)
  }

  function SchemaIs(name: string): Schema -> bool
  {
    (s: Schema) => s.name == name
  }

  function TableIs(name: string): Table -> bool
  {
    (t: Table) => t.name == name
  }

  function Replace(updated: Server): Server -> Server
  {
    (s: Server) => updated
  }

  function SetConnected(h: bool): Server -> Server
  {
    (s: Server) => s.(isConnected := h)
  }

  function SetDatabases(dbs: seq<Database>): Server -> Server
  {
    (s: Server) => s.(databases := Some(dbs))
  }

  /** `{ ...s, databases: s.databases?.map((db) => (db.name === name ? g(db) : db)) }` */
  function InDatabases(name: Option<string>, g: Database -> Database): Server -> Server
  {
    (s: Server) => s.(databases := MapWhereOpt(s.databases, DatabaseIs(name), g))
  }

  /** `{ ...db, schemas: db.schemas?.map((schema) => (schema.name === name ? g(schema) : schema)) }` */
  function InSchemas(name: string, g: Schema -> Schema): Database -> Database
  {
    (d: Database) => d.(schemas := MapWhereOpt(d.schemas, SchemaIs(name), g))
  }

  /** `{ ...schema, tables: schema.tables?.map((table) => (table.name === name ? g(table) : table)) }` */
  function InTables(name: string, g: Table -> Table): Schema -> Schema
  {
    (s: Schema) => s.(tables := MapWhereOpt(s.tables, TableIs(name), g))
  }

  function SetSchemas(schemas: seq<Schema>): Database -> Database
  {
    (d: Database) => d.(schemas := Some(schemas))
  }

  function SetTables(tables: seq<Table>): Schema -> Schema
  {
    (s: Schema) => s.(tables := Some(tables))
  }

  function SetColumns(columns: seq<Data>): Table -> Table
  {
    (t: Table) => t.(columns := Some(columns))
  }

  // ---------------------------------------------------------------------------
  // The list after each update
  // ---------------------------------------------------------------------------

  function SchemasLoaded(ss: seq<Server>, sid: int, db: Option<string>, schemas: seq<Schema>): seq<Server>
  {
    MapWhere(ss, ServerIs(sid), InDatabases(db, SetSchemas(schemas)))
  }

  function TablesLoaded(ss: seq<Server>, sid: int, schema: string, db: Option<string>, tables: seq<Table>): seq<Server>
  {
    MapWhere(ss, ServerIs(sid), InDatabases(db, InSchemas(schema, SetTables(tables))))
  }

  function ColumnsLoaded(ss: seq<Server>, sid: int, schema: string, table: string, db: Option<string>, columns: seq<Data>): seq<Server>
  {
    MapWhere(ss, ServerIs(sid), InDatabases(db, InSchemas(schema, InTables(table, SetColumns(columns)))))
  }

  /** The list after a connect: `isConnected` first, then the databases if any came back. */
  function Connected(ss: seq<Server>, sid: int, h: bool, dbs: Outcome<seq<Database>>): seq<Server>
  {
    var marked := MapWhere(ss, ServerIs(sid), SetConnected(h));
    if dbs.Ok? && |dbs.value| > 0 then MapWhere(marked, ServerIs(sid), SetDatabases(dbs.value)) else marked
  }

  // ---------------------------------------------------------------------------
  // Positions in the nested arrays, and what the updates do at each
  // ---------------------------------------------------------------------------

  predicate HasDb(ss: seq<Server>, i: int, j: int)
  {
    0 <= i < |ss| && ss[i].databases.Some? && 0 <= j < |ss[i].databases.value|
  }

  function DbAt(ss: seq<Server>, i: int, j: int): Database
    requires HasDb(ss, i, j)
  {
    ss[i].databases.value[j]
  }

  predicate HasSchema(ss: seq<Server>, i: int, j: int, k: int)
  {
    HasDb(ss, i, j) && DbAt(ss, i, j).schemas.Some? && 0 <= k < |DbAt(ss, i, j).schemas.value|
  }

  function SchemaAt(ss: seq<Server>, i: int, j: int, k: int): Schema
    requires HasSchema(ss, i, j, k)
  {
    DbAt(ss, i, j).schemas.value[k]
  }

  predicate HasTable(ss: seq<Server>, i: int, j: int, k: int, l: int)
  {
    HasSchema(ss, i, j, k) && SchemaAt(ss, i, j, k).tables.Some? && 0 <= l < |SchemaAt(ss, i, j, k).tables.value|
  }

  function TableAt(ss: seq<Server>, i: int, j: int, k: int, l: int): Table
    requires HasTable(ss, i, j, k, l)
  {
    SchemaAt(ss, i, j, k).tables.value[l]
  }

  /** Two optional arrays are both missing or both present with the same length. */
  predicate SameLength<T>(a: Option<seq<T>>, b: Option<seq<T>>)
  {
    a.Some? == b.Some? && (a.Some? ==> |a.value| == |b.value|)
  }

  /** `after` has the servers of `before`, each unchanged but for its database array, which keeps its length. */
  ghost predicate ServersAlike(after: seq<Server>, before: seq<Server>)
  {
    |after| == |before| &&
    forall i :: 0 <= i < |before| ==>
      after[i].(databases := before[i].databases) == before[i] && SameLength(after[i].databases, before[i].databases)
  }

  /** Also every database is unchanged but for its schema array, which keeps its length. */
  ghost predicate DatabasesAlike(after: seq<Server>, before: seq<Server>)
  {
    ServersAlike(after, before) &&
    forall i, j :: HasDb(before, i, j) ==>
      HasDb(after, i, j) &&
      DbAt(after, i, j).(schemas := DbAt(before, i, j).schemas) == DbAt(before, i, j) &&
      SameLength(DbAt(after, i, j).schemas, DbAt(before, i, j).schemas)
  }

  /** Also every schema is unchanged but for its table array, which keeps its length. */
  ghost predicate SchemasAlike(after: seq<Server>, before: seq<Server>)
  {
    DatabasesAlike(after, before) &&
    forall i, j, k :: HasSchema(before, i, j, k) ==>
      HasSchema(after, i, j, k) &&
      SchemaAt(after, i, j, k).(tables := SchemaAt(before, i, j, k).tables) == SchemaAt(before, i, j, k) &&
      SameLength(SchemaAt(after, i, j, k).tables, SchemaAt(before, i, j, k).tables)
  }

  /** Whether the database at (i, j) is the one the request names. */
  predicate DbOnPath(ss: seq<Server>, i: int, j: int, sid: int, db: Option<string>)
    requires HasDb(ss, i, j)
  {
    ss[i].id == sid && db == Some(DbAt(ss, i, j).name)
  }

  /** A schema load sets the schema array of exactly the databases on the path; nothing else changes. */
  lemma SchemasLoadedSpec(ss: seq<Server>, sid: int, db: Option<string>, schemas: seq<Schema>)
    ensures ServersAlike(SchemasLoaded(ss, sid, db, schemas), ss)
    ensures forall i, j :: HasDb(ss, i, j) ==>
              HasDb(SchemasLoaded(ss, sid, db, schemas), i, j) &&
              DbAt(SchemasLoaded(ss, sid, db, schemas), i, j) ==
              if DbOnPath(ss, i, j, sid, db) then DbAt(ss, i, j).(schemas := Some(schemas)) else DbAt(ss, i, j)
  {
    var r := SchemasLoaded(ss, sid, db, schemas);
    forall i | 0 <= i < |ss|
      ensures r[i].(databases := ss[i].databases) == ss[i] && SameLength(r[i].databases, ss[i].databases)
    {
    }
  }

  /** A table load sets the table array of exactly the schemas on the path; nothing else changes. */
  lemma TablesLoadedSpec(ss: seq<Server>, sid: int, schema: string, db: Option<string>, tables: seq<Table>)
    ensures DatabasesAlike(TablesLoaded(ss, sid, schema, db, tables), ss)
    ensures forall i, j, k :: HasSchema(ss, i, j, k) ==>
              HasSchema(TablesLoaded(ss, sid, schema, db, tables), i, j, k) &&
              SchemaAt(TablesLoaded(ss, sid, schema, db, tables), i, j, k) ==
              if DbOnPath(ss, i, j, sid, db) && SchemaAt(ss, i, j, k).name == schema
              then SchemaAt(ss, i, j, k).(tables := Some(tables))
              else SchemaAt(ss, i, j, k)
  {
    var r := TablesLoaded(ss, sid, schema, db, tables);
    forall i | 0 <= i < |ss|
      ensures r[i].(databases := ss[i].databases) == ss[i] && SameLength(r[i].databases, ss[i].databases)
    {
    }
  }

  /** The database level of a column load: the databases on the path get their schemas rewritten. */
  lemma ColumnsLoadedDatabases(ss: seq<Server>, sid: int, schema: string, table: string, db: Option<string>, columns: seq<Data>)
    ensures ServersAlike(ColumnsLoaded(ss, sid, schema, table, db, columns), ss)
    ensures forall i, j :: HasDb(ss, i, j) ==>
              HasDb(ColumnsLoaded(ss, sid, schema, table, db, columns), i, j) &&
              DbAt(ColumnsLoaded(ss, sid, schema, table, db, columns), i, j) ==
              if DbOnPath(ss, i, j, sid, db) then InSchemas(schema, InTables(table, SetColumns(columns)))(DbAt(ss, i, j))
              else DbAt(ss, i, j)
  {
    var r := ColumnsLoaded(ss, sid, schema, table, db, columns);
    var g := InSchemas(schema, InTables(table, SetColumns(columns)));
    forall i | 0 <= i < |ss|
      ensures r[i].(databases := ss[i].databases) == ss[i] && SameLength(r[i].databases, ss[i].databases)
    {
    }
    forall i, j | HasDb(ss, i, j)
      ensures HasDb(r, i, j) && DbAt(r, i, j) == if DbOnPath(ss, i, j, sid, db) then g(DbAt(ss, i, j)) else DbAt(ss, i, j)
    {
    }
  }

  /** The schema level of a column load: the schemas on the path get their tables rewritten. */
  lemma ColumnsLoadedSchemas(ss: seq<Server>, sid: int, schema: string, table: string, db: Option<string>, columns: seq<Data>)
    ensures DatabasesAlike(ColumnsLoaded(ss, sid, schema, table, db, columns), ss)
    ensures forall i, j, k :: HasSchema(ss, i, j, k) ==>
              HasSchema(ColumnsLoaded(ss, sid, schema, table, db, columns), i, j, k) &&
              SchemaAt(ColumnsLoaded(ss, sid, schema, table, db, columns), i, j, k) ==
              if DbOnPath(ss, i, j, sid, db) && SchemaAt(ss, i, j, k).name == schema
              then InTables(table, SetColumns(columns))(SchemaAt(ss, i, j, k))
              else SchemaAt(ss, i, j, k)
  {
    ColumnsLoadedDatabases(ss, sid, schema, table, db, columns);
  }

  /** A column load sets the column array of exactly the tables on the path; nothing else changes. */
  lemma ColumnsLoadedSpec(ss: seq<Server>, sid: int, schema: string, table: string, db: Option<string>, columns: seq<Data>)
    ensures SchemasAlike(ColumnsLoaded(ss, sid, schema, table, db, columns), ss)
    ensures forall i, j, k, l :: HasTable(ss, i, j, k, l) ==>
              HasTable(ColumnsLoaded(ss, sid, schema, table, db, columns), i, j, k, l) &&
              TableAt(ColumnsLoaded(ss, sid, schema, table, db, columns), i, j, k, l) ==
              if DbOnPath(ss, i, j, sid, db) && SchemaAt(ss, i, j, k).name == schema && TableAt(ss, i, j, k, l).name == table
              then TableAt(ss, i, j, k, l).(columns := Some(columns))
              else TableAt(ss, i, j, k, l)
  {
    ColumnsLoadedSchemas(ss, sid, schema, table, db, columns);
  }

  /** Without a database name nothing is on the path, so a schema load changes no record. */
  lemma NoDatabaseNameNoChange(ss: seq<Server>, sid: int, schemas: seq<Schema>)
    ensures SchemasLoaded(ss, sid, None, schemas) == ss
  {
    var r := SchemasLoaded(ss, sid, None, schemas);
    forall i | 0 <= i < |ss| ensures r[i] == ss[i] {
      if ss[i].id == sid && ss[i].databases.Some? {
        MapWhereNone(ss[i].databases.value, DatabaseIs(None), SetSchemas(schemas));
      }
    }
  }

  /** A connect marks exactly the servers with the id, and gives them the databases when some came back. */
  lemma ConnectedSpec(ss: seq<Server>, sid: int, h: bool, dbs: Outcome<seq<Database>>)
    ensures |Connected(ss, sid, h, dbs)| == |ss|
    ensures forall i :: 0 <= i < |ss| ==>
              Connected(ss, sid, h, dbs)[i] ==
              if ss[i].id != sid then ss[i]
              else if dbs.Ok? && |dbs.value| > 0 then ss[i].(isConnected := h, databases := Some(dbs.value))
              else ss[i].(isConnected := h)
  {
    var marked := MapWhere(ss, ServerIs(sid), SetConnected(h));
    assert forall i :: 0 <= i < |ss| ==> marked[i].id == ss[i].id;
  }

  /** An edit replaces exactly the servers with the id by the returned record. */
  lemma EditReplaces(ss: seq<Server>, id: int, updated: Server)
    ensures |MapWhere(ss, ServerIs(id), Replace(updated))| == |ss|
    ensures forall i :: 0 <= i < |ss| ==>
              MapWhere(ss, ServerIs(id), Replace(updated))[i] == if ss[i].id == id then updated else ss[i]
  {
  }

  /** A removal takes out every server with the id and keeps the rest in their order. */
  lemma RemoveFilters(a: seq<Server>, b: seq<Server>, id: int)
    ensures forall i :: 0 <= i < |Filter(a + b, ServerIsNot(id))| ==> Filter(a + b, ServerIsNot(id))[i].id != id
    ensures Filter(a + b, ServerIsNot(id)) == Filter(a, ServerIsNot(id)) + Filter(b, ServerIsNot(id))
  {
    FilterAppend(a, b, ServerIsNot(id));
  }

  // ---------------------------------------------------------------------------
  // The notices
  // ---------------------------------------------------------------------------

  /** A template literal prints an omitted database name as "undefined". */
  function NameText(name: Option<string>): string
  {
    match name
    case None => "undefined"
    case Some(n) => n
  }

  function AddedText(name: string): string { "Servidor \"" + name + "\" adicionado!" }
  function UpdatedText(name: string): string { "Servidor \"" + name + "\" atualizado!" }
  const RemovedText := "Servidor removido com sucesso!"
  function ConnectedText(name: string): string { "Conectado ao servidor \"" + name + "\"!" }
  function DatabasesText(name: string): string { "Databases do servidor \"" + name + "\" carregadas!" }
  const NoSchemas := "Nenhum schema encontrado para este servidor."
  function SchemasText(db: Option<string>): string { "Schemas do database \"" + NameText(db) + "\" carregados com sucesso!" }
  const NoTables := "Nenhuma tabela encontrada para este schema."
  function TablesText(schema: string): string { "Tabelas do schema \"" + schema + "\" carregadas com sucesso!" }
  const NoColumns := "Nenhuma coluna encontrada para esta tabela."
  function ColumnsText(table: string): string { "Colunas da tabela \"" + table + "\" carregadas com sucesso!" }

  /** The notice a level load leaves: the error, the empty notice, or the success notice. */
  function LoadNotice<T>(fetched: Outcome<seq<T>>, empty: string, success: string): Notice
  {
    if fetched.Err? then Notice(ErrorToast, Message(fetched.error))
    else if |fetched.value| == 0 then Notice(ErrorToast, empty)
    else Notice(SuccessToast, success)
  }

  class ServersData {
    var servers: seq<Server>
    var selectedServer: Option<Server>
    var isLoading: bool
    var isConnecting: bool
    var error: Option<string>
    const toasts: Toaster

    /** Both busy flags are down: nothing in the hook ever raises them. */
    predicate Quiet()
      reads this
    {
      !isLoading && !isConnecting
    }

    constructor (toasts: Toaster)
      ensures servers == [] && selectedServer == None && Quiet() && error == None && this.toasts == toasts
    {
      servers := [];
      selectedServer := None;
      isLoading := false;
      isConnecting := false;
      error := None;
      this.toasts := toasts;
    }

    /** `initLoadingState` */
    method InitLoadingState()
      modifies this
      ensures Quiet() && error == None
      ensures servers == old(servers) && selectedServer == old(selectedServer)
    {
      isLoading := false;
      isConnecting := false;
      error := None;
    }

    /** `handleError`: the message in the error slot and in an error notice. */
    method HandleError(e: Thrown)
      modifies this, toasts
      ensures error == Some(Message(e))
      ensures toasts.log == old(toasts.log) + [Notice(ErrorToast, Message(e))]
      ensures servers == old(servers) && selectedServer == old(selectedServer)
      ensures isLoading == old(isLoading) && isConnecting == old(isConnecting)
    {
      error := Some(Message(e));
      toasts.Error(Message(e));
    }

    /** `fetchServers`: the list replaced by the backend's, or only the error slot set. */
    method FetchServers(list: Outcome<seq<Server>>)
      modifies this
      ensures servers == if list.Ok? then list.value else old(servers)
      ensures error == if list.Err? then Some(Message(list.error)) else None
      ensures selectedServer == old(selectedServer) && toasts.log == old(toasts.log) && Quiet()
    {
      InitLoadingState();
      if list.Ok? {
        servers := list.value;
      } else {
        error := Some(Message(list.error));
      }
      isLoading := false;
    }

    /** `addServer`: the created record appended at the end. */
    method AddServer(created: Outcome<Server>) returns (r: Option<Server>)
      modifies this, toasts
      ensures servers == if created.Ok? then old(servers) + [created.value] else old(servers)
      ensures r == if created.Ok? then Some(created.value) else None
      ensures error == if created.Err? then Some(Message(created.error)) else None
      ensures toasts.log == old(toasts.log) +
                [if created.Ok? then Notice(SuccessToast, AddedText(created.value.name)) else Notice(ErrorToast, Message(created.error))]
      ensures selectedServer == old(selectedServer) && Quiet()
    {
      InitLoadingState();
      if created.Err? {
        HandleError(created.error);
        r := None;
      } else {
        servers := servers + [created.value];
        toasts.Success(AddedText(created.value.name));
        r := Some(created.value);
      }
      isLoading := false;
    }

    /** `getServer`: the record is handed back and the list is not touched. */
    method GetServer(fetched: Outcome<Server>) returns (r: Option<Server>)
      modifies this, toasts
      ensures r == if fetched.Ok? then Some(fetched.value) else None
      ensures error == if fetched.Err? then Some(Message(fetched.error)) else None
      ensures toasts.log == old(toasts.log) + (if fetched.Err? then [Notice(ErrorToast, Message(fetched.error))] else [])
      ensures servers == old(servers) && selectedServer == old(selectedServer) && Quiet()
    {
      InitLoadingState();
      if fetched.Err? {
        HandleError(fetched.error);
        r := None;
      } else {
        r := Some(fetched.value);
      }
      isLoading := false;
    }

    /** `editServer`: every record with the id replaced by the returned one, and the selection kept in step. */
    method EditServer(id: int, updated: Outcome<Server>) returns (r: Option<Server>)
      modifies this, toasts
      ensures servers == if updated.Ok? then MapWhere(old(servers), ServerIs(id), Replace(updated.value)) else old(servers)
      ensures selectedServer ==
                if updated.Ok? && old(selectedServer).Some? && old(selectedServer).value.id == id
                then Some(updated.value) else old(selectedServer)
      ensures r == if updated.Ok? then Some(updated.value) else None
      ensures error == if updated.Err? then Some(Message(updated.error)) else None
      ensures toasts.log == old(toasts.log) +
                [if updated.Ok? then Notice(SuccessToast, UpdatedText(updated.value.name)) else Notice(ErrorToast, Message(updated.error))]
      ensures Quiet()
    {
      InitLoadingState();
      if updated.Err? {
        HandleError(updated.error);
        r := None;
      } else {
        servers := MapWhere(servers, ServerIs(id), Replace(updated.value));
        if selectedServer.Some? && selectedServer.value.id == id {
          selectedServer := Some(updated.value);
        }
        toasts.Success(UpdatedText(updated.value.name));
        r := Some(updated.value);
      }
      isLoading := false;
    }

    /** `removeServer`: the records with the id filtered out once the delete succeeds, and the selection dropped if it was one. */
    method RemoveServer(id: int, deleted: Outcome<()>)
      modifies this, toasts
      ensures servers == if deleted.Ok? then Filter(old(servers), ServerIsNot(id)) else old(servers)
      ensures selectedServer ==
                if deleted.Ok? && old(selectedServer).Some? && old(selectedServer).value.id == id
                then None else old(selectedServer)
      ensures error == if deleted.Err? then Some(Message(deleted.error)) else None
      ensures toasts.log == old(toasts.log) +
                [if deleted.Ok? then Notice(SuccessToast, RemovedText) else Notice(ErrorToast, Message(deleted.error))]
      ensures Quiet()
    {
      InitLoadingState();
      if deleted.Err? {
        HandleError(deleted.error);
      } else {
        servers := Filter(servers, ServerIsNot(id));
        if selectedServer.Some? && selectedServer.value.id == id {
          selectedServer := None;
        }
        toasts.Success(RemovedText);
      }
      isLoading := false;
    }

    /**
     * `connectToServer`, with the connect call's and the database call's
     * outcomes as parameters: an already connected server answers true at
     * once; while a connect is under way nothing happens (the flag is never
     * up, so this never fires); a failed connect leaves the list alone; a failed database load
     * keeps the connection and still answers the connect result.
     */
    method ConnectToServer(server: Server, connected: Outcome<bool>, dbs: Outcome<seq<Database>>) returns (r: Option<bool>)
      modifies this, toasts
      ensures server.isConnected ==> r == Some(true) && servers == old(servers) && toasts.log == old(toasts.log) && error == old(error)
      ensures !server.isConnected && old(isConnecting) ==>
                r == None && servers == old(servers) && toasts.log == old(toasts.log) && error == old(error)
      ensures !server.isConnected && !old(isConnecting) && connected.Err? ==>
                r == None && servers == old(servers) && error == Some(Message(connected.error)) &&
                toasts.log == old(toasts.log) + [Notice(ErrorToast, Message(connected.error))]
      ensures !server.isConnected && !old(isConnecting) && connected.Ok? ==>
                r == Some(connected.value) &&
                servers == Connected(old(servers), server.id, connected.value, dbs) &&
                error == (if dbs.Err? then Some(Message(dbs.error)) else None) &&
                toasts.log == old(toasts.log) + [Notice(SuccessToast, ConnectedText(server.name))] +
                  (if dbs.Err? then [Notice(ErrorToast, Message(dbs.error))]
                   else if |dbs.value| > 0 then [Notice(SuccessToast, DatabasesText(server.name))]
                   else [])
      ensures selectedServer == old(selectedServer)
      ensures old(Quiet()) ==> Quiet()
    {
      if server.isConnected {
        return Some(true);
      }
      if isConnecting {
        return None;
      }
      InitLoadingState();
      if connected.Err? {
        HandleError(connected.error);
        isConnecting := false;
        return None;
      }
      r := Connect(server, connected.value, dbs);
    }

    /** What `connectToServer` does once the connect call has answered `h`. */
    method Connect(server: Server, h: bool, dbs: Outcome<seq<Database>>) returns (r: Option<bool>)
      requires error == None
      modifies this, toasts
      ensures r == Some(h)
      ensures servers == Connected(old(servers), server.id, h, dbs)
      ensures error == if dbs.Err? then Some(Message(dbs.error)) else None
      ensures toasts.log == old(toasts.log) + [Notice(SuccessToast, ConnectedText(server.name))] +
                (if dbs.Err? then [Notice(ErrorToast, Message(dbs.error))]
                 else if |dbs.value| > 0 then [Notice(SuccessToast, DatabasesText(server.name))]
                 else [])
      ensures selectedServer == old(selectedServer) && isLoading == old(isLoading) && !isConnecting
    {
      servers := MapWhere(servers, ServerIs(server.id), SetConnected(h));
      toasts.Success(ConnectedText(server.name));
      if dbs.Err? {
        HandleError(dbs.error);
      } else if |dbs.value| > 0 {
        servers := MapWhere(servers, ServerIs(server.id), SetDatabases(dbs.value));
        toasts.Success(DatabasesText(server.name));
      }
      r := Some(h);
      isConnecting := false;
    }

    /** `getDatabaseSchemas`: an empty answer returns `[]` and leaves the list as it was. */
    method GetDatabaseSchemas(sid: int, db: Option<string>, fetched: Outcome<seq<Schema>>) returns (r: Option<seq<Schema>>)
      modifies this, toasts
      ensures servers == if fetched.Ok? && |fetched.value| > 0 then SchemasLoaded(old(servers), sid, db, fetched.value) else old(servers)
      ensures r == if fetched.Ok? then Some(fetched.value) else None
      ensures error == if fetched.Err? then Some(Message(fetched.error)) else None
      ensures toasts.log == old(toasts.log) + [LoadNotice(fetched, NoSchemas, SchemasText(db))]
      ensures selectedServer == old(selectedServer) && Quiet()
    {
      InitLoadingState();
      if fetched.Err? {
        HandleError(fetched.error);
        r := None;
      } else if |fetched.value| == 0 {
        toasts.Error(NoSchemas);
        r := Some([]);
      } else {
        servers := SchemasLoaded(servers, sid, db, fetched.value);
        toasts.Success(SchemasText(db));
        r := Some(fetched.value);
      }
      isLoading := false;
    }

    /** `getSchemaTables`: an empty answer returns `[]` and leaves the list as it was. */
    method GetSchemaTables(sid: int, schema: string, db: Option<string>, fetched: Outcome<seq<Table>>) returns (r: Option<seq<Table>>)
      modifies this, toasts
      ensures servers == if fetched.Ok? && |fetched.value| > 0 then TablesLoaded(old(servers), sid, schema, db, fetched.value) else old(servers)
      ensures r == if fetched.Ok? then Some(fetched.value) else None
      ensures error == if fetched.Err? then Some(Message(fetched.error)) else None
      ensures toasts.log == old(toasts.log) + [LoadNotice(fetched, NoTables, TablesText(schema))]
      ensures selectedServer == old(selectedServer) && Quiet()
    {
      InitLoadingState();
      if fetched.Err? {
        HandleError(fetched.error);
        r := None;
      } else if |fetched.value| == 0 {
        toasts.Error(NoTables);
        r := Some([]);
      } else {
        servers := TablesLoaded(servers, sid, schema, db, fetched.value);
        toasts.Success(TablesText(schema));
        r := Some(fetched.value);
      }
      isLoading := false;
    }

    /** `getSchemaColumns`: an empty answer returns `[]` and leaves the list as it was. */
    method GetSchemaColumns(sid: int, schema: string, table: string, db: Option<string>, fetched: Outcome<seq<Data>>)
      returns (r: Option<seq<Data>>)
      modifies this, toasts
      ensures servers == if fetched.Ok? && |fetched.value| > 0 then ColumnsLoaded(old(servers), sid, schema, table, db, fetched.value) else old(servers)
      ensures r == if fetched.Ok? then Some(fetched.value) else None
      ensures error == if fetched.Err? then Some(Message(fetched.error)) else None
      ensures toasts.log == old(toasts.log) + [LoadNotice(fetched, NoColumns, ColumnsText(table))]
      ensures selectedServer == old(selectedServer) && Quiet()
    {
      InitLoadingState();
      if fetched.Err? {
        HandleError(fetched.error);
        r := None;
      } else if |fetched.value| == 0 {
        toasts.Error(NoColumns);
        r := Some([]);
      } else {
        servers := ColumnsLoaded(servers, sid, schema, table, db, fetched.value);
        toasts.Success(ColumnsText(table));
        r := Some(fetched.value);
      }
      isLoading := false;
    }
  }
}
