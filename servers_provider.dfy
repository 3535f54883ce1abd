/**
 * `ServersProvider` of `src/providers/serversProvider.tsx`: a flat list of
 * server records shared through a context, with a loading flag, an error slot
 * and the selected server. Unlike the hooks, every failure here is reported as
 * "Failed to <operation>: <message>" and thrown again to the caller as a new
 * `Error` carrying that same text.
 */
module ServersProvider {
  import opened Values
  import opened Outcomes
  import opened Lists

  /** `IPostgreServer` */
  datatype PgServer = PgServer(
    id: int, name: string, host: string, port: int, username: string, password: string,
    createdAt: int, isConnected: bool)

  function HasId(id: int): PgServer -> bool
  {
    (s: PgServer) => s.id == id
  }

  function OtherId(id: int): PgServer -> bool
  {
    (s: PgServer) => s.id != id
  }

  function Replace(updated: PgServer): PgServer -> PgServer
  {
    (s: PgServer) => updated
  }

  /** `Failed to ${op}: ${err instanceof Error ? err.message : String(err)}` */
  function FailureText(op: string, e: Thrown): string
  {
    "Failed to " + op + ": " + Message(e)
  }

  /** What the caller receives: the value, or `new Error(text)` with the text the error slot got. */
  function Rethrown<T>(o: Outcome<T>, op: string): (r: Outcome<T>)
  {
    match o
    case Ok(v) => Ok(v)
    case Err(e) => Err(ErrorObject(FailureText(op, e)))
  }

  /** The error slot after a call that settled as `o`. */
  function ErrorAfter<T>(o: Outcome<T>, op: string): Option<string>
  {
    if o.Err? then Some(FailureText(op, o.error)) else None
  }

  /** The slot holds exactly the message of what was thrown to the caller. */
  lemma RethrowMatchesSlot<T>(o: Outcome<T>, op: string)
    ensures Rethrown(o, op).Err? <==> ErrorAfter(o, op).Some?
    ensures Rethrown(o, op).Err? ==> ErrorAfter(o, op) == Some(Message(Rethrown(o, op).error))
  {
  }

  class ServersProvider {
    var servers: seq<PgServer>
    var selectedServer: Option<PgServer>
    var isLoading: bool
    var error: Option<string>

    constructor ()
      ensures servers == [] && selectedServer == None && !isLoading && error == None
    {
      servers := [];
      selectedServer := None;
      isLoading := false;
      error := None;
    }

    /** What every call does before it awaits the backend: loading up, error cleared. */
    method Begin()
      modifies this
      ensures isLoading && error == None
      ensures servers == old(servers) && selectedServer == old(selectedServer)
    {
      isLoading := true;
      error := None;
    }

    /** `fetchServers`: the list replaced, or the error slot set; nothing is thrown. */
    method FetchServers(list: Outcome<seq<PgServer>>)
      modifies this
      ensures servers == if list.Ok? then list.value else old(servers)
      ensures error == ErrorAfter(list, "fetch servers")
      ensures selectedServer == old(selectedServer) && !isLoading
    {
      Begin();
      if list.Ok? {
        servers := list.value;
      } else {
        error := Some(FailureText("fetch servers", list.error));
      }
      isLoading := false;
    }

    /** `addServer`: the created record appended. */
    method AddServer(created: Outcome<PgServer>) returns (r: Outcome<PgServer>)
      modifies this
      ensures servers == if created.Ok? then old(servers) + [created.value] else old(servers)
      ensures r == Rethrown(created, "create server")
      ensures error == ErrorAfter(created, "create server")
      ensures selectedServer == old(selectedServer) && !isLoading
    {
      Begin();
      if created.Ok? {
        servers := servers + [created.value];
        r := Ok(created.value);
      } else {
        var errorMessage := FailureText("create server", created.error);
        error := Some(errorMessage);
        r := Err(ErrorObject(errorMessage));
      }
      isLoading := false;
    }

    /** `getServer`: the record handed back, the list untouched. */
    method GetServer(fetched: Outcome<PgServer>) returns (r: Outcome<PgServer>)
      modifies this
      ensures r == Rethrown(fetched, "get server")
      ensures error == ErrorAfter(fetched, "get server")
      ensures servers == old(servers) && selectedServer == old(selectedServer) && !isLoading
    {
      Begin();
      if fetched.Ok? {
        r := Ok(fetched.value);
      } else {
        var errorMessage := FailureText("get server", fetched.error);
        error := Some(errorMessage);
        r := Err(ErrorObject(errorMessage));
      }
      isLoading := false;
    }

    /** `editServer`: every record with the id replaced, and the selection kept in step. */
    method EditServer(id: int, updated: Outcome<PgServer>) returns (r: Outcome<PgServer>)
      modifies this
      ensures servers == if updated.Ok? then MapWhere(old(servers), HasId(id), Replace(updated.value)) else old(servers)
      ensures selectedServer ==
                if updated.Ok? && old(selectedServer).Some? && old(selectedServer).value.id == id
                then Some(updated.value) else old(selectedServer)
      ensures r == Rethrown(updated, "update server")
      ensures error == ErrorAfter(updated, "update server")
      ensures !isLoading
    {
      Begin();
      if updated.Ok? {
        servers := MapWhere(servers, HasId(id), Replace(updated.value));
        if selectedServer.Some? && selectedServer.value.id == id {
          selectedServer := Some(updated.value);
        }
        r := Ok(updated.value);
      } else {
        var errorMessage := FailureText("update server", updated.error);
        error := Some(errorMessage);
        r := Err(ErrorObject(errorMessage));
      }
      isLoading := false;
    }

    /** `removeServer`: the records with the id filtered out, and the selection dropped if it was one. */
    method RemoveServer(id: int, deleted: Outcome<()>) returns (r: Outcome<()>)
      modifies this
      ensures servers == if deleted.Ok? then Filter(old(servers), OtherId(id)) else old(servers)
      ensures selectedServer ==
                if deleted.Ok? && old(selectedServer).Some? && old(selectedServer).value.id == id
                then None else old(selectedServer)
      ensures r == Rethrown(deleted, "delete server")
      ensures error == ErrorAfter(deleted, "delete server")
      ensures !isLoading
    {
      Begin();
      if deleted.Ok? {
        servers := Filter(servers, OtherId(id));
        if selectedServer.Some? && selectedServer.value.id == id {
          selectedServer := None;
        }
        r := Ok(deleted.value);
      } else {
        var errorMessage := FailureText("delete server", deleted.error);
        error := Some(errorMessage);
        r := Err(ErrorObject(errorMessage));
      }
      isLoading := false;
    }

    /** `selectServer`: `null` clears the selection; an id selects the first server with it, or nothing. */
    method SelectServer(id: Option<int>)
      modifies this
      ensures selectedServer == if id.None? then None else FindFirst(servers, HasId(id.value))
      ensures id.Some? && selectedServer.Some? ==> selectedServer.value in servers && selectedServer.value.id == id.value
      ensures id.Some? && selectedServer.None? ==> forall i :: 0 <= i < |servers| ==> servers[i].id != id.value
      ensures servers == old(servers) && isLoading == old(isLoading) && error == old(error)
    {
      if id.None? {
        selectedServer := None;
        return;
      }
      selectedServer := FindFirst(servers, HasId(id.value));
    }
  }

  /** After a removal no record with the id is left, and no other record is lost. */
  lemma RemovedIsGone(servers: seq<PgServer>, id: int)
    ensures forall i :: 0 <= i < |Filter(servers, OtherId(id))| ==> Filter(servers, OtherId(id))[i].id != id
    ensures forall i :: 0 <= i < |servers| && servers[i].id != id ==> servers[i] in Filter(servers, OtherId(id))
  {
  }
}
