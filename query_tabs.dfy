/**
 * `useQueryTabs` of `use-query-tabs.ts`: the list of open query editors and
 * the id of the active one. Opening appends a tab, closing filters it out,
 * typing replaces one tab's text and running a query stores its rows on the
 * tab it ran from; every other tab is left as it was.
 */
module QueryTabs {
  import opened Values
  import opened Outcomes
  import opened Lists

  datatype Tab = Tab(
    id: string,
    serverId: int,
    databaseName: string,
    title: string,
    content: string,
    /** `result.rows`, once a query has run on this tab. */
    result: Option<seq<Data>>)

  /** The query `runQuery` sends: server, database and text of the tab. */
  datatype QueryCall = QueryCall(serverId: int, databaseName: string, sql: string)

  /** `${serverId}-${db}-${Date.now()}`, with the clock reading as a parameter. */
  function TabId(serverId: int, db: string, now: int): string
  {
    IntToString(serverId) + "-" + db + "-" + IntToString(now)
  }

  /** The tab `openTab` appends: titled after the database, with no text and no result. */
  function NewTab(id: string, serverId: int, db: string): (r: Tab)
  {
    Tab(id, serverId, db, db, "", None)
  }

  /** `(t) => t.id === id` */
  function HasId(id: string): Tab -> bool
  {
    (t: Tab) => t.id == id
  }

  /** `(t) => t.id !== id` */
  function OtherId(id: string): Tab -> bool
  {
    (t: Tab) => t.id != id
  }

  /** `{ ...t, content }` */
  function SetText(content: string): Tab -> Tab
  {
    (t: Tab) => t.(content := content)
  }

  /** `{ ...t, result: { rows: result } }` */
  function SetRows(rows: seq<Data>): Tab -> Tab
  {
    (t: Tab) => t.(result := Some(rows))
  }

  /** Closing removes every tab with the id and keeps every other tab. */
  lemma CloseRemoves(tabs: seq<Tab>, id: string)
    ensures forall t :: t in Filter(tabs, OtherId(id)) <==> t in tabs && t.id != id
  {
    var r := Filter(tabs, OtherId(id));
    forall t | t in tabs && t.id != id ensures t in r {
      var i :| 0 <= i < |tabs| && tabs[i] == t;
    }
  }

  /** Closing a tab just opened under a fresh id gives back the tabs from before, in their order. */
  lemma OpenThenClose(tabs: seq<Tab>, id: string, serverId: int, db: string)
    requires forall i :: 0 <= i < |tabs| ==> tabs[i].id != id
    ensures Filter(tabs + [NewTab(id, serverId, db)], OtherId(id)) == tabs
  {
    var added := [NewTab(id, serverId, db)];
    FilterAppend(tabs, added, OtherId(id));
    FilterAll(tabs, OtherId(id));
    assert added[..0] == [];
  }

  /** Typing into a tab changes its text and nothing else, in that tab or any other. */
  lemma SetContentOnly(tabs: seq<Tab>, id: string, content: string)
    ensures |MapWhere(tabs, HasId(id), SetText(content))| == |tabs|
    ensures forall i :: 0 <= i < |tabs| ==>
              MapWhere(tabs, HasId(id), SetText(content))[i] ==
              if tabs[i].id == id then tabs[i].(content := content) else tabs[i]
  {
  }

  /** Typing twice leaves the second text. */
  lemma {:induction false} SetContentTwice(tabs: seq<Tab>, id: string, a: string, b: string)
    ensures MapWhere(MapWhere(tabs, HasId(id), SetText(a)), HasId(id), SetText(b)) == MapWhere(tabs, HasId(id), SetText(b))
  {
    var once := MapWhere(tabs, HasId(id), SetText(a));
    var twice := MapWhere(once, HasId(id), SetText(b));
    var direct := MapWhere(tabs, HasId(id), SetText(b));
    forall i | 0 <= i < |tabs| ensures twice[i] == direct[i] {
      assert once[i].id == tabs[i].id;
    }
  }

  class QueryTabs {
    var tabs: seq<Tab>
    var activeTabId: Option<string>

    constructor ()
      ensures tabs == [] && activeTabId == None
    {
      tabs := [];
      activeTabId := None;
    }

    /** `openTab`: one new tab at the end, and it becomes the active one. */
    method OpenTab(serverId: int, db: string, now: int)
      modifies this
      ensures tabs == old(tabs) + [NewTab(TabId(serverId, db, now), serverId, db)]
      ensures activeTabId == Some(TabId(serverId, db, now))
    {
      var id := TabId(serverId, db, now);
      tabs := tabs + [Tab(id, serverId, db, db, "", None)];
      activeTabId := Some(id);
    }

    /** `closeTab`: every tab with the id goes, and the active tab is dropped only if it was that id. */
    method CloseTab(id: string)
      modifies this
      ensures tabs == Filter(old(tabs), OtherId(id))
      ensures activeTabId == if old(activeTabId) == Some(id) then None else old(activeTabId)
    {
      tabs := Filter(tabs, OtherId(id));
      if activeTabId == Some(id) {
        activeTabId := None;
      }
    }

    /** `setContent`: the text of the tabs with the id, and nothing else. */
    method SetContent(id: string, content: string)
      modifies this
      ensures tabs == MapWhere(old(tabs), HasId(id), SetText(content))
      ensures activeTabId == old(activeTabId)
    {
      tabs := MapWhere(tabs, HasId(id), SetText(content));
    }

    /**
     * `runQuery`, with the backend's answer as a parameter: an unknown id
     * sends nothing and changes nothing; otherwise the first matching tab's
     * query is sent, and on success its rows go onto every tab with the id. A
     * failed query rejects the returned promise and changes nothing.
     */
    method RunQuery(id: string, answer: Outcome<seq<Data>>) returns (call: Option<QueryCall>)
      modifies this
      ensures FindFirst(old(tabs), HasId(id)).None? ==> call == None && tabs == old(tabs)
      ensures FindFirst(old(tabs), HasId(id)).Some? ==>
                var tab := FindFirst(old(tabs), HasId(id)).value;
                call == Some(QueryCall(tab.serverId, tab.databaseName, tab.content))
      ensures tabs == if FindFirst(old(tabs), HasId(id)).Some? && answer.Ok? then MapWhere(old(tabs), HasId(id), SetRows(answer.value)) else old(tabs)
      ensures activeTabId == old(activeTabId)
    {
      var tab := FindFirst(tabs, HasId(id));
      if tab.None? {
        return None;
      }
      call := Some(QueryCall(tab.value.serverId, tab.value.databaseName, tab.value.content));
      if answer.Ok? {
        tabs := MapWhere(tabs, HasId(id), SetRows(answer.value));
      }
    }
  }
}
