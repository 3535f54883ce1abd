# octapus_db sidebar tree, modelled in Dafny

octapus_db is a desktop PostgreSQL client. Its sidebar shows servers,
databases, schemas, tables and their column, index and trigger groups. The
tree behind it is a flat record of nodes addressed by string keys such as
`table::3::shop::public::orders`. Nodes are fetched level by level when the
user expands them. This project models that tree and everything that fills
it in or reads it:

- the key scheme: parts joined with `::`, split again by the click handlers,
  and a node's kind read from the first part (`Keys`);
- the node record with its insertion-ordered keys, and the three tree
  actions `upsertNode`, `setChildren` and `removeSubtree` (`ServerTree`);
- the run helper: busy flags, error slot, error notice and rethrow
  (`AsyncRunner`);
- the generic children loader (`LoadChildren`);
- the per-level loaders with their synthetic "Tabelas", "Colunas", "Índices"
  and "Triggers" groups (`DbStructure`);
- the server CRUD and connect hook on the tree (`ServerConnections`);
- the older hook that does the same job inline, with its defect
  (`LegacyServerData`);
- root detection and the cached nested projection (`UseTree`);
- the click dispatch, the expandable kinds and the column caption
  (`RenderItems`);
- the snake_case to camelCase rewrite (`CamelCase`);
- server-form validation and port parsing (`ServerForm`);
- the query-tab list (`QueryTabs`);
- the nested-array server store `ServersData` and the flat-list server
  store `ServersProvider`.

Remote calls are never made. Each call is a parameter: an `Outcome` that is
either the value the call resolved with or the thrown value (`Thrown`: an
`Error` object with its message, or anything else with its `String` text).
Toasts are entries appended to a notice log (`Toasts.Toaster`). The clock
reading in `openTab` is a parameter too. Each hook's React state is a class
whose fields the methods update. A functional `setState` is one atomic
assignment.

JavaScript values that matter are modelled explicitly (`Values.Value`):
`undefined`, `null`, booleans, integers, `NaN` and strings, with their
truthiness, `??`, `||`, `String` and `Number`. The order of an object's keys
is modelled, because the roots are listed in it: a new key goes last, and
reassigning a key keeps its place.

## Model

| member | source | states |
|---|---|---|
| Keys.Split | src/components/layout/Sidebar/render-items.tsx:80 | `split("::")` always gives at least one piece, the empty text included |
| Keys.SplitJoin | src/shared/utils/serverTree.ts:18-19 | splitting a key joined from parts with no `::`, none but the last ending in `:`, gives back exactly those parts |
| Keys.JoinInjective | src/shared/utils/serverTree.ts:18-19 | on such parts `key` is injective: two keys are equal only when their parts are |
| Keys.TrailingColonCollision | src/shared/utils/serverTree.ts:18-19 | excluding `::` from the parts is not enough: `["a:", "b"]` and `["a", ":b"]` give one key |
| Keys.KindOfJoin | src/shared/hooks/use-tree.ts:22 | the text before the first `::` is the first part when that part is well formed |
| Keys.KindOfKey | src/shared/hooks/use-tree.ts:22 | every key built for a kind reads back as that kind, whatever names the other parts hold |
| Keys.DistinctKindsDistinctKeys | src/shared/utils/serverTree.ts:5-19 | keys of different kinds never collide |
| Keys.KeyLastPart | src/shared/utils/serverTree.ts:18-19 | two keys sharing their leading parts are equal exactly when their last parts print alike |
| Values.NumberOf | src/components/layout/Sidebar/render-items.tsx:82 | `Number` on a key part gives an integer or `NaN`, never another kind of value |
| Values.NumberOfIntToString | src/components/layout/Sidebar/render-items.tsx:82 | `Number(String(n)) == n` for every integer id printed into a key |
| Values.IntToStringNoColon | src/shared/utils/serverTree.ts:18-19 | a printed id never holds a colon, so it is a well-formed key part |
| ServerTree.Put | src/shared/hooks/use-server-data.ts:201 | an assignment sets one key, leaves every other key's node alone, and puts only a new key last in the order |
| ServerTree.PutTwice | src/shared/hooks/use-server-data.ts:201 | a second assignment to a key wins, and the key keeps its first place |
| ServerTree.Delete | src/shared/hooks/use-server-data.ts:54 | `delete` removes one key and changes no other node |
| ServerTree.Upsert | src/shared/utils/serverTree.ts:24-35 | an absent key gets a node with no children and the given data, appended to the order; a present one keeps its children and place, gets its data overridden field by field, and keeps its name only when the new one is `null` or `undefined`; no other key changes |
| ServerTree.Attach | src/shared/utils/serverTree.ts:37-43 | a present parent gets exactly the given children and keeps its name and data; an absent one leaves the record as it was; no other key and no key order changes |
| ServerTree.UpsertTwice | src/shared/utils/serverTree.ts:24-35 | two upserts of one key are one upsert with the later name first and the data merged in order |
| ServerTree.UpsertIdempotent | src/shared/utils/serverTree.ts:24-35 | repeating an upsert changes nothing |
| ServerTree.UpsertKeepsAttached | src/shared/utils/serverTree.ts:30 | an upsert after `setChildren` keeps the children just set |
| ServerTree.AttachTwice | src/shared/utils/serverTree.ts:37-43 | the later `setChildren` of a parent wins |
| ServerTree.ApplyOpsAt | src/shared/utils/serverTree.ts:24-43 | after a run of updates, a key's node depends only on its old node and the updates aimed at it |
| ServerTree.ApplyOpsKeys | src/shared/utils/serverTree.ts:24-43 | updates never remove a key, every upserted key ends up present, and when every upserted key was present already the key order does not move |
| ServerTree.FoldPresent | src/shared/utils/serverTree.ts:29-31 | on an existing node a run of updates keeps the last name given, the last children list given, and all the data merged |
| ServerTree.FoldCreated | src/shared/utils/serverTree.ts:27-32 | a key whose updates start with an upsert exists afterwards, with field `f` and the children agreed by every update |
| ServerTree.FoldWithoutUpsert | src/shared/utils/serverTree.ts:40 | `setChildren` alone never creates a node |
| ServerTree.ApplyOpsIdempotent | src/shared/utils/serverTree.ts:24-43 | applying the same updates twice leaves the record as applying them once |
| ServerTree.DisjointOpsCommute | src/shared/utils/serverTree.ts:24-43 | two runs of updates on disjoint keys give the same nodes in either order |
| ServerTree.ClosedHoldsReachable | src/shared/utils/serverTree.ts:45-57 | a set holding the root and closed under children holds every key reachable from it |
| ServerTree.PutEachLastWins | src/shared/hooks/use-server-data.ts:198-206 | after a loop of assignments, each item's key holds the node of the last item with that key |
| ServerTree.PutEachOthers | src/shared/hooks/use-server-data.ts:198-206 | a key that no item has keeps its node |
| ServerTree.PutEachOrder | src/shared/hooks/use-server-data.ts:198-206 | distinct new keys go after the existing ones, in item order |
| ServerTree.PutEachCollecting | src/shared/hooks/use-server-data.ts:196-206 | the loop ends with the record of the assignments and with the item keys pushed in item order |
| ServerTree.TreeStore.UpsertNode | src/shared/utils/serverTree.ts:24-35 | the store becomes the upsert of its old record |
| ServerTree.TreeStore.SetChildren | src/shared/utils/serverTree.ts:37-43 | the store becomes the attach of its old record |
| ServerTree.TreeStore.ApplyAll | src/shared/utils/serverTree.ts:24-43 | issuing the updates one after the other gives the record of the whole update list |
| ServerTree.TreeStore.RemoveSubtree | src/shared/utils/serverTree.ts:45-57 | exactly the keys reachable from the root are deleted, on cyclic children too; every other key keeps its node, including stale child lists, and its relative order |
| AsyncRunner.StartedSetsOneFlag | src/shared/utils/asyncRunner.ts:27-29 | entry raises only the flag of the run's kind and clears the error |
| AsyncRunner.RunEndsIdle | src/shared/utils/asyncRunner.ts:21-45 | on every exit path the raised flag is reset and the other kept; the error ends empty on success and holds the message on failure |
| AsyncRunner.RetryClearsError | src/shared/utils/asyncRunner.ts:29 | a success after a failure leaves no trace of the failure in the error slot |
| AsyncRunner.Runner.Start | src/shared/utils/asyncRunner.ts:27-29 | the flag of the kind goes up, the error is cleared, nothing else changes |
| AsyncRunner.Runner.Settle | src/shared/utils/asyncRunner.ts:31-44 | success calls `onSuccess` with the result and returns it; failure stores the message, logs one error notice, calls `onError` and rethrows the same value; both reset the kind's flag |
| AsyncRunner.Runner.Run | src/shared/utils/asyncRunner.ts:21-45 | a whole run: the flags of the start then the settle, the notices of the failure if any, the task's own outcome returned |
| LoadChildren.ChildKeys | src/shared/utils/serverTree.ts:95-98 | one mapped key per item, in fetch order |
| LoadChildren.FailedLoadKeepsTree | src/shared/utils/serverTree.ts:87-105 | a failed fetch changes no node |
| LoadChildren.EmptyLoadClears | src/shared/utils/serverTree.ts:90-94 | an empty result clears a present parent's children and touches nothing else |
| LoadChildren.LoadAttachesChildren | src/shared/utils/serverTree.ts:96-101 | a non-empty result makes every mapped key present and gives a present parent exactly the mapped keys in fetch order |
| LoadChildren.LoadLeavesOthers | src/shared/utils/serverTree.ts:87-105 | a key no update aims at keeps its node |
| LoadChildren.ParentAfterLoad | src/shared/utils/serverTree.ts:90-101 | when no item aims at the parent, a load keeps its name and data and gives it exactly the mapped keys (none for an empty result); an absent parent stays absent |
| LoadChildren.LoadedKeyNode | src/shared/utils/serverTree.ts:96-100 | a mapped key ends with a node carrying what every update on it agrees on, and the agreed children when some update sets them |
| LoadChildren.LoadedKeyName | src/shared/utils/serverTree.ts:29 | a name every upsert of the key gives, not `null` or `undefined`, is its name |
| LoadChildren.LoadTwiceSame | src/shared/utils/serverTree.ts:70-107 | loading the same result twice leaves the record as loading it once |
| LoadChildren.DisjointLoadsCommute | src/shared/utils/serverTree.ts:70-107 | two loads touching no common key give the same nodes in either order |
| LoadChildren.Loader.MapItems | src/shared/utils/serverTree.ts:95-100 | the `forEach` issues every item's updates in order and collects the mapped keys |
| LoadChildren.Loader.LoadChildren | src/shared/utils/serverTree.ts:70-107 | the record becomes the load's record, the empty or success notice is logged, the run's flags settle, and the items (`[]` when empty) or the rejection come back |
| UseTree.ChildSet | src/shared/hooks/use-tree.ts:39-42 | the collected set holds exactly the keys some node lists as a child |
| UseTree.RootsAreUnreferenced | src/shared/hooks/use-tree.ts:38-43 | the roots are exactly the stored keys no node lists as a child, each once, in record order |
| UseTree.FindRoots | src/shared/hooks/use-tree.ts:38-43 | the loop and the filter compute exactly those roots |
| UseTree.NestedNode.constructor | src/shared/hooks/use-tree.ts:23-28 | a new nested node copies name and data, takes the kind and the key, and has no children |
| UseTree.Projector.Build | src/shared/hooks/use-tree.ts:17-35 | a cached key returns its cached node and changes nothing; otherwise the result is the cached, well-shaped projection, or a failure exactly when a key reachable from it is missing |
| UseTree.Projector.BuildNew | src/shared/hooks/use-tree.ts:21-34 | an uncached key is cached before its children are built, so cycles end |
| UseTree.Projector.BuildChildren | src/shared/hooks/use-tree.ts:31-33 | one nested node per child key, in order, each the cached node of that key |
| UseTree.Projector.Project | src/shared/hooks/use-tree.ts:12-48 | the projection fails exactly when a key reachable from a root is not stored; otherwise every root's node is its cached projection: kind is the key's first part, key, name and data copied, children the projections of the child keys and present only when there are some |
| DbStructure.SchemaKeysApart | src/shared/hooks/use-db-structure.ts:55-66 | a schema key, its "Tabelas" group key and the database key are three different keys |
| DbStructure.TableKeysApart | src/shared/hooks/use-db-structure.ts:111-145 | table-level keys of different kinds never meet, nor meet the schema's group key |
| DbStructure.TablesGroupIsTablesParent | src/shared/hooks/use-db-structure.ts:62-66 | the "Tabelas" group a schema load creates is the parent a table load for a schema fills exactly when the schema's name prints as that schema |
| DbStructure.GroupIsLeafParent | src/shared/hooks/use-db-structure.ts:124-145 | the group a table load creates is the parent the column, index or trigger load fills exactly when the table's name prints as that table |
| DbStructure.SchemaItemOps | src/shared/hooks/use-db-structure.ts:60-79 | one schema issues its group's upsert and then its own |
| DbStructure.TableItemOps | src/shared/hooks/use-db-structure.ts:116-171 | one table issues six updates: itself, its three groups, its children, and itself again |
| DbStructure.LinkSchemas | src/shared/hooks/use-db-structure.ts:85-102 | the `setServers` updater gives each fetched schema already present its group as its only child |
| DbStructure.SchemaLoadAttaches | src/shared/hooks/use-db-structure.ts:53-107 | a non-empty schema load creates every schema key and gives a present database node exactly the schema keys in fetch order |
| DbStructure.SchemaNodeLinked | src/shared/hooks/use-db-structure.ts:60-102 | after a schema load each schema node exists, carries `server_id`, and has exactly its "Tabelas" group as children |
| DbStructure.TablesGroupCreated | src/shared/hooks/use-db-structure.ts:69-72 | each "Tabelas" group exists, is named so, and carries `server_id` |
| DbStructure.SchemaLoadTwiceSame | src/shared/hooks/use-db-structure.ts:53-107 | the schema load run twice on one result gives the record of one run |
| DbStructure.TableNodeShaped | src/shared/hooks/use-db-structure.ts:116-171 | after a non-empty table load each table node exists, carries the schema name, and has exactly its column, index and trigger groups as children, in that order, kept by the later upsert |
| DbStructure.TableGroupCreated | src/shared/hooks/use-db-structure.ts:147-160 | each table's groups exist, are named "Colunas", "Índices" and "Triggers", and carry the schema name |
| DbStructure.TableLoadTwiceSame | src/shared/hooks/use-db-structure.ts:109-177 | the table load run twice on one result gives the record of one run |
| DbStructure.LeafLoadAttaches | src/shared/hooks/use-db-structure.ts:179-291 | a non-empty column, index or trigger load creates every leaf key and gives its group exactly those keys in fetch order |
| DbStructure.LeafLoadTwiceSame | src/shared/hooks/use-db-structure.ts:179-291 | a leaf load run twice on one result gives the record of one run |
| DbStructure.DbStructure.GetDatabaseSchemas | src/shared/hooks/use-db-structure.ts:53-107 | the record becomes the schema load's record, links included only after a successful fetch; notices, flags and outcome as the run gives them |
| DbStructure.DbStructure.GetSchemaTables | src/shared/hooks/use-db-structure.ts:109-177 | the record becomes the load under `schema_table::sid::db::schema`; notices, flags and outcome as the run gives them |
| DbStructure.DbStructure.GetTableColumns | src/shared/hooks/use-db-structure.ts:179-215 | the column leaves are loaded under the `table_column` group |
| DbStructure.DbStructure.GetTableIndexes | src/shared/hooks/use-db-structure.ts:217-253 | the index leaves are loaded under the `table_index` group |
| DbStructure.DbStructure.GetTableTriggers | src/shared/hooks/use-db-structure.ts:255-291 | the trigger leaves are loaded under the `table_trigger` group |
| ServerConnections.ServerNodesShape | src/shared/hooks/use-server-connections.ts:64-72 | `fetchServers` builds a node exactly under each server key, with no children and the record of the last server with that key, in fetch order |
| ServerConnections.AddMatchesFetch | src/shared/hooks/use-server-connections.ts:83 | an added server that was not in the record gets the node a later fetch would build |
| ServerConnections.EditKeepsConnection | src/shared/hooks/use-server-connections.ts:114 | an edit keeps the server's loaded children and every field the new record does not carry |
| ServerConnections.ConnectTask | src/shared/hooks/use-server-connections.ts:148-175 | the connect task rejects with the connect call's error, else the database load's, else resolves with the connect result |
| ServerConnections.ConnectedServerNode | src/shared/hooks/use-server-connections.ts:154-172 | after a connect and a database fetch the server node holds the connect marks and exactly the database keys in fetch order |
| ServerConnections.ConnectMarksServer | src/shared/hooks/use-server-connections.ts:154-157 | the server node's `isConnected` is the connect result and `default_database` the server's |
| ServerConnections.ConnectMarksOnFailedLoad | src/shared/hooks/use-server-connections.ts:154-164 | a failed database fetch still leaves the server marked |
| ServerConnections.ConnectedDatabaseNode | src/shared/hooks/use-server-connections.ts:165-169 | every fetched database gets a node carrying `server_id`; one present before keeps its children |
| ServerConnections.DatabasesUnderServer | src/shared/hooks/use-server-connections.ts:162-172 | every database loaded under a server is reachable from its key, so `removeServer` removes it |
| ServerConnections.ConnectRunEnds | src/shared/hooks/use-server-connections.ts:146-176 | the connect run resets `isConnecting`, the nested load resets `isLoading`, and the error holds the message of the call that rejected |
| ServerConnections.FailedLoadErrorTwice | src/shared/hooks/use-server-connections.ts:159-172 | a failed database fetch logs the connect notice and then the same error twice, once per enclosing run |
| ServerConnections.ServerConnections.FetchServers | src/shared/hooks/use-server-connections.ts:61-76 | the record is replaced by the server nodes on success and kept on failure |
| ServerConnections.ServerConnections.AddServer | src/shared/hooks/use-server-connections.ts:78-90 | the created server is upserted under its key and announced, or the run fails |
| ServerConnections.ServerConnections.GetServer | src/shared/hooks/use-server-connections.ts:92-99 | a plain run around the lookup |
| ServerConnections.ServerConnections.EditServer | src/shared/hooks/use-server-connections.ts:101-121 | the updated record is upserted under the caller's id and announced |
| ServerConnections.ServerConnections.RemoveServer | src/shared/hooks/use-server-connections.ts:123-135 | the subtree under `server::id` goes only after the delete succeeded |
| ServerConnections.ServerConnections.ConnectToServer | src/shared/hooks/use-server-connections.ts:141-179 | true at once for a connected server, `undefined` while a connect is in flight, and otherwise the connect run; nothing changes in the first two cases |
| ServerConnections.ServerConnections.ConnectRun | src/shared/hooks/use-server-connections.ts:146-176 | the connect run: the record, notices and flags of the connect and the nested load |
| LegacyServerData.InTree | src/shared/hooks/use-server-data.ts:43-72 | a removal deletes the server key alone, or does nothing when it is absent; anything else creates the node if needed, merges the data, and keeps the old name when the new one is falsy |
| LegacyServerData.RemovalKeepsDescendants | src/shared/hooks/use-server-data.ts:52-56 | a removal keeps every node reachable from the server, unlike `removeSubtree` |
| LegacyServerData.EmptyNameFallsBack | src/shared/hooks/use-server-data.ts:63 | an empty name keeps the old name here, where `upsertNode` would write the empty string |
| LegacyServerData.ConnectOverwritesDatabase | src/shared/hooks/use-server-data.ts:198-206 | each database node is overwritten whole with no children, schemas loaded earlier included |
| LegacyServerData.ConnectMarksLegacyServer | src/shared/hooks/use-server-data.ts:181-210 | after a connect the server node is present and marked; it gets the database keys only when databases came back |
| LegacyServerData.SchemasAttach | src/shared/hooks/use-server-data.ts:242-279 | a present database node keeps its name and data and gets exactly the schema keys in fetch order |
| LegacyServerData.TablesAttach | src/shared/hooks/use-server-data.ts:311-377 | a present "Tabelas" group keeps its name and data and gets exactly the table keys in fetch order |
| LegacyServerData.LeavesAttach | src/shared/hooks/use-server-data.ts:415-441 | a leaf load gives a present parent exactly the leaf keys in fetch order and writes each leaf whole |
| LegacyServerData.LeavesOthers | src/shared/hooks/use-server-data.ts:415-441 | a leaf load changes no key outside its leaves and its parent |
| LegacyServerData.TriggersOverwriteIndexes | src/shared/hooks/use-server-data.ts:543-569 | as written, indexes then triggers leave the index group with the trigger keys and the trigger group untouched |
| LegacyServerData.TriggersKeepIndexes | src/shared/hooks/use-server-data.ts:543-569 | with the `table_trigger` parent, each group keeps its own leaves |
| LegacyServerData.LegacyServerData.InitLoadingState | src/shared/hooks/use-server-data.ts:29-33 | both flags go down and the error is cleared |
| LegacyServerData.LegacyServerData.HandleError | src/shared/hooks/use-server-data.ts:35-39 | the message goes into the error slot and into one error notice |
| LegacyServerData.LegacyServerData.UpdateServerInTree | src/shared/hooks/use-server-data.ts:43-72 | the record becomes `InTree` of the old one |
| LegacyServerData.LegacyServerData.FetchServers | src/shared/hooks/use-server-data.ts:74-92 | the record is replaced on success; a failure only sets the error, with no notice |
| LegacyServerData.LegacyServerData.AddServer | src/shared/hooks/use-server-data.ts:94-109 | the created server is merged into the record and announced; errors are swallowed and `undefined` returned |
| LegacyServerData.LegacyServerData.GetServer | src/shared/hooks/use-server-data.ts:111-122 | the record is untouched and the server or nothing comes back |
| LegacyServerData.LegacyServerData.EditServer | src/shared/hooks/use-server-data.ts:124-147 | the update is merged under the caller's id |
| LegacyServerData.LegacyServerData.RemoveServer | src/shared/hooks/use-server-data.ts:149-163 | after a successful delete only the server key goes |
| LegacyServerData.LegacyServerData.ConnectToServer | src/shared/hooks/use-server-data.ts:165-228 | a connected server returns true and nothing changes; otherwise the marks are merged, the databases written and listed when some came back, and the connect result returned; both flags stay down |
| LegacyServerData.LegacyServerData.ConnectAndLoad | src/shared/hooks/use-server-data.ts:173-227 | the record, notices and error of the connect with its nested database fetch |
| LegacyServerData.LegacyServerData.MarkAndLoad | src/shared/hooks/use-server-data.ts:181-222 | the marks merged, the connect notice, then the database fetch |
| LegacyServerData.LegacyServerData.LoadDatabases | src/shared/hooks/use-server-data.ts:188-220 | the database nodes are written and listed only for a non-empty result; a failure sets the error |
| LegacyServerData.LegacyServerData.SchemaLoop | src/shared/hooks/use-server-data.ts:245-272 | the two assignments per schema, with the schema keys pushed in order |
| LegacyServerData.LegacyServerData.GetDatabaseSchemas | src/shared/hooks/use-server-data.ts:230-293 | an empty result returns `[]` and leaves the database's children as they were; otherwise the schemas are written and listed |
| LegacyServerData.LegacyServerData.TableLoop | src/shared/hooks/use-server-data.ts:319-373 | the four assignments per table, with the table keys pushed in order |
| LegacyServerData.LegacyServerData.GetSchemaTables | src/shared/hooks/use-server-data.ts:295-391 | the tables go under the schema's "Tabelas" group, or nothing changes for an empty result |
| LegacyServerData.LegacyServerData.GetTableColumns | src/shared/hooks/use-server-data.ts:393-455 | the columns go under the `table_column` group |
| LegacyServerData.LegacyServerData.GetTableIndexes | src/shared/hooks/use-server-data.ts:457-519 | the indexes go under the `table_index` group |
| LegacyServerData.LegacyServerData.GetTableTriggers | src/shared/hooks/use-server-data.ts:521-583 | as written, the trigger keys go under the table's `table_index` group, overwriting that group's children; the "Triggers" group is left untouched |
| RenderItems.HasChildren | src/components/layout/Sidebar/render-items.tsx:34-44 | of the eleven kinds, all but column, index and trigger can expand |
| RenderItems.LoaderFor | src/components/layout/Sidebar/render-items.tsx:75-144 | exactly server, database, schema_table and the three table groups have loaders, and a table group's loader is for that group |
| RenderItems.ToggleOnlyKinds | src/components/layout/Sidebar/render-items.tsx:137-144 | schema and table expand but load nothing |
| RenderItems.DatabaseClick | src/components/layout/Sidebar/render-items.tsx:79-83 | a click on `database::sid::db` loads the schemas of server `sid` and database `db` |
| RenderItems.TablesGroupClick | src/components/layout/Sidebar/render-items.tsx:85-89 | a click on a "Tabelas" group loads the tables of the schema it names |
| RenderItems.TableGroupClick | src/components/layout/Sidebar/render-items.tsx:91-125 | a click on a table group loads that group's rows for the table it names, arguments in the loader's order |
| RenderItems.DelimiterInDatabaseName | src/components/layout/Sidebar/render-items.tsx:80-82 | a database name holding `::` comes back cut at its first delimiter |
| RenderItems.SecondaryText | src/components/layout/Sidebar/render-items.tsx:127-135 | only a column shows text, and it starts with its `data_type` |
| RenderItems.NotNullSuffix | src/components/layout/Sidebar/render-items.tsx:129-131 | a column's text ends in " NOT NULL" exactly when `is_nullable` is falsy |
| RenderItems.Cell.HandleClick | src/components/layout/Sidebar/render-items.tsx:146-151 | every click toggles; the loader is called only when the node was closed, so a collapse never fetches |
| CamelCase.Upper | src/api/utils/logic.ts:7 | upper-casing a letter `a`–`z` gives a letter `A`–`Z`, which is no longer lower-case |
| CamelCase.CamelKeyLength | src/api/utils/logic.ts:7 | each match turns two characters into one |
| CamelCase.NoMatchLeft | src/api/utils/logic.ts:7 | the rewritten key holds no `_` followed by a lower-case letter |
| CamelCase.CamelKeyFixed | src/api/utils/logic.ts:7 | the rewrite leaves a key alone exactly when it has no match |
| CamelCase.CamelKeyIdempotent | src/api/utils/logic.ts:7 | rewriting twice is rewriting once |
| CamelCase.FirstNotLower | src/api/utils/logic.ts:7 | a key not starting with a lower-case letter gives a result that does not either |
| CamelCase.ConvertedKeys | src/api/utils/logic.ts:4-11 | the result's keys are exactly the rewritten input keys |
| CamelCase.ConvertedLastWins | src/api/utils/logic.ts:5-9 | when two keys rewrite alike, the field visited last gives the value |
| CamelCase.CollisionLaterWins | src/api/utils/logic.ts:5-9 | `a_b` then `aB` both land on `aB`, and the later value stays |
| CamelCase.ConvertToCamelCase | src/api/utils/logic.ts:1-12 | the loop computes the converted object: one level, values untouched |
| ServerForm.TrimStart | src/components/layout/Sidebar/ServerForm.tsx:67 | `parseInt` first drops the leading white space |
| ServerForm.DigitPrefix | src/components/layout/Sidebar/ServerForm.tsx:67 | `parseInt` reads the longest run of digits of its radix |
| ServerForm.PortInput | src/components/layout/Sidebar/ServerForm.tsx:67 | `parseInt(value) \|\| 0`: NaN and negative zero become 0 |
| ServerForm.PortInputOfDecimal | src/components/layout/Sidebar/ServerForm.tsx:67 | a decimal number typed in, followed by non-digits or nothing, is that number |
| ServerForm.PortInputOfPrinted | src/components/layout/Sidebar/ServerForm.tsx:67 | the printed form of any integer reads back as that integer |
| ServerForm.NoDigitIsZero | src/components/layout/Sidebar/ServerForm.tsx:67 | text without a decimal digit becomes port 0 |
| ServerForm.HexPort | src/components/layout/Sidebar/ServerForm.tsx:67 | without a radix, "0x10" is read in hexadecimal as 16 |
| ServerForm.WithField | src/components/layout/Sidebar/ServerForm.tsx:63-72 | a change sets one field, the port parsed, and keeps the others |
| ServerForm.ValidationErrors | src/components/layout/Sidebar/ServerForm.tsx:83-103 | one message per failed check, under that field's name |
| ServerForm.ValidIffNoErrors | src/components/layout/Sidebar/ServerForm.tsx:83-106 | the form is valid exactly when name, host and username are non-empty and the port is in 1..65535 |
| ServerForm.FieldErrors | src/components/layout/Sidebar/ServerForm.tsx:86-102 | each text field is reported exactly when empty; the password never is |
| ServerForm.PortMessages | src/components/layout/Sidebar/ServerForm.tsx:94-98 | port 0 is "required", any other out-of-range port gets the range message, and never both |
| ServerForm.NonNumericPortRequired | src/components/layout/Sidebar/ServerForm.tsx:67-98 | non-numeric port text leaves the form invalid with "Port is required" |
| ServerForm.ClearError | src/components/layout/Sidebar/ServerForm.tsx:75-80 | typing blanks only that field's error, and only if it had one |
| ServerForm.Form.constructor | src/components/layout/Sidebar/ServerForm.tsx:27-36 | the defaults: name "", host "localhost", port 5432, username "postgres", password "", no errors, not submitting |
| ServerForm.Form.OpenChanged | src/components/layout/Sidebar/ServerForm.tsx:39-61 | opening on a server shows its fields, opening without one resets to the defaults, closing keeps the values; the errors are cleared |
| ServerForm.Form.HandleChange | src/components/layout/Sidebar/ServerForm.tsx:63-81 | the value goes into its field and that field's error is blanked |
| ServerForm.Form.ValidateForm | src/components/layout/Sidebar/ServerForm.tsx:83-106 | the errors are replaced by the failed checks, and the result is true exactly when there is none |
| ServerForm.Form.HandleSubmit | src/components/layout/Sidebar/ServerForm.tsx:108-124 | an invalid form sends nothing; a valid one is sent as it stands, closes only when the send succeeds, and ends with `isSubmitting` false |
| QueryTabs.CloseRemoves | src/shared/hooks/use-query-tabs.ts:29 | closing removes every tab with the id and keeps every other |
| QueryTabs.OpenThenClose | src/shared/hooks/use-query-tabs.ts:19-31 | closing a tab just opened under a fresh id restores the tab list, in order |
| QueryTabs.SetContentOnly | src/shared/hooks/use-query-tabs.ts:33-35 | typing changes only the text of the tabs with the id |
| QueryTabs.SetContentTwice | src/shared/hooks/use-query-tabs.ts:33-35 | typing twice leaves the second text |
| QueryTabs.QueryTabs.OpenTab | src/shared/hooks/use-query-tabs.ts:19-26 | one new tab at the end, made active |
| QueryTabs.QueryTabs.CloseTab | src/shared/hooks/use-query-tabs.ts:28-31 | the tabs with the id go, and the active id is dropped only if it was that id |
| QueryTabs.QueryTabs.SetContent | src/shared/hooks/use-query-tabs.ts:33-35 | the tabs with the id get the text |
| QueryTabs.QueryTabs.RunQuery | src/shared/hooks/use-query-tabs.ts:37-48 | an unknown id sends nothing and changes nothing; otherwise the first matching tab's query is sent and its rows go onto the tabs with the id |
| Lists.MapWhere | src/hooks/useServersData.ts:94 | the conditional `map` keeps the length and replaces exactly the elements the test holds of |
| Lists.Filter | src/hooks/useServersData.ts:116 | `filter` keeps exactly the elements the test holds of |
| Lists.FilterAppend | src/hooks/useServersData.ts:116 | filtering works piece by piece, so the kept elements stay in order |
| Lists.FindFirst | src/providers/serversProvider.tsx:166 | `find` gives the first element the test holds of, or nothing when none does |
| ServersData.SchemasLoadedSpec | src/hooks/useServersData.ts:189-200 | a schema load sets the schemas of exactly the databases on the (server id, database name) path; nothing else changes |
| ServersData.TablesLoadedSpec | src/hooks/useServersData.ts:232-252 | a table load sets the tables of exactly the schemas on the path; nothing else changes |
| ServersData.ColumnsLoadedSpec | src/hooks/useServersData.ts:290-317 | a column load sets the columns of exactly the tables on the path; nothing else changes |
| ServersData.NoDatabaseNameNoChange | src/hooks/useServersData.ts:177-195 | without a database name no database matches, so a schema load changes nothing |
| ServersData.ConnectedSpec | src/hooks/useServersData.ts:143-160 | a connect marks exactly the servers with the id, and gives them the databases when some came back |
| ServersData.EditReplaces | src/hooks/useServersData.ts:94 | an edit replaces exactly the servers with the id |
| ServersData.RemoveFilters | src/hooks/useServersData.ts:116 | a removal takes out every server with the id and keeps the rest in order |
| ServersData.ServersData.InitLoadingState | src/hooks/useServersData.ts:27-31 | both flags go down and the error is cleared |
| ServersData.ServersData.HandleError | src/hooks/useServersData.ts:33-37 | the message goes into the error slot and into one error notice |
| ServersData.ServersData.FetchServers | src/hooks/useServersData.ts:39-50 | the list is replaced, or only the error set |
| ServersData.ServersData.AddServer | src/hooks/useServersData.ts:52-65 | the created record is appended |
| ServersData.ServersData.GetServer | src/hooks/useServersData.ts:67-78 | the record is handed back and the list untouched |
| ServersData.ServersData.EditServer | src/hooks/useServersData.ts:80-108 | the servers with the id are replaced and the selection follows |
| ServersData.ServersData.RemoveServer | src/hooks/useServersData.ts:110-129 | the servers with the id are filtered out after the delete, and the selection dropped if it was one |
| ServersData.ServersData.ConnectToServer | src/hooks/useServersData.ts:131-175 | a connected server answers true; otherwise the server with the id is marked and gets its databases when some came back |
| ServersData.ServersData.Connect | src/hooks/useServersData.ts:143-169 | what happens once the connect call answered |
| ServersData.ServersData.GetDatabaseSchemas | src/hooks/useServersData.ts:177-214 | an empty answer returns `[]` and leaves the list; otherwise the schemas go onto the path |
| ServersData.ServersData.GetSchemaTables | src/hooks/useServersData.ts:216-266 | an empty answer returns `[]` and leaves the list; otherwise the tables go onto the path |
| ServersData.ServersData.GetSchemaColumns | src/hooks/useServersData.ts:268-331 | an empty answer returns `[]` and leaves the list; otherwise the columns go onto the path |
| ServersProvider.RethrowMatchesSlot | src/providers/serversProvider.tsx:81-86 | the error slot holds exactly the message thrown to the caller |
| ServersProvider.RemovedIsGone | src/providers/serversProvider.tsx:146 | after a removal no server with the id is left and no other is lost |
| ServersProvider.ServersProvider.Begin | src/providers/serversProvider.tsx:56-57 | every call first raises the loading flag and clears the error |
| ServersProvider.ServersProvider.FetchServers | src/providers/serversProvider.tsx:55-70 | the list is replaced or the error set; nothing is thrown |
| ServersProvider.ServersProvider.AddServer | src/providers/serversProvider.tsx:72-90 | the created record is appended, or the wrapped error is stored and thrown |
| ServersProvider.ServersProvider.GetServer | src/providers/serversProvider.tsx:92-106 | the record is handed back, or the wrapped error stored and thrown |
| ServersProvider.ServersProvider.EditServer | src/providers/serversProvider.tsx:108-139 | the servers with the id are replaced and the selection follows |
| ServersProvider.ServersProvider.RemoveServer | src/providers/serversProvider.tsx:141-159 | the servers with the id are filtered out and the selection dropped if it was one |
| ServersProvider.ServersProvider.SelectServer | src/providers/serversProvider.tsx:161-168 | `null` clears the selection; an id selects the first server with it, or nothing when none has it |

## Left out

- Network and backend: every call to the Tauri backend is a parameter holding its settled outcome. The Rust side is not part of this model.
- React: memoisation, effects and stale closures are not modelled. This covers the auto-fetch effects (`use-server-connections.ts:181-183`, `use-server-data.ts:585-587`, `useServersData.ts:333-335`, `serversProvider.tsx:170-172`) and the `isConnecting` value a `useCallback` with empty dependencies captures once. Each hook's state is read as it stands when the operation starts.
- Concurrency: loads that overlap in time are not modelled. The model proves that two loads on disjoint keys give the same nodes in either order (`LoadChildren.DisjointLoadsCommute`).
- Falsy fetch results: a `null` or `undefined` result, which `!items` also treats as empty, is modelled as the empty list.
- Logging: `console.log` and `console.error` are left out.
- Rendering: JSX, icons, dialogs and the `disabled={isLoading}` attribute are left out.
- Mock and stub components are not part of this model.
- `ServerForm`: `toString` on the server's fields is taken as identity on strings. The flag's `true` between the two setter calls of `handleSubmit` is not observable in the model.
- `ServerForm.PortInput`: the text becomes an unbounded integer. JavaScript's rounding of numbers beyond 2^53 is not modelled.
- `CamelCase.ConvertToCamelCase`: the input is a sequence of own fields in iteration order. Prototype properties, which `hasOwnProperty` skips, are not modelled. How JavaScript orders integer-like keys is not modelled either.
- `QueryTabs.TabId`: the clock reading `Date.now()` is a parameter.
- `QueryTabs.QueryTabs.RunQuery`: `result.fields` is never set by the source and is left out.
- Backend layer: several imports of the backend functions do not resolve. `postgreMethods.ts` exports only `getPostgreSchemas`, `getPostgreDatabases`, `getPostgreTables` and `getPostgreColumns`. So `connectToPostgreServer` is missing for `use-server-connections.ts`, `use-server-data.ts` and `useServersData.ts`. `getPostgreIndexes` and `getPostgreTriggers` are missing for `use-server-data.ts` and `use-db-structure.ts`, and `runPostgreQuery` is missing for `use-query-tabs.ts`. `serversProvider.tsx` imports the server CRUD functions from `postgreMethods.ts`, although only `serverMethods.ts` exports them. Every backend call, resolving or not, is modelled by the outcome it would settle with, given as a parameter.
- `ServersData`: `selectedServer` is only ever changed by edit and remove; nothing in `useServersData.ts` selects a server, so the model has no select operation.
- `isConnected` absent and `isConnected: false` are both falsy and are modelled alike.
- `Values.NumberOf`: only the forms keys can hold are modelled (empty, signed decimal numerals, everything else `NaN`). Keys are never exponents, hexadecimal or padded with spaces.
- `useTree`: aliasing between nested nodes of one projection is modelled by the cache holding one object per key. Mutation of those nodes by callers is not modelled.

## Findings

| source | as written | input that shows it | evidently intended | confidence | as-written member | corrected member |
|---|---|---|---|---|---|---|
| src/shared/hooks/use-server-data.ts:545-551 | `getTableTriggers` builds its parent key with the kind `table_index` | load the indexes of a table, then its triggers: the index group's children become the trigger keys, and the "Triggers" group stays empty | the parent kind `table_trigger`, so that each group keeps its own leaves | not executed | LegacyServerData.TriggersOverwriteIndexes | LegacyServerData.TriggersKeepIndexes |

`LegacyServerData.LegacyServerData.GetTableTriggers` models the code as written (`TriggersLoadedAsWritten`). `TriggersLoaded` is the corrected load that `TriggersKeepIndexes` is proved about. `DbStructure.DbStructure.GetTableTriggers` already loads under `table_trigger`.
