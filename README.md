# StorIO SQLite operation executors, modelled in Dafny

This project models the executor layer of StorIO's SQLite module. That layer
decides what an operation calls on the store and in what order. It also
decides when subscribers are told about changes, and with which tables and
tags.

The store (`StorIOSQLite.LowLevel`) is a class. It records every call made on
it in an event log:

- `Begin`, `SetSuccessful`, `End`;
- a resolver run (`PerformPut`, `PerformDelete`, `PerformDeleteByQuery`, `PerformGet`);
- `Delete`, `ExecSQL`, `CloseCursor`, `Notify`.

It also keeps the state of its nested transactions. Each transaction has a
stack of "marked successful" flags, a flag that dooms the outermost
transaction, and the commit or rollback of every outermost transaction ended
so far.

Resolvers are pure functions from what they are handed to an outcome, which
is either `Returned(value)` or `Threw`. Each executor is a method whose
postcondition gives its whole effect on the log and its result. That effect
is stated as a function of the inputs (`Batch.BatchEvents`,
`SingleWrite.WriteEvents`, `Get.GetEvents`). Lemmas then prove what the
library promises about those functions:

- begin/end pairing;
- no notification on failure;
- the merged notification is the union of the effective results;
- no store call when a type mapping is missing;
- the cursor is closed exactly once.

Modules:

- `Types` (types.dfy): changes, put and delete results, queries, items, cursors, resolvers, type mappings and log events.
- `StorIOSQLite` (storio_sqlite.dfy): the store, its transaction state machine, the notifications in a log, and `observeChangesInTable` / `observeChangesOfTag`.
- `ChangesFilter` (changes_filter.dfy): which changes reach a subscriber.
- `Batch` and `BatchProperties` (batch.dfy, batch_properties.dfy): the loop shared by the three batch executors, and what it guarantees.
- `SingleWrite` (single_write.dfy): the call-then-notify shape of single writes.
- `Put`, `Delete` and `ExecuteSQL` (put.dfy, delete.dfy, execute_sql.dfy): the write operations.
- `PreparedGet` and `Get` (prepared_get.dfy, get.dfy): the read operations, and live-query scoping.
- `Logging` (logging.dfy): `LoggingInterceptor`.

In a batch, the results map is keyed by item, so a later equal item overwrites
an earlier one. The merged notification of a transactional batch is the union
over the map's values, so an item that occurs twice contributes only its last
result. `BatchProperties.RepeatedItemKeepsLastResult` states this over the
batch's events for given resolver outcomes: a first put of the item that
inserted into table "a" and a second that neither inserted nor updated notify
that table without a transaction and nothing with one. The executors here cannot produce such outcomes, because
a resolver's outcome depends only on the item (see "## Left out").
`BatchProperties.MergedIsUnion` shows that when no item repeats, the merge is
the union over every effective result.

## Model

| member | source | states |
|---|---|---|
| Types.PutNotice | sqlite/src/main/java/com/pushtorefresh/storio3/sqlite/operations/put/PreparedPutObject.kt:53-59 | a put result calls for a notification exactly when it inserted or updated, carrying its tables and tags |
| Types.DeleteNotice | sqlite/src/main/java/com/pushtorefresh/storio3/sqlite/operations/delete/PreparedDeleteObject.kt:53-59 | a delete result calls for a notification exactly when more than zero rows were deleted, carrying its tables and tags |
| Types.Wrapped | sqlite/src/main/java/com/pushtorefresh/storio3/sqlite/operations/put/PreparedPutObject.kt:62-65 | an executor returns the resolver's result unchanged, and a throw becomes a wrapped failure |
| ChangesFilter.AnyInIntersects | sqlite/src/main/java/com/pushtorefresh/storio3/sqlite/impl/ChangesFilter.kt:17-32 | the search for an affected name among the subscribed ones succeeds iff the two sets intersect; a null subscription never matches |
| ChangesFilter.Test | sqlite/src/main/java/com/pushtorefresh/storio3/sqlite/impl/ChangesFilter.kt:15-35 | a change passes iff its tables meet the subscribed tables or its tags meet the subscribed tags; a null set contributes false |
| ChangesFilter.Apply | sqlite/src/main/java/com/pushtorefresh/storio3/sqlite/impl/ChangesFilter.kt:51-59 | the output holds exactly the input changes that pass, and is no longer than the input |
| ChangesFilter.ApplyAppend | sqlite/src/main/java/com/pushtorefresh/storio3/sqlite/impl/ChangesFilter.kt:51-59 | filtering keeps order: filtering a concatenation gives the concatenation of the filtered parts |
| ChangesFilter.ApplyOne | sqlite/src/main/java/com/pushtorefresh/storio3/sqlite/impl/ChangesFilter.kt:51-59 | a single change is kept iff it passes |
| ChangesFilter.ApplyForTables | sqlite/src/main/java/com/pushtorefresh/storio3/sqlite/impl/ChangesFilter.kt:39-43 | tags are ignored: a change passes iff it touches a subscribed table |
| ChangesFilter.ApplyForTags | sqlite/src/main/java/com/pushtorefresh/storio3/sqlite/impl/ChangesFilter.kt:45-49 | tables are ignored: a change passes iff it carries a subscribed tag |
| ChangesFilter.ApplyForTablesAndTags | sqlite/src/main/java/com/pushtorefresh/storio3/sqlite/impl/ChangesFilter.kt:51-59 | a change passes iff it touches a subscribed table or carries a subscribed tag |
| StorIOSQLite.ObserveChangesInTable | sqlite/src/main/java/com/pushtorefresh/storio3/sqlite/StorIOSQLite.java:84-87 | an empty table name is rejected; otherwise the subscription is to exactly that one table |
| StorIOSQLite.ObserveChangesOfTag | sqlite/src/main/java/com/pushtorefresh/storio3/sqlite/StorIOSQLite.java:93-96 | an empty tag is rejected; otherwise the subscription is to exactly that one tag |
| StorIOSQLite.OutermostSession | sqlite/src/main/java/com/pushtorefresh/storio3/sqlite/StorIOSQLite.java:236-240 | ending the outermost of a nest of transactions records one outcome, a commit iff every transaction in the nest was marked successful, and leaves none open |
| StorIOSQLite.NestedSession | sqlite/src/main/java/com/pushtorefresh/storio3/sqlite/StorIOSQLite.java:236-240 | a nest run inside an open transaction commits nothing and leaves the open ones as they were, but dooms the outer work if any nested transaction ended unmarked |
| StorIOSQLite.NestedChildren | sqlite/src/main/java/com/pushtorefresh/storio3/sqlite/StorIOSQLite.java:236-240 | a sequence of nested transactions dooms the enclosing one iff one of them was not wholly marked |
| StorIOSQLite.CloseNested | sqlite/src/main/java/com/pushtorefresh/storio3/sqlite/StorIOSQLite.java:239-240 | ending a nested transaction pops it and dooms the enclosing work iff it was not marked |
| StorIOSQLite.NoNotifications | sqlite/src/main/java/com/pushtorefresh/storio3/sqlite/StorIOSQLite.java:220-228 | subscribers hear of nothing unless notifyAboutChanges was called: a log carries no notification iff it holds no Notify event |
| StorIOSQLite.LowLevel.TypeMappingOf | sqlite/src/main/java/com/pushtorefresh/storio3/sqlite/StorIOSQLite.java:134 | the mapping registered for a class, if any, and nothing otherwise |
| StorIOSQLite.LowLevel.BeginTransaction | sqlite/src/main/java/com/pushtorefresh/storio3/sqlite/StorIOSQLite.java:230-254 | opens a new, unmarked innermost transaction and logs Begin |
| StorIOSQLite.LowLevel.SetTransactionSuccessful | sqlite/src/main/java/com/pushtorefresh/storio3/sqlite/StorIOSQLite.java:256-264 | fails, changing nothing, when the current transaction is already marked (or none is open); otherwise marks it and logs SetSuccessful |
| StorIOSQLite.LowLevel.EndTransaction | sqlite/src/main/java/com/pushtorefresh/storio3/sqlite/StorIOSQLite.java:266-270 | closes the innermost transaction and logs End; an outermost end commits or rolls back as the transaction state machine says |
| StorIOSQLite.LowLevel.NotifyAboutChanges | sqlite/src/main/java/com/pushtorefresh/storio3/sqlite/StorIOSQLite.java:220-228 | appends exactly one notification to the log and changes no transaction |
| StorIOSQLite.LowLevel.ExecuteSQL | sqlite/src/main/java/com/pushtorefresh/storio3/sqlite/StorIOSQLite.java:143 | logs the statement once and reports whether the engine ran it |
| StorIOSQLite.LowLevel.Delete | sqlite/src/main/java/com/pushtorefresh/storio3/sqlite/StorIOSQLite.java:218 | logs the delete once and returns the engine's row count or failure |
| Batch.Choose | sqlite/src/main/java/com/pushtorefresh/storio3/sqlite/operations/put/PreparedPutObject.kt:39-49 | an explicit resolver wins; otherwise the type mapping's resolver, and none when the class has no mapping |
| Batch.Chosen | sqlite/src/main/java/com/pushtorefresh/storio3/sqlite/operations/put/PreparedPutCollectionOfObjects.kt:38-59 | one resolver per item, each the explicit one or its class's mapping's |
| Batch.ResolveAll | sqlite/src/main/java/com/pushtorefresh/storio3/sqlite/operations/put/PreparedPutCollectionOfObjects.kt:38-59 | resolvers are found for all items before anything runs; the lookup fails iff there is no explicit resolver and some item's class has no mapping |
| Batch.Completed | sqlite/src/main/java/com/pushtorefresh/storio3/sqlite/operations/put/PreparedPutCollectionOfObjects.kt:69-97 | the items before the first throw all returned, and the item at that position threw |
| Batch.MergeChanges | sqlite/src/main/java/com/pushtorefresh/storio3/sqlite/operations/put/PreparedPutCollectionOfObjects.kt:108-121 | the loop over the results map accumulates exactly the union of the tables and tags of the effective results |
| Batch.RunItem | sqlite/src/main/java/com/pushtorefresh/storio3/sqlite/operations/put/PreparedPutCollectionOfObjects.kt:71-80 | one resolver run, followed by its own notification when not in a transaction and the result is effective |
| Batch.RunStep | sqlite/src/main/java/com/pushtorefresh/storio3/sqlite/operations/put/PreparedPutCollectionOfObjects.kt:69-97 | one turn of the loop extends the log and the results map by exactly that item, or stops at the throw |
| Batch.RunItems | sqlite/src/main/java/com/pushtorefresh/storio3/sqlite/operations/put/PreparedPutCollectionOfObjects.kt:69-97 | the loop runs the items in order up to the first throw; its log is LoopEvents and its map holds the results so far |
| Batch.CloseTransaction | sqlite/src/main/java/com/pushtorefresh/storio3/sqlite/operations/put/PreparedPutCollectionOfObjects.kt:99-124 | SetSuccessful when every item went through, End always, then the merged notification if the batch succeeded and the merge is not empty |
| Batch.ExecuteInTransaction | sqlite/src/main/java/com/pushtorefresh/storio3/sqlite/operations/put/PreparedPutCollectionOfObjects.kt:61-124 | Begin, the loop without per-item notifications, then the close; the store's transaction state is that of one complete session |
| Batch.ExecuteBatch | sqlite/src/main/java/com/pushtorefresh/storio3/sqlite/operations/put/PreparedPutCollectionOfObjects.kt:61-134 | the whole batch after resolver lookup: log equal to BatchEvents, result equal to BatchResult (the results map, or the wrapped failure) |
| BatchProperties.NonTransactionalBatch | sqlite/src/main/java/com/pushtorefresh/storio3/sqlite/operations/put/PreparedPutCollectionOfObjects.kt:69-97 | without a transaction there is no Begin, SetSuccessful or End, and the notifications are those of the effective results, one each, in item order; the same shared loop serves the delete collection and the content-values iterable |
| BatchProperties.EachNotifyFollowsItsItem | sqlite/src/main/java/com/pushtorefresh/storio3/sqlite/operations/put/PreparedPutCollectionOfObjects.kt:69-97 | without a transaction, every notification comes straight after the resolver run of a completed item whose result called for it, and carries that result's changes |
| BatchProperties.TransactionalBatch | sqlite/src/main/java/com/pushtorefresh/storio3/sqlite/operations/put/PreparedPutCollectionOfObjects.kt:61-124 | with a transaction: exactly one Begin and one End on every path, SetSuccessful iff every resolver returned, and a single notification equal to the merged changes only when all returned and the merge is not empty (likewise for the delete collection and the content-values iterable) |
| BatchProperties.NotifiedOnlyAfterEnd | sqlite/src/main/java/com/pushtorefresh/storio3/sqlite/operations/put/PreparedPutCollectionOfObjects.kt:103-124 | in a transactional batch a notification can only be the last event, right after End |
| BatchProperties.ResolversRunInOrder | sqlite/src/main/java/com/pushtorefresh/storio3/sqlite/operations/put/PreparedPutCollectionOfObjects.kt:69-97 | the resolvers run on the items in order, each once, up to and including the first that throws |
| BatchProperties.BatchTransactionOutcome | sqlite/src/main/java/com/pushtorefresh/storio3/sqlite/operations/put/PreparedPutCollectionOfObjects.kt:61-105 | a batch's own transaction commits iff it succeeded when outermost; inside another it commits nothing, and a failure dooms the outer work |
| BatchProperties.ResultsKeepLast | sqlite/src/main/java/com/pushtorefresh/storio3/sqlite/operations/put/PreparedPutCollectionOfObjects.kt:65-87 | the results map holds every item that ran, each with the result of its last run |
| BatchProperties.MergedInsert | sqlite/src/main/java/com/pushtorefresh/storio3/sqlite/operations/put/PreparedPutCollectionOfObjects.kt:108-121 | adding a new item's result grows the merged tables and tags by exactly what that result touched, if it was effective |
| BatchProperties.MergedIsUnion | sqlite/src/main/java/com/pushtorefresh/storio3/sqlite/operations/delete/PreparedDeleteCollectionOfObjects.kt:110-127 | when no item repeats, the merged notification is the union over every effective result |
| BatchProperties.RepeatedItemKeepsLastResult | sqlite/src/main/java/com/pushtorefresh/storio3/sqlite/operations/put/PreparedPutCollectionOfObjects.kt:65-124 | for an item whose two runs gave different results, only the last is merged: those batch events notify table "a" without a transaction and nothing with one |
| BatchProperties.ExplicitResolverForEveryItem | sqlite/src/main/java/com/pushtorefresh/storio3/sqlite/operations/put/PreparedPutCollectionOfObjects.kt:38-40 | an explicit resolver is used for every item and the type mappings are never consulted |
| SingleWrite.WriteFacts | sqlite/src/main/java/com/pushtorefresh/storio3/sqlite/operations/put/PreparedPutObject.kt:51-65 | a single write makes its call exactly once and first, opens no transaction, and notifies once iff its result is effective, never after a throw |
| SingleWrite.PerformWrite | sqlite/src/main/java/com/pushtorefresh/storio3/sqlite/operations/put/PreparedPutContentValues.kt:32-45 | runs the resolver once, notifies per its result, and returns it unchanged or wrapped |
| Put.ExecutePutObject | sqlite/src/main/java/com/pushtorefresh/storio3/sqlite/operations/put/PreparedPutObject.kt:34-65 | explicit resolver first, then the type mapping's; with neither, a failure and an untouched log; otherwise one put and a notification iff inserted or updated |
| Put.ExecutePutContentValues | sqlite/src/main/java/com/pushtorefresh/storio3/sqlite/operations/put/PreparedPutContentValues.kt:32-45 | one put with the given values, then a notification iff inserted or updated; the result is returned unchanged |
| Put.SinglePutNotifies | sqlite/src/main/java/com/pushtorefresh/storio3/sqlite/operations/put/PreparedPutObject.kt:51-59 | one notification with the result's tables and tags iff inserted or updated, none otherwise or after a throw; exactly one put |
| Put.PreparePutCollection | sqlite/src/main/java/com/pushtorefresh/storio3/sqlite/operations/put/PreparedPutCollectionOfObjects.kt:144-192 | a transaction is used unless the caller turned it off |
| Put.PreparePutContentValuesIterable | sqlite/src/main/java/com/pushtorefresh/storio3/sqlite/operations/put/PreparedPutContentValuesIterable.kt:125-159 | a transaction is used unless the caller turned it off |
| Put.ExecutePutCollection | sqlite/src/main/java/com/pushtorefresh/storio3/sqlite/operations/put/PreparedPutCollectionOfObjects.kt:38-134 | an unmapped object with no explicit resolver fails before Begin or any put; otherwise the batch's log, transaction state and result are BatchEvents, BatchTx and BatchResult |
| Put.ExecutePutContentValuesIterable | sqlite/src/main/java/com/pushtorefresh/storio3/sqlite/operations/put/PreparedPutContentValuesIterable.kt:36-92 | the one resolver is used for every item; log, transaction state and result are those of the batch |
| Delete.DefaultPerformDelete | sqlite/src/main/java/com/pushtorefresh/storio3/sqlite/operations/delete/DefaultDeleteResolver.java:28-32 | maps the object to its query once, issues exactly one store delete with it, and its outcome is the resolver value's |
| Delete.DefaultDeleteResultFacts | sqlite/src/main/java/com/pushtorefresh/storio3/sqlite/operations/delete/DefaultDeleteResolver.java:28-32 | the result's row count is the store's, its table is the query's table, its tags the query's affected tags; it fails iff the store's delete fails |
| Delete.PrepareDeleteByQuery | sqlite/src/main/java/com/pushtorefresh/storio3/sqlite/operations/delete/PreparedDeleteByQuery.kt:77-83 | prepare installs the standard resolver iff the caller gave none, and keeps the caller's otherwise |
| Delete.ExecuteDeleteObject | sqlite/src/main/java/com/pushtorefresh/storio3/sqlite/operations/delete/PreparedDeleteObject.kt:34-64 | explicit resolver first, then the type mapping's; with neither, a failure and an untouched log; otherwise one delete and a notification iff rows were deleted |
| Delete.ExecuteDeleteByQuery | sqlite/src/main/java/com/pushtorefresh/storio3/sqlite/operations/delete/PreparedDeleteByQuery.kt:32-45 | one delete with the query (the standard resolver sends the query itself to the store), a notification iff rows were deleted, the result unchanged |
| Delete.SingleDeleteNotifies | sqlite/src/main/java/com/pushtorefresh/storio3/sqlite/operations/delete/PreparedDeleteObject.kt:52-59 | one notification with the result's tables and tags iff rows were deleted, none otherwise or after a throw; exactly one delete |
| Delete.StandardDeleteByQueryNotifies | sqlite/src/main/java/com/pushtorefresh/storio3/sqlite/operations/delete/PreparedDeleteByQuery.kt:87-91 | with the standard resolver, the notification names exactly the query's table and affected tags, and comes iff the store deleted rows |
| Delete.PrepareDeleteCollection | sqlite/src/main/java/com/pushtorefresh/storio3/sqlite/operations/delete/PreparedDeleteCollectionOfObjects.kt:151-200 | a transaction is used unless the caller turned it off |
| Delete.ExecuteDeleteCollection | sqlite/src/main/java/com/pushtorefresh/storio3/sqlite/operations/delete/PreparedDeleteCollectionOfObjects.kt:39-137 | an unmapped object with no explicit resolver fails before Begin or any delete; otherwise log, transaction state and result are those of the batch |
| ExecuteSQL.AffectedChanges | sqlite/src/main/java/com/pushtorefresh/storio3/sqlite/operations/execute/PreparedExecuteSQL.kt:54-59 | a statement calls for a notification iff it declares an affected table or tag, and then names exactly those |
| ExecuteSQL.ExecuteSQLOperation | sqlite/src/main/java/com/pushtorefresh/storio3/sqlite/operations/execute/PreparedExecuteSQL.kt:50-65 | executes once, then notifies the declared affected tables and tags if either is non-empty; it succeeds iff the statement ran, and a failure is wrapped |
| ExecuteSQL.ExecuteSQLNotifies | sqlite/src/main/java/com/pushtorefresh/storio3/sqlite/operations/execute/PreparedExecuteSQL.kt:52-62 | exactly one execution and no transaction; one notification iff it ran and declares something affected, none after a failure |
| PreparedGet.ForQuery | sqlite/src/main/java/com/pushtorefresh/storio3/sqlite/operations/get/PreparedGet.kt:32-36 | the Query constructor sets the query and leaves the raw query unset |
| PreparedGet.ForRawQuery | sqlite/src/main/java/com/pushtorefresh/storio3/sqlite/operations/get/PreparedGet.kt:38-42 | the RawQuery constructor sets the raw query and leaves the query unset |
| PreparedGet.DataIsQueryRun | sqlite/src/main/java/com/pushtorefresh/storio3/sqlite/operations/get/PreparedGet.kt:86-88 | getData, which looks at the raw query first, reports the query the executors run (Query first) for every constructed get |
| PreparedGet.ExtractTables | sqlite/src/main/java/com/pushtorefresh/storio3/sqlite/operations/get/PreparedGet.kt:92-99 | the Query's table, else the raw query's observed tables; an error iff neither is set |
| PreparedGet.ExtractTags | sqlite/src/main/java/com/pushtorefresh/storio3/sqlite/operations/get/PreparedGet.kt:101-107 | the Query's observed tags, else the raw query's; an error iff neither is set |
| PreparedGet.LiveReads | sqlite/src/main/java/com/pushtorefresh/storio3/sqlite/operations/get/PreparedGet.kt:44-62 | one read first; with nothing observed, nothing more; otherwise one re-read per change touching an observed table or tag, in order, and no others |
| PreparedGet.QueryGetIsLive | sqlite/src/main/java/com/pushtorefresh/storio3/sqlite/operations/get/PreparedGet.kt:45-55 | a get from a Query always observes its table, so it always re-reads on changes to that table or its tags |
| PreparedGet.RawQueryGetIsLive | sqlite/src/main/java/com/pushtorefresh/storio3/sqlite/operations/get/PreparedGet.kt:44-62 | a get from a RawQuery observes the raw query's declared tables and tags: it re-reads on exactly the changes touching them, and is read once when it declares none |
| PreparedGet.NoQueryNoFlow | sqlite/src/main/java/com/pushtorefresh/storio3/sqlite/operations/get/PreparedGet.kt:92-99 | a get holding no query fails before emitting anything |
| Get.GetEventsFacts | sqlite/src/main/java/com/pushtorefresh/storio3/sqlite/operations/get/PreparedGetObject.kt:81-93 | a get queries once and never notifies; when it owns the cursor it closes it exactly once, last, iff it obtained one |
| Get.RunQuery | sqlite/src/main/java/com/pushtorefresh/storio3/sqlite/operations/get/PreparedGetObject.kt:71-79 | the resolver runs the chosen query once and its cursor, or its failure, is what the executor gets |
| Get.MappedRowsFacts | sqlite/src/main/java/com/pushtorefresh/storio3/sqlite/operations/get/PreparedGetListOfObjects.kt:88-94 | mapping the first n rows succeeds iff each row maps, and yields one element per row, row i at index i |
| Get.ThrowPersists | sqlite/src/main/java/com/pushtorefresh/storio3/sqlite/operations/get/PreparedGetListOfObjects.kt:90-92 | once a row's mapping throws, the list read fails whatever follows |
| Get.ListOfFacts | sqlite/src/main/java/com/pushtorefresh/storio3/sqlite/operations/get/PreparedGetListOfObjects.kt:82-94 | a list get yields one element per cursor row, in cursor order (the empty list for an empty cursor), and fails iff some row's mapping throws |
| Get.ObjectIsHeadOfList | sqlite/src/main/java/com/pushtorefresh/storio3/sqlite/operations/get/PreparedGetObject.kt:82-90 | an object get yields nothing for an empty cursor and otherwise the first row mapped: the head of the list get of the same cursor |
| Get.MapRows | sqlite/src/main/java/com/pushtorefresh/storio3/sqlite/operations/get/PreparedGetListOfObjects.kt:88-94 | the moveToNext loop computes exactly the rows mapped in order, failing at the first throw |
| Get.ExecuteGetObject | sqlite/src/main/java/com/pushtorefresh/storio3/sqlite/operations/get/PreparedGetObject.kt:56-98 | no resolver: failure, log untouched; no query: failure, log untouched; else one query, none or the first row mapped, and the cursor closed on every path once obtained |
| Get.ExecuteGetListOfObjects | sqlite/src/main/java/com/pushtorefresh/storio3/sqlite/operations/get/PreparedGetListOfObjects.kt:56-102 | the same choice of resolver and query; the empty list or every row mapped in order; the cursor closed on every path once obtained |
| Get.StandardCountResolver | sqlite/src/main/java/com/pushtorefresh/storio3/sqlite/operations/get/PreparedGetNumberOfResults.kt:163-166 | the standard resolver reads any cursor as its number of rows |
| Get.StandardCursorResolver | sqlite/src/main/java/com/pushtorefresh/storio3/sqlite/operations/get/PreparedGetCursor.kt:155-158 | the standard resolver hands any cursor back unchanged |
| Get.PreparedSource | sqlite/src/main/java/com/pushtorefresh/storio3/sqlite/operations/get/PreparedGetNumberOfResults.kt:144-158 | prepare takes the Query if given, else the raw query, else fails; what it builds always has a query to run |
| Get.PrepareGetNumberOfResults | sqlite/src/main/java/com/pushtorefresh/storio3/sqlite/operations/get/PreparedGetNumberOfResults.kt:139-158 | prepare installs the standard resolver iff none was given, and fails iff no query was given |
| Get.PrepareGetCursor | sqlite/src/main/java/com/pushtorefresh/storio3/sqlite/operations/get/PreparedGetCursor.kt:139-151 | prepare installs the standard resolver iff none was given, and fails iff no query was given |
| Get.ExecuteGetNumberOfResults | sqlite/src/main/java/com/pushtorefresh/storio3/sqlite/operations/get/PreparedGetNumberOfResults.kt:38-60 | Query before raw query, else failure; the resolver reads the whole cursor from before its first row; the cursor is closed on every path once obtained |
| Get.ExecuteGetCursor | sqlite/src/main/java/com/pushtorefresh/storio3/sqlite/operations/get/PreparedGetCursor.kt:43-58 | Query before raw query, else failure; the cursor is returned exactly as the resolver produced it, neither read nor closed |
| Get.StandardResolversRead | sqlite/src/main/java/com/pushtorefresh/storio3/sqlite/operations/get/PreparedGetNumberOfResults.kt:163-166 | with the standard resolvers, a count get returns the number of rows of the answered cursor, and a cursor get returns that cursor |
| Logging.LoggingInterceptor.Intercept | common/src/main/java/com/pushtorefresh/storio3/LoggingInterceptor.java:38-56 | proceeds exactly once with the same operation, and returns its result unchanged; one message after a return, none after a throw |

## Left out

- Change delivery (`ChangesBus`, a broadcast channel), coroutines, dispatchers and the scheduling of `asFlow`. A live read is modelled as a function from a finite sequence of changes to the reads it emits.
- The SQLite engine. Its answers to deletes and raw statements are constant functions fixed when the store is made, so they do not depend on earlier writes. Conflict algorithms, inserts and updates are also left out.
- What a resolver does inside the store is not logged. Each resolver run is one event. `DefaultDeleteResolver`, whose body is modelled, and the standard delete-by-query resolver, which logs the store's delete, are the exceptions.
- DefaultGetResolver is not part of this model. The standard get resolvers take the store's query as a parameter (`performGet`).
- `notifyAboutChanges`, `setTransactionSuccessful` and `endTransaction` are assumed not to throw inside an executor. Outside executors, `LowLevel.SetTransactionSuccessful` and `LowLevel.EndTransaction` with no open transaction fail without changing anything.
- `mapToDeleteQuery` and the resolver-selection helpers are total functions that do not throw.
- Exception message texts, the `StorIOException` wrapper itself, and hashing and iteration order of Java maps and sets. A failure is the `Err` of a `Result`. Unions do not depend on order.
- `LoggingInterceptor`: the clock readings are parameters. The message is a record, and its text layout and `Log.d` are not modelled.
- `PreparedPut`, `PreparedDelete` and `buildChain`: the interceptor chain ahead of the real call is not modelled. Each executor method is the real-call interceptor.
- The interfaces `Interceptor`, `PreparedOperation` and `TypeMappingFinder`, and the sample app.
- A resolver's outcome depends only on the item it is handed, not on earlier writes in the same batch. So through `Put.ExecutePutCollection`, `Delete.ExecuteDeleteCollection` and `Put.ExecutePutContentValuesIterable` equal items always get equal outcomes, and a repeated item never loses a different earlier result in the merge. `BatchProperties.RepeatedItemKeepsLastResult` is therefore a statement about the batch's events for given outcomes, which the store as modelled does not produce.
- Builder methods are reduced to their effect on the prepared operation: the optional settings the caller made, passed to one prepare function.
