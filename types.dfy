/**
 * Values shared by every operation of the StorIO SQLite executor layer:
 * change notifications, operation results, queries, cursors, resolvers,
 * type mappings and the events an executor leaves on the store's log.
 */
module Types {

  datatype Option<T> = None | Some(value: T)

  /** What a resolver, a mapper or the store itself does when called: return a value or throw. */
  datatype Outcome<T> = Returned(value: T) | Threw

  /** Why an operation failed. Every failure reaches the caller wrapped in a StorIOException. */
  datatype Cause =
    | NoTypeMapping      // no explicit resolver and the object's class has no type mapping
    | NoQuery            // neither a Query nor a RawQuery was given
    | OperationFailed    // a resolver, a mapper or the store threw

  /** The outcome of an executed operation: its result, or a StorIOException wrapping the cause. */
  datatype Result<T> = Ok(value: T) | Err(cause: Cause)

  /** What an executor returns for what it ran: the value unchanged, or the wrapped failure. */
  function Wrapped<T>(outcome: Outcome<T>): (r: Result<T>)
    ensures r.Ok? <==> outcome.Returned?
    ensures r.Ok? ==> r.value == outcome.value
    ensures r.Err? ==> r.cause == OperationFailed
  {
    if outcome.Returned? then Ok(outcome.value) else Err(OperationFailed)
  }

  type Table = string
  type Tag = string
  type TypeName = string

  /** A notification: the tables and tags a write touched. */
  datatype Changes = Changes(tables: set<Table>, tags: set<Tag>)

  /** PutResult: whether a row was inserted or updated, and what it touched. */
  datatype PutResult = PutResult(inserted: bool, updated: bool, tables: set<Table>, tags: set<Tag>)

  /** DeleteResult: the number of rows deleted, and what the delete touched. */
  datatype DeleteResult = DeleteResult(rows: int, tables: set<Table>, tags: set<Tag>)

  /** The notification a put result calls for: one exactly when it inserted or updated. */
  function PutNotice(r: PutResult): (n: Option<Changes>)
    ensures n.Some? <==> r.inserted || r.updated
    ensures n.Some? ==> n.value.tables == r.tables && n.value.tags == r.tags
  {
    if r.inserted || r.updated then Some(Changes(r.tables, r.tags)) else None
  }

  /** The notification a delete result calls for: one exactly when some row was deleted. */
  function DeleteNotice(r: DeleteResult): (n: Option<Changes>)
    ensures n.Some? <==> r.rows > 0
    ensures n.Some? ==> n.value.tables == r.tables && n.value.tags == r.tags
  {
    if r.rows > 0 then Some(Changes(r.tables, r.tags)) else None
  }

  /** A structured read: the table it reads and the tags it observes. */
  datatype Query = Query(table: Table, where: string, observesTags: set<Tag>)

  /** A raw SQL statement with the tables and tags it observes (reads) and affects (writes). */
  datatype RawQuery = RawQuery(
    sql: string,
    observesTables: set<Table>, observesTags: set<Tag>,
    affectsTables: set<Table>, affectsTags: set<Tag>)

  /** A structured delete: its table, its selection and the tags it affects. */
  datatype DeleteQuery = DeleteQuery(table: Table, where: string, affectsTags: set<Tag>)

  /** The query a get resolver is handed: a Query or a RawQuery. */
  datatype GetQuery = ByQuery(query: Query) | ByRawQuery(rawQuery: RawQuery)

  /**
   * What a put or delete resolver is handed: a mapped object or a ContentValues bundle.
   * The executors never look inside one except for its class, which selects the type mapping.
   */
  datatype Item = Item(typeName: TypeName, fields: map<string, string>)

  type Row = seq<string>

  /** A cursor is the sequence of rows a query answered. */
  type Cursor = seq<Row>

  /** Position of a cursor before its first row. */
  const BeforeFirst: int := -1

  type PutResolver = Item -> Outcome<PutResult>

  type DeleteResolver<-T> = T -> Outcome<DeleteResult>

  /**
   * A get resolver: performGet runs the query against the store; mapFromCursor reads
   * the cursor at a position (BeforeFirst, or the index of the current row).
   */
  datatype GetResolver<T> = GetResolver(
    performGet: GetQuery -> Outcome<Cursor>,
    mapFromCursor: (Cursor, int) -> Outcome<T>)

  /** The resolvers registered for one class of objects. */
  datatype TypeMapping = TypeMapping(
    putResolver: PutResolver,
    getResolver: GetResolver<Item>,
    deleteResolver: DeleteResolver<Item>)

  /** Everything an executor does to the store, in the order it does it. */
  datatype Event =
    | Begin                                   // beginTransaction
    | SetSuccessful                           // setTransactionSuccessful
    | End                                     // endTransaction
    | PerformPut(item: Item)                  // a put resolver ran on item
    | PerformDelete(item: Item)               // a delete resolver ran on item
    | PerformDeleteByQuery(query: DeleteQuery) // a delete resolver ran on a DeleteQuery
    | Delete(query: DeleteQuery)              // lowLevel.delete
    | ExecSQL(rawQuery: RawQuery)             // lowLevel.executeSQL
    | PerformGet(getQuery: GetQuery)          // a get resolver ran a query
    | CloseCursor                             // the cursor it answered was closed
    | Notify(changes: Changes)                // lowLevel.notifyAboutChanges

  /** Events that open, mark or close a transaction. */
  predicate IsTransactionEvent(e: Event) {
    e.Begin? || e.SetSuccessful? || e.End?
  }
}
