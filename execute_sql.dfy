/**
 * PreparedExecuteSQL: runs a raw SQL statement on the store, then notifies
 * about the tables and tags the statement declares it affects, if it declares
 * any.
 */
module ExecuteSQL {
  import opened Types
  import opened StorIOSQLite
  import opened SingleWrite

  /** An execution of raw SQL; getData is the raw query. */
  datatype PreparedExecuteSQL = PreparedExecuteSQL(data: RawQuery)

  /** The notification a statement calls for: its declared affected tables and tags, unless both are empty. */
  function AffectedChanges(q: RawQuery): (n: Option<Changes>)
    ensures n.Some? <==> q.affectsTables != {} || q.affectsTags != {}
    ensures n.Some? ==> n.value == Changes(q.affectsTables, q.affectsTags)
  {
    if q.affectsTables != {} || q.affectsTags != {} then Some(Changes(q.affectsTables, q.affectsTags)) else None
  }

  /** What executeSQL did, as an outcome: the statement itself, or a throw. */
  function ExecOutcome(q: RawQuery, ok: bool): Outcome<RawQuery> {
    if ok then Returned(q) else Threw
  }

  /**
   * Executes the statement once; when it succeeds, notifies about its declared
   * affected tables and tags if either is non-empty, and returns a value; when
   * it fails, notifies nothing and fails wrapped.
   */
  method ExecuteSQLOperation(store: LowLevel, p: PreparedExecuteSQL) returns (result: Result<()>)
    requires store.Valid()
    modifies store
    ensures store.Valid() && store.tx == old(store.tx)
    ensures store.log == old(store.log) + WriteEvents(ExecSQL(p.data), ExecOutcome(p.data, store.executeAnswer(p.data)), AffectedChanges)
    ensures result.Ok? <==> store.executeAnswer(p.data)
    ensures result.Err? ==> result.cause == OperationFailed
  {
    var ok := store.ExecuteSQL(p.data);
    if !ok {
      return Err(OperationFailed);
    }
    var changes := AffectedChanges(p.data);
    if changes.Some? {
      store.NotifyAboutChanges(changes.value);
    }
    return Ok(());
  }

  /**
   * The statement runs exactly once and opens no transaction; a successful one
   * notifies once with exactly its declared affected tables and tags when
   * either is non-empty, and otherwise not at all; a failed one never notifies.
   */
  lemma ExecuteSQLNotifies(q: RawQuery, ok: bool)
    ensures var events := WriteEvents(ExecSQL(q), ExecOutcome(q, ok), AffectedChanges);
            && Occurrences(events, ExecSQL(q)) == 1
            && Occurrences(events, Begin) == 0
            && Notifications(events) == if ok && (q.affectsTables != {} || q.affectsTags != {})
                                        then [Changes(q.affectsTables, q.affectsTags)] else []
  {
    WriteFacts(ExecSQL(q), ExecOutcome(q, ok), AffectedChanges, Begin);
  }
}
