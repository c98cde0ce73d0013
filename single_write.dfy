/**
 * The shape shared by the single-item writes (put of an object or of content
 * values, delete of an object or by query, execution of raw SQL): one call on
 * the store, then one notification exactly when the result says something
 * changed; a call that throws notifies nothing and fails wrapped.
 */
module SingleWrite {
  import opened Types
  import opened StorIOSQLite

  /** A call that is neither a notification nor a transaction event. */
  predicate IsStoreCall(e: Event) {
    !e.Notify? && !IsTransactionEvent(e)
  }

  /** What a single write leaves on the log: its call, then its notification if any. */
  function WriteEvents<R>(call: Event, outcome: Outcome<R>, notice: R -> Option<Changes>): seq<Event> {
    [call] + (if outcome.Returned? && notice(outcome.value).Some? then [Notify(notice(outcome.value).value)] else [])
  }

  /**
   * A single write makes its call exactly once and first, opens and closes no
   * transaction, and notifies once exactly when the result is effective (never
   * when the call threw), with the changes the result names.
   */
  lemma WriteFacts<R>(call: Event, outcome: Outcome<R>, notice: R -> Option<Changes>, x: Event)
    requires IsStoreCall(call) && IsTransactionEvent(x)
    ensures WriteEvents(call, outcome, notice)[0] == call
    ensures Occurrences(WriteEvents(call, outcome, notice), call) == 1
    ensures Occurrences(WriteEvents(call, outcome, notice), x) == 0
    ensures Notifications(WriteEvents(call, outcome, notice))
            == if outcome.Returned? && notice(outcome.value).Some? then [notice(outcome.value).value] else []
    ensures outcome.Threw? ==> Notifications(WriteEvents(call, outcome, notice)) == []
  {
    var tail := if outcome.Returned? && notice(outcome.value).Some? then [Notify(notice(outcome.value).value)] else [];
    assert WriteEvents(call, outcome, notice) == [call] + tail;
    assert [call][1..] == [];
    NotificationsAppend([call], tail);
    OccurrencesAppend([call], tail, call);
    OccurrencesAppend([call], tail, x);
    if tail != [] {
      assert tail[1..] == [];
    }
  }

  /**
   * Runs one resolver call: logs it, then notifies about the changes its result
   * calls for, and returns the result or the wrapped failure.
   */
  method PerformWrite<T, R>(store: LowLevel, call: Event, resolver: T -> Outcome<R>, data: T,
                            notice: R -> Option<Changes>)
    returns (result: Result<R>)
    requires store.Valid()
    requires call.PerformPut? || call.PerformDelete? || call.PerformDeleteByQuery?
    modifies store
    ensures store.Valid() && store.tx == old(store.tx)
    ensures store.log == old(store.log) + WriteEvents(call, resolver(data), notice)
    ensures result == Wrapped(resolver(data))
  {
    store.Perform(call);
    var outcome := resolver(data);
    if outcome.Threw? {
      return Err(OperationFailed);
    }
    var changes := notice(outcome.value);
    if changes.Some? {
      store.NotifyAboutChanges(changes.value);
    }
    return Ok(outcome.value);
  }
}
