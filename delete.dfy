/**
 * Delete operations: a single object, a collection of objects, and a
 * DeleteQuery; plus DefaultDeleteResolver, which turns an object into a
 * DeleteQuery and hands it to the store.
 */
module Delete {
  import opened Types
  import opened StorIOSQLite
  import opened Batch
  import opened SingleWrite

  function DeleteResolverOf(m: TypeMapping): DeleteResolver<Item> {
    m.deleteResolver
  }

  // ---------------------------------------------------------------------------
  // DefaultDeleteResolver

  /** The result DefaultDeleteResolver builds from its query and the store's answer to it. */
  function DefaultDeleteResult(q: DeleteQuery, rows: Outcome<int>): Outcome<DeleteResult> {
    if rows.Threw? then Threw else Returned(DeleteResult(rows.value, {q.table}, q.affectsTags))
  }

  /** A DefaultDeleteResolver, as a resolver value over a store whose delete answers `answer`. */
  function DefaultDeleteResolver<T>(mapToDeleteQuery: T -> DeleteQuery,
                                    answer: DeleteQuery -> Outcome<int>): DeleteResolver<T>
  {
    x => DefaultDeleteResult(mapToDeleteQuery(x), answer(mapToDeleteQuery(x)))
  }

  /**
   * DefaultDeleteResolver.performDelete: maps the object to its DeleteQuery,
   * issues exactly one delete with it, and reports the rows the store deleted,
   * the query's table and the tags the query affects.
   */
  method DefaultPerformDelete<T>(store: LowLevel, mapToDeleteQuery: T -> DeleteQuery, x: T)
    returns (outcome: Outcome<DeleteResult>)
    requires store.Valid()
    modifies store
    ensures store.Valid() && store.tx == old(store.tx)
    ensures store.log == old(store.log) + [Event.Delete(mapToDeleteQuery(x))]
    ensures outcome == DefaultDeleteResolver(mapToDeleteQuery, store.deleteAnswer)(x)
  {
    var q := mapToDeleteQuery(x);
    var rows := store.Delete(q);
    if rows.Threw? {
      return Threw;
    }
    return Returned(DeleteResult(rows.value, {q.table}, q.affectsTags));
  }

  /**
   * What a DefaultDeleteResolver returns: it fails exactly when the store's
   * delete fails; otherwise its row count is the store's, its only table is the
   * query's table and its tags are the query's affected tags.
   */
  lemma DefaultDeleteResultFacts<T>(mapToDeleteQuery: T -> DeleteQuery, answer: DeleteQuery -> Outcome<int>, x: T)
    ensures var q := mapToDeleteQuery(x);
            var r := DefaultDeleteResolver(mapToDeleteQuery, answer)(x);
            && (r.Threw? <==> answer(q).Threw?)
            && (r.Returned? ==> r.value.rows == answer(q).value && r.value.tables == {q.table}
                                && r.value.tags == q.affectsTags)
            && (r.Returned? ==> (DeleteNotice(r.value).Some? <==> answer(q).value > 0))
  {
  }

  // ---------------------------------------------------------------------------
  // Single deletes

  /** A delete of one object; getData is the object. */
  datatype PreparedDeleteObject = PreparedDeleteObject(data: Item, explicitDeleteResolver: Option<DeleteResolver<Item>>)

  /** The resolver a delete by query runs: the standard one installed by prepare, or the caller's. */
  datatype DeleteByQueryResolver = Standard | Custom(resolver: DeleteResolver<DeleteQuery>)

  /** A delete by query; getData is the query. */
  datatype PreparedDeleteByQuery = PreparedDeleteByQuery(data: DeleteQuery, deleteResolver: DeleteByQueryResolver)

  /** Builder.prepare: the standard resolver unless the caller gave one. */
  function PrepareDeleteByQuery(q: DeleteQuery, withDeleteResolver: Option<DeleteResolver<DeleteQuery>>)
    : (p: PreparedDeleteByQuery)
    ensures p.data == q
    ensures p.deleteResolver.Standard? <==> withDeleteResolver.None?
    ensures withDeleteResolver.Some? ==> p.deleteResolver.resolver == withDeleteResolver.value
  {
    PreparedDeleteByQuery(q, if withDeleteResolver.None? then Standard else Custom(withDeleteResolver.value))
  }

  /** The standard delete-by-query resolver: a DefaultDeleteResolver whose query is the query itself. */
  function StandardDeleteResolver(answer: DeleteQuery -> Outcome<int>): DeleteResolver<DeleteQuery> {
    DefaultDeleteResolver(q => q, answer)
  }

  /**
   * Deletes one object: the explicit resolver if there is one, else the one of
   * the object's type mapping; with neither the store is not touched. The
   * resolver runs once, a notification follows exactly when rows were deleted,
   * and the result is returned unchanged.
   */
  method ExecuteDeleteObject(store: LowLevel, p: PreparedDeleteObject) returns (result: Result<DeleteResult>)
    requires store.Valid()
    modifies store
    ensures store.Valid() && store.tx == old(store.tx)
    ensures var r := Choose(p.explicitDeleteResolver, Lookup(store.typeMappings, p.data.typeName), DeleteResolverOf);
            && (r.None? ==> result == Err(NoTypeMapping) && store.log == old(store.log))
            && (r.Some? ==> store.log == old(store.log) + WriteEvents(PerformDelete(p.data), r.value(p.data), DeleteNotice)
                            && result == Wrapped(r.value(p.data)))
  {
    var resolver := Choose(p.explicitDeleteResolver, store.TypeMappingOf(p.data.typeName), DeleteResolverOf);
    if resolver.None? {
      return Err(NoTypeMapping);
    }
    result := PerformWrite(store, PerformDelete(p.data), resolver.value, p.data, DeleteNotice);
  }

  /**
   * Deletes by query. A custom resolver runs once on the query; the standard
   * one sends the query itself to the store's delete. Either way a notification
   * follows exactly when rows were deleted, and the result is returned unchanged.
   */
  method ExecuteDeleteByQuery(store: LowLevel, p: PreparedDeleteByQuery) returns (result: Result<DeleteResult>)
    requires store.Valid()
    modifies store
    ensures store.Valid() && store.tx == old(store.tx)
    ensures p.deleteResolver.Custom? ==>
              store.log == old(store.log) + WriteEvents(PerformDeleteByQuery(p.data), p.deleteResolver.resolver(p.data), DeleteNotice)
              && result == Wrapped(p.deleteResolver.resolver(p.data))
    ensures p.deleteResolver.Standard? ==>
              var outcome := StandardDeleteResolver(store.deleteAnswer)(p.data);
              store.log == old(store.log) + WriteEvents(Event.Delete(p.data), outcome, DeleteNotice)
              && result == Wrapped(outcome)
  {
    if p.deleteResolver.Custom? {
      result := PerformWrite(store, PerformDeleteByQuery(p.data), p.deleteResolver.resolver, p.data, DeleteNotice);
    } else {
      var outcome := DefaultPerformDelete(store, q => q, p.data);
      if outcome.Threw? {
        return Err(OperationFailed);
      }
      var changes := DeleteNotice(outcome.value);
      if changes.Some? {
        store.NotifyAboutChanges(changes.value);
      }
      result := Ok(outcome.value);
    }
  }

  /**
   * What a single delete notifies: one notification with the result's tables
   * and tags exactly when rows were deleted, and none when the delete threw.
   */
  lemma SingleDeleteNotifies(call: Event, outcome: Outcome<DeleteResult>)
    requires call.PerformDelete? || call.PerformDeleteByQuery? || call.Delete?
    ensures var ns := Notifications(WriteEvents(call, outcome, DeleteNotice));
            && (outcome.Threw? ==> ns == [])
            && (outcome.Returned? && outcome.value.rows > 0 ==> ns == [Changes(outcome.value.tables, outcome.value.tags)])
            && (outcome.Returned? && outcome.value.rows <= 0 ==> ns == [])
    ensures Occurrences(WriteEvents(call, outcome, DeleteNotice), call) == 1
  {
    WriteFacts(call, outcome, DeleteNotice, Begin);
  }

  /**
   * A delete by query with the standard resolver notifies once, about the
   * query's table and affected tags, exactly when the store deleted some rows.
   */
  lemma StandardDeleteByQueryNotifies(q: DeleteQuery, answer: DeleteQuery -> Outcome<int>)
    ensures Notifications(WriteEvents(Event.Delete(q), StandardDeleteResolver(answer)(q), DeleteNotice))
            == if answer(q).Returned? && answer(q).value > 0 then [Changes({q.table}, q.affectsTags)] else []
  {
    var outcome := StandardDeleteResolver(answer)(q);
    assert outcome == DefaultDeleteResult(q, answer(q));
    SingleDeleteNotifies(Event.Delete(q), outcome);
  }

  // ---------------------------------------------------------------------------
  // Batch deletes

  /** A delete of a collection of objects. */
  datatype PreparedDeleteCollectionOfObjects = PreparedDeleteCollectionOfObjects(
    data: seq<Item>, explicitDeleteResolver: Option<DeleteResolver<Item>>, useTransaction: bool)

  /** Builder.prepare: a transaction is used unless the caller turned it off. */
  function PrepareDeleteCollection(objects: seq<Item>, withDeleteResolver: Option<DeleteResolver<Item>>,
                                   useTransaction: Option<bool>): (p: PreparedDeleteCollectionOfObjects)
    ensures p.data == objects && p.explicitDeleteResolver == withDeleteResolver
    ensures p.useTransaction <==> useTransaction != Some(false)
  {
    PreparedDeleteCollectionOfObjects(objects, withDeleteResolver, if useTransaction.Some? then useTransaction.value else true)
  }

  /**
   * Deletes a collection of objects. Every object's resolver is found first; if
   * one has none the call fails and the store is untouched. Otherwise the batch
   * runs as Batch.BatchEvents describes.
   */
  method ExecuteDeleteCollection(store: LowLevel, p: PreparedDeleteCollectionOfObjects)
    returns (result: Result<map<Item, DeleteResult>>)
    requires store.Valid()
    modifies store
    ensures store.Valid()
    ensures !(p.explicitDeleteResolver.Some? || AllMapped(p.data, store.typeMappings)) ==>
              result == Err(NoTypeMapping) && store.log == old(store.log) && store.tx == old(store.tx)
    ensures p.explicitDeleteResolver.Some? || AllMapped(p.data, store.typeMappings) ==>
              var outs := Outcomes(p.data, Chosen(p.data, p.explicitDeleteResolver, store.typeMappings, DeleteResolverOf));
              && store.log == old(store.log) + BatchEvents(p.data, outs, Deletes, DeleteNotice, p.useTransaction)
              && store.tx == BatchTx(old(store.tx), p.useTransaction, Completed(outs) == |outs|)
              && result == BatchResult(p.data, outs)
  {
    var resolvers := ResolveAll(p.data, p.explicitDeleteResolver, store.typeMappings, DeleteResolverOf);
    if resolvers.None? {
      return Err(NoTypeMapping);
    }
    result := ExecuteBatch(store, p.data, resolvers.value, Deletes, DeleteNotice, p.useTransaction);
  }
}
