/**
 * Put operations: a single object, a single ContentValues bundle, a collection
 * of objects and an iterable of ContentValues bundles. Objects find their put
 * resolver through their class's type mapping unless one was given; content
 * values always come with one.
 */
module Put {
  import opened Types
  import opened StorIOSQLite
  import opened Batch
  import opened SingleWrite

  function PutResolverOf(m: TypeMapping): PutResolver {
    m.putResolver
  }

  // ---------------------------------------------------------------------------
  // Single puts

  /** A put of one object; getData is the object. */
  datatype PreparedPutObject = PreparedPutObject(data: Item, explicitPutResolver: Option<PutResolver>)

  /** A put of one ContentValues bundle with its resolver; getData is the bundle. */
  datatype PreparedPutContentValues = PreparedPutContentValues(data: Item, putResolver: PutResolver)

  /**
   * Puts one object: the explicit resolver if there is one, else the one of the
   * object's type mapping; with neither the store is not touched. The resolver
   * runs once on the object, a notification follows exactly when the result
   * was inserted or updated, and the result is returned unchanged.
   */
  method ExecutePutObject(store: LowLevel, p: PreparedPutObject) returns (result: Result<PutResult>)
    requires store.Valid()
    modifies store
    ensures store.Valid() && store.tx == old(store.tx)
    ensures var r := Choose(p.explicitPutResolver, Lookup(store.typeMappings, p.data.typeName), PutResolverOf);
            && (r.None? ==> result == Err(NoTypeMapping) && store.log == old(store.log))
            && (r.Some? ==> store.log == old(store.log) + WriteEvents(PerformPut(p.data), r.value(p.data), PutNotice)
                            && result == Wrapped(r.value(p.data)))
  {
    var resolver := Choose(p.explicitPutResolver, store.TypeMappingOf(p.data.typeName), PutResolverOf);
    if resolver.None? {
      return Err(NoTypeMapping);
    }
    result := PerformWrite(store, PerformPut(p.data), resolver.value, p.data, PutNotice);
  }

  /** Puts one ContentValues bundle with its resolver, then notifies when it inserted or updated. */
  method ExecutePutContentValues(store: LowLevel, p: PreparedPutContentValues) returns (result: Result<PutResult>)
    requires store.Valid()
    modifies store
    ensures store.Valid() && store.tx == old(store.tx)
    ensures store.log == old(store.log) + WriteEvents(PerformPut(p.data), p.putResolver(p.data), PutNotice)
    ensures result == Wrapped(p.putResolver(p.data))
  {
    result := PerformWrite(store, PerformPut(p.data), p.putResolver, p.data, PutNotice);
  }

  /**
   * What a single put notifies: one notification with the result's tables and
   * tags exactly when it was inserted or updated, and none when the put threw.
   */
  lemma SinglePutNotifies(item: Item, outcome: Outcome<PutResult>)
    ensures var ns := Notifications(WriteEvents(PerformPut(item), outcome, PutNotice));
            && (outcome.Threw? ==> ns == [])
            && (outcome.Returned? && (outcome.value.inserted || outcome.value.updated)
                ==> ns == [Changes(outcome.value.tables, outcome.value.tags)])
            && (outcome.Returned? && !outcome.value.inserted && !outcome.value.updated ==> ns == [])
    ensures Occurrences(WriteEvents(PerformPut(item), outcome, PutNotice), PerformPut(item)) == 1
  {
    WriteFacts(PerformPut(item), outcome, PutNotice, Begin);
  }

  // ---------------------------------------------------------------------------
  // Batch puts

  /** A put of a collection of objects. */
  datatype PreparedPutCollectionOfObjects = PreparedPutCollectionOfObjects(
    data: seq<Item>, explicitPutResolver: Option<PutResolver>, useTransaction: bool)

  /** A put of several ContentValues bundles, all with one resolver. */
  datatype PreparedPutContentValuesIterable = PreparedPutContentValuesIterable(
    data: seq<Item>, putResolver: PutResolver, useTransaction: bool)

  /**
   * Builder.prepare for a collection of objects; withPutResolver and
   * useTransaction are None when the caller never called them. A transaction is
   * used unless the caller turned it off.
   */
  function PreparePutCollection(objects: seq<Item>, withPutResolver: Option<PutResolver>,
                                useTransaction: Option<bool>): (p: PreparedPutCollectionOfObjects)
    ensures p.data == objects && p.explicitPutResolver == withPutResolver
    ensures p.useTransaction <==> useTransaction != Some(false)
  {
    PreparedPutCollectionOfObjects(objects, withPutResolver, if useTransaction.Some? then useTransaction.value else true)
  }

  /** CompleteBuilder.prepare for content values: a transaction unless the caller turned it off. */
  function PreparePutContentValuesIterable(values: seq<Item>, putResolver: PutResolver,
                                           useTransaction: Option<bool>): (p: PreparedPutContentValuesIterable)
    ensures p.data == values && p.putResolver == putResolver
    ensures p.useTransaction <==> useTransaction != Some(false)
  {
    PreparedPutContentValuesIterable(values, putResolver, if useTransaction.Some? then useTransaction.value else true)
  }

  /**
   * Puts a collection of objects. Every object's resolver is found first; if
   * one has none the call fails and the store is untouched. Otherwise the
   * batch runs as Batch.BatchEvents describes.
   */
  method ExecutePutCollection(store: LowLevel, p: PreparedPutCollectionOfObjects)
    returns (result: Result<map<Item, PutResult>>)
    requires store.Valid()
    modifies store
    ensures store.Valid()
    ensures !(p.explicitPutResolver.Some? || AllMapped(p.data, store.typeMappings)) ==>
              result == Err(NoTypeMapping) && store.log == old(store.log) && store.tx == old(store.tx)
    ensures p.explicitPutResolver.Some? || AllMapped(p.data, store.typeMappings) ==>
              var outs := Outcomes(p.data, Chosen(p.data, p.explicitPutResolver, store.typeMappings, PutResolverOf));
              && store.log == old(store.log) + BatchEvents(p.data, outs, Puts, PutNotice, p.useTransaction)
              && store.tx == BatchTx(old(store.tx), p.useTransaction, Completed(outs) == |outs|)
              && result == BatchResult(p.data, outs)
  {
    var resolvers := ResolveAll(p.data, p.explicitPutResolver, store.typeMappings, PutResolverOf);
    if resolvers.None? {
      return Err(NoTypeMapping);
    }
    result := ExecuteBatch(store, p.data, resolvers.value, Puts, PutNotice, p.useTransaction);
  }

  /** Puts several ContentValues bundles, each with the one given resolver, as a batch. */
  method ExecutePutContentValuesIterable(store: LowLevel, p: PreparedPutContentValuesIterable)
    returns (result: Result<map<Item, PutResult>>)
    requires store.Valid()
    modifies store
    ensures store.Valid()
    ensures var outs := Outcomes(p.data, seq(|p.data|, _ => p.putResolver));
            && store.log == old(store.log) + BatchEvents(p.data, outs, Puts, PutNotice, p.useTransaction)
            && store.tx == BatchTx(old(store.tx), p.useTransaction, Completed(outs) == |outs|)
            && result == BatchResult(p.data, outs)
  {
    var resolvers := seq(|p.data|, _ => p.putResolver);
    result := ExecuteBatch(store, p.data, resolvers, Puts, PutNotice, p.useTransaction);
  }
}
