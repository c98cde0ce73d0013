/**
 * The get executors: an object, a list of objects, the number of results and
 * the raw cursor. Each picks its resolver, picks the query to run, has the
 * resolver run it, and turns the cursor into its result; every executor that
 * reads the cursor closes it on every path once it has it.
 */
module Get {
  import opened Types
  import opened StorIOSQLite
  import opened Batch
  import opened PreparedGet

  function GetResolverOf(m: TypeMapping): GetResolver<Item> {
    m.getResolver
  }

  // ---------------------------------------------------------------------------
  // The store side of a get

  /** What a get leaves on the log: its query; then, when it owns the cursor it obtained, the close. */
  function GetEvents(g: GetQuery, cursor: Outcome<Cursor>, closes: bool): seq<Event> {
    [PerformGet(g)] + (if closes && cursor.Returned? then [CloseCursor] else [])
  }

  /**
   * A get queries once and notifies nothing; an executor that owns the cursor
   * closes it exactly once, as its last step, exactly when it obtained one;
   * one that hands the cursor out never closes it.
   */
  lemma GetEventsFacts(g: GetQuery, cursor: Outcome<Cursor>, closes: bool)
    ensures var events := GetEvents(g, cursor, closes);
            && Occurrences(events, PerformGet(g)) == 1
            && Occurrences(events, CloseCursor) == (if closes && cursor.Returned? then 1 else 0)
            && (closes && cursor.Returned? ==> events[|events| - 1] == CloseCursor)
            && Notifications(events) == []
  {
    var tail := if closes && cursor.Returned? then [CloseCursor] else [];
    assert GetEvents(g, cursor, closes) == [PerformGet(g)] + tail;
    assert [PerformGet(g)][1..] == [];
    NotificationsAppend([PerformGet(g)], tail);
    OccurrencesAppend([PerformGet(g)], tail, PerformGet(g));
    OccurrencesAppend([PerformGet(g)], tail, CloseCursor);
    if tail != [] {
      assert tail[1..] == [];
    }
  }

  /** Has the resolver run the query: logs it and returns the cursor or the failure. */
  method RunQuery<T>(store: LowLevel, resolver: GetResolver<T>, g: GetQuery) returns (cursor: Outcome<Cursor>)
    requires store.Valid()
    modifies store
    ensures store.Valid() && store.tx == old(store.tx)
    ensures store.log == old(store.log) + [PerformGet(g)]
    ensures cursor == resolver.performGet(g)
  {
    store.Perform(PerformGet(g));
    cursor := resolver.performGet(g);
  }

  // ---------------------------------------------------------------------------
  // Reading a cursor

  /** An object get's reading of a cursor: none for an empty cursor, else its first row mapped. */
  function ObjectOf<T>(c: Cursor, mapFromCursor: (Cursor, int) -> Outcome<T>): Outcome<Option<T>> {
    if |c| == 0 then Returned(None)
    else if mapFromCursor(c, 0).Threw? then Threw
    else Returned(Some(mapFromCursor(c, 0).value))
  }

  /** The first n rows mapped in order, stopping at the first mapping that throws. */
  function MappedRows<T>(c: Cursor, mapFromCursor: (Cursor, int) -> Outcome<T>, n: nat): Outcome<seq<T>>
    requires n <= |c|
  {
    if n == 0 then Returned([])
    else
      var prefix := MappedRows(c, mapFromCursor, n - 1);
      if prefix.Threw? || mapFromCursor(c, n - 1).Threw? then Threw
      else Returned(prefix.value + [mapFromCursor(c, n - 1).value])
  }

  /** A list get's reading of a cursor: the empty list for an empty cursor, else every row mapped. */
  function ListOf<T>(c: Cursor, mapFromCursor: (Cursor, int) -> Outcome<T>): Outcome<seq<T>> {
    if |c| == 0 then Returned([]) else MappedRows(c, mapFromCursor, |c|)
  }

  /**
   * Mapping the first n rows succeeds exactly when every one of them maps,
   * and then yields one element per row, the i-th being row i mapped.
   */
  lemma {:induction false} MappedRowsFacts<T>(c: Cursor, mapFromCursor: (Cursor, int) -> Outcome<T>, n: nat)
    requires n <= |c|
    ensures MappedRows(c, mapFromCursor, n).Returned? <==> forall i :: 0 <= i < n ==> mapFromCursor(c, i).Returned?
    ensures MappedRows(c, mapFromCursor, n).Returned? ==>
              var l := MappedRows(c, mapFromCursor, n).value;
              |l| == n && forall i :: 0 <= i < n ==> l[i] == mapFromCursor(c, i).value
    decreases n
  {
    if n > 0 {
      MappedRowsFacts(c, mapFromCursor, n - 1);
    }
  }

  /**
   * A list get yields, when every row maps, exactly one element per row of the
   * cursor, in cursor order; it fails when some row's mapping throws.
   */
  lemma ListOfFacts<T>(c: Cursor, mapFromCursor: (Cursor, int) -> Outcome<T>)
    ensures ListOf(c, mapFromCursor).Returned? <==> forall i :: 0 <= i < |c| ==> mapFromCursor(c, i).Returned?
    ensures ListOf(c, mapFromCursor).Returned? ==>
              var l := ListOf(c, mapFromCursor).value;
              |l| == |c| && forall i :: 0 <= i < |c| ==> l[i] == mapFromCursor(c, i).value
  {
    MappedRowsFacts(c, mapFromCursor, |c|);
  }

  /** An object get reads what heads the list get of the same cursor: nothing when the list is empty. */
  lemma ObjectIsHeadOfList<T>(c: Cursor, mapFromCursor: (Cursor, int) -> Outcome<T>)
    requires ListOf(c, mapFromCursor).Returned?
    ensures var l := ListOf(c, mapFromCursor).value;
            ObjectOf(c, mapFromCursor) == Returned(if l == [] then None else Some(l[0]))
  {
    ListOfFacts(c, mapFromCursor);
  }

  /** Once a row's mapping throws, mapping any longer prefix throws too. */
  lemma {:induction false} ThrowPersists<T>(c: Cursor, mapFromCursor: (Cursor, int) -> Outcome<T>, i: nat, n: nat)
    requires i <= n <= |c| && MappedRows(c, mapFromCursor, i).Threw?
    ensures MappedRows(c, mapFromCursor, n).Threw?
    decreases n
  {
    if i < n {
      ThrowPersists(c, mapFromCursor, i, n - 1);
    }
  }

  /**
   * The loop of a list get: moves over the rows in order, adding each mapped
   * row to the list, and fails at the first mapping that throws.
   */
  method MapRows<T>(c: Cursor, mapFromCursor: (Cursor, int) -> Outcome<T>) returns (out: Outcome<seq<T>>)
    ensures out == MappedRows(c, mapFromCursor, |c|)
  {
    var list: seq<T> := [];
    var i := 0;
    while i < |c|
      invariant i <= |c|
      invariant MappedRows(c, mapFromCursor, i) == Returned(list)
    {
      var mapped := mapFromCursor(c, i);
      if mapped.Threw? {
        ThrowPersists(c, mapFromCursor, i + 1, |c|);
        return Threw;
      }
      list := list + [mapped.value];
      i := i + 1;
    }
    return Returned(list);
  }

  /** What a get returns once it ran its query: the failure if the query threw, else the reading of the cursor. */
  function ReadResult<T>(cursor: Outcome<Cursor>, reading: Cursor -> Outcome<T>): Result<T> {
    if cursor.Threw? then Err(OperationFailed) else Wrapped(reading(cursor.value))
  }

  // ---------------------------------------------------------------------------
  // Object and list gets

  /** A get of one object of a class; the explicit resolver, when given, replaces the type mapping's. */
  datatype PreparedGetObject = PreparedGetObject(
    typeName: TypeName, source: GetSource, explicitGetResolver: Option<GetResolver<Item>>)

  /** A get of a list of objects of a class. */
  datatype PreparedGetListOfObjects = PreparedGetListOfObjects(
    typeName: TypeName, source: GetSource, explicitGetResolver: Option<GetResolver<Item>>)

  /**
   * Gets one object: the resolver is the explicit one, else the class's type
   * mapping's, else the call fails before any query; then the Query (or else
   * the RawQuery, or else a failure) runs; an empty cursor gives none, any
   * other its first row mapped; the cursor is closed whatever the mapping did.
   */
  method ExecuteGetObject(store: LowLevel, p: PreparedGetObject) returns (result: Result<Option<Item>>)
    requires store.Valid()
    modifies store
    ensures store.Valid() && store.tx == old(store.tx)
    ensures var r := Choose(p.explicitGetResolver, Lookup(store.typeMappings, p.typeName), GetResolverOf);
            var g := QueryToRun(p.source);
            && (r.None? ==> result == Err(NoTypeMapping) && store.log == old(store.log))
            && (r.Some? && g.Err? ==> result == Err(NoQuery) && store.log == old(store.log))
            && (r.Some? && g.Ok? ==>
                  var cursor := r.value.performGet(g.value);
                  store.log == old(store.log) + GetEvents(g.value, cursor, true)
                  && result == ReadResult(cursor, c => ObjectOf(c, r.value.mapFromCursor)))
  {
    var resolver := Choose(p.explicitGetResolver, store.TypeMappingOf(p.typeName), GetResolverOf);
    if resolver.None? {
      return Err(NoTypeMapping);
    }
    var g := QueryToRun(p.source);
    if g.Err? {
      return Err(NoQuery);
    }
    var cursor := RunQuery(store, resolver.value, g.value);
    if cursor.Threw? {
      return Err(OperationFailed);
    }
    var c := cursor.value;
    if |c| == 0 {
      result := Ok(None);
    } else {
      var mapped := resolver.value.mapFromCursor(c, 0);
      result := if mapped.Threw? then Err(OperationFailed) else Ok(Some(mapped.value));
    }
    store.CloseCursor();
  }

  /**
   * Gets a list of objects: resolver and query chosen as for one object; an
   * empty cursor gives the empty list, any other every row mapped in order;
   * the cursor is closed whatever the mapping did.
   */
  method ExecuteGetListOfObjects(store: LowLevel, p: PreparedGetListOfObjects) returns (result: Result<seq<Item>>)
    requires store.Valid()
    modifies store
    ensures store.Valid() && store.tx == old(store.tx)
    ensures var r := Choose(p.explicitGetResolver, Lookup(store.typeMappings, p.typeName), GetResolverOf);
            var g := QueryToRun(p.source);
            && (r.None? ==> result == Err(NoTypeMapping) && store.log == old(store.log))
            && (r.Some? && g.Err? ==> result == Err(NoQuery) && store.log == old(store.log))
            && (r.Some? && g.Ok? ==>
                  var cursor := r.value.performGet(g.value);
                  store.log == old(store.log) + GetEvents(g.value, cursor, true)
                  && result == ReadResult(cursor, c => ListOf(c, r.value.mapFromCursor)))
  {
    var resolver := Choose(p.explicitGetResolver, store.TypeMappingOf(p.typeName), GetResolverOf);
    if resolver.None? {
      return Err(NoTypeMapping);
    }
    var g := QueryToRun(p.source);
    if g.Err? {
      return Err(NoQuery);
    }
    var cursor := RunQuery(store, resolver.value, g.value);
    if cursor.Threw? {
      return Err(OperationFailed);
    }
    var c := cursor.value;
    if |c| == 0 {
      result := Ok([]);
    } else {
      var list := MapRows(c, resolver.value.mapFromCursor);
      result := Wrapped(list);
    }
    store.CloseCursor();
  }

  // ---------------------------------------------------------------------------
  // Number of results and cursor gets

  /** A get of the number of results, with its resolver. */
  datatype PreparedGetNumberOfResults = PreparedGetNumberOfResults(source: GetSource, getResolver: GetResolver<int>)

  /** A get of the cursor itself, with its resolver. */
  datatype PreparedGetCursor = PreparedGetCursor(source: GetSource, getResolver: GetResolver<Cursor>)

  /**
   * The standard resolver of a number-of-results get: it queries the store
   * (performGet) and reads a cursor as its number of rows.
   */
  function StandardCountResolver(performGet: GetQuery -> Outcome<Cursor>): (r: GetResolver<int>)
    ensures r.performGet == performGet
    ensures forall c: Cursor, position: int {:trigger r.mapFromCursor(c, position)} :: r.mapFromCursor(c, position) == Returned(|c|)
  {
    GetResolver(performGet, (c: Cursor, position: int) => Returned(|c|))
  }

  /** The standard resolver of a cursor get: it queries the store and hands the cursor back untouched. */
  function StandardCursorResolver(performGet: GetQuery -> Outcome<Cursor>): (r: GetResolver<Cursor>)
    ensures r.performGet == performGet
    ensures forall c: Cursor, position: int {:trigger r.mapFromCursor(c, position)} :: r.mapFromCursor(c, position) == Returned(c)
  {
    GetResolver(performGet, (c: Cursor, position: int) => Returned(c))
  }

  /** CompleteBuilder.prepare's choice of query: the Query, else the RawQuery, else an error. */
  function PreparedSource(query: Option<Query>, rawQuery: Option<RawQuery>): (s: Result<GetSource>)
    ensures s.Err? <==> query.None? && rawQuery.None?
    ensures s.Ok? ==> Constructed(s.value) && QueryToRun(s.value).Ok?
    ensures query.Some? ==> s == Ok(ForQuery(query.value))
    ensures query.None? && rawQuery.Some? ==> s == Ok(ForRawQuery(rawQuery.value))
  {
    if query.Some? then Ok(ForQuery(query.value))
    else if rawQuery.Some? then Ok(ForRawQuery(rawQuery.value))
    else Err(NoQuery)
  }

  /**
   * CompleteBuilder.prepare of a number-of-results get: the standard resolver
   * (over the store's own query, performGet) unless the caller gave one.
   */
  function PrepareGetNumberOfResults(query: Option<Query>, rawQuery: Option<RawQuery>,
                                     withGetResolver: Option<GetResolver<int>>,
                                     performGet: GetQuery -> Outcome<Cursor>): (p: Result<PreparedGetNumberOfResults>)
    ensures p.Err? <==> query.None? && rawQuery.None?
    ensures p.Ok? ==> p.value.source == PreparedSource(query, rawQuery).value
    ensures p.Ok? ==> p.value.getResolver
                      == if withGetResolver.Some? then withGetResolver.value else StandardCountResolver(performGet)
  {
    var source := PreparedSource(query, rawQuery);
    if source.Err? then Err(NoQuery)
    else Ok(PreparedGetNumberOfResults(source.value,
              if withGetResolver.Some? then withGetResolver.value else StandardCountResolver(performGet)))
  }

  /** CompleteBuilder.prepare of a cursor get: the standard resolver unless the caller gave one. */
  function PrepareGetCursor(query: Option<Query>, rawQuery: Option<RawQuery>,
                            withGetResolver: Option<GetResolver<Cursor>>,
                            performGet: GetQuery -> Outcome<Cursor>): (p: Result<PreparedGetCursor>)
    ensures p.Err? <==> query.None? && rawQuery.None?
    ensures p.Ok? ==> p.value.source == PreparedSource(query, rawQuery).value
    ensures p.Ok? ==> p.value.getResolver
                      == if withGetResolver.Some? then withGetResolver.value else StandardCursorResolver(performGet)
  {
    var source := PreparedSource(query, rawQuery);
    if source.Err? then Err(NoQuery)
    else Ok(PreparedGetCursor(source.value,
              if withGetResolver.Some? then withGetResolver.value else StandardCursorResolver(performGet)))
  }

  /**
   * Gets the number of results: the Query (or else the RawQuery, or else a
   * failure) runs, the resolver reads the whole cursor from before its first
   * row, and the cursor is closed whatever the reading did.
   */
  method ExecuteGetNumberOfResults(store: LowLevel, p: PreparedGetNumberOfResults) returns (result: Result<int>)
    requires store.Valid()
    modifies store
    ensures store.Valid() && store.tx == old(store.tx)
    ensures var g := QueryToRun(p.source);
            && (g.Err? ==> result == Err(NoQuery) && store.log == old(store.log))
            && (g.Ok? ==>
                  var cursor := p.getResolver.performGet(g.value);
                  store.log == old(store.log) + GetEvents(g.value, cursor, true)
                  && result == ReadResult(cursor, c => p.getResolver.mapFromCursor(c, BeforeFirst)))
  {
    var g := QueryToRun(p.source);
    if g.Err? {
      return Err(NoQuery);
    }
    var cursor := RunQuery(store, p.getResolver, g.value);
    if cursor.Threw? {
      return Err(OperationFailed);
    }
    result := Wrapped(p.getResolver.mapFromCursor(cursor.value, BeforeFirst));
    store.CloseCursor();
  }

  /**
   * Gets the cursor: the Query (or else the RawQuery, or else a failure) runs
   * and what the resolver's query returned is handed back as it is, neither
   * read nor closed.
   */
  method ExecuteGetCursor(store: LowLevel, p: PreparedGetCursor) returns (result: Result<Cursor>)
    requires store.Valid()
    modifies store
    ensures store.Valid() && store.tx == old(store.tx)
    ensures var g := QueryToRun(p.source);
            && (g.Err? ==> result == Err(NoQuery) && store.log == old(store.log))
            && (g.Ok? ==>
                  store.log == old(store.log) + GetEvents(g.value, p.getResolver.performGet(g.value), false)
                  && result == Wrapped(p.getResolver.performGet(g.value)))
  {
    var g := QueryToRun(p.source);
    if g.Err? {
      return Err(NoQuery);
    }
    var cursor := RunQuery(store, p.getResolver, g.value);
    result := Wrapped(cursor);
  }

  /**
   * With the standard resolver, a number-of-results get whose query answers a
   * cursor returns that cursor's number of rows, and a cursor get returns the
   * cursor itself.
   */
  lemma StandardResolversRead(s: GetSource, performGet: GetQuery -> Outcome<Cursor>, c: Cursor)
    requires QueryToRun(s).Ok? && performGet(QueryToRun(s).value) == Returned(c)
    ensures var r := StandardCountResolver(performGet);
            ReadResult(r.performGet(QueryToRun(s).value), (d: Cursor) => r.mapFromCursor(d, BeforeFirst)) == Ok(|c|)
    ensures Wrapped(StandardCursorResolver(performGet).performGet(QueryToRun(s).value)) == Ok(c)
  {
    var r := StandardCountResolver(performGet);
    assert r.mapFromCursor(c, BeforeFirst) == Returned(|c|);
  }
}
