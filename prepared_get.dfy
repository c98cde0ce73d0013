/**
 * PreparedGet, the base of every get: what it reads (a Query or a RawQuery),
 * what it reports as its data, which tables and tags it observes, and how a
 * live read turns a stream of changes into re-reads.
 */
module PreparedGet {
  import opened Types
  import opened ChangesFilter

  /** What a get reads; its two constructors each set exactly one of the two. */
  datatype GetSource = GetSource(query: Option<Query>, rawQuery: Option<RawQuery>)

  /** The constructor taking a Query. */
  function ForQuery(q: Query): (s: GetSource)
    ensures s.query == Some(q) && s.rawQuery.None?
  {
    GetSource(Some(q), None)
  }

  /** The constructor taking a RawQuery. */
  function ForRawQuery(r: RawQuery): (s: GetSource)
    ensures s.rawQuery == Some(r) && s.query.None?
  {
    GetSource(None, Some(r))
  }

  /** Made by one of the two constructors. */
  predicate Constructed(s: GetSource) {
    s.query.Some? != s.rawQuery.Some?
  }

  /** The query the get executors run: the Query when there is one, else the RawQuery, else none. */
  function QueryToRun(s: GetSource): Result<GetQuery> {
    if s.query.Some? then Ok(ByQuery(s.query.value))
    else if s.rawQuery.Some? then Ok(ByRawQuery(s.rawQuery.value))
    else Err(NoQuery)
  }

  /** getData: the RawQuery when there is one, else the Query, else an error. */
  function GetData(s: GetSource): Result<GetQuery> {
    if s.rawQuery.Some? then Ok(ByRawQuery(s.rawQuery.value))
    else if s.query.Some? then Ok(ByQuery(s.query.value))
    else Err(NoQuery)
  }

  /**
   * The two orders agree on every constructed get: getData reports the query
   * the executors run, which is the one given to the constructor. Only a get
   * holding both could tell them apart.
   */
  lemma DataIsQueryRun(s: GetSource)
    requires Constructed(s)
    ensures GetData(s) == QueryToRun(s)
    ensures s.query.Some? ==> GetData(s) == Ok(ByQuery(s.query.value))
    ensures s.rawQuery.Some? ==> GetData(s) == Ok(ByRawQuery(s.rawQuery.value))
  {
  }

  /** extractTables: the Query's table, else the RawQuery's observed tables, else an error. */
  function ExtractTables(s: GetSource): (r: Result<set<Table>>)
    ensures r.Err? <==> s.query.None? && s.rawQuery.None?
    ensures s.query.Some? ==> r == Ok({s.query.value.table})
    ensures s.query.None? && s.rawQuery.Some? ==> r == Ok(s.rawQuery.value.observesTables)
  {
    if s.query.Some? then Ok({s.query.value.table})
    else if s.rawQuery.Some? then Ok(s.rawQuery.value.observesTables)
    else Err(NoQuery)
  }

  /** extractTags: the Query's observed tags, else the RawQuery's, else an error. */
  function ExtractTags(s: GetSource): (r: Result<set<Tag>>)
    ensures r.Err? <==> s.query.None? && s.rawQuery.None?
    ensures s.query.Some? ==> r == Ok(s.query.value.observesTags)
    ensures s.query.None? && s.rawQuery.Some? ==> r == Ok(s.rawQuery.value.observesTags)
  {
    if s.query.Some? then Ok(s.query.value.observesTags)
    else if s.rawQuery.Some? then Ok(s.rawQuery.value.observesTags)
    else Err(NoQuery)
  }

  /** One execution of the get emitted by a live read: the first one, or the one a change caused. */
  datatype Read = Initial | Reread(change: Changes)

  /** One re-read per change, in order. */
  function Rereads(changes: seq<Changes>): (emitted: seq<Read>)
    ensures |emitted| == |changes|
    ensures forall i :: 0 <= i < |changes| ==> emitted[i] == Reread(changes[i])
  {
    if changes == [] then [] else [Reread(changes[0])] + Rereads(changes[1..])
  }

  /**
   * asFlow over a finite stream of changes: the reads it emits. With nothing
   * observed the get is read once and the stream is never listened to;
   * otherwise it is read once, then again after every change that touches an
   * observed table or tag.
   */
  function AsFlow(s: GetSource, changes: seq<Changes>): Result<seq<Read>> {
    var tables := ExtractTables(s);
    var tags := ExtractTags(s);
    if tables.Err? || tags.Err? then Err(NoQuery)
    else if tables.value != {} || tags.value != {} then
      Ok([Initial] + Rereads(ApplyForTablesAndTags(changes, tables.value, tags.value)))
    else Ok([Initial])
  }

  /** There is a re-read for a change exactly when the change is in the list. */
  lemma RereadOf(changes: seq<Changes>, c: Changes)
    ensures Reread(c) in Rereads(changes) <==> c in changes
  {
    var emitted := Rereads(changes);
    if c in changes {
      var i :| 0 <= i < |changes| && changes[i] == c;
      assert emitted[i] == Reread(c);
    }
    if Reread(c) in emitted {
      var i :| 0 <= i < |emitted| && emitted[i] == Reread(c);
      assert changes[i] == c;
    }
  }

  /**
   * What a live read emits: the first read always; nothing else when it
   * observes no table and no tag; otherwise exactly one re-read per change
   * touching an observed table or tag, in the order the changes came.
   */
  lemma LiveReads(s: GetSource, changes: seq<Changes>)
    requires s.query.Some? || s.rawQuery.Some?
    ensures AsFlow(s, changes).Ok?
    ensures var emitted := AsFlow(s, changes).value;
            var tables := ExtractTables(s).value;
            var tags := ExtractTags(s).value;
            && |emitted| >= 1 && emitted[0] == Initial
            && (tables == {} && tags == {} ==> emitted == [Initial])
            && (tables != {} || tags != {} ==>
                  emitted[1..] == Rereads(ApplyForTablesAndTags(changes, tables, tags))
                  && forall c :: Reread(c) in emitted <==>
                       c in changes && (tables * c.tables != {} || tags * c.tags != {}))
  {
    var tables := ExtractTables(s).value;
    var tags := ExtractTags(s).value;
    var emitted := AsFlow(s, changes).value;
    if tables != {} || tags != {} {
      var passing := ApplyForTablesAndTags(changes, tables, tags);
      assert emitted == [Initial] + Rereads(passing);
      assert emitted[1..] == Rereads(passing);
      forall c ensures Reread(c) in emitted <==> c in changes && (tables * c.tables != {} || tags * c.tags != {}) {
        RereadOf(passing, c);
        assert Reread(c) in emitted <==> Reread(c) in Rereads(passing);
      }
    }
  }

  /** A get built from a Query always observes its table, so it is always live. */
  lemma QueryGetIsLive(q: Query, changes: seq<Changes>)
    ensures AsFlow(ForQuery(q), changes)
            == Ok([Initial] + Rereads(ApplyForTablesAndTags(changes, {q.table}, q.observesTags)))
  {
    assert q.table in {q.table};
  }

  /**
   * A get built from a RawQuery observes the tables and tags the raw query
   * declares: it re-reads on the changes touching them, and is read only once
   * when it declares none.
   */
  lemma RawQueryGetIsLive(r: RawQuery, changes: seq<Changes>)
    ensures r.observesTables == {} && r.observesTags == {} ==> AsFlow(ForRawQuery(r), changes) == Ok([Initial])
    ensures r.observesTables != {} || r.observesTags != {} ==>
              AsFlow(ForRawQuery(r), changes)
              == Ok([Initial] + Rereads(ApplyForTablesAndTags(changes, r.observesTables, r.observesTags)))
  {
  }

  /** A get that holds no query cannot be observed. */
  lemma NoQueryNoFlow(changes: seq<Changes>)
    ensures AsFlow(GetSource(None, None), changes) == Err(NoQuery)
  {
  }
}
