/**
 * The store every executor works against: StorIOSQLite.LowLevel, modelled as an
 * object that records what is done to it (an event log) and keeps the state of
 * its nested transactions. The SQLite engine behind it answers through constant
 * functions fixed when the store is made.
 */
module StorIOSQLite {
  import opened Types

  /**
   * Transaction state: one mark per open transaction (innermost last, true once
   * setTransactionSuccessful was called on it), whether some transaction inside
   * the current outermost one ended unmarked, and the fate of every outermost
   * transaction ended so far (true: committed, false: rolled back).
   */
  datatype Tx = Tx(marks: seq<bool>, doomed: bool, outcomes: seq<bool>)

  /** No transaction is open. */
  const Idle := Tx([], false, [])

  /** The transaction state after one event; only Begin, SetSuccessful and End change it. */
  function Step(t: Tx, e: Event): Tx {
    match e
    case Begin => t.(marks := t.marks + [false])
    case SetSuccessful =>
      if |t.marks| == 0 then t else t.(marks := t.marks[..|t.marks| - 1] + [true])
    case End =>
      if |t.marks| == 0 then t
      else
        var doomed := t.doomed || !t.marks[|t.marks| - 1];
        if |t.marks| == 1 then Tx([], false, t.outcomes + [!doomed])
        else Tx(t.marks[..|t.marks| - 1], doomed, t.outcomes)
    case _ => t
  }

  /** The transaction state after a sequence of events. */
  function Replay(t: Tx, events: seq<Event>): Tx
    decreases |events|
  {
    if events == [] then t else Replay(Step(t, events[0]), events[1..])
  }

  /** The notifications in a log, in order. */
  function Notifications(events: seq<Event>): (ns: seq<Changes>)
    ensures |ns| <= |events|
  {
    if events == [] then []
    else (if events[0].Notify? then [events[0].changes] else []) + Notifications(events[1..])
  }

  /** How many times an event occurs in a log. */
  function Occurrences(events: seq<Event>, e: Event): (n: nat)
    ensures n <= |events|
  {
    if events == [] then 0
    else (if events[0] == e then 1 else 0) + Occurrences(events[1..], e)
  }

  lemma {:induction false} ReplayAppend(t: Tx, a: seq<Event>, b: seq<Event>)
    ensures Replay(t, a + b) == Replay(Replay(t, a), b)
    decreases |a|
  {
    if a != [] {
      assert (a + b)[0] == a[0] && (a + b)[1..] == a[1..] + b;
      ReplayAppend(Step(t, a[0]), a[1..], b);
    } else {
      assert a + b == b;
    }
  }

  lemma {:induction false} NotificationsAppend(a: seq<Event>, b: seq<Event>)
    ensures Notifications(a + b) == Notifications(a) + Notifications(b)
    decreases |a|
  {
    if a == [] {
      assert a + b == b;
    } else {
      assert (a + b)[0] == a[0] && (a + b)[1..] == a[1..] + b;
      NotificationsAppend(a[1..], b);
    }
  }

  lemma {:induction false} OccurrencesAppend(a: seq<Event>, b: seq<Event>, e: Event)
    ensures Occurrences(a + b, e) == Occurrences(a, e) + Occurrences(b, e)
    decreases |a|
  {
    if a == [] {
      assert a + b == b;
    } else {
      assert (a + b)[0] == a[0] && (a + b)[1..] == a[1..] + b;
      OccurrencesAppend(a[1..], b, e);
    }
  }

  /** A log holds no notification exactly when it has no Notify event. */
  lemma {:induction false} NoNotifications(events: seq<Event>)
    ensures Notifications(events) == [] <==> forall i :: 0 <= i < |events| ==> !events[i].Notify?
    decreases |events|
  {
    if events != [] {
      NoNotifications(events[1..]);
      assert forall i :: 1 <= i < |events| ==> events[i] == events[1..][i - 1];
    }
  }

  /**
   * A nested transaction as the documented idiom writes it: begin, the nested
   * transactions in order, setTransactionSuccessful when marked, then end.
   */
  datatype Session = Session(children: seq<Session>, marked: bool)

  /** The session and all sessions nested in it were marked successful. */
  predicate AllMarked(s: Session)
    decreases s, 1
  {
    s.marked && ChildrenMarked(s, |s.children|)
  }

  predicate ChildrenMarked(s: Session, k: nat)
    requires k <= |s.children|
    decreases s, 0, k
  {
    k == 0 || (ChildrenMarked(s, k - 1) && AllMarked(s.children[k - 1]))
  }

  function SessionEvents(s: Session): (evs: seq<Event>)
    decreases s, 1
  {
    [Begin] + ChildrenEvents(s, |s.children|) + (if s.marked then [SetSuccessful] else []) + [End]
  }

  function ChildrenEvents(s: Session, k: nat): seq<Event>
    requires k <= |s.children|
    decreases s, 0, k
  {
    if k == 0 then [] else ChildrenEvents(s, k - 1) + SessionEvents(s.children[k - 1])
  }

  /**
   * A session run inside an open transaction leaves the open transactions as they
   * were and commits nothing; it only dooms the enclosing work when some nested
   * transaction was ended unmarked.
   */
  lemma {:induction false} NestedSession(t: Tx, s: Session)
    requires |t.marks| > 0
    ensures Replay(t, SessionEvents(s)) == t.(doomed := t.doomed || !AllMarked(s))
    decreases s, 1
  {
    var t1 := Step(t, Begin);
    var children := ChildrenEvents(s, |s.children|);
    var close := (if s.marked then [SetSuccessful] else []) + [End];
    assert Replay(t, [Begin]) == t1 by {
      assert [Begin][1..] == [];
    }
    var inner := NestedChildren(t1, s, |s.children|);
    ReplayAppend(t, [Begin], children);
    assert SessionEvents(s) == ([Begin] + children) + close;
    ReplayAppend(t, [Begin] + children, close);
    CloseNested(t, inner, s.marked);
  }

  /** Marking (or not) and ending a transaction opened inside another one. */
  lemma CloseNested(t: Tx, inner: Tx, marked: bool)
    requires |t.marks| > 0
    requires inner.marks == t.marks + [false] && inner.outcomes == t.outcomes
    ensures Replay(inner, (if marked then [SetSuccessful] else []) + [End])
            == t.(doomed := inner.doomed || !marked)
  {
    var top := inner.(marks := t.marks + [marked]);
    assert (t.marks + [false])[..|t.marks|] == t.marks;
    assert (t.marks + [marked])[..|t.marks|] == t.marks;
    if marked {
      assert [SetSuccessful, End][1..] == [End];
      assert Replay(inner, [SetSuccessful, End]) == Replay(top, [End]);
    }
    assert Replay(top, [End]) == Step(top, End) by {
      assert [End][1..] == [];
    }
  }

  /** The state after the first k nested sessions; returns it so callers can name it. */
  lemma {:induction false} NestedChildren(t: Tx, s: Session, k: nat) returns (after: Tx)
    requires |t.marks| > 0 && k <= |s.children|
    ensures after == Replay(t, ChildrenEvents(s, k))
    ensures after == t.(doomed := t.doomed || !ChildrenMarked(s, k))
    decreases s, 0, k
  {
    if k == 0 {
      after := t;
    } else {
      var mid := NestedChildren(t, s, k - 1);
      NestedSession(mid, s.children[k - 1]);
      ReplayAppend(t, ChildrenEvents(s, k - 1), SessionEvents(s.children[k - 1]));
      after := Replay(t, ChildrenEvents(s, k));
    }
  }

  /**
   * Nested transactions started with none open: ending the outermost one records
   * a single outcome, which is a commit exactly when every transaction in it was
   * marked successful, and leaves no transaction open.
   */
  lemma OutermostSession(outcomes: seq<bool>, s: Session)
    ensures Replay(Tx([], false, outcomes), SessionEvents(s)) == Tx([], false, outcomes + [AllMarked(s)])
  {
    var t := Tx([], false, outcomes);
    var t1 := Step(t, Begin);
    var inner := NestedChildren(t1, s, |s.children|);
    var mark := if s.marked then [SetSuccessful] else [];
    ReplayAppend(t, [Begin], ChildrenEvents(s, |s.children|));
    ReplayAppend(t, [Begin] + ChildrenEvents(s, |s.children|), mark);
    ReplayAppend(t, [Begin] + ChildrenEvents(s, |s.children|) + mark, [End]);
  }

  /** A subscription handed on to observeChangesInTables / observeChangesOfTags. */
  datatype Subscription = InTables(tables: set<Table>) | OfTags(tags: set<Tag>)

  /** observeChangesInTable: rejects an empty name, else subscribes to exactly that table. */
  function ObserveChangesInTable(table: Table): (r: Option<Subscription>)
    ensures r.None? <==> table == ""
    ensures r.Some? ==> r.value.InTables? && table in r.value.tables && |r.value.tables| == 1
  {
    if table == "" then None else Some(InTables({table}))
  }

  /** observeChangesOfTag: rejects an empty tag, else subscribes to exactly that tag. */
  function ObserveChangesOfTag(tag: Tag): (r: Option<Subscription>)
    ensures r.None? <==> tag == ""
    ensures r.Some? ==> r.value.OfTags? && tag in r.value.tags && |r.value.tags| == 1
  {
    if tag == "" then None else Some(OfTags({tag}))
  }

  class LowLevel {
    /** Everything done to the store so far. */
    var log: seq<Event>
    /** The state of its nested transactions. */
    var tx: Tx
    /** The type mappings registered for the store, by class name. */
    const typeMappings: map<TypeName, TypeMapping>
    /** What delete answers: the number of rows deleted. */
    const deleteAnswer: DeleteQuery -> Outcome<int>
    /** Whether executeSQL succeeds on a statement. */
    const executeAnswer: RawQuery -> bool

    /** A store is doomed only while a transaction is open. */
    predicate Valid()
      reads this
    {
      tx.doomed ==> |tx.marks| > 0
    }

    constructor (mappings: map<TypeName, TypeMapping>, delete: DeleteQuery -> Outcome<int>,
                 execute: RawQuery -> bool)
      ensures Valid() && log == [] && tx == Idle
      ensures typeMappings == mappings
      ensures deleteAnswer == delete && executeAnswer == execute
    {
      log := [];
      tx := Idle;
      typeMappings := mappings;
      deleteAnswer := delete;
      executeAnswer := execute;
    }

    /** typeMapping(type): the mapping registered for a class, if any. */
    function TypeMappingOf(typeName: TypeName): (m: Option<TypeMapping>)
      ensures m.Some? <==> typeName in typeMappings
      ensures m.Some? ==> m.value == typeMappings[typeName]
    {
      if typeName in typeMappings then Some(typeMappings[typeName]) else None
    }

    /** beginTransaction: opens a transaction, nested in any that is open. */
    method BeginTransaction()
      requires Valid()
      modifies this
      ensures Valid()
      ensures log == old(log) + [Begin] && tx == Step(old(tx), Begin)
      ensures |tx.marks| == |old(tx.marks)| + 1 && !tx.marks[|tx.marks| - 1]
    {
      log := log + [Begin];
      tx := Step(tx, Begin);
    }

    /**
     * setTransactionSuccessful: marks the innermost open transaction; fails with
     * nothing changed when it is already marked or when none is open.
     */
    method SetTransactionSuccessful() returns (ok: bool)
      requires Valid()
      modifies this
      ensures Valid()
      ensures ok <==> |old(tx.marks)| > 0 && !old(tx.marks)[|old(tx.marks)| - 1]
      ensures ok ==> log == old(log) + [SetSuccessful] && tx == Step(old(tx), SetSuccessful)
      ensures !ok ==> log == old(log) && tx == old(tx)
    {
      ok := |tx.marks| > 0 && !tx.marks[|tx.marks| - 1];
      if ok {
        log := log + [SetSuccessful];
        tx := Step(tx, SetSuccessful);
      }
    }

    /**
     * endTransaction: closes the innermost open transaction; ending the outermost one
     * commits or rolls back all the work in it. Fails with nothing changed when none is open.
     */
    method EndTransaction() returns (ok: bool)
      requires Valid()
      modifies this
      ensures Valid()
      ensures ok <==> |old(tx.marks)| > 0
      ensures ok ==> log == old(log) + [End] && tx == Step(old(tx), End)
      ensures !ok ==> log == old(log) && tx == old(tx)
    {
      ok := |tx.marks| > 0;
      if ok {
        log := log + [End];
        tx := Step(tx, End);
      }
    }

    /** notifyAboutChanges: the one way subscribers hear of a change. */
    method NotifyAboutChanges(changes: Changes)
      requires Valid()
      modifies this
      ensures Valid()
      ensures log == old(log) + [Notify(changes)] && tx == old(tx)
    {
      log := log + [Notify(changes)];
    }

    /** executeSQL: runs a statement; ok is false when it threw. */
    method ExecuteSQL(rawQuery: RawQuery) returns (ok: bool)
      requires Valid()
      modifies this
      ensures Valid()
      ensures log == old(log) + [ExecSQL(rawQuery)] && tx == old(tx)
      ensures ok == executeAnswer(rawQuery)
    {
      log := log + [ExecSQL(rawQuery)];
      ok := executeAnswer(rawQuery);
    }

    /** delete: runs a DeleteQuery and answers the number of rows deleted. */
    method Delete(query: DeleteQuery) returns (rows: Outcome<int>)
      requires Valid()
      modifies this
      ensures Valid()
      ensures log == old(log) + [Event.Delete(query)] && tx == old(tx)
      ensures rows == deleteAnswer(query)
    {
      log := log + [Event.Delete(query)];
      rows := deleteAnswer(query);
    }

    /**
     * The store work a resolver does on one item or query (its inserts, updates,
     * deletes or reads), recorded as one event. It opens, marks or ends no
     * transaction and notifies nobody.
     */
    method Perform(e: Event)
      requires Valid()
      requires e.PerformPut? || e.PerformDelete? || e.PerformDeleteByQuery? || e.PerformGet?
      modifies this
      ensures Valid()
      ensures log == old(log) + [e] && tx == old(tx)
    {
      log := log + [e];
    }

    /** cursor.close(), recorded on the store that answered the cursor. */
    method CloseCursor()
      requires Valid()
      modifies this
      ensures Valid()
      ensures log == old(log) + [Event.CloseCursor] && tx == old(tx)
    {
      log := log + [Event.CloseCursor];
    }
  }
}
