/**
 * What a batch write promises, stated over the events it leaves on the store
 * and over the map it returns.
 */
module BatchProperties {
  import opened Types
  import opened StorIOSQLite
  import opened Batch

  /** The item an event ran a resolver on, if it is such an event. */
  function PerformedBy(e: Event): seq<Item> {
    match e
    case PerformPut(item) => [item]
    case PerformDelete(item) => [item]
    case _ => []
  }

  /** The items the resolvers were run on, in order. */
  function Performed(events: seq<Event>): (items: seq<Item>)
    ensures |items| <= |events|
  {
    if events == [] then [] else PerformedBy(events[0]) + Performed(events[1..])
  }

  /** How many items the loop handed to a resolver: the completed ones and the one that threw. */
  function Attempted<R>(outs: seq<Outcome<R>>): (n: nat)
    ensures n <= |outs|
    ensures n == Completed(outs) || n == Completed(outs) + 1
  {
    if Completed(outs) < |outs| then Completed(outs) + 1 else |outs|
  }

  /** The notifications of the first n completed items, taken one by one in order. */
  function PerItemChanges<R>(outs: seq<Outcome<R>>, n: nat, notice: R -> Option<Changes>): seq<Changes>
    requires ReturnedUpTo(outs, n)
  {
    if n == 0 then []
    else PerItemChanges(outs, n - 1, notice)
         + (if notice(outs[n - 1].value).Some? then [notice(outs[n - 1].value).value] else [])
  }

  lemma {:induction false} PerformedAppend(a: seq<Event>, b: seq<Event>)
    ensures Performed(a + b) == Performed(a) + Performed(b)
    decreases |a|
  {
    if a == [] {
      assert a + b == b;
    } else {
      assert (a + b)[0] == a[0] && (a + b)[1..] == a[1..] + b;
      PerformedAppend(a[1..], b);
    }
  }

  /** A single event's contribution to the derived views of a log. */
  lemma SingleEvent(e: Event, x: Event)
    ensures Notifications([e]) == (if e.Notify? then [e.changes] else [])
    ensures Performed([e]) == PerformedBy(e)
    ensures Occurrences([e], x) == (if e == x then 1 else 0)
  {
    assert [e][1..] == [];
  }

  /** The events of one completed item: its resolver run, then its own notification if any. */
  lemma ItemFacts<R>(item: Item, r: R, kind: Kind, notice: R -> Option<Changes>, perItem: bool, x: Event)
    requires IsTransactionEvent(x)
    ensures Notifications(ItemEvents(item, r, kind, notice, perItem))
            == if perItem && notice(r).Some? then [notice(r).value] else []
    ensures Performed(ItemEvents(item, r, kind, notice, perItem)) == [item]
    ensures Occurrences(ItemEvents(item, r, kind, notice, perItem), x) == 0
  {
    var head := [Perform(kind, item)];
    var tail := if perItem && notice(r).Some? then [Notify(notice(r).value)] else [];
    SingleEvent(Perform(kind, item), x);
    if tail != [] {
      SingleEvent(tail[0], x);
      assert tail == [tail[0]];
    }
    NotificationsAppend(head, tail);
    PerformedAppend(head, tail);
    OccurrencesAppend(head, tail, x);
  }

  lemma {:induction false} PrefixNotifications<R>(items: seq<Item>, outs: seq<Outcome<R>>, n: nat,
                                                   kind: Kind, notice: R -> Option<Changes>, perItem: bool)
    requires |outs| == |items| && ReturnedUpTo(outs, n)
    ensures Notifications(PrefixEvents(items, outs, n, kind, notice, perItem))
            == if perItem then PerItemChanges(outs, n, notice) else []
    decreases n
  {
    if n > 0 {
      var prev := PrefixEvents(items, outs, n - 1, kind, notice, perItem);
      var step := ItemEvents(items[n - 1], outs[n - 1].value, kind, notice, perItem);
      var r := outs[n - 1].value;
      var own := if notice(r).Some? then [notice(r).value] else [];
      assert PrefixEvents(items, outs, n, kind, notice, perItem) == prev + step;
      calc {
        Notifications(PrefixEvents(items, outs, n, kind, notice, perItem));
        Notifications(prev + step);
        { NotificationsAppend(prev, step); }
        Notifications(prev) + Notifications(step);
        { PrefixNotifications(items, outs, n - 1, kind, notice, perItem);
          ItemFacts(items[n - 1], r, kind, notice, perItem, Begin); }
        (if perItem then PerItemChanges(outs, n - 1, notice) else []) + (if perItem then own else []);
        if perItem then PerItemChanges(outs, n - 1, notice) + own else [];
        if perItem then PerItemChanges(outs, n, notice) else [];
      }
    } else {
      assert PrefixEvents(items, outs, n, kind, notice, perItem) == [];
    }
  }

  lemma {:induction false} PrefixPerformed<R>(items: seq<Item>, outs: seq<Outcome<R>>, n: nat,
                                               kind: Kind, notice: R -> Option<Changes>, perItem: bool)
    requires |outs| == |items| && ReturnedUpTo(outs, n)
    ensures Performed(PrefixEvents(items, outs, n, kind, notice, perItem)) == items[..n]
    decreases n
  {
    if n > 0 {
      var prev := PrefixEvents(items, outs, n - 1, kind, notice, perItem);
      var step := ItemEvents(items[n - 1], outs[n - 1].value, kind, notice, perItem);
      assert PrefixEvents(items, outs, n, kind, notice, perItem) == prev + step;
      calc {
        Performed(PrefixEvents(items, outs, n, kind, notice, perItem));
        Performed(prev + step);
        { PerformedAppend(prev, step); }
        Performed(prev) + Performed(step);
        { PrefixPerformed(items, outs, n - 1, kind, notice, perItem);
          ItemFacts(items[n - 1], outs[n - 1].value, kind, notice, perItem, Begin); }
        items[..n - 1] + [items[n - 1]];
        items[..n];
      }
    } else {
      assert PrefixEvents(items, outs, n, kind, notice, perItem) == [];
    }
  }

  lemma {:induction false} PrefixNoTransaction<R>(items: seq<Item>, outs: seq<Outcome<R>>, n: nat,
                                                   kind: Kind, notice: R -> Option<Changes>, perItem: bool, x: Event)
    requires |outs| == |items| && ReturnedUpTo(outs, n) && IsTransactionEvent(x)
    ensures Occurrences(PrefixEvents(items, outs, n, kind, notice, perItem), x) == 0
    decreases n
  {
    if n > 0 {
      var prev := PrefixEvents(items, outs, n - 1, kind, notice, perItem);
      var step := ItemEvents(items[n - 1], outs[n - 1].value, kind, notice, perItem);
      assert PrefixEvents(items, outs, n, kind, notice, perItem) == prev + step;
      PrefixNoTransaction(items, outs, n - 1, kind, notice, perItem, x);
      assert Occurrences(prev, x) == 0;
      ItemFacts(items[n - 1], outs[n - 1].value, kind, notice, perItem, x);
      assert Occurrences(step, x) == 0;
      OccurrencesAppend(prev, step, x);
    } else {
      assert PrefixEvents(items, outs, n, kind, notice, perItem) == [];
    }
  }

  /** The loop's events: the completed items, then the call that threw, if one did. */
  lemma LoopPieces<R>(items: seq<Item>, outs: seq<Outcome<R>>,
                      kind: Kind, notice: R -> Option<Changes>, perItem: bool)
    requires |outs| == |items|
    ensures LoopEvents(items, outs, kind, notice, perItem)
            == PrefixEvents(items, outs, Completed(outs), kind, notice, perItem)
               + (if Completed(outs) < |outs| then [Perform(kind, items[Completed(outs)])] else [])
  {
  }

  /** The loop's notifications: without a transaction, those of the completed items in order. */
  lemma LoopNotifications<R>(items: seq<Item>, outs: seq<Outcome<R>>,
                             kind: Kind, notice: R -> Option<Changes>, perItem: bool)
    requires |outs| == |items|
    ensures Notifications(LoopEvents(items, outs, kind, notice, perItem))
            == if perItem then PerItemChanges(outs, Completed(outs), notice) else []
  {
    var k := Completed(outs);
    var prefix := PrefixEvents(items, outs, k, kind, notice, perItem);
    var last := if k < |outs| then [Perform(kind, items[k])] else [];
    LoopPieces(items, outs, kind, notice, perItem);
    if k < |outs| {
      SingleEvent(Perform(kind, items[k]), Begin);
    }
    calc {
      Notifications(LoopEvents(items, outs, kind, notice, perItem));
      Notifications(prefix + last);
      { NotificationsAppend(prefix, last); }
      Notifications(prefix) + Notifications(last);
      Notifications(prefix) + [];
      { PrefixNotifications(items, outs, k, kind, notice, perItem); }
      if perItem then PerItemChanges(outs, k, notice) else [];
    }
  }

  /** The loop ran the resolvers on the attempted items, in order. */
  lemma LoopPerformed<R>(items: seq<Item>, outs: seq<Outcome<R>>,
                         kind: Kind, notice: R -> Option<Changes>, perItem: bool)
    requires |outs| == |items|
    ensures Performed(LoopEvents(items, outs, kind, notice, perItem)) == items[..Attempted(outs)]
  {
    var k := Completed(outs);
    var prefix := PrefixEvents(items, outs, k, kind, notice, perItem);
    var last := if k < |outs| then [Perform(kind, items[k])] else [];
    LoopPieces(items, outs, kind, notice, perItem);
    calc {
      Performed(LoopEvents(items, outs, kind, notice, perItem));
      Performed(prefix + last);
      { PerformedAppend(prefix, last); }
      Performed(prefix) + Performed(last);
      { PrefixPerformed(items, outs, k, kind, notice, perItem); }
      items[..k] + Performed(last);
    }
    if k < |outs| {
      SingleEvent(Perform(kind, items[k]), Begin);
      calc {
        items[..k] + Performed(last);
        items[..k] + [items[k]];
        items[..k + 1];
      }
    } else {
      assert items[..k] + Performed(last) == items[..|outs|];
    }
  }

  /** The loop opens, marks and ends no transaction. */
  lemma LoopNoTransaction<R>(items: seq<Item>, outs: seq<Outcome<R>>,
                             kind: Kind, notice: R -> Option<Changes>, perItem: bool, x: Event)
    requires |outs| == |items| && IsTransactionEvent(x)
    ensures Occurrences(LoopEvents(items, outs, kind, notice, perItem), x) == 0
  {
    var k := Completed(outs);
    var prefix := PrefixEvents(items, outs, k, kind, notice, perItem);
    var last := if k < |outs| then [Perform(kind, items[k])] else [];
    LoopPieces(items, outs, kind, notice, perItem);
    if k < |outs| {
      SingleEvent(Perform(kind, items[k]), x);
    }
    calc {
      Occurrences(LoopEvents(items, outs, kind, notice, perItem), x);
      Occurrences(prefix + last, x);
      { OccurrencesAppend(prefix, last, x); }
      Occurrences(prefix, x) + Occurrences(last, x);
      { PrefixNoTransaction(items, outs, k, kind, notice, perItem, x); }
      0;
    }
  }

  /** The end of a transactional batch: its marks and End, and its one notification if any. */
  lemma CloseFacts(ok: bool, merged: Changes)
    ensures Notifications(CloseEvents(ok, merged)) == if ok && NonEmpty(merged) then [merged] else []
    ensures Performed(CloseEvents(ok, merged)) == []
    ensures Occurrences(CloseEvents(ok, merged), Begin) == 0
    ensures Occurrences(CloseEvents(ok, merged), End) == 1
    ensures Occurrences(CloseEvents(ok, merged), SetSuccessful) == if ok then 1 else 0
  {
    var mark: seq<Event> := if ok then [SetSuccessful] else [];
    var tail: seq<Event> := if ok && NonEmpty(merged) then [Notify(merged)] else [];
    SingleEvent(End, Begin);
    SingleEvent(End, End);
    SingleEvent(End, SetSuccessful);
    SingleEvent(SetSuccessful, Begin);
    SingleEvent(SetSuccessful, End);
    SingleEvent(SetSuccessful, SetSuccessful);
    SingleEvent(Notify(merged), Begin);
    SingleEvent(Notify(merged), End);
    SingleEvent(Notify(merged), SetSuccessful);
    NotificationsAppend(mark, [End]);
    NotificationsAppend(mark + [End], tail);
    PerformedAppend(mark, [End]);
    PerformedAppend(mark + [End], tail);
    OccurrencesAppend(mark, [End], Begin);
    OccurrencesAppend(mark + [End], tail, Begin);
    OccurrencesAppend(mark, [End], End);
    OccurrencesAppend(mark + [End], tail, End);
    OccurrencesAppend(mark, [End], SetSuccessful);
    OccurrencesAppend(mark + [End], tail, SetSuccessful);
  }

  /**
   * Without a transaction: no transaction event at all, and the notifications
   * are those of the effective results, one per item, in the order of the items.
   */
  lemma NonTransactionalBatch<R>(items: seq<Item>, outs: seq<Outcome<R>>,
                                 kind: Kind, notice: R -> Option<Changes>)
    requires |outs| == |items|
    ensures var events := BatchEvents(items, outs, kind, notice, false);
      && Notifications(events) == PerItemChanges(outs, Completed(outs), notice)
      && Occurrences(events, Begin) == 0 && Occurrences(events, SetSuccessful) == 0
      && Occurrences(events, End) == 0
  {
    LoopNotifications(items, outs, kind, notice, true);
    LoopNoTransaction(items, outs, kind, notice, true, Begin);
    LoopNoTransaction(items, outs, kind, notice, true, SetSuccessful);
    LoopNoTransaction(items, outs, kind, notice, true, End);
  }

  /** In the events of the completed items, a notification at k comes right after the run of item i, which called for it. */
  lemma {:induction false} PrefixNotifyPlacement<R>(items: seq<Item>, outs: seq<Outcome<R>>, n: nat,
                                                     kind: Kind, notice: R -> Option<Changes>, perItem: bool, k: nat)
    returns (i: nat)
    requires |outs| == |items| && ReturnedUpTo(outs, n)
    requires k < |PrefixEvents(items, outs, n, kind, notice, perItem)|
    requires PrefixEvents(items, outs, n, kind, notice, perItem)[k].Notify?
    ensures 0 < k && i < n
    ensures PrefixEvents(items, outs, n, kind, notice, perItem)[k - 1] == Perform(kind, items[i])
    ensures notice(outs[i].value) == Some(PrefixEvents(items, outs, n, kind, notice, perItem)[k].changes)
    decreases n
  {
    var events := PrefixEvents(items, outs, n, kind, notice, perItem);
    if n == 0 {
      assert false;
    }
    var prev := PrefixEvents(items, outs, n - 1, kind, notice, perItem);
    var step := ItemEvents(items[n - 1], outs[n - 1].value, kind, notice, perItem);
    assert events == prev + step;
    if k < |prev| {
      assert prev[k] == events[k];
      i := PrefixNotifyPlacement(items, outs, n - 1, kind, notice, perItem, k);
      assert events[k - 1] == prev[k - 1];
    } else {
      assert events[k] == step[k - |prev|];
      assert k - |prev| == 1;
      assert events[k - 1] == Perform(kind, items[n - 1]);
      i := n - 1;
    }
  }

  /**
   * Without a transaction, each notification follows straight on the resolver
   * run of the item whose result called for it, before the next item runs.
   */
  lemma EachNotifyFollowsItsItem<R>(items: seq<Item>, outs: seq<Outcome<R>>,
                                    kind: Kind, notice: R -> Option<Changes>)
    requires |outs| == |items|
    ensures var events := BatchEvents(items, outs, kind, notice, false);
            forall k :: 0 <= k < |events| && events[k].Notify? ==>
              k > 0 && exists i :: 0 <= i < Completed(outs) && events[k - 1] == Perform(kind, items[i])
                                   && notice(outs[i].value) == Some(events[k].changes)
  {
    var n := Completed(outs);
    var prefix := PrefixEvents(items, outs, n, kind, notice, true);
    var tail := if n < |outs| then [Perform(kind, items[n])] else [];
    var events := BatchEvents(items, outs, kind, notice, false);
    assert events == prefix + tail;
    forall k | 0 <= k < |events| && events[k].Notify?
      ensures k > 0 && exists i :: 0 <= i < n && events[k - 1] == Perform(kind, items[i])
                                   && notice(outs[i].value) == Some(events[k].changes)
    {
      assert k < |prefix|;
      assert prefix[k] == events[k];
      var i := PrefixNotifyPlacement(items, outs, n, kind, notice, true, k);
      assert events[k - 1] == prefix[k - 1];
    }
  }

  /** The three pieces of a transactional batch's events. */
  lemma TransactionalPieces<R>(items: seq<Item>, outs: seq<Outcome<R>>,
                               kind: Kind, notice: R -> Option<Changes>)
    requires |outs| == |items|
    ensures BatchEvents(items, outs, kind, notice, true)
            == [Begin] + LoopEvents(items, outs, kind, notice, false)
               + CloseEvents(Completed(outs) == |outs|, Merged(ResultsUpTo(items, outs, Completed(outs)), notice))
  {
  }

  /**
   * With a transaction: one Begin and one End on every path, one SetSuccessful
   * exactly when every resolver returned; a single notification, equal to the
   * merged changes, exactly when every resolver returned and the merge is not
   * empty; no notification at all when a resolver threw.
   */
  lemma TransactionalBatch<R>(items: seq<Item>, outs: seq<Outcome<R>>,
                              kind: Kind, notice: R -> Option<Changes>)
    requires |outs| == |items|
    ensures var events := BatchEvents(items, outs, kind, notice, true);
      var ok := Completed(outs) == |outs|;
      var merged := Merged(ResultsUpTo(items, outs, Completed(outs)), notice);
      && Occurrences(events, Begin) == 1 && Occurrences(events, End) == 1
      && Occurrences(events, SetSuccessful) == (if ok then 1 else 0)
      && Notifications(events) == (if ok && NonEmpty(merged) then [merged] else [])
  {
    var ok := Completed(outs) == |outs|;
    var merged := Merged(ResultsUpTo(items, outs, Completed(outs)), notice);
    var loop := LoopEvents(items, outs, kind, notice, false);
    TransactionalPieces(items, outs, kind, notice);
    LoopNotifications(items, outs, kind, notice, false);
    LoopNoTransaction(items, outs, kind, notice, false, Begin);
    LoopNoTransaction(items, outs, kind, notice, false, End);
    LoopNoTransaction(items, outs, kind, notice, false, SetSuccessful);
    CloseFacts(ok, merged);
    Bracketed(loop, CloseEvents(ok, merged));
  }

  /**
   * A loop between Begin and the closing events, when it holds no notification
   * and no transaction event, adds neither to what the bracket shows.
   */
  lemma Bracketed(loop: seq<Event>, close: seq<Event>)
    requires Notifications(loop) == []
    requires Occurrences(loop, Begin) == 0 && Occurrences(loop, End) == 0 && Occurrences(loop, SetSuccessful) == 0
    ensures Notifications([Begin] + loop + close) == Notifications(close)
    ensures Occurrences([Begin] + loop + close, Begin) == 1 + Occurrences(close, Begin)
    ensures Occurrences([Begin] + loop + close, End) == Occurrences(close, End)
    ensures Occurrences([Begin] + loop + close, SetSuccessful) == Occurrences(close, SetSuccessful)
  {
    SingleEvent(Begin, Begin);
    SingleEvent(Begin, End);
    SingleEvent(Begin, SetSuccessful);
    NotificationsAppend([Begin], loop);
    NotificationsAppend([Begin] + loop, close);
    OccurrencesAppend([Begin], loop, Begin);
    OccurrencesAppend([Begin] + loop, close, Begin);
    OccurrencesAppend([Begin], loop, End);
    OccurrencesAppend([Begin] + loop, close, End);
    OccurrencesAppend([Begin], loop, SetSuccessful);
    OccurrencesAppend([Begin] + loop, close, SetSuccessful);
  }

  /**
   * With a transaction, subscribers hear of the batch only after it ended: a
   * notification can only be the last event, right after End.
   */
  lemma NotifiedOnlyAfterEnd<R>(items: seq<Item>, outs: seq<Outcome<R>>,
                                kind: Kind, notice: R -> Option<Changes>)
    requires |outs| == |items|
    ensures var events := BatchEvents(items, outs, kind, notice, true);
      forall i :: 0 <= i < |events| && events[i].Notify? ==> 0 < i == |events| - 1 && events[i - 1] == End
  {
    var ok := Completed(outs) == |outs|;
    var merged := Merged(ResultsUpTo(items, outs, Completed(outs)), notice);
    var loop := LoopEvents(items, outs, kind, notice, false);
    var mark: seq<Event> := if ok then [SetSuccessful] else [];
    var tail: seq<Event> := if ok && NonEmpty(merged) then [Notify(merged)] else [];
    var head := [Begin] + loop + mark + [End];
    TransactionalPieces(items, outs, kind, notice);
    assert CloseEvents(ok, merged) == mark + [End] + tail;
    assert BatchEvents(items, outs, kind, notice, true) == head + tail;
    LoopNotifications(items, outs, kind, notice, false);
    NoNotifications(loop);
    assert forall i :: 0 <= i < |head| ==> !head[i].Notify? by {
      forall i | 0 <= i < |head| ensures !head[i].Notify? {
        if 1 <= i <= |loop| {
          assert head[i] == loop[i - 1];
        }
      }
    }
  }

  /**
   * The resolvers run on the items in their order, one call each, up to and
   * including the first that throws; with or without a transaction.
   */
  lemma ResolversRunInOrder<R>(items: seq<Item>, outs: seq<Outcome<R>>,
                               kind: Kind, notice: R -> Option<Changes>, useTransaction: bool)
    requires |outs| == |items|
    ensures Performed(BatchEvents(items, outs, kind, notice, useTransaction)) == items[..Attempted(outs)]
  {
    LoopPerformed(items, outs, kind, notice, !useTransaction);
    if useTransaction {
      var ok := Completed(outs) == |outs|;
      var merged := Merged(ResultsUpTo(items, outs, Completed(outs)), notice);
      var loop := LoopEvents(items, outs, kind, notice, false);
      TransactionalPieces(items, outs, kind, notice);
      CloseFacts(ok, merged);
      SingleEvent(Begin, Begin);
      PerformedAppend([Begin], loop);
      PerformedAppend([Begin] + loop, CloseEvents(ok, merged));
    }
  }

  /**
   * The batch's own transaction leaves the open transactions as they were. Run
   * with none open, it commits exactly when every resolver returned; run inside
   * another transaction, it commits nothing and a failure dooms the outer work.
   */
  lemma BatchTransactionOutcome(t: Tx, ok: bool)
    requires t.doomed ==> |t.marks| > 0
    ensures BatchTx(t, true, ok).marks == t.marks
    ensures |t.marks| == 0 ==> BatchTx(t, true, ok) == Tx([], false, t.outcomes + [ok])
    ensures |t.marks| > 0 ==> BatchTx(t, true, ok) == t.(doomed := t.doomed || !ok)
  {
    var s := Session([], ok);
    assert AllMarked(s) == ok by {
      assert ChildrenMarked(s, 0);
    }
    if |t.marks| == 0 {
      OutermostSession(t.outcomes, s);
    } else {
      NestedSession(t, s);
    }
  }

  /** No two items of the batch are equal. */
  predicate Distinct(items: seq<Item>) {
    forall i, j :: 0 <= i < j < |items| ==> items[i] != items[j]
  }

  /** The union over the first n results as the loop produced them, item by item. */
  function UnionTables<R>(outs: seq<Outcome<R>>, n: nat, notice: R -> Option<Changes>): set<Table>
    requires ReturnedUpTo(outs, n)
  {
    set i, t | 0 <= i < n && notice(outs[i].value).Some? && t in notice(outs[i].value).value.tables :: t
  }

  function UnionTags<R>(outs: seq<Outcome<R>>, n: nat, notice: R -> Option<Changes>): set<Tag>
    requires ReturnedUpTo(outs, n)
  {
    set i, t | 0 <= i < n && notice(outs[i].value).Some? && t in notice(outs[i].value).value.tags :: t
  }

  /**
   * The results map holds every item, and for each its result from the last
   * time it went through the loop.
   */
  lemma {:induction false} ResultsKeepLast<R>(items: seq<Item>, outs: seq<Outcome<R>>, n: nat)
    requires |outs| == |items| && ReturnedUpTo(outs, n)
    ensures ResultsUpTo(items, outs, n).Keys == set i | 0 <= i < n :: items[i]
    ensures forall i :: 0 <= i < n && (forall j :: i < j < n ==> items[j] != items[i])
              ==> ResultsUpTo(items, outs, n)[items[i]] == outs[i].value
    decreases n
  {
    if n > 0 {
      ResultsKeepLast(items, outs, n - 1);
      assert (set i | 0 <= i < n :: items[i]) == (set i | 0 <= i < n - 1 :: items[i]) + {items[n - 1]};
    }
  }

  /** Adding a new key to the results map adds what its result touched to the union. */
  lemma MergedInsert<R>(prev: map<Item, R>, x: Item, v: R, notice: R -> Option<Changes>)
    requires x !in prev
    ensures TablesOf(prev[x := v], prev.Keys + {x}, notice)
            == TablesOf(prev, prev.Keys, notice) + (if notice(v).Some? then notice(v).value.tables else {})
    ensures TagsOf(prev[x := v], prev.Keys + {x}, notice)
            == TagsOf(prev, prev.Keys, notice) + (if notice(v).Some? then notice(v).value.tags else {})
  {
    var m := prev[x := v];
    var extra := if notice(v).Some? then notice(v).value.tables else {};
    forall t | t in TablesOf(m, prev.Keys + {x}, notice)
      ensures t in TablesOf(prev, prev.Keys, notice) + extra
    {
      var k :| k in prev.Keys + {x} && k in m && notice(m[k]).Some? && t in notice(m[k]).value.tables;
      if k != x {
        assert m[k] == prev[k];
      }
    }
    forall t | t in TablesOf(prev, prev.Keys, notice) + extra
      ensures t in TablesOf(m, prev.Keys + {x}, notice)
    {
      if t in extra {
        assert m[x] == v;
      } else {
        var k :| k in prev.Keys && k in prev && notice(prev[k]).Some? && t in notice(prev[k]).value.tables;
        assert m[k] == prev[k];
      }
    }
    var extraTags := if notice(v).Some? then notice(v).value.tags else {};
    forall t | t in TagsOf(m, prev.Keys + {x}, notice)
      ensures t in TagsOf(prev, prev.Keys, notice) + extraTags
    {
      var k :| k in prev.Keys + {x} && k in m && notice(m[k]).Some? && t in notice(m[k]).value.tags;
      if k != x {
        assert m[k] == prev[k];
      }
    }
    forall t | t in TagsOf(prev, prev.Keys, notice) + extraTags
      ensures t in TagsOf(m, prev.Keys + {x}, notice)
    {
      if t in extraTags {
        assert m[x] == v;
      } else {
        var k :| k in prev.Keys && k in prev && notice(prev[k]).Some? && t in notice(prev[k]).value.tags;
        assert m[k] == prev[k];
      }
    }
  }

  /** The item-by-item union grows by what the next result touched. */
  lemma UnionStep<R>(outs: seq<Outcome<R>>, n: nat, notice: R -> Option<Changes>)
    requires 0 < n && ReturnedUpTo(outs, n)
    ensures var v := outs[n - 1].value;
      && UnionTables(outs, n, notice)
         == UnionTables(outs, n - 1, notice) + (if notice(v).Some? then notice(v).value.tables else {})
      && UnionTags(outs, n, notice)
         == UnionTags(outs, n - 1, notice) + (if notice(v).Some? then notice(v).value.tags else {})
  {
  }

  /**
   * When no item repeats, the merged notification is the union of what every
   * effective result touched.
   */
  lemma {:induction false} MergedIsUnion<R>(items: seq<Item>, outs: seq<Outcome<R>>, n: nat,
                                             notice: R -> Option<Changes>)
    requires |outs| == |items| && ReturnedUpTo(outs, n) && Distinct(items)
    ensures Merged(ResultsUpTo(items, outs, n), notice) == Changes(UnionTables(outs, n, notice), UnionTags(outs, n, notice))
    decreases n
  {
    if n > 0 {
      MergedIsUnion(items, outs, n - 1, notice);
      ResultsKeepLast(items, outs, n - 1);
      var prev := ResultsUpTo(items, outs, n - 1);
      assert items[n - 1] !in prev;
      assert (prev[items[n - 1] := outs[n - 1].value]).Keys == prev.Keys + {items[n - 1]};
      MergedInsert(prev, items[n - 1], outs[n - 1].value, notice);
      UnionStep(outs, n, notice);
    }
  }

  /**
   * The results map is keyed by the items, so when an item occurs twice only
   * its last result is merged: here the first put of x inserted a row in table
   * "a" and the second changed nothing. Without a transaction subscribers hear
   * of "a"; with one they hear nothing.
   */
  lemma RepeatedItemKeepsLastResult()
    ensures var x := Item("T", map[]);
      var first := PutResult(true, false, {"a"}, {});
      var second := PutResult(false, false, {"a"}, {});
      var outs: seq<Outcome<PutResult>> := [Returned(first), Returned(second)];
      && Notifications(BatchEvents([x, x], outs, Puts, PutNotice, false)) == [Changes({"a"}, {})]
      && Notifications(BatchEvents([x, x], outs, Puts, PutNotice, true)) == []
  {
    var x := Item("T", map[]);
    var first := PutResult(true, false, {"a"}, {});
    var second := PutResult(false, false, {"a"}, {});
    var outs: seq<Outcome<PutResult>> := [Returned(first), Returned(second)];
    assert Completed(outs[1..][1..]) == 0;
    assert Completed(outs) == 2;
    NonTransactionalBatch([x, x], outs, Puts, PutNotice);
    assert PerItemChanges(outs, 1, PutNotice) == [Changes({"a"}, {})];
    assert PerItemChanges(outs, 2, PutNotice) == [Changes({"a"}, {})];
    TransactionalBatch([x, x], outs, Puts, PutNotice);
    var results := ResultsUpTo([x, x], outs, 2);
    assert ResultsUpTo([x, x], outs, 1) == map[x := first];
    assert results == map[x := first][x := second];
    assert results == map[x := second];
    assert TablesOf(results, results.Keys, PutNotice) == {};
    assert TagsOf(results, results.Keys, PutNotice) == {};
  }

  /**
   * An explicit resolver is used for every item, and the type mappings are
   * never consulted: any two sets of mappings give the same resolvers.
   */
  lemma ExplicitResolverForEveryItem<R>(items: seq<Item>, r: R, mappings: map<TypeName, TypeMapping>,
                                        others: map<TypeName, TypeMapping>, select: TypeMapping -> R)
    ensures forall i :: 0 <= i < |items| ==> Chosen(items, Some(r), mappings, select)[i] == r
    ensures Chosen(items, Some(r), mappings, select) == Chosen(items, Some(r), others, select)
  {
    var a := Chosen(items, Some(r), mappings, select);
    var b := Chosen(items, Some(r), others, select);
    forall i | 0 <= i < |items| ensures a[i] == r && b[i] == r {
      assert Some(a[i]) == Choose(Some(r), Lookup(mappings, items[i].typeName), select);
      assert Some(b[i]) == Choose(Some(r), Lookup(others, items[i].typeName), select);
    }
  }
}
