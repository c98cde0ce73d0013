/**
 * The loop shared by the three batch writes (a collection of objects put or
 * deleted, an iterable of ContentValues put): resolvers are found up front, an
 * optional transaction is opened, every item goes through its resolver in
 * order, the transaction is closed on every path, and subscribers hear either
 * one notification per effective item (no transaction) or one merged
 * notification after a successful transaction.
 */
module Batch {
  import opened Types
  import opened StorIOSQLite

  // ---------------------------------------------------------------------------
  // Resolver choice

  /**
   * The resolver for one object: the explicit one if given, else the one its
   * class's type mapping holds, else none (the operation must fail untouched).
   */
  function Choose<R>(explicit: Option<R>, mapping: Option<TypeMapping>, select: TypeMapping -> R): (r: Option<R>)
    ensures explicit.Some? ==> r == explicit
    ensures explicit.None? ==> (r.Some? <==> mapping.Some?)
    ensures explicit.None? && r.Some? ==> r.value == select(mapping.value)
  {
    if explicit.Some? then explicit
    else if mapping.Some? then Some(select(mapping.value))
    else None
  }

  /** Every item's class has a type mapping. */
  predicate AllMapped(items: seq<Item>, mappings: map<TypeName, TypeMapping>) {
    forall i :: 0 <= i < |items| ==> items[i].typeName in mappings
  }

  /** The resolvers a batch runs, one per item, when every item has one. */
  function Chosen<R>(items: seq<Item>, explicit: Option<R>, mappings: map<TypeName, TypeMapping>,
                     select: TypeMapping -> R): (rs: seq<R>)
    requires explicit.Some? || AllMapped(items, mappings)
    ensures |rs| == |items|
    ensures forall i :: 0 <= i < |items| ==> Some(rs[i]) == Choose(explicit, Lookup(mappings, items[i].typeName), select)
  {
    seq(|items|, i requires 0 <= i < |items| =>
      if explicit.Some? then explicit.value else select(mappings[items[i].typeName]))
  }

  /**
   * The resolver for every item of a batch, found before any work is done: the
   * explicit resolver for all of them, or each item's type-mapping resolver;
   * None as soon as one item has no type mapping.
   */
  method ResolveAll<R>(items: seq<Item>, explicit: Option<R>,
                       mappings: map<TypeName, TypeMapping>, select: TypeMapping -> R)
    returns (resolvers: Option<seq<R>>)
    ensures resolvers.Some? <==> explicit.Some? || AllMapped(items, mappings)
    ensures resolvers.Some? ==> resolvers.value == Chosen(items, explicit, mappings, select)
  {
    if explicit.Some? {
      return Some(Chosen(items, explicit, mappings, select));
    }
    var found: seq<R> := [];
    var i := 0;
    while i < |items|
      invariant 0 <= i <= |items| && |found| == i
      invariant forall j :: 0 <= j < i ==> items[j].typeName in mappings
      invariant forall j :: 0 <= j < i ==> found[j] == select(mappings[items[j].typeName])
    {
      if items[i].typeName !in mappings {
        return None;
      }
      found := found + [select(mappings[items[i].typeName])];
      i := i + 1;
    }
    ghost var chosen := Chosen(items, explicit, mappings, select);
    assert forall j :: 0 <= j < |items| ==> found[j] == chosen[j] by {
      forall j | 0 <= j < |items| ensures found[j] == chosen[j] {
        assert Some(chosen[j]) == Choose(explicit, Lookup(mappings, items[j].typeName), select);
      }
    }
    return Some(found);
  }

  function Lookup(mappings: map<TypeName, TypeMapping>, typeName: TypeName): (m: Option<TypeMapping>)
    ensures m.Some? <==> typeName in mappings
    ensures m.Some? ==> m.value == mappings[typeName]
  {
    if typeName in mappings then Some(mappings[typeName]) else None
  }

  /** Whether a batch puts or deletes its items. */
  datatype Kind = Puts | Deletes

  /** The event of one resolver run on an item. */
  function Perform(kind: Kind, item: Item): (e: Event)
    ensures (e.PerformPut? || e.PerformDelete?) && e.item == item
    ensures e.PerformPut? <==> kind == Puts
  {
    if kind == Puts then PerformPut(item) else PerformDelete(item)
  }

  // ---------------------------------------------------------------------------
  // What the loop does, as functions of the items and of what each resolver does

  /** What each item's resolver does with it. */
  function Outcomes<R>(items: seq<Item>, resolvers: seq<Item -> Outcome<R>>): (outs: seq<Outcome<R>>)
    requires |resolvers| == |items|
    ensures |outs| == |items|
    ensures forall i :: 0 <= i < |items| ==> outs[i] == resolvers[i](items[i])
  {
    seq(|items|, i requires 0 <= i < |items| => resolvers[i](items[i]))
  }

  /** How many leading resolver calls returned: the loop stops at the first that threw. */
  function Completed<R>(outs: seq<Outcome<R>>): (n: nat)
    ensures n <= |outs|
    ensures forall i :: 0 <= i < n ==> outs[i].Returned?
    ensures n < |outs| ==> outs[n].Threw?
  {
    if outs == [] || outs[0].Threw? then 0 else 1 + Completed(outs[1..])
  }

  /** The first n resolver calls all returned. */
  predicate ReturnedUpTo<R>(outs: seq<Outcome<R>>, n: nat) {
    n <= |outs| && forall i :: 0 <= i < n ==> outs[i].Returned?
  }

  /** The events of one item whose resolver returned r. */
  function ItemEvents<R>(item: Item, r: R, kind: Kind, notice: R -> Option<Changes>,
                         perItem: bool): seq<Event>
  {
    [Perform(kind, item)] + (if perItem && notice(r).Some? then [Notify(notice(r).value)] else [])
  }

  /** The events of the first n items, all of whose resolvers returned. */
  function PrefixEvents<R>(items: seq<Item>, outs: seq<Outcome<R>>, n: nat,
                           kind: Kind, notice: R -> Option<Changes>, perItem: bool): seq<Event>
    requires |outs| == |items| && ReturnedUpTo(outs, n)
  {
    if n == 0 then []
    else PrefixEvents(items, outs, n - 1, kind, notice, perItem)
         + ItemEvents(items[n - 1], outs[n - 1].value, kind, notice, perItem)
  }

  /** The events of the loop: every completed item, then the call that threw, if one did. */
  function LoopEvents<R>(items: seq<Item>, outs: seq<Outcome<R>>,
                         kind: Kind, notice: R -> Option<Changes>, perItem: bool): seq<Event>
    requires |outs| == |items|
  {
    var k := Completed(outs);
    PrefixEvents(items, outs, k, kind, notice, perItem) + (if k < |outs| then [Perform(kind, items[k])] else [])
  }

  /** The results map after the first n items: a later equal item overwrites an earlier one. */
  function ResultsUpTo<R>(items: seq<Item>, outs: seq<Outcome<R>>, n: nat): map<Item, R>
    requires |outs| == |items| && ReturnedUpTo(outs, n)
  {
    if n == 0 then map[] else ResultsUpTo(items, outs, n - 1)[items[n - 1] := outs[n - 1].value]
  }

  /** The tables of the effective results among the given keys. */
  function TablesOf<R>(results: map<Item, R>, keys: set<Item>, notice: R -> Option<Changes>): set<Table> {
    set k, t | k in keys && k in results && notice(results[k]).Some? && t in notice(results[k]).value.tables :: t
  }

  /** The tags of the effective results among the given keys. */
  function TagsOf<R>(results: map<Item, R>, keys: set<Item>, notice: R -> Option<Changes>): set<Tag> {
    set k, t | k in keys && k in results && notice(results[k]).Some? && t in notice(results[k]).value.tags :: t
  }

  /** The merged notification: the union over all effective results in the map. */
  function Merged<R>(results: map<Item, R>, notice: R -> Option<Changes>): Changes {
    Changes(TablesOf(results, results.Keys, notice), TagsOf(results, results.Keys, notice))
  }

  predicate NonEmpty(c: Changes) {
    c.tables != {} || c.tags != {}
  }

  /**
   * The end of a transactional batch: SetSuccessful when every item went
   * through, End on every path, then the merged notification when the batch
   * succeeded and the merge is not empty.
   */
  function CloseEvents(ok: bool, merged: Changes): seq<Event> {
    (if ok then [SetSuccessful] else []) + [End] + (if ok && NonEmpty(merged) then [Notify(merged)] else [])
  }

  /** Everything a batch does to the store. */
  function BatchEvents<R>(items: seq<Item>, outs: seq<Outcome<R>>, kind: Kind,
                          notice: R -> Option<Changes>, useTransaction: bool): seq<Event>
    requires |outs| == |items|
  {
    var loop := LoopEvents(items, outs, kind, notice, !useTransaction);
    if !useTransaction then loop
    else
      [Begin] + loop
      + CloseEvents(Completed(outs) == |outs|, Merged(ResultsUpTo(items, outs, Completed(outs)), notice))
  }

  /** What a batch returns: the results map, or the wrapped failure of the first resolver that threw. */
  function BatchResult<R>(items: seq<Item>, outs: seq<Outcome<R>>): Result<map<Item, R>>
    requires |outs| == |items|
  {
    if Completed(outs) == |outs| then Ok(ResultsUpTo(items, outs, Completed(outs))) else Err(OperationFailed)
  }

  /** The transaction state after a batch: its own transaction is a session with no nested one. */
  function BatchTx(t: Tx, useTransaction: bool, ok: bool): Tx {
    if useTransaction then Replay(t, SessionEvents(Session([], ok))) else t
  }

  // ---------------------------------------------------------------------------
  // The loop itself

  /**
   * Unions the tables and tags of the effective results, one result at a time;
   * the order the map is walked in does not matter.
   */
  method MergeChanges<R>(results: map<Item, R>, notice: R -> Option<Changes>) returns (merged: Changes)
    ensures merged == Merged(results, notice)
  {
    var tables: set<Table> := {};
    var tags: set<Tag> := {};
    var left := results.Keys;
    while left != {}
      invariant left <= results.Keys
      invariant tables == TablesOf(results, results.Keys - left, notice)
      invariant tags == TagsOf(results, results.Keys - left, notice)
      decreases |left|
    {
      var k :| k in left;
      var n := notice(results[k]);
      if n.Some? {
        tables := tables + n.value.tables;
        tags := tags + n.value.tags;
      }
      MergeStep(results, results.Keys - left, k, notice);
      assert results.Keys - (left - {k}) == (results.Keys - left) + {k};
      left := left - {k};
    }
    assert results.Keys - left == results.Keys;
    merged := Changes(tables, tags);
  }

  /** Walking one more key of the results map adds what its result touched. */
  lemma MergeStep<R>(results: map<Item, R>, done: set<Item>, k: Item, notice: R -> Option<Changes>)
    requires k in results
    ensures TablesOf(results, done + {k}, notice)
            == TablesOf(results, done, notice) + (if notice(results[k]).Some? then notice(results[k]).value.tables else {})
    ensures TagsOf(results, done + {k}, notice)
            == TagsOf(results, done, notice) + (if notice(results[k]).Some? then notice(results[k]).value.tags else {})
  {
  }

  /**
   * Runs each item through its resolver in order, stopping at the first that
   * throws; without a transaction (perItem) each effective result is notified
   * right after its call.
   */
  method RunItems<R>(store: LowLevel, items: seq<Item>, resolvers: seq<Item -> Outcome<R>>,
                     kind: Kind, notice: R -> Option<Changes>, perItem: bool)
    returns (results: map<Item, R>, threw: bool)
    requires store.Valid() && |resolvers| == |items|
    modifies store
    ensures store.Valid() && store.tx == old(store.tx)
    ensures store.log == old(store.log) + LoopEvents(items, Outcomes(items, resolvers), kind, notice, perItem)
    ensures threw <==> Completed(Outcomes(items, resolvers)) < |items|
    ensures results == ResultsUpTo(items, Outcomes(items, resolvers), Completed(Outcomes(items, resolvers)))
  {
    ghost var outs := Outcomes(items, resolvers);
    ghost var log0 := store.log;
    results := map[];
    threw := false;
    var i := 0;
    while i < |items| && !threw
      invariant 0 <= i <= |items| && i <= Completed(outs)
      invariant threw ==> i == Completed(outs) < |items|
      invariant store.Valid() && store.tx == old(store.tx)
      invariant results == ResultsUpTo(items, outs, i)
      invariant store.log == log0 + PrefixEvents(items, outs, i, kind, notice, perItem)
                             + (if threw then [Perform(kind, items[i])] else [])
      decreases |items| - i, !threw
    {
      results, threw := RunStep(store, items, resolvers, outs, i, results, log0, kind, notice, perItem);
      if !threw {
        i := i + 1;
      }
    }
    LoopEnds(items, outs, kind, notice, perItem);
  }

  /**
   * The loop's body: item i goes through its resolver; when that returns, its
   * result joins the map and its events the log.
   */
  method RunStep<R>(store: LowLevel, items: seq<Item>, resolvers: seq<Item -> Outcome<R>>,
                    ghost outs: seq<Outcome<R>>, i: nat, results: map<Item, R>, ghost log0: seq<Event>,
                    kind: Kind, notice: R -> Option<Changes>, perItem: bool)
    returns (next: map<Item, R>, threw: bool)
    requires store.Valid() && |resolvers| == |items| && outs == Outcomes(items, resolvers)
    requires i < |items| && i <= Completed(outs)
    requires results == ResultsUpTo(items, outs, i)
    requires store.log == log0 + PrefixEvents(items, outs, i, kind, notice, perItem)
    modifies store
    ensures store.Valid() && store.tx == old(store.tx)
    ensures threw <==> i == Completed(outs)
    ensures !threw ==> next == ResultsUpTo(items, outs, i + 1)
    ensures threw ==> next == results
    ensures store.log == log0 + PrefixEvents(items, outs, if threw then i else i + 1, kind, notice, perItem)
                        + (if threw then [Perform(kind, items[i])] else [])
  {
    ghost var prefix := PrefixEvents(items, outs, i, kind, notice, perItem);
    var outcome := RunItem(store, items[i], resolvers[i], kind, notice, perItem);
    assert outcome == outs[i];
    CompletedAt(outs, i);
    if outcome.Threw? {
      assert store.log == log0 + prefix + [Perform(kind, items[i])];
      return results, true;
    }
    ghost var step := ItemEvents(items[i], outcome.value, kind, notice, perItem);
    assert store.log == log0 + (prefix + step);
    PrefixStep(items, outs, i, kind, notice, perItem);
    assert store.log == log0 + PrefixEvents(items, outs, i + 1, kind, notice, perItem) + [];
    return results[items[i] := outcome.value], false;
  }

  /** The loop's events once it stopped: at the call that threw, or after the last item. */
  lemma LoopEnds<R>(items: seq<Item>, outs: seq<Outcome<R>>, kind: Kind,
                    notice: R -> Option<Changes>, perItem: bool)
    requires |outs| == |items|
    ensures var k := Completed(outs);
      LoopEvents(items, outs, kind, notice, perItem)
      == PrefixEvents(items, outs, k, kind, notice, perItem) + (if k < |outs| then [Perform(kind, items[k])] else [])
    ensures Completed(outs) == |outs| ==>
      LoopEvents(items, outs, kind, notice, perItem) == PrefixEvents(items, outs, |outs|, kind, notice, perItem)
  {
  }

  /**
   * One item: its resolver runs on it; without a transaction (perItem) an
   * effective result is notified right away.
   */
  method RunItem<R>(store: LowLevel, item: Item, resolver: Item -> Outcome<R>, kind: Kind,
                    notice: R -> Option<Changes>, perItem: bool)
    returns (outcome: Outcome<R>)
    requires store.Valid()
    modifies store
    ensures store.Valid() && store.tx == old(store.tx)
    ensures outcome == resolver(item)
    ensures outcome.Threw? ==> store.log == old(store.log) + [Perform(kind, item)]
    ensures outcome.Returned? ==> store.log == old(store.log) + ItemEvents(item, outcome.value, kind, notice, perItem)
  {
    store.Perform(Perform(kind, item));
    outcome := resolver(item);
    if outcome.Returned? {
      var n := notice(outcome.value);
      if perItem && n.Some? {
        store.NotifyAboutChanges(n.value);
      }
    }
  }

  /** One more completed item adds its events and its result. */
  lemma PrefixStep<R>(items: seq<Item>, outs: seq<Outcome<R>>, i: nat, kind: Kind,
                      notice: R -> Option<Changes>, perItem: bool)
    requires |outs| == |items| && ReturnedUpTo(outs, i + 1)
    ensures PrefixEvents(items, outs, i + 1, kind, notice, perItem)
            == PrefixEvents(items, outs, i, kind, notice, perItem)
               + ItemEvents(items[i], outs[i].value, kind, notice, perItem)
    ensures ResultsUpTo(items, outs, i + 1) == ResultsUpTo(items, outs, i)[items[i] := outs[i].value]
  {
  }

  /** Where the loop stands after i completed items: the next call returns or is the one that throws. */
  lemma CompletedAt<R>(outs: seq<Outcome<R>>, i: nat)
    requires i <= Completed(outs) && i < |outs|
    ensures outs[i].Returned? ==> i < Completed(outs)
    ensures outs[i].Threw? ==> i == Completed(outs)
  {
  }

  lemma BatchTxSteps(t: Tx, ok: bool)
    ensures Replay(t, SessionEvents(Session([], ok)))
         == if ok then Step(Step(Step(t, Begin), SetSuccessful), End) else Step(Step(t, Begin), End)
  {
    var evs := SessionEvents(Session([], ok));
    assert ChildrenEvents(Session([], ok), 0) == [];
    if ok {
      assert evs == [Begin, SetSuccessful, End];
      assert evs[1..] == [SetSuccessful, End] && evs[1..][1..] == [End] && evs[1..][1..][1..] == [];
      var t1 := Step(t, Begin);
      var t2 := Step(t1, SetSuccessful);
      assert Replay(t, evs) == Replay(t1, [SetSuccessful, End]);
      assert Replay(t1, [SetSuccessful, End]) == Replay(t2, [End]);
      assert Replay(t2, [End]) == Replay(Step(t2, End), []);
    } else {
      assert evs == [Begin, End];
      assert evs[1..] == [End] && evs[1..][1..] == [];
      assert Replay(Step(t, Begin), [End]) == Replay(Step(Step(t, Begin), End), []);
    }
  }

  /**
   * The end of a transactional batch: mark the transaction when every item went
   * through, end it on every path, and only then, when it was marked, send one
   * notification with the union of the effective results, unless that is empty.
   */
  method CloseTransaction<R>(store: LowLevel, results: map<Item, R>, ok: bool, notice: R -> Option<Changes>)
    requires store.Valid() && |store.tx.marks| > 0 && !store.tx.marks[|store.tx.marks| - 1]
    modifies store
    ensures store.Valid()
    ensures store.log == old(store.log) + CloseEvents(ok, Merged(results, notice))
    ensures store.tx == if ok then Step(Step(old(store.tx), SetSuccessful), End) else Step(old(store.tx), End)
  {
    var marked := false;
    if ok {
      marked := store.SetTransactionSuccessful();
    }
    var _ := store.EndTransaction();
    if marked {
      var merged := MergeChanges(results, notice);
      if NonEmpty(merged) {
        store.NotifyAboutChanges(merged);
      }
    }
  }

  /**
   * The body shared by the batch executors, once every item has its resolver:
   * begin (when asked), run each resolver in order, notify per item (without a
   * transaction), and close the transaction on every path.
   */
  method ExecuteBatch<R>(store: LowLevel, items: seq<Item>, resolvers: seq<Item -> Outcome<R>>,
                         kind: Kind, notice: R -> Option<Changes>, useTransaction: bool)
    returns (result: Result<map<Item, R>>)
    requires store.Valid() && |resolvers| == |items|
    modifies store
    ensures store.Valid()
    ensures store.log == old(store.log)
                         + BatchEvents(items, Outcomes(items, resolvers), kind, notice, useTransaction)
    ensures store.tx == BatchTx(old(store.tx), useTransaction, Completed(Outcomes(items, resolvers)) == |items|)
    ensures result == BatchResult(items, Outcomes(items, resolvers))
  {
    if useTransaction {
      result := ExecuteInTransaction(store, items, resolvers, kind, notice);
    } else {
      var results, threw := RunItems(store, items, resolvers, kind, notice, true);
      result := if threw then Err(OperationFailed) else Ok(results);
    }
  }

  /** A batch in its own transaction: begin, the loop without per-item notifications, the close. */
  method ExecuteInTransaction<R>(store: LowLevel, items: seq<Item>, resolvers: seq<Item -> Outcome<R>>,
                                 kind: Kind, notice: R -> Option<Changes>)
    returns (result: Result<map<Item, R>>)
    requires store.Valid() && |resolvers| == |items|
    modifies store
    ensures store.Valid()
    ensures store.log == old(store.log) + BatchEvents(items, Outcomes(items, resolvers), kind, notice, true)
    ensures store.tx == BatchTx(old(store.tx), true, Completed(Outcomes(items, resolvers)) == |items|)
    ensures result == BatchResult(items, Outcomes(items, resolvers))
  {
    ghost var outs := Outcomes(items, resolvers);
    ghost var log0 := store.log;
    store.BeginTransaction();
    var results, threw := RunItems(store, items, resolvers, kind, notice, false);
    ghost var loop := LoopEvents(items, outs, kind, notice, false);
    assert store.log == log0 + [Begin] + loop;
    CloseTransaction(store, results, !threw, notice);
    ghost var close := CloseEvents(!threw, Merged(results, notice));
    assert store.log == log0 + [Begin] + loop + close;
    assert log0 + [Begin] + loop + close == log0 + ([Begin] + loop + close);
    assert close == CloseEvents(Completed(outs) == |outs|, Merged(ResultsUpTo(items, outs, Completed(outs)), notice));
    assert BatchEvents(items, outs, kind, notice, true) == [Begin] + loop + close;
    BatchTxSteps(old(store.tx), !threw);
    result := if threw then Err(OperationFailed) else Ok(results);
  }
}
