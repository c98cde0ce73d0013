/**
 * ChangesFilter: decides which changes reach a subscriber that listens to some
 * tables and/or tags, and filters a stream of changes (here a finite sequence)
 * down to those.
 */
module ChangesFilter {
  import opened Types

  /** The tables and tags a subscriber listens to; None stands for a null set. */
  datatype Filter = Filter(tables: Option<set<Table>>, tags: Option<set<Tag>>)

  /** One of the affected names is subscribed to; a null subscription matches nothing. */
  predicate AnyIn(affected: set<string>, subscribed: Option<set<string>>) {
    subscribed.Some? && exists name :: name in affected && name in subscribed.value
  }

  lemma AnyInIntersects(affected: set<string>, subscribed: Option<set<string>>)
    ensures AnyIn(affected, subscribed) <==> subscribed.Some? && subscribed.value * affected != {}
  {
    if subscribed.Some? && subscribed.value * affected != {} {
      var name :| name in subscribed.value * affected;
      assert name in affected && name in subscribed.value;
    }
    if AnyIn(affected, subscribed) {
      var name :| name in affected && name in subscribed.value;
      assert name in subscribed.value * affected;
    }
  }

  /**
   * test: a change passes when one of its tables is among the subscribed tables,
   * or one of its tags among the subscribed tags; otherwise it does not.
   */
  function Test(f: Filter, c: Changes): (r: bool)
    ensures r <==> ((f.tables.Some? && f.tables.value * c.tables != {})
                     || (f.tags.Some? && f.tags.value * c.tags != {}))
  {
    AnyInIntersects(c.tables, f.tables);
    AnyInIntersects(c.tags, f.tags);
    AnyIn(c.tables, f.tables) || AnyIn(c.tags, f.tags)
  }

  /** The changes that pass a filter, in the order they came. */
  function Apply(changes: seq<Changes>, f: Filter): (out: seq<Changes>)
    ensures |out| <= |changes|
    ensures forall c :: c in out <==> c in changes && Test(f, c)
  {
    if changes == [] then []
    else (if Test(f, changes[0]) then [changes[0]] else []) + Apply(changes[1..], f)
  }

  /** Filtering a stream piece by piece gives the filtered pieces, in order. */
  lemma {:induction false} ApplyAppend(xs: seq<Changes>, ys: seq<Changes>, f: Filter)
    ensures Apply(xs + ys, f) == Apply(xs, f) + Apply(ys, f)
    decreases |xs|
  {
    if xs == [] {
      assert xs + ys == ys;
    } else {
      assert (xs + ys)[0] == xs[0] && (xs + ys)[1..] == xs[1..] + ys;
      ApplyAppend(xs[1..], ys, f);
    }
  }

  /** A single change is kept exactly when it passes. */
  lemma ApplyOne(c: Changes, f: Filter)
    ensures Apply([c], f) == if Test(f, c) then [c] else []
  {
    assert [c][1..] == [];
  }

  /** applyForTables: only the tables count, so a change that touches no table never passes. */
  function ApplyForTables(changes: seq<Changes>, tables: set<Table>): (out: seq<Changes>)
    ensures out == Apply(changes, Filter(Some(tables), None))
    ensures forall c :: c in out <==> c in changes && tables * c.tables != {}
  {
    Apply(changes, Filter(Some(tables), None))
  }

  /** applyForTags: only the tags count, so a change that carries no tag never passes. */
  function ApplyForTags(changes: seq<Changes>, tags: set<Tag>): (out: seq<Changes>)
    ensures out == Apply(changes, Filter(None, Some(tags)))
    ensures forall c :: c in out <==> c in changes && tags * c.tags != {}
  {
    Apply(changes, Filter(None, Some(tags)))
  }

  /** applyForTablesAndTags: a change passes by a table or by a tag. */
  function ApplyForTablesAndTags(changes: seq<Changes>, tables: set<Table>, tags: set<Tag>): (out: seq<Changes>)
    ensures out == Apply(changes, Filter(Some(tables), Some(tags)))
    ensures forall c :: c in out <==> c in changes && (tables * c.tables != {} || tags * c.tags != {})
  {
    Apply(changes, Filter(Some(tables), Some(tags)))
  }
}
