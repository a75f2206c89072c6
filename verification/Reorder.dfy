/** Coalesced reordering: the order consumers hold, and the window that delays a new one. */
module Reorder {
  import opened Ordering
  import opened Tiles

  /** The sleeping task that closes coalesce window `generation`. */
  datatype Flush = Flush(generation: nat, due: nat)

  /** One publication: the order consumers got, the order derived at that moment, whether a window closed on it. */
  datatype Publication = Publication(order: seq<TileId>, derived: seq<TileId>, flushed: bool)

  datatype Order = Order(
    held: seq<TileId>,
    pending: Option<nat>,
    generation: nat,
    flushes: set<Flush>,
    log: seq<Publication>)

  const EMPTY := Order([], None, 0, {}, [])

  function Opened(o: Order, now: nat, coalesce: nat): Order {
    if o.pending.Some? then o
    else o.(pending := Some(o.generation + 1), generation := o.generation + 1,
            flushes := o.flushes + {Flush(o.generation + 1, now + coalesce)})
  }

  function Logged(o: Order, derived: seq<TileId>, flushed: bool): Order {
    o.(log := o.log + [Publication(o.held, derived, flushed)])
  }

  /** `publish_tiles`, given the derived order. */
  function Publish(o: Order, derived: seq<TileId>, now: nat, coalesce: nat): (o': Order)
    ensures ToSet(o'.held) <= ToSet(derived)
  {
    RetainFacts(o.held, ToSet(derived));
    if derived == o.held then Logged(o, derived, false)
    else if o.held == [] then Logged(o.(held := derived), derived, false)
    else Logged(Opened(o, now, coalesce).(held := Retain(o.held, ToSet(derived))), derived, false)
  }

  /** The message of a closed window: stale unless it is the open one. */
  function Close(o: Order, f: Flush, derived: seq<TileId>): Order {
    var rest := o.(flushes := o.flushes - {f});
    if o.pending != Some(f.generation) then rest
    else Logged(rest.(pending := None, held := derived), derived, true)
  }

  /** What every order keeps, whatever is derived now. */
  ghost predicate Windows(o: Order) {
    && (o.pending.Some? ==> o.pending.value == o.generation && exists f :: f in o.flushes && f.generation == o.generation)
    && (forall f :: f in o.flushes ==> f.generation <= o.generation)
    && (forall f, g :: f in o.flushes && g in o.flushes && f.generation == g.generation ==> f == g)
  }

  /**
   * What may follow the order `prev`: the derived one when a window closed or there was nothing to hold, and
   * otherwise exactly the tiles of `prev` that are still derived, in their old order.
   */
  ghost predicate Follows(prev: seq<TileId>, p: Publication) {
    && NoDuplicates(p.order)
    && (p.flushed || prev == [] ==> p.order == p.derived)
    && (!p.flushed && prev != [] ==> Subsequence(p.order, prev) && ToSet(p.order) == ToSet(prev) * ToSet(p.derived))
  }

  /** What consumers held before publication `i`. */
  function HeldBefore(log: seq<Publication>, i: nat): seq<TileId>
    requires i <= |log|
  {
    if i == 0 then [] else log[i - 1].order
  }

  /** Every publication follows from the one before, the first from nothing. */
  ghost predicate Steady(log: seq<Publication>) {
    forall i :: 0 <= i < |log| ==> Follows(HeldBefore(log, i), log[i])
  }

  ghost predicate History(o: Order) {
    && Steady(o.log)
    && NoDuplicates(o.held)
    && (o.log == [] ==> o.held == [])
    && (o.log != [] ==> o.log[|o.log| - 1].order == o.held)
  }

  /** The held order shows only what is derived now, and differs from it only under an open window. */
  ghost predicate Tracks(o: Order, derived: seq<TileId>) {
    && ToSet(o.held) <= ToSet(derived)
    && (o.held != derived ==> o.pending.Some?)
  }

  lemma PublishFacts(o: Order, derived: seq<TileId>, now: nat, coalesce: nat)
    requires Windows(o) && History(o) && NoDuplicates(derived)
    ensures var o' := Publish(o, derived, now, coalesce); Windows(o') && History(o') && Tracks(o', derived)
  {
    RetainFacts(o.held, ToSet(derived));
    SubsequenceRefl(o.held);
    var o' := Publish(o, derived, now, coalesce);
    if derived != o.held && o.held != [] && o.pending.None? {
      assert Flush(o.generation + 1, now + coalesce) in o'.flushes;
    } else if o.pending.Some? {
      var f :| f in o.flushes && f.generation == o.generation;
      assert f in o'.flushes;
    }
    LogGrows(o, o');
  }

  lemma CloseFacts(o: Order, f: Flush, derived: seq<TileId>)
    requires Windows(o) && History(o) && NoDuplicates(derived) && f in o.flushes
    requires Tracks(o, derived)
    ensures var o' := Close(o, f, derived);
      Windows(o') && History(o') && Tracks(o', derived)
      && (o.pending == Some(f.generation) ==> o'.held == derived && o'.pending.None?)
      && (o.pending != Some(f.generation) ==> o'.held == o.held && o'.pending == o.pending && o'.log == o.log)
  {
    CloseWindows(o, f, derived);
    if o.pending == Some(f.generation) {
      var o' := Close(o, f, derived);
      assert Follows(o.held, o'.log[|o.log|]);
      LogGrows(o, o');
    }
  }

  lemma CloseWindows(o: Order, f: Flush, derived: seq<TileId>)
    requires Windows(o) && f in o.flushes
    ensures Windows(Close(o, f, derived))
  {
    if o.pending.Some? && o.pending != Some(f.generation) {
      var g :| g in o.flushes && g.generation == o.generation;
      assert g in Close(o, f, derived).flushes;
    }
  }

  lemma LogGrows(o: Order, o': Order)
    requires History(o) && |o'.log| == |o.log| + 1 && o'.log[..|o.log|] == o.log
    requires var p := o'.log[|o.log|]; p.order == o'.held && Follows(o.held, p)
    ensures History(o')
  {
    SteadyGrows(o.log, o'.log, o.held);
  }

  lemma SteadyGrows(log: seq<Publication>, log': seq<Publication>, held: seq<TileId>)
    requires Steady(log) && |log'| == |log| + 1 && log'[..|log|] == log
    requires held == HeldBefore(log, |log|) && Follows(held, log'[|log|])
    ensures Steady(log')
  {
    forall i | 0 <= i < |log'| ensures Follows(HeldBefore(log', i), log'[i]) {
      assert i > 0 ==> log'[i - 1] == log[i - 1];
      assert i < |log| ==> log'[i] == log[i] && Follows(HeldBefore(log, i), log[i]);
    }
  }

  // ---- when a reorder may land ------------------------------------------------------

  /** The windows and their timers are as they were. */
  ghost predicate SameWindows(o: Order, o': Order) {
    o'.pending == o.pending && o'.generation == o.generation && o'.flushes == o.flushes
  }

  /** A window opened, its timer due `coalesce` from now. */
  ghost predicate WindowOpened(o: Order, o': Order, now: nat, coalesce: nat) {
    && o.pending.None? && o'.pending == Some(o'.generation) && o'.generation == o.generation + 1
    && o'.flushes == o.flushes + {Flush(o'.generation, now + coalesce)}
  }

  /** Some publications, none of them closing a window. */
  ghost predicate PublishesOnly(o: Order, o': Order, now: nat, coalesce: nat) {
    && o.log <= o'.log
    && (forall i :: |o.log| <= i < |o'.log| ==> !o'.log[i].flushed)
    && (SameWindows(o, o') || WindowOpened(o, o', now, coalesce))
  }

  lemma PublishOnlyPublishes(o: Order, derived: seq<TileId>, now: nat, coalesce: nat)
    ensures PublishesOnly(o, Publish(o, derived, now, coalesce), now, coalesce)
  {
  }

  lemma PublishesOnlyTwice(a: Order, b: Order, c: Order, now: nat, coalesce: nat)
    requires PublishesOnly(a, b, now, coalesce) && PublishesOnly(b, c, now, coalesce)
    ensures PublishesOnly(a, c, now, coalesce)
  {
  }

  /** A window opens for a departure as for a reorder: consumers may already hold the derived order under it. */
  lemma DepartureOpensAWindow(o: Order, derived: seq<TileId>, now: nat, coalesce: nat)
    requires o.held != [] && o.held != derived && o.pending.None? && derived == Retain(o.held, ToSet(derived))
    ensures var o' := Publish(o, derived, now, coalesce);
      o'.held == derived && o'.pending.Some? && Flush(o'.generation, now + coalesce) in o'.flushes
  {
  }

  /**
   * So a reorder that follows a departure can land sooner than the delay after it arose: one leaves at 0, two swap one
   * millisecond before the window closes, and the swap lands with it.
   */
  lemma SoonAfterADeparture(a: TileId, b: TileId, c: TileId, coalesce: nat)
    requires a != b && b != c && a != c && coalesce > 0
    ensures var gone := Publish(Order([a, b, c], None, 0, {}, []), [a, b], 0, coalesce);
      var swapped := Publish(gone, [b, a], coalesce - 1, coalesce);
      && gone.held == [a, b] == swapped.held
      && Flush(1, coalesce) in swapped.flushes && Close(swapped, Flush(1, coalesce), [b, a]).held == [b, a]
  {
    assert ToSet([a, b]) == {a, b} && ToSet([b, a]) == {a, b};
    RetainTwo(a, b, [c], {a, b});
    RetainTwo(a, b, [], {a, b});
    assert [c][1..] == [] && Retain([c], {a, b}) == [];
    assert [a, b] + [c] == [a, b, c] && [a, b] + [] == [a, b];
  }

  lemma RetainTwo<T>(x: T, y: T, rest: seq<T>, keep: set<T>)
    requires x in keep && y in keep
    ensures Retain([x, y] + rest, keep) == [x, y] + Retain(rest, keep)
  {
    assert ([x, y] + rest)[1..] == [y] + rest && ([y] + rest)[1..] == rest;
    assert Retain([y] + rest, keep) == [y] + Retain(rest, keep);
  }

  // ---- the records behind the order ----------------------------------------------

  /** The record of a tile id among the derived ones. */
  function RecordOf(remote: seq<CallTile>, id: TileId): (t: CallTile)
    requires id in Ids(remote)
    ensures t in remote && t.Id() == id
  {
    if remote[0].Id() == id then remote[0]
    else
      assert forall i :: 0 < i < |remote| ==> Ids(remote)[i] == Ids(remote[1..])[i - 1];
      RecordOf(remote[1..], id)
  }

  /** The current records, taken in the held order. */
  function Records(held: seq<TileId>, remote: seq<CallTile>): seq<CallTile>
    requires ToSet(held) <= ToSet(Ids(remote))
  {
    seq(|held|, i requires 0 <= i < |held| => assert held[i] in ToSet(held); RecordOf(remote, held[i]))
  }

  /** A held order equal to the derived one shows the derived list itself. */
  lemma RecordsOfDerived(remote: seq<CallTile>)
    requires NoDuplicates(Ids(remote))
    ensures Records(Ids(remote), remote) == remote
  {
  }
}
