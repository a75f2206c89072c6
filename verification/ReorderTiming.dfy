/** When a new order may reach consumers: coalesce windows over whole runs of the engine. */
module ReorderTiming {
  import opened Ordering
  import opened Tiles
  import opened Roster
  import opened Engine
  import opened EngineRuns
  import opened EngineSafety
  import opened Reorder
  import Publications
  import Speakers

  /** From one state to the next the order was only published, under this turn's clock. */
  ghost predicate Publishing(s: State, r: State, env: Env) {
    r.cfg == s.cfg && PublishesOnly(s.order, r.order, env.now, s.cfg.coalesce)
  }

  lemma Unpublished(s: State, r: State, env: Env)
    requires r.order == s.order && r.cfg == s.cfg
    ensures Publishing(s, r, env)
  {
  }

  lemma PublishingTwice(s: State, p: State, r: State, env: Env)
    requires Publishing(s, p, env) && Publishing(p, r, env)
    ensures Publishing(s, r, env)
  {
    PublishesOnlyTwice(s.order, p.order, r.order, env.now, s.cfg.coalesce);
  }

  lemma TilesPublishing(s: State, env: Env)
    ensures Publishing(s, PublishTiles(s, env), env)
  {
    PublishOnlyPublishes(s.order, Ids(Derived(s)), env.now, s.cfg.coalesce);
  }

  lemma RosterPublishing(s: State, env: Env)
    ensures Publishing(s, PublishRoster(s, env), env)
  {
    TilesPublishing(s.(out := s.out.(participants := s.roster)), env);
  }

  lemma RosteredPublishing(s: State, roster: seq<Participant>, env: Env)
    ensures Publishing(s, Rostered(s, roster, env), env)
  {
    if roster != s.roster {
      RosterPublishing(s.(roster := roster), env);
    }
  }

  lemma HeardPublishing(s: State, raw: set<MemberId>, env: Env)
    ensures Publishing(s, SpeakersHeard(s, raw, env), env)
  {
    TilesPublishing(s.(speech := Speakers.ApplyRaw(s.speech, raw, env.now, s.turn, s.cfg.delays)), env);
  }

  lemma PoolStepPublishing(s: State, e: PoolEvent, env: Env)
    ensures Publishing(s, PoolStep(s, e, env), env)
  {
    if e.StreamAdded? || e.StreamRemoved? || e.StreamMuted? {
      RosteredPublishing(s, PoolStep(s, e, env).roster, env);
    } else if e.ActiveSpeakers? {
      HeardPublishing(s, e.speakers, env);
    }
  }

  lemma {:induction false} PoolPublishing(s: State, es: seq<PoolEvent>, env: Env)
    ensures Publishing(s, PoolSteps(s, es, env), env)
  {
    if es == [] {
      Unpublished(s, s, env);
    } else {
      var n := |es| - 1;
      var before := PoolSteps(s, es[..n], env);
      PoolPublishing(s, es[..n], env);
      PoolStepPublishing(before, es[n], env);
      PublishingTwice(s, before, PoolSteps(s, es, env), env);
    }
  }

  lemma SnapshotPublishing(s: State, members: seq<Membership>, pool: seq<PoolEvent>, env: Env)
    ensures Publishing(s, ApplySnapshot(s, members, pool, env), env)
  {
    var r := Reconciled(s, members, env);
    var p := PoolSteps(r, pool, env);
    PoolPublishing(r, pool, env);
    RosterPublishing(Renumbered(p), env);
    PublishingTwice(r, p, ApplySnapshot(s, members, pool, env), env);
  }

  lemma HandsPublishing(s: State, hands: seq<RaisedHand>, announce: bool, env: Env)
    ensures Publishing(s, ApplyHands(s, hands, announce, env), env)
  {
    var r := ApplyHands(s, hands, announce, env);
    if WithHands(s.roster, hands) == s.roster {
      Unpublished(s, r, env);
    } else {
      RosterPublishing(Renumbered(s.(hands := hands, roster := WithHands(s.roster, hands), events := r.events)), env);
    }
  }

  lemma PublishedPublishing(s: State, kind: StreamKind, muted: bool, track: nat, env: Env)
    ensures Publishing(s, PublishedOwn(s, kind, muted, track, env), env)
  {
    RosteredPublishing(s.(pubs := Publications.Published(s.pubs, kind, muted, track)), WithStream(s.roster, s.cfg.own, kind, muted), env);
  }

  lemma UnpublishedPublishing(s: State, kind: StreamKind, track: nat, env: Env)
    ensures Publishing(s, UnpublishedOwn(s, kind, track, env), env)
  {
    RosteredPublishing(s.(pubs := Publications.Unpublished(s.pubs, kind, track)), WithoutStream(s.roster, s.cfg.own, kind), env);
  }

  lemma MutedPublishing(s: State, kind: StreamKind, muted: bool, env: Env)
    ensures Publishing(s, MutedOwn(s, kind, muted, env), env)
  {
    RosteredPublishing(
      s.(pubs := Publications.Muted(s.pubs, kind, muted, Lapsed(s), true)), WithMute(s.roster, s.cfg.own, kind, muted), env);
  }

  lemma LocalPublishing(s: State, input: Input, env: Env)
    requires input.LocalPublished? || input.LocalUnpublished? || input.SetLocalMuted?
    ensures Publishing(s, Handle(s, input, env), env)
  {
    match input {
      case LocalPublished(kind, muted, track) => PublishedPublishing(s, kind, muted, track, env);
      case LocalUnpublished(kind, track) => UnpublishedPublishing(s, kind, track, env);
      case SetLocalMuted(kind, muted) => MutedPublishing(s, kind, muted, env);
      case _ =>
    }
  }

  lemma WindowPublishing(s: State, w: DetailWindow, env: Env)
    ensures Publishing(s, WindowMoved(s, w, env), env)
  {
    TilesPublishing(s.(window := w), env);
  }

  lemma ThresholdPublishing(s: State, n: nat, env: Env)
    ensures Publishing(s, ThresholdMoved(s, n, env), env)
  {
    TilesPublishing(s.(threshold := n), env);
  }

  lemma TimerPublishing(s: State, t: Speakers.Timer, env: Env)
    ensures Publishing(s, TimerFired(s, t, env), env)
  {
    TilesPublishing(s.(speech := Speakers.Fire(s.speech, t)), env);
  }

  lemma ViewPublishing(s: State, input: Input, env: Env)
    requires input.SetWindow? || input.SetThreshold? || input.SpeakerTimer?
    ensures Publishing(s, Handle(s, input, env), env)
  {
    match input {
      case SetWindow(w) => WindowPublishing(s, w, env);
      case SetThreshold(n) => ThresholdPublishing(s, n, env);
      case SpeakerTimer(t) => TimerPublishing(s, t, env);
      case _ =>
    }
  }

  /** No message but the window's own closes a window. */
  lemma HandlePublishing(s: State, input: Input, env: Env)
    requires !input.FlushReorder?
    ensures Publishing(s, Handle(s, input, env), env)
  {
    if input.Start? {
      var p := ApplySnapshot(s, input.members, input.pool, env);
      SnapshotPublishing(s, input.members, input.pool, env);
      HandsPublishing(p, input.hands, false, env);
      PublishingTwice(s, p, Handle(s, input, env), env);
    } else if input.Members? {
      SnapshotPublishing(s, input.members, input.pool, env);
    } else if input.Hands? {
      HandsPublishing(s, input.hands, true, env);
    } else if input.FromPool? {
      PoolPublishing(s, input.pool, env);
    } else if input.LocalPublished? || input.LocalUnpublished? || input.SetLocalMuted? {
      LocalPublishing(s, input, env);
    } else if input.SetWindow? || input.SetThreshold? || input.SpeakerTimer? {
      ViewPublishing(s, input, env);
    } else {
      Unpublished(s, Handle(s, input, env), env);
    }
  }

  /** The end of a turn moves nothing the order looks at, so it neither opens a window nor reorders. */
  lemma SyncKeepsWindows(h: State, env: Env)
    requires Current(h)
    ensures var r := Sync(h, env);
      && SameWindows(h.order, r.order) && Ids(Derived(r)) == Ids(Derived(h))
      && (h.order.held == Ids(Derived(h)) ==> r.order.held == h.order.held)
      && PublishesOnly(h.order, r.order, env.now, h.cfg.coalesce)
  {
    var raw := Speakers.RawSpeaking(h.speech);
    OrderIgnoresTheRest(h.roster, raw, Synced(h, env), raw, h.speech.speaking, h.threshold);
    SyncedOrder(h, Synced(h, env), env);
  }

  lemma SyncedOrder(h: State, roster: seq<Participant>, env: Env)
    requires Tracks(h.order, Ids(Derived(h)))
    requires Ids(Derive(roster, Speakers.RawSpeaking(h.speech), h.speech.speaking, h.threshold)) == Ids(Derived(h))
    ensures var r := Rostered(h, roster, env);
      && SameWindows(h.order, r.order) && (h.order.held == Ids(Derived(h)) ==> r.order.held == h.order.held)
      && PublishesOnly(h.order, r.order, env.now, h.cfg.coalesce)
  {
    if roster != h.roster {
      var p := h.(roster := roster, out := h.out.(participants := roster));
      assert Ids(Derived(p)) == Ids(Derived(h));
      StillUnderTheWindow(h.order, Ids(Derived(h)), env.now, h.cfg.coalesce);
    }
  }

  /** A publication opens no window when one is open already or the order agrees. */
  lemma StillUnderTheWindow(o: Order, derived: seq<TileId>, now: nat, coalesce: nat)
    requires Tracks(o, derived)
    ensures var o' := Publish(o, derived, now, coalesce);
      SameWindows(o, o') && PublishesOnly(o, o', now, coalesce) && (o.held == derived ==> o'.held == derived)
  {
  }

  /** What one turn does to the windows. */
  lemma TurnWindows(s: State, input: Input, env: Env)
    requires Kept(s) && Admissible(s, input, env)
    ensures var r := Turn(s, input, env);
      && (!input.FlushReorder? ==> PublishesOnly(s.order, r.order, env.now, s.cfg.coalesce))
      && (input.FlushReorder? ==>
            && r.order.generation == s.order.generation && r.order.flushes == s.order.flushes - {input.flush}
            && (s.order.pending != Some(input.flush.generation) ==>
                  r.order.pending == s.order.pending && PublishesOnly(s.order.(flushes := r.order.flushes), r.order, env.now, s.cfg.coalesce))
            && (s.order.pending == Some(input.flush.generation) ==>
                  r.order.pending.None? && r.order.held == Ids(Derived(r))))
  {
    var h := Handle(s, input, env);
    HandleCurrent(s, input, env);
    SyncKeepsWindows(h, env);
    SyncIsAll(s, input, env);
    if input.FlushReorder? {
      FlushedWindows(s, input.flush);
      FlushIsHandled(s, input, env);
    } else {
      HandlePublishing(s, input, env);
      PublishesOnlyTwice(s.order, h.order, Turn(s, input, env).order, env.now, s.cfg.coalesce);
    }
  }

  lemma SyncIsAll(s: State, input: Input, env: Env)
    ensures var r, y := Turn(s, input, env), Sync(Handle(s, input, env), env);
      r.order == y.order && Derived(r) == Derived(y)
  {
  }

  lemma FlushIsHandled(s: State, input: Input, env: Env)
    requires input.FlushReorder?
    ensures Handle(s, input, env) == CloseWindow(s, input.flush)
  {
  }

  lemma FlushedWindows(s: State, f: Flush)
    ensures var h := CloseWindow(s, f);
      && h.order.generation == s.order.generation && h.order.flushes == s.order.flushes - {f} && h.cfg == s.cfg
      && Derived(h) == Derived(s)
      && (s.order.pending != Some(f.generation) ==> h.order == s.order.(flushes := h.order.flushes))
      && (s.order.pending == Some(f.generation) ==> h.order.pending.None? && h.order.held == Ids(Derived(s)))
  {
  }

  // ---- every run ---------------------------------------------------------------------

  /** Turn `j`, until when consumers held the derived order, opened a window and set its timer `f`. */
  ghost predicate OpensWindow(cfg: Config, states: seq<State>, msgs: seq<Message>, j: nat, f: Flush) {
    && j < |msgs| && |states| == |msgs| + 1
    && states[j].order.held == Ids(Derived(states[j]))
    && states[j].order.pending.None?
    && states[j + 1].order.pending == Some(f.generation)
    && f in states[j + 1].order.flushes && f !in states[j].order.flushes
    && f.due == msgs[j].env.now + cfg.coalesce
  }

  /** A timer in flight after a turn was so before it, under a window as open as now, or the turn opened its window. */
  lemma TimerOfTurn(s: State, input: Input, env: Env, r: State, f: Flush)
    requires Kept(s) && Admissible(s, input, env) && r == Turn(s, input, env) && f in r.order.flushes
    ensures if f in s.order.flushes then r.order.pending == Some(f.generation) ==> s.order.pending == Some(f.generation)
      else
        && s.order.pending.None? && s.order.held == Ids(Derived(s)) && s.order.generation < f.generation
        && r.order.pending == Some(f.generation) && f.due == env.now + s.cfg.coalesce
  {
    TurnWindows(s, input, env);
    TurnKeepsOutput(s, input, env);
    KeptOrderMeans(s);
    TimerOfOrders(s.order, r.order, input, env.now, s.cfg.coalesce, f);
  }

  lemma TimerOfOrders(o: Order, o': Order, input: Input, now: nat, coalesce: nat, f: Flush)
    requires Windows(o) && Windows(o') && f in o'.flushes
    requires input.FlushReorder? ==> o'.flushes == o.flushes - {input.flush} && (o'.pending == o.pending || o'.pending.None?)
    requires !input.FlushReorder? ==> PublishesOnly(o, o', now, coalesce)
    ensures if f in o.flushes then o'.pending == Some(f.generation) ==> o.pending == Some(f.generation)
            else o.pending.None? && o.generation < f.generation && o'.pending == Some(f.generation) && f.due == now + coalesce
  {
  }

  lemma TimerOfRun(cfg: Config, states: seq<State>, msgs: seq<Message>, n: nat, f: Flush)
    requires Run(cfg, states, msgs) && n < |msgs| && f in states[n + 1].order.flushes
    ensures if f in states[n].order.flushes
      then states[n + 1].order.pending == Some(f.generation) ==> states[n].order.pending == Some(f.generation)
      else OpensWindow(cfg, states, msgs, n, f)
  {
    EveryTurnKept(cfg, states, msgs, n);
    TimerOfTurn(states[n], msgs[n].input, msgs[n].env, states[n + 1], f);
  }

  /** Every timer in flight was set by the turn that opened its window, and is due the coalesce delay after it. */
  lemma {:induction false} EveryFlushWaits(cfg: Config, states: seq<State>, msgs: seq<Message>, k: nat, f: Flush)
    returns (j: nat)
    requires Run(cfg, states, msgs) && k < |states| && f in states[k].order.flushes
    ensures j < k && OpensWindow(cfg, states, msgs, j, f)
    ensures StaysOpen(states, j, k, f.generation)
  {
    if k == 0 { assert false; }
    var n := k - 1;
    TimerOfRun(cfg, states, msgs, n, f);
    if f in states[n].order.flushes {
      j := EveryFlushWaits(cfg, states, msgs, n, f);
    } else {
      j := n;
    }
  }

  /** If the window of `generation` is open at `k`, it has been since turn `j`. */
  ghost predicate StaysOpen(states: seq<State>, j: nat, k: nat, generation: nat)
    requires k < |states|
  {
    states[k].order.pending == Some(generation) ==> forall l :: j < l <= k ==> states[l].order.pending == Some(generation)
  }

  /** Turn `k` published an order that closed a window. */
  ghost predicate Reorders(states: seq<State>, k: nat)
    requires k + 1 < |states|
  {
    var before, after := states[k].order.log, states[k + 1].order.log;
    exists i :: |before| <= i < |after| && after[i].flushed
  }

  /**
   * A new order waits for the coalesce delay: a turn lets one through only for the timer of a window opened at
   * least that delay earlier, before which consumers held the derived order, and which stayed open ever since.
   * Afterwards they hold the derived order, and no window is open.
   */
  lemma ReordersWaitForTheDelay(cfg: Config, states: seq<State>, msgs: seq<Message>, k: nat) returns (j: nat, f: Flush)
    requires Run(cfg, states, msgs) && k < |msgs| && Reorders(states, k)
    ensures msgs[k].input == FlushReorder(f)
    ensures j < k && OpensWindow(cfg, states, msgs, j, f)
    ensures msgs[j].env.now + cfg.coalesce <= msgs[k].env.now
    ensures forall l :: j < l <= k ==> states[l].order.pending == Some(f.generation)
    ensures states[k + 1].order.held == Ids(Derived(states[k + 1])) && states[k + 1].order.pending.None?
  {
    EveryTurnKept(cfg, states, msgs, k);
    TurnWindows(states[k], msgs[k].input, msgs[k].env);
    f := msgs[k].input.flush;
    j := EveryFlushWaits(cfg, states, msgs, k, f);
  }

  /**
   * Nobody waits longer than the delay: whenever consumers hold another order than the derived one, the timer of
   * a window that has been open since turn `j`, before which they held it, is due one delay after that turn.
   */
  lemma DivergenceIsBounded(cfg: Config, states: seq<State>, msgs: seq<Message>, k: nat) returns (j: nat, f: Flush)
    requires Run(cfg, states, msgs) && k < |states| && states[k].order.held != Ids(Derived(states[k]))
    ensures j < k && OpensWindow(cfg, states, msgs, j, f)
    ensures f in states[k].order.flushes
    ensures forall l :: j < l <= k ==> states[l].order.pending == Some(f.generation)
  {
    EveryTurnKept(cfg, states, msgs, k);
    f := OpenTimer(states[k]);
    j := EveryFlushWaits(cfg, states, msgs, k, f);
  }

  lemma OpenTimer(s: State) returns (f: Flush)
    requires Kept(s) && s.order.held != Ids(Derived(s))
    ensures f in s.order.flushes && s.order.pending == Some(f.generation)
  {
    KeptOrderMeans(s);
    f :| f in s.order.flushes && f.generation == s.order.pending.value;
  }
}
