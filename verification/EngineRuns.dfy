/** What every turn of the engine keeps, and what every run therefore shows. */
module EngineRuns {
  import opened Ordering
  import opened Tiles
  import opened Roster
  import opened Engine
  import Speakers
  import Reorder
  import Keys
  import Publications

  // ---- roster and queue positions -------------------------------------------------

  ghost predicate RosterKept(s: State) {
    && WellFormed(s.roster, s.cfg.own)
    && HandsCurrent(s.roster, s.hands)
    && Queue(s.hands)
    && Numbered(s.roster)
  }

  lemma SameQueueKeeps(a: seq<Participant>, b: seq<Participant>, own: MemberId, hands: seq<RaisedHand>)
    requires SameQueue(a, b)
    ensures WellFormed(a, own) ==> WellFormed(b, own)
    ensures HandsCurrent(a, hands) ==> HandsCurrent(b, hands)
    ensures SamePlaces(a, b) && Numbered(a) ==> Numbered(b)
  {
    SameQueueSamePositions(a, b);
    forall p | p in b ensures exists i :: 0 <= i < |a| && b[i] == p && a[i] in a {
      var i :| 0 <= i < |b| && b[i] == p;
      assert a[i] in a;
    }
  }

  lemma SnapshotKeepsRoster(s: State, members: seq<Membership>, pool: seq<PoolEvent>, env: Env)
    requires RosterKept(s)
    ensures RosterKept(ApplySnapshot(s, members, pool, env))
  {
    var r := Reconciled(s, members, env);
    SnapshotFacts(s.roster, members, Seeds(s.cfg.own, s.hands, s.pubs, env.reachable));
    var p := PoolSteps(r, pool, env);
    SameQueueKeeps(r.roster, p.roster, s.cfg.own, s.hands);
    RenumberedByTime(p.roster, s.hands);
    SameQueueKeeps(p.roster, Renumbered(p).roster, s.cfg.own, s.hands);
  }

  lemma HandsKeepRoster(s: State, hands: seq<RaisedHand>, announce: bool, env: Env)
    requires RosterKept(s) && Queue(hands)
    ensures RosterKept(ApplyHands(s, hands, announce, env))
  {
    var h := WithHands(s.roster, hands);
    forall p | p in h
      ensures p.handAt == HandTime(hands, p.id)
      ensures exists i :: 0 <= i < |h| && p == h[i] && h[i].id == s.roster[i].id && s.roster[i] in s.roster
    {
      var i :| 0 <= i < |h| && p == h[i];
      assert s.roster[i] in s.roster;
    }
    if h != s.roster {
      assert WellFormed(h, s.cfg.own);
      RenumberedByTime(h, hands);
      SameQueueKeeps(h, WithPositions(h, hands), s.cfg.own, hands);
    }
  }

  /** Every other message leaves members, hands and positions as they are. */
  lemma OthersKeepQueue(s: State, input: Input, env: Env)
    requires !input.Start? && !input.Members? && !input.Hands?
    ensures var h := Handle(s, input, env); SamePlaces(s.roster, h.roster) && h.hands == s.hands && h.cfg == s.cfg
  {
    match input {
      case FromPool(_) =>
      case LocalPublished(_, _, _) =>
      case LocalUnpublished(_, _) =>
      case SetLocalMuted(_, _) =>
      case _ =>
    }
  }

  lemma HandleKeepsRoster(s: State, input: Input, env: Env)
    requires RosterKept(s) && Admissible(s, input, env)
    ensures RosterKept(Handle(s, input, env))
  {
    if input.Start? {
      SnapshotKeepsRoster(s, input.members, input.pool, env);
      HandsKeepRoster(ApplySnapshot(s, input.members, input.pool, env), input.hands, false, env);
    } else if input.Members? {
      SnapshotKeepsRoster(s, input.members, input.pool, env);
    } else if input.Hands? {
      HandsKeepRoster(s, input.hands, true, env);
    } else {
      OthersKeepQueue(s, input, env);
      SameQueueKeeps(s.roster, Handle(s, input, env).roster, s.cfg.own, s.hands);
    }
  }

  lemma SyncKeepsQueue(h: State, env: Env)
    ensures var r := Sync(h, env); r.roster == Synced(h, env) && r.cfg == h.cfg && r.hands == h.hands
  {
  }

  /**
   * Every entry's queue position is one more than the number of rostered hands that went up earlier, present
   * exactly when the hand time is: also through the turns that skip the renumbering.
   */
  lemma TurnKeepsRoster(s: State, input: Input, env: Env)
    requires RosterKept(s) && Admissible(s, input, env)
    ensures RosterKept(Turn(s, input, env))
  {
    var h := Handle(s, input, env);
    HandleKeepsRoster(s, input, env);
    SyncKeepsQueue(h, env);
    SameQueueKeeps(h.roster, Synced(h, env), h.cfg.own, h.hands);
  }

  // ---- the published records ---------------------------------------------------------

  /** The tiles out there are the current records in the held order. */
  ghost predicate TilesCurrent(s: State) {
    var remote := Derived(s);
    && Reorder.Tracks(s.order, Ids(remote))
    && s.out.tiles == Windowed(Reorder.Records(s.order.held, remote), s.window)
    && s.out.local == Local(s)
  }

  ghost predicate Current(s: State) {
    s.out.participants == s.roster && TilesCurrent(s)
  }

  ghost predicate OrderKept(s: State) {
    Reorder.Windows(s.order) && Reorder.History(s.order)
  }

  lemma DerivedIds(s: State)
    requires UniqueMembers(s.roster)
    ensures NoDuplicates(Ids(Derived(s)))
  {
    DeriveFacts(s.roster, Speakers.RawSpeaking(s.speech), s.speech.speaking, s.threshold);
  }

  lemma PublishTilesCurrent(s: State, env: Env)
    requires OrderKept(s) && UniqueMembers(s.roster)
    ensures var r := PublishTiles(s, env); OrderKept(r) && TilesCurrent(r)
  {
    DerivedIds(s);
    Reorder.PublishFacts(s.order, Ids(Derived(s)), env.now, s.cfg.coalesce);
    assert Derived(PublishTiles(s, env)) == Derived(s);
  }

  lemma PublishRosterCurrent(s: State, env: Env)
    requires OrderKept(s) && UniqueMembers(s.roster)
    ensures var r := PublishRoster(s, env); OrderKept(r) && Current(r)
  {
    PublishTilesCurrent(s.(out := s.out.(participants := s.roster)), env);
  }

  lemma RosteredCurrent(s: State, roster: seq<Participant>, env: Env)
    requires OrderKept(s) && UniqueMembers(roster)
    ensures var r := Rostered(s, roster, env); OrderKept(r) && (Current(s) ==> Current(r))
  {
    if roster != s.roster {
      PublishRosterCurrent(s.(roster := roster), env);
    }
  }

  lemma CloseWindowCurrent(s: State, f: Reorder.Flush)
    requires OrderKept(s) && UniqueMembers(s.roster) && Current(s) && f in s.order.flushes
    ensures var r := CloseWindow(s, f); OrderKept(r) && Current(r)
  {
    DerivedIds(s);
    Reorder.CloseFacts(s.order, f, Ids(Derived(s)));
    Reorder.RecordsOfDerived(Derived(s));
    assert Derived(CloseWindow(s, f)) == Derived(s);
  }

  /** A state with the same roster, speakers and window shows the same. */
  lemma UnmovedCurrent(s: State, r: State)
    requires r.roster == s.roster && r.threshold == s.threshold && r.window == s.window
    requires r.order == s.order && r.out == s.out
    requires r.speech.speaking == s.speech.speaking
    requires Speakers.RawSpeaking(r.speech) == Speakers.RawSpeaking(s.speech)
    ensures Derived(r) == Derived(s) && Local(r) == Local(s)
    ensures OrderKept(s) ==> OrderKept(r)
    ensures Current(s) ==> Current(r)
  {
  }

  lemma HeardCurrent(s: State, raw: set<MemberId>, env: Env)
    requires OrderKept(s) && UniqueMembers(s.roster)
    ensures var r := SpeakersHeard(s, raw, env); OrderKept(r) && (Current(s) ==> Current(r))
  {
    var heard := s.(speech := Speakers.ApplyRaw(s.speech, raw, env.now, s.turn, s.cfg.delays));
    Speakers.ApplyRawStates(s.speech, raw, env.now, s.turn, s.cfg.delays);
    if Speakers.RawChanges(s.speech, raw) {
      PublishTilesCurrent(heard, env);
    } else {
      UnmovedCurrent(s, heard);
    }
  }

  lemma PoolStepCurrent(s: State, e: PoolEvent, env: Env)
    requires OrderKept(s) && UniqueMembers(s.roster)
    ensures var r := PoolStep(s, e, env); OrderKept(r) && UniqueMembers(r.roster) && (Current(s) ==> Current(r))
  {
    var r := PoolStep(s, e, env);
    SameQueueSamePositions(s.roster, r.roster);
    if e.StreamAdded? || e.StreamRemoved? || e.StreamMuted? {
      RosteredCurrent(s, r.roster, env);
    } else if e.ActiveSpeakers? {
      HeardCurrent(s, e.speakers, env);
    } else {
      UnmovedCurrent(s, r);
    }
  }

  lemma {:induction false} PoolStepsCurrent(s: State, es: seq<PoolEvent>, env: Env)
    requires OrderKept(s) && UniqueMembers(s.roster)
    ensures var r := PoolSteps(s, es, env); OrderKept(r) && UniqueMembers(r.roster) && (Current(s) ==> Current(r))
  {
    if es != [] {
      PoolStepsCurrent(s, es[..|es| - 1], env);
      PoolStepCurrent(PoolSteps(s, es[..|es| - 1], env), es[|es| - 1], env);
    }
  }

  lemma SnapshotCurrent(s: State, members: seq<Membership>, pool: seq<PoolEvent>, env: Env)
    requires OrderKept(s) && WellFormed(s.roster, s.cfg.own)
    ensures var r := ApplySnapshot(s, members, pool, env); OrderKept(r) && Current(r)
  {
    var r := Reconciled(s, members, env);
    SnapshotFacts(s.roster, members, Seeds(s.cfg.own, s.hands, s.pubs, env.reachable));
    PoolStepsCurrent(r, pool, env);
    PublishRosterCurrent(Renumbered(PoolSteps(r, pool, env)), env);
  }

  lemma HandsCurrentOut(s: State, hands: seq<RaisedHand>, announce: bool, env: Env)
    requires OrderKept(s) && UniqueMembers(s.roster) && Current(s)
    ensures var r := ApplyHands(s, hands, announce, env); OrderKept(r) && Current(r)
  {
    var r := ApplyHands(s, hands, announce, env);
    if WithHands(s.roster, hands) == s.roster {
      UnmovedCurrent(s, r);
    } else {
      var next := Renumbered(s.(hands := hands, roster := WithHands(s.roster, hands), events := r.events));
      PublishRosterCurrent(next, env);
    }
  }

  lemma TimerCurrent(s: State, t: Speakers.Timer, env: Env)
    requires OrderKept(s) && UniqueMembers(s.roster) && Current(s)
    ensures var r := TimerFired(s, t, env); OrderKept(r) && Current(r)
  {
    var fired := s.(speech := Speakers.Fire(s.speech, t));
    if fired.speech.speaking != s.speech.speaking {
      PublishTilesCurrent(fired, env);
    } else {
      UnmovedCurrent(s, fired);
    }
  }

  /** Our own publications change with the roster entry, or alone. */
  lemma OwnCurrent(s: State, pubs: Publications.Publications, roster: seq<Participant>, env: Env)
    requires OrderKept(s) && UniqueMembers(s.roster) && Current(s) && SamePlaces(s.roster, roster)
    ensures var r := Rostered(s.(pubs := pubs), roster, env); OrderKept(r) && Current(r)
  {
    SameQueueSamePositions(s.roster, roster);
    UnmovedCurrent(s, s.(pubs := pubs));
    RosteredCurrent(s.(pubs := pubs), roster, env);
  }

  lemma MutedCurrent(s: State, kind: StreamKind, muted: bool, env: Env)
    requires OrderKept(s) && UniqueMembers(s.roster) && Current(s)
    ensures var r := MutedOwn(s, kind, muted, env); OrderKept(r) && Current(r)
  {
    OwnCurrent(s, Publications.Muted(s.pubs, kind, muted, Lapsed(s), true), WithMute(s.roster, s.cfg.own, kind, muted), env);
  }

  lemma PublishedOwnCurrent(s: State, kind: StreamKind, muted: bool, track: nat, env: Env)
    requires OrderKept(s) && UniqueMembers(s.roster) && Current(s)
    ensures var r := PublishedOwn(s, kind, muted, track, env); OrderKept(r) && Current(r)
  {
    OwnCurrent(s, Publications.Published(s.pubs, kind, muted, track), WithStream(s.roster, s.cfg.own, kind, muted), env);
  }

  lemma UnpublishedOwnCurrent(s: State, kind: StreamKind, track: nat, env: Env)
    requires OrderKept(s) && UniqueMembers(s.roster) && Current(s)
    ensures var r := UnpublishedOwn(s, kind, track, env); OrderKept(r) && Current(r)
  {
    OwnCurrent(s, Publications.Unpublished(s.pubs, kind, track), WithoutStream(s.roster, s.cfg.own, kind), env);
  }

  lemma PublishedCurrent(s: State, input: Input, env: Env)
    requires input.LocalPublished? && OrderKept(s) && UniqueMembers(s.roster) && Current(s)
    ensures var r := Handle(s, input, env); OrderKept(r) && Current(r)
  {
    PublishedOwnCurrent(s, input.kind, input.muted, input.track, env);
  }

  lemma UnpublishedCurrent(s: State, input: Input, env: Env)
    requires input.LocalUnpublished? && OrderKept(s) && UniqueMembers(s.roster) && Current(s)
    ensures var r := Handle(s, input, env); OrderKept(r) && Current(r)
  {
    UnpublishedOwnCurrent(s, input.kind, input.track, env);
  }

  lemma RemutedCurrent(s: State, input: Input, env: Env)
    requires input.SetLocalMuted? && OrderKept(s) && UniqueMembers(s.roster) && Current(s)
    ensures var r := Handle(s, input, env); OrderKept(r) && Current(r)
  {
    MutedCurrent(s, input.kind, input.muted, env);
  }

  lemma WindowMovedCurrent(s: State, w: DetailWindow, env: Env)
    requires OrderKept(s) && UniqueMembers(s.roster)
    requires s.out.participants == s.roster
    ensures var r := WindowMoved(s, w, env); OrderKept(r) && Current(r)
  {
    PublishTilesCurrent(s.(window := w), env);
  }

  lemma WindowCurrent(s: State, input: Input, env: Env)
    requires input.SetWindow? && OrderKept(s) && UniqueMembers(s.roster) && Current(s)
    ensures var r := Handle(s, input, env); OrderKept(r) && Current(r)
  {
    WindowMovedCurrent(s, input.window, env);
  }

  lemma ThresholdMovedCurrent(s: State, n: nat, env: Env)
    requires OrderKept(s) && UniqueMembers(s.roster)
    requires s.out.participants == s.roster
    ensures var r := ThresholdMoved(s, n, env); OrderKept(r) && Current(r)
  {
    PublishTilesCurrent(s.(threshold := n), env);
  }

  lemma ThresholdCurrent(s: State, input: Input, env: Env)
    requires input.SetThreshold? && OrderKept(s) && UniqueMembers(s.roster) && Current(s)
    ensures var r := Handle(s, input, env); OrderKept(r) && Current(r)
  {
    ThresholdMovedCurrent(s, input.threshold, env);
  }

  lemma FlushCurrent(s: State, input: Input, env: Env)
    requires input.FlushReorder? && input.flush in s.order.flushes && OrderKept(s) && UniqueMembers(s.roster) && Current(s)
    ensures var r := Handle(s, input, env); OrderKept(r) && Current(r)
  {
    CloseWindowCurrent(s, input.flush);
  }

  lemma HandleCurrent(s: State, input: Input, env: Env)
    requires RosterKept(s) && OrderKept(s) && Current(s) && Admissible(s, input, env)
    ensures var h := Handle(s, input, env); OrderKept(h) && Current(h)
  {
    if input.Start? {
      SnapshotCurrent(s, input.members, input.pool, env);
      SnapshotKeepsRoster(s, input.members, input.pool, env);
      HandsCurrentOut(ApplySnapshot(s, input.members, input.pool, env), input.hands, false, env);
    } else if input.Members? {
      SnapshotCurrent(s, input.members, input.pool, env);
    } else if input.Hands? {
      HandsCurrentOut(s, input.hands, true, env);
    } else if input.FromPool? {
      PoolStepsCurrent(s, input.pool, env);
    } else if input.LocalPublished? {
      PublishedCurrent(s, input, env);
    } else if input.LocalUnpublished? {
      UnpublishedCurrent(s, input, env);
    } else if input.SetLocalMuted? {
      RemutedCurrent(s, input, env);
    } else if input.SpeakerTimer? {
      TimerCurrent(s, input.timer, env);
    } else if input.FlushReorder? {
      FlushCurrent(s, input, env);
    } else if input.SetWindow? {
      WindowCurrent(s, input, env);
    } else if input.SetThreshold? {
      ThresholdCurrent(s, input, env);
    } else {
      UnmovedCurrent(s, Handle(s, input, env));
    }
  }

  /**
   * At every turn end: consumers hold exactly the current roster, the current records in the held order and our
   * current local state; the held order differs from the derived one only while a window is open whose timer is
   * in flight; and the history of orders is steady.
   */
  lemma TurnKeepsOutput(s: State, input: Input, env: Env)
    requires RosterKept(s) && OrderKept(s) && Current(s) && Admissible(s, input, env)
    ensures var r := Turn(s, input, env); OrderKept(r) && Current(r)
  {
    var h := Handle(s, input, env);
    HandleCurrent(s, input, env);
    HandleKeepsRoster(s, input, env);
    SameQueueKeeps(h.roster, Synced(h, env), h.cfg.own, h.hands);
    RosteredCurrent(h, Synced(h, env), env);
    UnmovedCurrent(Rostered(h, Synced(h, env), env), Turn(s, input, env));
  }
}
