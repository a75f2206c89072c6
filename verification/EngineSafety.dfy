/** Safety of the engine over whole runs: hysteresis, key grace, constraints, the event stream, and the pause. */
module EngineSafety {
  import opened Ordering
  import opened Tiles
  import opened Roster
  import opened Engine
  import opened EngineRuns
  import Speakers
  import Reorder
  import Keys
  import Publications

  // ---- speakers ----------------------------------------------------------------------

  function InfoOf(s: State, input: Input, env: Env): Speakers.TurnInfo {
    Speakers.TurnInfo(
      env.now, s.turn,
      if input.Start? || input.Members? then Gone(s, input.members) else {},
      if input.SpeakerTimer? then Some(input.timer) else None,
      input.FromPool? && !Quiet(input.pool))
  }

  lemma StillAdvances(s: Speakers.Speech, i: Speakers.TurnInfo, d: Speakers.Delays)
    requires Speakers.Consistent(s) && i.gone == {}
    ensures Speakers.Advances(s, s, i, d)
  {
  }

  lemma PoolListensOnce(s: State, e: PoolEvent, env: Env)
    requires Speakers.Consistent(s.speech)
    ensures !e.ActiveSpeakers? ==> PoolStep(s, e, env).speech == s.speech
    ensures Speakers.Advances(s.speech, PoolStep(s, e, env).speech, Speakers.TurnInfo(env.now, s.turn, {}, None, true), s.cfg.delays)
  {
    if e.ActiveSpeakers? {
      Speakers.ApplyRawAdvances(s.speech, e.speakers, env.now, s.turn, s.cfg.delays);
    } else {
      StillAdvances(s.speech, Speakers.TurnInfo(env.now, s.turn, {}, None, true), s.cfg.delays);
    }
  }

  lemma {:induction false} PoolListens(s: State, es: seq<PoolEvent>, env: Env)
    requires Speakers.Consistent(s.speech)
    ensures Speakers.Advances(s.speech, PoolSteps(s, es, env).speech, Speakers.TurnInfo(env.now, s.turn, {}, None, true), s.cfg.delays)
  {
    var info := Speakers.TurnInfo(env.now, s.turn, {}, None, true);
    if es == [] {
      StillAdvances(s.speech, info, s.cfg.delays);
    } else {
      var n := |es| - 1;
      PoolListens(s, es[..n], env);
      var before := PoolSteps(s, es[..n], env);
      PoolListensOnce(before, es[n], env);
      Speakers.AdvancesThenListens(s.speech, before.speech, PoolSteps(s, es, env).speech, info, s.cfg.delays);
    }
  }

  lemma {:induction false} QuietPool(s: State, es: seq<PoolEvent>, env: Env)
    requires Quiet(es)
    ensures PoolSteps(s, es, env).speech == s.speech
  {
    if es != [] {
      assert es[|es| - 1] in es;
      QuietPool(s, es[..|es| - 1], env);
    }
  }

  lemma SnapshotSpeech(s: State, members: seq<Membership>, pool: seq<PoolEvent>, env: Env)
    requires Speakers.Consistent(s.speech) && Quiet(pool)
    ensures ApplySnapshot(s, members, pool, env).speech == Speakers.Remove(s.speech, Gone(s, members))
    ensures Speakers.Advances(s.speech, ApplySnapshot(s, members, pool, env).speech,
                              Speakers.TurnInfo(env.now, s.turn, Gone(s, members), None, false), s.cfg.delays)
  {
    Speakers.RemoveAdvances(s.speech, Gone(s, members), env.now, s.turn, s.cfg.delays);
    QuietPool(Reconciled(s, members, env), pool, env);
  }

  lemma OthersKeepSpeech(s: State, input: Input, env: Env)
    requires !input.Start? && !input.Members? && !input.FromPool? && !input.SpeakerTimer?
    ensures Handle(s, input, env).speech == s.speech
  {
  }

  lemma HandleSpeech(s: State, input: Input, env: Env)
    requires Speakers.Consistent(s.speech) && Admissible(s, input, env)
    ensures Speakers.Advances(s.speech, Handle(s, input, env).speech, InfoOf(s, input, env), s.cfg.delays)
  {
    if input.Start? || input.Members? {
      SnapshotSpeech(s, input.members, input.pool, env);
    } else if input.FromPool? {
      if Quiet(input.pool) {
        QuietPool(s, input.pool, env);
        StillAdvances(s.speech, InfoOf(s, input, env), s.cfg.delays);
      } else {
        PoolListens(s, input.pool, env);
      }
    } else if input.SpeakerTimer? {
      Speakers.FireAdvances(s.speech, input.timer, env.now, s.turn, s.cfg.delays);
    } else {
      OthersKeepSpeech(s, input, env);
      StillAdvances(s.speech, InfoOf(s, input, env), s.cfg.delays);
    }
  }

  /** The end of a turn moves only connections, decryptability, the pause and what is published. */
  lemma TurnFrame(s: State, input: Input, env: Env)
    ensures var h, r := Handle(s, input, env), Turn(s, input, env);
      && r.speech == h.speech && r.keys == h.keys && r.events == h.events && r.arrivalIds == h.arrivalIds
      && r.arrived == h.arrived && r.ended == h.ended && r.cfg == h.cfg && r.hands == h.hands
      && r.turn == s.turn + 1 && r.lastTurn == env.now && r.roster == Synced(h, env)
  {
  }

  // ---- keys --------------------------------------------------------------------------

  ghost predicate KeysKept(k: Keys.Keys, grace: nat, lastTurn: nat) {
    && Keys.GivenIsProbed(k) && Keys.SinceIsFailing(k) && Keys.SinceIsSpell(k)
    && Keys.WokenInTime(k, grace, lastTurn)
  }

  lemma FrameKeepsKeys(k: Keys.Keys, m: MemberId, st: Keys.FrameState, now: nat, grace: nat, lastTurn: nat)
    requires KeysKept(k, grace, lastTurn)
    ensures KeysKept(Keys.FrameChanged(k, m, st, now, grace), grace, lastTurn)
  {
    Keys.FrameChangedGiven(k, m, st, now, grace);
    Keys.FrameChangedSpell(k, m, st, now, grace);
  }

  lemma ForgetKeepsKeys(k: Keys.Keys, gone: set<MemberId>, grace: nat, lastTurn: nat)
    requires KeysKept(k, grace, lastTurn)
    ensures KeysKept(Keys.Forget(k, gone), grace, lastTurn)
  {
    Keys.ForgetGiven(k, gone);
    Keys.ForgetSpell(k, gone);
  }

  lemma UnloggedKeepsKeys(k: Keys.Keys, k': Keys.Keys, grace: nat, lastTurn: nat, now: nat)
    requires KeysKept(k, grace, lastTurn) && lastTurn <= now
    requires k'.log == k.log && k'.since == k.since && k'.states == k.states
    requires k.host == k'.host && k.given == k'.given
    requires forall due :: due in k.wakeups ==> due in k'.wakeups || due <= now
    ensures KeysKept(k', grace, now)
  {
    Keys.SameSpells(k, k');
    Keys.SameGiven(k, k');
  }

  lemma {:induction false} PoolKeepsKeys(s: State, es: seq<PoolEvent>, env: Env, lastTurn: nat)
    requires KeysKept(s.keys, s.cfg.keyGrace, lastTurn)
    ensures KeysKept(PoolSteps(s, es, env).keys, s.cfg.keyGrace, lastTurn)
  {
    if es != [] {
      var n := |es| - 1;
      PoolKeepsKeys(s, es[..n], env, lastTurn);
      var before := PoolSteps(s, es[..n], env);
      match es[n] {
        case EncryptionChanged(m, st) => FrameKeepsKeys(before.keys, m, st, env.now, s.cfg.keyGrace, lastTurn);
        case ClearSender(m) => UnloggedKeepsKeys(before.keys, Keys.SentInClear(before.keys, m), s.cfg.keyGrace, lastTurn, lastTurn);
        case _ =>
      }
    }
  }

  lemma SnapshotKeepsKeys(s: State, members: seq<Membership>, pool: seq<PoolEvent>, env: Env)
    requires KeysKept(s.keys, s.cfg.keyGrace, s.lastTurn)
    ensures KeysKept(ApplySnapshot(s, members, pool, env).keys, s.cfg.keyGrace, s.lastTurn)
  {
    ForgetKeepsKeys(s.keys, Gone(s, members), s.cfg.keyGrace, s.lastTurn);
    PoolKeepsKeys(Reconciled(s, members, env), pool, env, s.lastTurn);
  }

  lemma ConstraintsKeepKeys(k: Keys.Keys, m: MemberId, kind: StreamKind, c: Keys.Constraints, grace: nat, lastTurn: nat)
    requires KeysKept(k, grace, lastTurn)
    ensures KeysKept(Keys.SetConstraints(k, m, kind, c), grace, lastTurn)
  {
    Keys.SetConstraintsGiven(k, m, kind, c);
    Keys.SameSpells(k, Keys.SetConstraints(k, m, kind, c));
  }

  lemma OthersKeepKeys(s: State, input: Input, env: Env)
    requires !input.Start? && !input.Members? && !input.FromPool? && !input.SetConstraints?
    ensures Handle(s, input, env).keys == if input.KeyGrace? then Keys.Woken(s.keys, input.due) else s.keys
  {
  }

  lemma HandleKeepsKeys(s: State, input: Input, env: Env)
    requires KeysKept(s.keys, s.cfg.keyGrace, s.lastTurn) && Admissible(s, input, env)
    ensures KeysKept(Handle(s, input, env).keys, s.cfg.keyGrace, env.now)
  {
    var k, k', grace := s.keys, Handle(s, input, env).keys, s.cfg.keyGrace;
    if input.Start? || input.Members? {
      SnapshotKeepsKeys(s, input.members, input.pool, env);
      UnloggedKeepsKeys(k', k', grace, s.lastTurn, env.now);
    } else if input.FromPool? {
      PoolKeepsKeys(s, input.pool, env, s.lastTurn);
      UnloggedKeepsKeys(k', k', grace, s.lastTurn, env.now);
    } else if input.SetConstraints? {
      ConstraintsKeepKeys(k, input.member, input.kind, input.constraints, grace, s.lastTurn);
      UnloggedKeepsKeys(k', k', grace, s.lastTurn, env.now);
    } else {
      OthersKeepKeys(s, input, env);
      UnloggedKeepsKeys(k, k', grace, s.lastTurn, env.now);
    }
  }

  /** At every turn end each entry shows what its keys say at that moment. */
  lemma TurnShows(s: State, input: Input, env: Env)
    requires KeysKept(s.keys, s.cfg.keyGrace, s.lastTurn) && Admissible(s, input, env)
    ensures var r := Turn(s, input, env);
      && KeysKept(r.keys, r.cfg.keyGrace, r.lastTurn)
      && forall p :: p in r.roster ==>
           p.unable == if p.isLocal then None else Keys.UnableOf(r.keys, p.id, p.streams != [], r.lastTurn, r.cfg.keyGrace)
  {
    HandleKeepsKeys(s, input, env);
    TurnFrame(s, input, env);
    SyncedShows(Handle(s, input, env), env);
  }

  lemma SyncedShows(h: State, env: Env)
    ensures forall p :: p in Synced(h, env) ==>
      p.unable == if p.isLocal then None else Keys.UnableOf(h.keys, p.id, p.streams != [], env.now, h.cfg.keyGrace)
  {
  }

  /** And the connection the media pool has with its member, or our own. */
  lemma TurnShowsConnections(s: State, input: Input, env: Env)
    ensures forall p :: p in Turn(s, input, env).roster ==>
      && (p.isLocal ==> p.connection == env.ownConnection)
      && (!p.isLocal && p.id in env.connections ==> p.connection == env.connections[p.id])
      && (!p.isLocal && p.id !in env.connections ==> p.connection == Connected)
  {
    var h := Handle(s, input, env);
    TurnFrame(s, input, env);
    forall p | p in Synced(h, env) ensures exists i :: 0 <= i < |h.roster| && Synced(h, env)[i] == p {}
  }

  // ---- the event stream ------------------------------------------------------------------

  ghost predicate EventsKept(s: State) {
    && (!s.arrived ==> s.events == [])
    && (s.arrived && !s.ended ==> Replay(s.arrivalIds, s.events) == Others(s.roster, s.cfg.own))
  }

  lemma {:induction false} HandEventsReplay(start: set<MemberId>, roster: seq<Participant>, hands: seq<RaisedHand>)
    ensures Replay(start, HandEvents(roster, hands)) == start
  {
    if roster != [] {
      var n := |roster| - 1;
      HandEventsReplay(start, roster[..n], hands);
      var front := HandEvents(roster[..n], hands);
      forall e ensures (front + [e])[..|front|] == front {}
      assert front + [] == front;
    }
  }

  lemma SnapshotKeepsEvents(s: State, members: seq<Membership>, pool: seq<PoolEvent>, env: Env)
    requires EventsKept(s) && WellFormed(s.roster, s.cfg.own)
    ensures EventsKept(ApplySnapshot(s, members, pool, env))
  {
    var seeds := Seeds(s.cfg.own, s.hands, s.pubs, env.reachable);
    var r := Reconciled(s, members, env);
    var p := PoolSteps(r, pool, env);
    SameQueueSamePositions(r.roster, p.roster);
    assert SameQueue(p.roster, WithPositions(p.roster, p.hands));
    SameQueueSamePositions(p.roster, WithPositions(p.roster, p.hands));
    PoolEnds(r, pool, env);
    if s.arrived && !s.ended {
      SnapshotReplay(s.roster, members, seeds);
      ReplayConcat(s.arrivalIds, s.events, SnapshotEvents(s.roster, members, seeds, true));
    } else {
      Unannounced(s.roster, members, seeds);
    }
  }

  lemma {:induction false} PoolEnds(s: State, es: seq<PoolEvent>, env: Env)
    ensures s.ended ==> PoolSteps(s, es, env).ended
  {
    if es != [] { PoolEnds(s, es[..|es| - 1], env); }
  }

  lemma HandsKeepEvents(s: State, hands: seq<RaisedHand>, announce: bool, env: Env)
    requires EventsKept(s)
    ensures EventsKept(ApplyHands(s, hands, announce, env))
  {
    var h := WithHands(s.roster, hands);
    forall i | 0 <= i < |h| ensures h[i].id == s.roster[i].id {}
    if h != s.roster {
      SameIds(s.roster, h);
      SameIds(h, WithPositions(h, hands));
      HandEventsReplay(Replay(s.arrivalIds, s.events), s.roster, hands);
      ReplayConcat(s.arrivalIds, s.events, HandEvents(s.roster, hands));
      assert s.events + [] == s.events;
    }
  }

  lemma SameIds(a: seq<Participant>, b: seq<Participant>)
    requires |a| == |b| && forall i :: 0 <= i < |a| ==> a[i].id == b[i].id
    ensures IdsOf(a) == IdsOf(b)
  {
  }

  lemma OthersKeepEvents(s: State, input: Input, env: Env)
    requires !input.Start? && !input.Members? && !input.Hands?
    ensures var h := Handle(s, input, env);
      h.events == s.events && h.arrived == s.arrived && h.arrivalIds == s.arrivalIds && (s.ended ==> h.ended)
  {
    if input.FromPool? { PoolEnds(s, input.pool, env); }
  }

  lemma HandleKeepsEvents(s: State, input: Input, env: Env)
    requires EventsKept(s) && RosterKept(s) && Admissible(s, input, env)
    ensures EventsKept(Handle(s, input, env))
  {
    if input.Start? {
      SnapshotKeepsEvents(s, input.members, input.pool, env);
      HandsKeepEvents(ApplySnapshot(s, input.members, input.pool, env), input.hands, false, env);
    } else if input.Members? {
      SnapshotKeepsEvents(s, input.members, input.pool, env);
    } else if input.Hands? {
      HandsKeepEvents(s, input.hands, true, env);
    } else {
      SameEvents(s, input, env);
    }
  }

  lemma SameEvents(s: State, input: Input, env: Env)
    requires EventsKept(s) && !input.Start? && !input.Members? && !input.Hands?
    ensures EventsKept(Handle(s, input, env))
  {
    OthersKeepEvents(s, input, env);
    OthersKeepQueue(s, input, env);
    SameQueueSamePositions(s.roster, Handle(s, input, env).roster);
  }

  lemma SyncKeepsEvents(h: State, env: Env)
    requires EventsKept(h)
    ensures EventsKept(Sync(h, env))
  {
  }

  /**
   * The event stream refines the roster: from our arrival until the end, the joins and leaves emitted turn the
   * members we arrived to into exactly the current ones.
   */
  lemma TurnKeepsEvents(s: State, input: Input, env: Env)
    requires EventsKept(s) && RosterKept(s) && Admissible(s, input, env)
    ensures EventsKept(Turn(s, input, env))
  {
    HandleKeepsEvents(s, input, env);
    SyncKeepsEvents(Handle(s, input, env), env);
  }

  /** What a membership snapshot announces: nothing before our arrival or after the end, else changes with the new count. */
  lemma SnapshotAnnounces(s: State, members: seq<Membership>, pool: seq<PoolEvent>, env: Env)
    requires RosterKept(s) && Admissible(s, Members(members, pool), env)
    ensures var r := Turn(s, Members(members, pool), env);
      && IdsOf(r.roster) == MemberIds(members)
      && s.events <= r.events
      && (!s.arrived || s.ended ==> r.events == s.events)
      && forall e :: e in r.events[|s.events|..] ==>
           && e.member != s.cfg.own
           && (e.ParticipantJoined? || e.ParticipantLeft?)
           && e.count == |r.roster|
           && (e.ParticipantJoined? <==> e.member in MemberIds(members))
  {
    var seeds := Seeds(s.cfg.own, s.hands, s.pubs, env.reachable);
    SnapshotFacts(s.roster, members, seeds);
    SnapshotReplay(s.roster, members, seeds);
    Unannounced(s.roster, members, seeds);
    var r := Reconciled(s, members, env);
    var p := PoolSteps(r, pool, env);
    var h := ApplySnapshot(s, members, pool, env);
    SameQueueSamePositions(r.roster, p.roster);
    SameIds(p.roster, h.roster);
    SyncKeepsQueue(h, env);
    SameIds(h.roster, Synced(h, env));
    var events := SnapshotEvents(s.roster, members, seeds, s.arrived && !s.ended);
    assert Turn(s, Members(members, pool), env).events == s.events + events;
    assert (s.events + events)[|s.events|..] == events;
  }

  // ---- the pause ---------------------------------------------------------------------------

  /**
   * After every turn the transport is told of each publication the user's mute or the lapse, unless it refused
   * the call that would say so.
   */
  lemma TurnPauses(s: State, input: Input, env: Env)
    ensures var r := Turn(s, input, env);
      && (forall kind :: kind in r.pubs && kind !in env.refused ==> r.pubs[kind].applied == (r.pubs[kind].muted || Lapsed(r)))
      && (env.refused == {} ==> Publications.Settled(r.pubs, Lapsed(r)))
      && (env.refused == {} && !Lapsed(r) ==> forall kind :: kind in r.pubs ==> r.pubs[kind].applied == r.pubs[kind].muted)
  {
    var h := Handle(s, input, env);
    SyncPauses(h, env);
  }

  lemma SyncPauses(h: State, env: Env)
    ensures var r := Sync(h, env);
      && Lapsed(r) == Lapsed(h) && r.pubs == Publications.Paused(h.pubs, Lapsed(h), env.refused)
  {
  }

  // ---- every run -----------------------------------------------------------------------------

  datatype Message = Message(input: Input, env: Env)

  ghost predicate Run(cfg: Config, states: seq<State>, msgs: seq<Message>) {
    && |states| == |msgs| + 1
    && states[0] == Init(cfg)
    && forall k :: 0 <= k < |msgs| ==>
         && Admissible(states[k], msgs[k].input, msgs[k].env)
         && states[k + 1] == Turn(states[k], msgs[k].input, msgs[k].env)
  }

  ghost predicate Kept(s: State) {
    && RosterKept(s) && OrderKept(s) && Current(s)
    && Speakers.Consistent(s.speech) && Speakers.Covered(s.speech)
    && KeysKept(s.keys, s.cfg.keyGrace, s.lastTurn)
    && EventsKept(s)
  }

  lemma InitKept(cfg: Config)
    ensures Kept(Init(cfg))
  {
  }

  lemma TurnKept(s: State, input: Input, env: Env)
    requires Kept(s) && Admissible(s, input, env)
    ensures Kept(Turn(s, input, env))
  {
    TurnKeepsRoster(s, input, env);
    TurnKeepsOutput(s, input, env);
    HandleSpeech(s, input, env);
    TurnFrame(s, input, env);
    TurnShows(s, input, env);
    TurnKeepsEvents(s, input, env);
  }

  /** Every invariant holds at the end of every turn of every run. */
  lemma {:induction false} EveryTurnKept(cfg: Config, states: seq<State>, msgs: seq<Message>, k: nat)
    requires Run(cfg, states, msgs) && k < |states|
    ensures Kept(states[k]) && states[k].turn == k && states[k].cfg == cfg
  {
    if k == 0 {
      InitKept(cfg);
    } else {
      EveryTurnKept(cfg, states, msgs, k - 1);
      TurnKept(states[k - 1], msgs[k - 1].input, msgs[k - 1].env);
      TurnFrame(states[k - 1], msgs[k - 1].input, msgs[k - 1].env);
    }
  }

  function SpeechStates(states: seq<State>): seq<Speakers.Speech> {
    seq(|states|, k requires 0 <= k < |states| => states[k].speech)
  }

  function Infos(states: seq<State>, msgs: seq<Message>): seq<Speakers.TurnInfo>
    requires |states| == |msgs| + 1
  {
    seq(|msgs|, k requires 0 <= k < |msgs| => InfoOf(states[k], msgs[k].input, msgs[k].env))
  }

  lemma {:induction false} TimeGrows(cfg: Config, states: seq<State>, msgs: seq<Message>, j: nat, k: nat)
    requires Run(cfg, states, msgs) && j < k < |msgs|
    ensures msgs[j].env.now <= msgs[k].env.now
  {
    TurnFrame(states[k - 1], msgs[k - 1].input, msgs[k - 1].env);
    assert Admissible(states[k], msgs[k].input, msgs[k].env);
    if j < k - 1 {
      TimeGrows(cfg, states, msgs, j, k - 1);
    }
  }

  lemma SpeechOfRun(cfg: Config, states: seq<State>, msgs: seq<Message>)
    requires Run(cfg, states, msgs)
    ensures Speakers.Run(SpeechStates(states), Infos(states, msgs), cfg.delays)
  {
    var infos := Infos(states, msgs);
    forall k | 0 <= k < |msgs|
      ensures infos[k].index == k
      ensures Speakers.Advances(states[k].speech, states[k + 1].speech, infos[k], cfg.delays)
      ensures infos[k].fired.Some? ==> infos[k].fired.value in states[k].speech.timers && infos[k].fired.value.due <= infos[k].now
    {
      EveryTurnKept(cfg, states, msgs, k);
      HandleSpeech(states[k], msgs[k].input, msgs[k].env);
      TurnFrame(states[k], msgs[k].input, msgs[k].env);
    }
    forall j, k | 0 <= j < k < |infos| ensures infos[j].now <= infos[k].now {
      TimeGrows(cfg, states, msgs, j, k);
    }
  }

  /** A turn that moves `m` in or out of the ranked set without removing them. */
  ghost predicate MovesInRank(states: seq<State>, msgs: seq<Message>, k: nat, m: MemberId)
    requires k < |msgs| && |states| == |msgs| + 1
  {
    && m !in InfoOf(states[k], msgs[k].input, msgs[k].env).gone
    && (m in states[k].speech.speaking) != (m in states[k + 1].speech.speaking)
  }

  /**
   * Hysteresis in every run of the engine: a turn moves `m` in or out of the ranked set, without removing them,
   * only by firing a timer armed a whole delay earlier; and `m`'s raw state held the new value ever since, turn
   * by turn, exactly when no snapshot dropped them from the roster meanwhile.
   */
  lemma RankedOnlyAfterTheDelay(cfg: Config, states: seq<State>, msgs: seq<Message>, k: nat, m: MemberId)
    requires Run(cfg, states, msgs) && k < |msgs|
    ensures MovesInRank(states, msgs, k, m) ==>
      && msgs[k].input.SpeakerTimer? && msgs[k].input.timer.member == m
      && var armed := msgs[k].input.timer.turn; var up := m in states[k + 1].speech.speaking;
      && armed < k
      && msgs[armed].env.now + (if up then cfg.delays.promote else cfg.delays.demote) <= msgs[k].env.now
      && ((forall j :: armed < j <= k ==> Speakers.Raw(states[j].speech, m) == up)
          <==> (forall r :: armed < r < k ==> m !in InfoOf(states[r], msgs[r].input, msgs[r].env).gone))
  {
    SpeechOfRun(cfg, states, msgs);
    if MovesInRank(states, msgs, k, m) {
      RankedBySpeech(states, msgs, cfg.delays, k, m);
    }
  }

  /**
   * Nobody waits longer than the delay: whenever a member's raw state differs from their rank, the timer that is to end
   * that is in flight, due one delay of its direction after the turn that set it.
   */
  lemma RankedInTime(cfg: Config, states: seq<State>, msgs: seq<Message>, k: nat, m: MemberId) returns (t: Speakers.Timer)
    requires Run(cfg, states, msgs) && k < |states| && Speakers.Raw(states[k].speech, m) != (m in states[k].speech.speaking)
    ensures t in states[k].speech.timers && t.member == m && t.generation == Speakers.Gen(states[k].speech, m)
    ensures t.turn < k
    ensures t.due == msgs[t.turn].env.now + if Speakers.Raw(states[k].speech, m) then cfg.delays.promote else cfg.delays.demote
  {
    SpeechOfRun(cfg, states, msgs);
    t := TimerInFlight(states, msgs, cfg.delays, k, m);
  }

  lemma TimerInFlight(states: seq<State>, msgs: seq<Message>, d: Speakers.Delays, k: nat, m: MemberId) returns (t: Speakers.Timer)
    requires |states| == |msgs| + 1 && Speakers.Run(SpeechStates(states), Infos(states, msgs), d) && k < |states|
    requires Speakers.Raw(states[k].speech, m) != (m in states[k].speech.speaking)
    ensures t in states[k].speech.timers && t.member == m && t.generation == Speakers.Gen(states[k].speech, m)
    ensures t.turn < k
    ensures t.due == msgs[t.turn].env.now + if Speakers.Raw(states[k].speech, m) then d.promote else d.demote
  {
    var ss, infos := SpeechStates(states), Infos(states, msgs);
    Speakers.EveryStateCovered(ss, infos, d, k);
    assert ss[k] == states[k].speech;
    t :| t in ss[k].timers && t.member == m && t.generation == Speakers.Gen(ss[k], m);
    Speakers.TimerOrigin(ss, infos, d, k, t);
    assert infos[t.turn].now == msgs[t.turn].env.now;
  }

  lemma RankedBySpeech(states: seq<State>, msgs: seq<Message>, d: Speakers.Delays, k: nat, m: MemberId)
    requires |states| == |msgs| + 1 && Speakers.Run(SpeechStates(states), Infos(states, msgs), d)
    requires k < |msgs| && MovesInRank(states, msgs, k, m)
    ensures msgs[k].input.SpeakerTimer? && msgs[k].input.timer.member == m
    ensures var armed := msgs[k].input.timer.turn; var up := m in states[k + 1].speech.speaking;
      && armed < k
      && msgs[armed].env.now + Speakers.Delay(d, up) <= msgs[k].env.now
      && ((forall j :: armed < j <= k ==> Speakers.Raw(states[j].speech, m) == up)
          <==> (forall r :: armed < r < k ==> m !in InfoOf(states[r], msgs[r].input, msgs[r].env).gone))
  {
    var ss, infos := SpeechStates(states), Infos(states, msgs);
    assert infos[k] == InfoOf(states[k], msgs[k].input, msgs[k].env);
    Speakers.Hysteresis(ss, infos, d, k, m);
    var armed, up := msgs[k].input.timer.turn, m in states[k + 1].speech.speaking;
    HeldTurnByTurn(states, m, armed, k, up);
    LeavesTurnByTurn(states, msgs, m, armed, k);
  }

  lemma LeavesTurnByTurn(states: seq<State>, msgs: seq<Message>, m: MemberId, from: nat, to: nat)
    requires |states| == |msgs| + 1 && to <= |msgs|
    ensures !Speakers.LeavesBetween(Infos(states, msgs), m, from, to)
       <==> (forall r :: from < r < to ==> m !in InfoOf(states[r], msgs[r].input, msgs[r].env).gone)
  {
    forall r | from < r < to ensures Infos(states, msgs)[r] == InfoOf(states[r], msgs[r].input, msgs[r].env) {}
  }

  lemma HeldTurnByTurn(states: seq<State>, m: MemberId, from: nat, to: nat, up: bool)
    requires to < |states|
    ensures (forall j :: from < j <= to ==> Speakers.Raw(SpeechStates(states)[j], m) == up)
       <==> (forall j :: from < j <= to ==> Speakers.Raw(states[j].speech, m) == up)
  {
    forall j | from < j <= to ensures SpeechStates(states)[j] == states[j].speech {}
  }

  /**
   * Key failures in every run: at the end of every turn a remote member is shown with a key failure exactly when
   * they are not sending in clear, publish something, and their unbroken spell of failures is at least the grace
   * old; and the moment a running grace ends, a turn is due.
   */
  lemma FailuresShownAfterTheGrace(cfg: Config, states: seq<State>, msgs: seq<Message>, k: nat, p: Participant)
    requires Run(cfg, states, msgs) && 0 < k < |states| && p in states[k].roster
    ensures var s := states[k];
      && (p.isLocal ==> p.unable.None?)
      && (!p.isLocal ==>
            && (p.unable == Some(NotEncrypted) <==> p.id in s.keys.clear)
            && (p.unable in {Some(MissingKey), Some(BadKey)} <==>
                  && p.id !in s.keys.clear && p.streams != []
                  && exists i: nat :: Keys.SpellStart(s.keys.log, p.id, i) && s.keys.log[i].at + cfg.keyGrace <= s.lastTurn))
      && Keys.WokenInTime(s.keys, cfg.keyGrace, s.lastTurn)
  {
    EveryTurnKept(cfg, states, msgs, k - 1);
    EveryTurnKept(cfg, states, msgs, k);
    TurnShows(states[k - 1], msgs[k - 1].input, msgs[k - 1].env);
    Keys.ShownAfterGrace(states[k].keys, p.id, p.streams != [], states[k].lastTurn, cfg.keyGrace);
  }

  /** The constraints last given to the pool, at every turn end of every run. */
  lemma PoolAskedForWhatIsNeeded(cfg: Config, states: seq<State>, msgs: seq<Message>, k: nat, m: MemberId, kind: StreamKind)
    requires Run(cfg, states, msgs) && k < |states|
    ensures var keys := states[k].keys;
      && ((m, kind) in keys.given <==> (m, kind) in keys.host)
      && ((m, kind) in keys.host ==> keys.given[(m, kind)] == Keys.Probe(kind, keys.host[(m, kind)], Keys.Failing(keys, m)))
  {
    EveryTurnKept(cfg, states, msgs, k);
    var keys := states[k].keys;
    assert (m, kind) in keys.host ==> keys.given[(m, kind)] == Keys.Probe((m, kind).1, keys.host[(m, kind)], Keys.Failing(keys, (m, kind).0));
  }

  lemma KeptOrderMeans(s: State)
    requires OrderKept(s) && Current(s)
    ensures var remote := Derived(s);
      && (s.order.held != Ids(remote) ==>
            s.order.pending.Some? && exists f :: f in s.order.flushes && f.generation == s.order.pending.value)
      && ToSet(s.order.held) <= ToSet(Ids(remote))
      && s.out == Out(s.roster, Windowed(Reorder.Records(s.order.held, remote), s.window), Local(s))
  {
  }

  /**
   * The order consumers hold, at every turn end of every run: every order ever published was the derived one if a
   * window closed on it or there was nothing before it, and otherwise exactly the tiles of the one before that were
   * still there, in the same order; what they hold now differs from the derived order only while the timer of the
   * open window is in flight; and their records are the current ones.
   */
  lemma OrderIsCoalesced(cfg: Config, states: seq<State>, msgs: seq<Message>, k: nat)
    requires Run(cfg, states, msgs) && k < |states|
    ensures var s := states[k]; var remote := Derived(s); var log := s.order.log;
      && (forall i :: 0 <= i < |log| ==> Reorder.Follows(Reorder.HeldBefore(log, i), log[i]))
      && (log != [] ==> log[|log| - 1].order == s.order.held)
      && (s.order.held != Ids(remote) ==>
            s.order.pending.Some? && exists f :: f in s.order.flushes && f.generation == s.order.pending.value)
      && ToSet(s.order.held) <= ToSet(Ids(remote))
      && s.out == Out(s.roster, Windowed(Reorder.Records(s.order.held, remote), s.window), Local(s))
  {
    EveryTurnKept(cfg, states, msgs, k);
    KeptOrderMeans(states[k]);
  }

  /** What one turn of a run adds to the events about who is in the call. */
  ghost predicate CountsTheRoster(s: State, r: State) {
    && s.events <= r.events
    && forall e :: e in r.events[|s.events|..] && (e.ParticipantJoined? || e.ParticipantLeft?) ==>
         && e.count == |r.roster| == |IdsOf(r.roster)|
         && e.member != s.cfg.own
         && (e.ParticipantJoined? <==> e.member in IdsOf(r.roster))
  }

  lemma {:induction false} HandEventsAreHands(roster: seq<Participant>, hands: seq<RaisedHand>)
    ensures forall e :: e in HandEvents(roster, hands) ==> e.HandRaised? || e.HandLowered?
  {
    if roster != [] { HandEventsAreHands(roster[..|roster| - 1], hands); }
  }

  lemma HandsAddHands(s: State, hands: seq<RaisedHand>, announce: bool, env: Env)
    ensures var r := ApplyHands(s, hands, announce, env);
      && s.events <= r.events && IdsOf(r.roster) == IdsOf(s.roster) && |r.roster| == |s.roster|
      && (!announce ==> r.events == s.events)
      && forall e :: e in r.events[|s.events|..] ==> e.HandRaised? || e.HandLowered?
  {
    HandEventsAreHands(s.roster, hands);
    SameIds(s.roster, WithHands(s.roster, hands));
    SameIds(WithHands(s.roster, hands), WithPositions(WithHands(s.roster, hands), hands));
    var said := if announce && s.arrived && !s.ended && WithHands(s.roster, hands) != s.roster then HandEvents(s.roster, hands) else [];
    assert (s.events + said)[|s.events|..] == said;
    HandsSay(s, hands, announce, env, said);
  }

  lemma HandsSay(s: State, hands: seq<RaisedHand>, announce: bool, env: Env, said: seq<CallEvent>)
    requires said ==
      if announce && s.arrived && !s.ended && WithHands(s.roster, hands) != s.roster then HandEvents(s.roster, hands) else []
    ensures var r := ApplyHands(s, hands, announce, env);
      && r.events == s.events + said
      && r.roster == if WithHands(s.roster, hands) == s.roster then s.roster else WithPositions(WithHands(s.roster, hands), hands)
  {
    assert s.events + [] == s.events;
  }

  lemma SnapshotCounts(s: State, members: seq<Membership>, pool: seq<PoolEvent>, env: Env)
    requires RosterKept(s) && Quiet(pool)
    ensures CountsTheRoster(s, ApplySnapshot(s, members, pool, env))
  {
    var seeds := SeedsOf(s, env);
    SnapshotFacts(s.roster, members, seeds);
    SnapshotReplay(s.roster, members, seeds);
    Unannounced(s.roster, members, seeds);
    var r := Reconciled(s, members, env);
    var p := PoolSteps(r, pool, env);
    var h := ApplySnapshot(s, members, pool, env);
    SameQueueSamePositions(r.roster, p.roster);
    SameIds(p.roster, h.roster);
    IdsSize(r.roster);
    var events := SnapshotEvents(s.roster, members, seeds, s.arrived && !s.ended);
    assert h.events == s.events + events && (s.events + events)[|s.events|..] == events;
  }

  lemma HandleCounts(s: State, input: Input, env: Env)
    requires RosterKept(s) && Admissible(s, input, env)
    ensures CountsTheRoster(s, Handle(s, input, env))
  {
    if input.Start? {
      SnapshotCounts(s, input.members, input.pool, env);
      HandsAddHands(ApplySnapshot(s, input.members, input.pool, env), input.hands, false, env);
    } else if input.Members? {
      SnapshotCounts(s, input.members, input.pool, env);
    } else if input.Hands? {
      HandsAddHands(s, input.hands, true, env);
    } else {
      OthersKeepEvents(s, input, env);
    }
  }

  /**
   * In every run: whenever a turn announces that somebody joined or left, it is not us, they are on the roster exactly
   * if they joined, and the count is the size of the duplicate-free roster after it.
   */
  lemma EventsCountTheRoster(cfg: Config, states: seq<State>, msgs: seq<Message>, k: nat)
    requires Run(cfg, states, msgs) && k < |msgs|
    ensures CountsTheRoster(states[k], states[k + 1])
  {
    EveryTurnKept(cfg, states, msgs, k);
    var s, input, env := states[k], msgs[k].input, msgs[k].env;
    HandleCounts(s, input, env);
    TurnFrame(s, input, env);
    SameIds(Handle(s, input, env).roster, Synced(Handle(s, input, env), env));
  }

  /** The event stream and the queue, at every turn end of every run. */
  lemma EventsRefineTheRoster(cfg: Config, states: seq<State>, msgs: seq<Message>, k: nat)
    requires Run(cfg, states, msgs) && k < |states|
    ensures var s := states[k];
      && (!s.arrived ==> s.events == [])
      && (s.arrived && !s.ended ==> Replay(s.arrivalIds, s.events) == Others(s.roster, cfg.own))
      && forall p :: p in s.roster ==>
           p.handPosition == (if p.handAt.None? then None else Some(1 + |Ahead(s.roster, p)|)) && p.handAt == HandTime(s.hands, p.id)
  {
    EveryTurnKept(cfg, states, msgs, k);
    forall p | p in states[k].roster ensures p.handPosition == QueuePosition(states[k].roster, p) {}
  }

  // ---- an edge of the roster's own entry -------------------------------------------------------

  /** The mute flag of a stream on our own entry. */
  function MuteIn(roster: seq<Participant>, kind: StreamKind): Option<bool> {
    match LocalEntry(roster)
    case None => None
    case Some(p) => match FindStream(p.streams, kind) case None => None case Some(t) => Some(t.muted)
  }

  function ShownMute(s: State, kind: StreamKind): Option<bool> {
    MuteIn(s.roster, kind)
  }

  lemma {:induction false} OwnEntryAfterPublish(roster: seq<Participant>, own: MemberId, kind: StreamKind, muted: bool)
    requires WellFormed(roster, own)
    ensures var r := WithStream(roster, own, kind, muted);
      match LocalEntry(roster)
      case None => LocalEntry(r).None?
      case Some(p) =>
        LocalEntry(r) == Some(if FindStream(p.streams, kind).None? then p.(streams := p.streams + [Stream(kind, muted)]) else p)
  {
    if roster != [] {
      var r := WithStream(roster, own, kind, muted);
      assert roster[0] in roster;
      if !roster[0].isLocal {
        forall p | p in roster[1..] ensures p in roster {}
        OwnEntryAfterPublish(roster[1..], own, kind, muted);
        assert r[1..] == WithStream(roster[1..], own, kind, muted);
      }
    }
  }

  lemma {:induction false} FindAppended(streams: seq<Stream>, kind: StreamKind, muted: bool)
    requires FindStream(streams, kind).None?
    ensures FindStream(streams + [Stream(kind, muted)], kind) == Some(Stream(kind, muted))
  {
    if streams != [] {
      FindAppended(streams[1..], kind, muted);
      assert (streams + [Stream(kind, muted)])[1..] == streams[1..] + [Stream(kind, muted)];
    }
  }

  lemma MuteAfterPublish(roster: seq<Participant>, own: MemberId, kind: StreamKind, muted: bool)
    requires WellFormed(roster, own) && LocalEntry(roster).Some?
    ensures MuteIn(WithStream(roster, own, kind, muted), kind) ==
      if MuteIn(roster, kind).None? then Some(muted) else MuteIn(roster, kind)
  {
    OwnEntryAfterPublish(roster, own, kind, muted);
    var p := LocalEntry(roster).value;
    if FindStream(p.streams, kind).None? {
      FindAppended(p.streams, kind, muted);
    }
  }

  lemma ShownAfterPublish(s: State, kind: StreamKind, muted: bool, track: nat, env: Env)
    ensures var h := PublishedOwn(s, kind, muted, track, env);
      && kind in h.pubs && h.pubs[kind].muted == muted
      && h.roster == WithStream(s.roster, s.cfg.own, kind, muted)
  {
  }

  lemma PublishIsHandled(s: State, kind: StreamKind, muted: bool, track: nat, env: Env)
    ensures Handle(s, LocalPublished(kind, muted, track), env) == PublishedOwn(s, kind, muted, track, env)
  {
  }

  /**
   * Publishing while we are on the roster: our entry shows the new publication's mute flag exactly when no stream
   * of that kind was up on it, or one was with the same flag. A second publish of a kind leaves the first's flag.
   */
  lemma PublishShowsMute(s: State, kind: StreamKind, muted: bool, track: nat, env: Env)
    requires WellFormed(s.roster, s.cfg.own) && LocalEntry(s.roster).Some?
    ensures var h := Handle(s, LocalPublished(kind, muted, track), env);
      && kind in h.pubs && h.pubs[kind].muted == muted
      && ShownMute(h, kind) == (if ShownMute(s, kind).None? then Some(muted) else ShownMute(s, kind))
      && (ShownMute(h, kind) == Some(muted) <==> ShownMute(s, kind) in {None, Some(muted)})
  {
    PublishIsHandled(s, kind, muted, track, env);
    ShownAfterPublish(s, kind, muted, track, env);
    MuteAfterPublish(s.roster, s.cfg.own, kind, muted);
  }

  /** Entry by entry the same streams on the same members. */
  ghost predicate SameStreams(a: seq<Participant>, b: seq<Participant>) {
    |a| == |b| && forall i | 0 <= i < |a| :: a[i].isLocal == b[i].isLocal && a[i].streams == b[i].streams
  }

  lemma {:induction false} SameStreamsShown(a: seq<Participant>, b: seq<Participant>, kind: StreamKind)
    requires SameStreams(a, b)
    ensures MuteIn(a, kind) == MuteIn(b, kind) && LocalEntry(a).Some? == LocalEntry(b).Some?
  {
    if a != [] && !a[0].isLocal { SameStreamsShown(a[1..], b[1..], kind); }
  }

  lemma SyncShows(h: State, env: Env, kind: StreamKind)
    ensures var r := Sync(h, env);
      && ShownMute(r, kind) == ShownMute(h, kind) && LocalEntry(r.roster).Some? == LocalEntry(h.roster).Some?
      && (kind in h.pubs ==> kind in r.pubs && r.pubs[kind].muted == h.pubs[kind].muted)
  {
    assert SameStreams(h.roster, Synced(h, env));
    SameStreamsShown(h.roster, Synced(h, env), kind);
  }

  /** The same of a whole turn. */
  lemma PublishTurnShows(s: State, kind: StreamKind, muted: bool, track: nat, env: Env)
    requires WellFormed(s.roster, s.cfg.own) && LocalEntry(s.roster).Some?
    ensures var r := Turn(s, LocalPublished(kind, muted, track), env);
      && kind in r.pubs && r.pubs[kind].muted == muted && LocalEntry(r.roster).Some?
      && ShownMute(r, kind) == if ShownMute(s, kind).None? then Some(muted) else ShownMute(s, kind)
  {
    PublishShowsMute(s, kind, muted, track, env);
    SyncShows(Handle(s, LocalPublished(kind, muted, track), env), env, kind);
    PublishIsHandled(s, kind, muted, track, env);
    ShownAfterPublish(s, kind, muted, track, env);
    OwnEntryAfterPublish(s.roster, s.cfg.own, kind, muted);
  }

  /** A snapshot of us alone, to an engine with nobody and nothing in it. */
  function JustUs(own: MemberId): Input {
    Members([Membership(own, "", None, None, None)], [])
  }

  lemma OneJoiner(m: Membership, seeds: Seeds)
    ensures Snapshot([], [m], seeds) == [Joiner(m, seeds)]
  {
    assert [m][..0] == [];
    assert Welcomed([], [], seeds) == [] && Staying([], MemberIds([m])) == [];
  }

  lemma AloneSnapshot(s: State, env: Env, kind: StreamKind)
    requires s.roster == [] && s.pubs == map[]
    ensures var h := ApplySnapshot(s, JustUs(s.cfg.own).members, [], env);
      LocalEntry(h.roster).Some? && MuteIn(h.roster, kind).None?
  {
    var m := Membership(s.cfg.own, "", None, None, None);
    var seeds := SeedsOf(s, env);
    OneJoiner(m, seeds);
    NothingPublished(KindOrder());
    var alone := [Joiner(m, seeds)];
    assert Reconciled(s, [m], env).roster == alone;
    assert SameStreams(alone, ApplySnapshot(s, [m], [], env).roster);
    SameStreamsShown(alone, ApplySnapshot(s, [m], [], env).roster, kind);
  }

  lemma AloneInTheCall(s: State, env: Env, kind: StreamKind)
    requires s.roster == [] && s.pubs == map[]
    ensures var r := Turn(s, JustUs(s.cfg.own), env); LocalEntry(r.roster).Some? && ShownMute(r, kind).None?
  {
    AloneSnapshot(s, env, kind);
    SyncShows(Handle(s, JustUs(s.cfg.own), env), env, kind);
  }

  lemma {:induction false} NothingPublished(kinds: seq<StreamKind>)
    ensures StreamsIn(map[], kinds) == []
  {
    if kinds != [] { NothingPublished(kinds[1..]); }
  }

  lemma RunExtends(cfg: Config, states: seq<State>, msgs: seq<Message>, m: Message)
    requires Run(cfg, states, msgs) && Admissible(states[|msgs|], m.input, m.env)
    ensures Run(cfg, states + [Turn(states[|msgs|], m.input, m.env)], msgs + [m])
  {
    var n := |msgs|;
    var s := Turn(states[n], m.input, m.env);
    assert (states + [s])[n + 1] == s && (msgs + [m])[n] == m;
  }

  /** A run in which we are in the call, and publish next. */
  lemma PublishNext(cfg: Config, states: seq<State>, msgs: seq<Message>, kind: StreamKind, muted: bool, track: nat, env: Env)
    returns (s: State)
    requires Run(cfg, states, msgs) && LocalEntry(states[|msgs|].roster).Some? && states[|msgs|].lastTurn <= env.now
    ensures Run(cfg, states + [s], msgs + [Message(LocalPublished(kind, muted, track), env)])
    ensures kind in s.pubs && s.pubs[kind].muted == muted && LocalEntry(s.roster).Some? && s.lastTurn == env.now
    ensures ShownMute(s, kind) == if ShownMute(states[|msgs|], kind).None? then Some(muted) else ShownMute(states[|msgs|], kind)
  {
    var before, m := states[|msgs|], Message(LocalPublished(kind, muted, track), env);
    EveryTurnKept(cfg, states, msgs, |msgs|);
    RunExtends(cfg, states, msgs, m);
    PublishTurnShows(before, kind, muted, track, env);
    TurnFrame(before, m.input, env);
    s := Turn(before, m.input, env);
  }

  lemma ArriveNext(cfg: Config, states: seq<State>, msgs: seq<Message>, kind: StreamKind, env: Env) returns (s: State)
    requires Run(cfg, states, msgs) && states[|msgs|].roster == [] && states[|msgs|].pubs == map[]
    requires states[|msgs|].lastTurn <= env.now && states[|msgs|].cfg == cfg
    ensures Run(cfg, states + [s], msgs + [Message(JustUs(cfg.own), env)])
    ensures LocalEntry(s.roster).Some? && ShownMute(s, kind).None? && s.lastTurn == env.now
  {
    var before, m := states[|msgs|], Message(JustUs(cfg.own), env);
    RunExtends(cfg, states, msgs, m);
    AloneInTheCall(before, env, kind);
    TurnFrame(before, m.input, env);
    s := Turn(before, m.input, env);
  }

  lemma RunStarts(cfg: Config)
    ensures Run(cfg, [Init(cfg)], [])
  {
  }

  lemma PublishTwice(cfg: Config, states: seq<State>, msgs: seq<Message>, kind: StreamKind, env: Env) returns (s: State, t: State)
    requires Run(cfg, states, msgs) && LocalEntry(states[|msgs|].roster).Some? && states[|msgs|].lastTurn <= env.now
    requires ShownMute(states[|msgs|], kind).None?
    ensures Run(cfg, states + [s] + [t],
                msgs + [Message(LocalPublished(kind, true, 1), env)] + [Message(LocalPublished(kind, false, 2), env)])
    ensures kind in t.pubs && !t.pubs[kind].muted && ShownMute(t, kind) == Some(true)
  {
    s := PublishNext(cfg, states, msgs, kind, true, 1, env);
    var m := Message(LocalPublished(kind, true, 1), env);
    assert (states + [s])[|msgs + [m]|] == s;
    t := PublishNext(cfg, states + [s], msgs + [m], kind, false, 2, env);
  }

  /** That edge as a run: we publish a kind muted, then again unmuted, and our entry still shows it muted. */
  lemma RepublishKeepsMute(cfg: Config, kind: StreamKind, env: Env)
    returns (states: seq<State>, msgs: seq<Message>, s: State, t: State)
    ensures Run(cfg, states + [s] + [t],
                msgs + [Message(LocalPublished(kind, true, 1), env)] + [Message(LocalPublished(kind, false, 2), env)])
    ensures kind in t.pubs && !t.pubs[kind].muted && ShownMute(t, kind) == Some(true)
  {
    RunStarts(cfg);
    var alone := ArriveNext(cfg, [Init(cfg)], [], kind, env);
    states, msgs := [Init(cfg)] + [alone], [] + [Message(JustUs(cfg.own), env)];
    s, t := PublishTwice(cfg, states, msgs, kind, env);
  }
}
