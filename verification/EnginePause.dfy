/** The pause of a lapsed membership changes nothing consumers see. */
module EnginePause {
  import opened Ordering
  import opened Tiles
  import opened Roster
  import opened Engine
  import opened EngineSafety
  import Speakers
  import Reorder
  import Publications

  function With(s: State, lapsed: bool, pubs: Publications.Publications): State {
    s.(coreLapsed := lapsed, pubs := pubs)
  }

  /** Two states that differ at most in the core's lapse and in what the transport was told because of it. */
  ghost predicate Alike(a: State, b: State) {
    && With(a, b.coreLapsed, b.pubs) == b
    && Publications.UserView(a.pubs) == Publications.UserView(b.pubs)
  }

  lemma SameUserView(p: Publications.Publications, q: Publications.Publications)
    requires Publications.UserView(p) == Publications.UserView(q)
    ensures p.Keys == q.Keys
    ensures forall kind :: kind in p ==> p[kind].track == q[kind].track && p[kind].muted == q[kind].muted
  {
    var u, v := Publications.UserView(p), Publications.UserView(q);
    forall kind ensures kind in p <==> kind in q {
      assert (kind in u) == (kind in v);
    }
    forall kind | kind in p ensures p[kind].track == q[kind].track && p[kind].muted == q[kind].muted {
      assert u[kind] == v[kind];
    }
  }

  lemma ViewFrom(p: Publications.Publications, q: Publications.Publications)
    requires p.Keys == q.Keys
    requires forall kind :: kind in p ==> p[kind].track == q[kind].track && p[kind].muted == q[kind].muted
    ensures Publications.UserView(p) == Publications.UserView(q)
  {
  }

  lemma PublishTilesAlike(s: State, env: Env, lapsed: bool, pubs: Publications.Publications)
    ensures PublishTiles(With(s, lapsed, pubs), env) == With(PublishTiles(s, env), lapsed, pubs)
  {
    assert Derived(With(s, lapsed, pubs)) == Derived(s);
    assert Local(With(s, lapsed, pubs)) == Local(s);
  }

  lemma PublishRosterAlike(s: State, env: Env, lapsed: bool, pubs: Publications.Publications)
    ensures PublishRoster(With(s, lapsed, pubs), env) == With(PublishRoster(s, env), lapsed, pubs)
  {
  }

  lemma RosteredAlike(s: State, roster: seq<Participant>, env: Env, lapsed: bool, pubs: Publications.Publications)
    ensures Rostered(With(s, lapsed, pubs), roster, env) == With(Rostered(s, roster, env), lapsed, pubs)
  {
    PublishRosterAlike(s.(roster := roster), env, lapsed, pubs);
  }

  lemma HeardAlike(s: State, raw: set<MemberId>, env: Env, lapsed: bool, pubs: Publications.Publications)
    ensures SpeakersHeard(With(s, lapsed, pubs), raw, env) == With(SpeakersHeard(s, raw, env), lapsed, pubs)
  {
    PublishTilesAlike(s.(speech := Speakers.ApplyRaw(s.speech, raw, env.now, s.turn, s.cfg.delays)), env, lapsed, pubs);
  }

  lemma PoolStepAlike(s: State, e: PoolEvent, env: Env, lapsed: bool, pubs: Publications.Publications)
    ensures PoolStep(With(s, lapsed, pubs), e, env) == With(PoolStep(s, e, env), lapsed, pubs)
  {
    match e {
      case StreamAdded(m, kind) => RosteredAlike(s, WithStream(s.roster, m, kind, false), env, lapsed, pubs);
      case StreamRemoved(m, kind) => RosteredAlike(s, WithoutStream(s.roster, m, kind), env, lapsed, pubs);
      case StreamMuted(m, kind, muted) => RosteredAlike(s, WithMute(s.roster, m, kind, muted), env, lapsed, pubs);
      case ActiveSpeakers(raw) => HeardAlike(s, raw, env, lapsed, pubs);
      case _ =>
    }
  }

  lemma {:induction false} PoolStepsAlike(s: State, es: seq<PoolEvent>, env: Env, lapsed: bool, pubs: Publications.Publications)
    ensures PoolSteps(With(s, lapsed, pubs), es, env) == With(PoolSteps(s, es, env), lapsed, pubs)
  {
    if es != [] {
      PoolStepsAlike(s, es[..|es| - 1], env, lapsed, pubs);
      PoolStepAlike(PoolSteps(s, es[..|es| - 1], env), es[|es| - 1], env, lapsed, pubs);
    }
  }

  lemma {:induction false} StreamsAlike(p: Publications.Publications, q: Publications.Publications, kinds: seq<StreamKind>)
    requires Publications.UserView(p) == Publications.UserView(q)
    ensures StreamsIn(p, kinds) == StreamsIn(q, kinds)
  {
    SameUserView(p, q);
    if kinds != [] { StreamsAlike(p, q, kinds[1..]); }
  }

  lemma {:induction false} WelcomedAlike(roster: seq<Participant>, members: seq<Membership>, a: Seeds, b: Seeds, announce: bool, count: nat)
    requires a.(pubs := b.pubs) == b && Publications.UserView(a.pubs) == Publications.UserView(b.pubs)
    ensures Welcomed(roster, members, a) == Welcomed(roster, members, b)
    ensures JoinedEvents(roster, members, a, count, announce) == JoinedEvents(roster, members, b, count, announce)
  {
    if members != [] {
      WelcomedAlike(roster, members[..|members| - 1], a, b, announce, count);
      StreamsAlike(a.pubs, b.pubs, KindOrder());
    }
  }

  lemma ReconciledAlike(s: State, members: seq<Membership>, env: Env, lapsed: bool, pubs: Publications.Publications)
    requires Publications.UserView(s.pubs) == Publications.UserView(pubs)
    ensures Reconciled(With(s, lapsed, pubs), members, env) == With(Reconciled(s, members, env), lapsed, pubs)
  {
    var ids := MemberIds(members);
    var a := Seeds(s.cfg.own, s.hands, s.pubs, env.reachable);
    WelcomedAlike(Staying(s.roster, ids), members, a, a.(pubs := pubs), s.arrived && !s.ended, |ids|);
  }

  lemma SnapshotAlike(s: State, members: seq<Membership>, pool: seq<PoolEvent>, env: Env, lapsed: bool, pubs: Publications.Publications)
    requires Publications.UserView(s.pubs) == Publications.UserView(pubs)
    ensures ApplySnapshot(With(s, lapsed, pubs), members, pool, env) == With(ApplySnapshot(s, members, pool, env), lapsed, pubs)
  {
    ReconciledAlike(s, members, env, lapsed, pubs);
    var r := Reconciled(s, members, env);
    PoolStepsAlike(r, pool, env, lapsed, pubs);
    PublishRosterAlike(Renumbered(PoolSteps(r, pool, env)), env, lapsed, pubs);
  }

  lemma HandsAlike(s: State, hands: seq<RaisedHand>, announce: bool, env: Env, lapsed: bool, pubs: Publications.Publications)
    ensures ApplyHands(With(s, lapsed, pubs), hands, announce, env) == With(ApplyHands(s, hands, announce, env), lapsed, pubs)
  {
    if WithHands(s.roster, hands) != s.roster {
      var next := Renumbered(s.(hands := hands, roster := WithHands(s.roster, hands), events := ApplyHands(s, hands, announce, env).events));
      PublishRosterAlike(next, env, lapsed, pubs);
    }
  }

  /** The same input, or a lapse report in both runs, whatever each says. */
  predicate AlikeInputs(i: Input, j: Input) {
    i == j || (i.Lapse? && j.Lapse?)
  }

  lemma AlikeFrom(a: State, b: State, pubs: Publications.Publications, pubs': Publications.Publications, roster: seq<Participant>, env: Env)
    requires Alike(a, b) && Publications.UserView(pubs) == Publications.UserView(pubs')
    ensures Alike(Rostered(a.(pubs := pubs), roster, env), Rostered(b.(pubs := pubs'), roster, env))
  {
    RosteredAlike(a.(pubs := pubs), roster, env, b.coreLapsed, pubs');
    assert With(a.(pubs := pubs), b.coreLapsed, pubs') == b.(pubs := pubs');
  }

  lemma PublishAlike(a: State, b: State, kind: StreamKind, muted: bool, track: nat, env: Env)
    requires Alike(a, b)
    ensures Alike(PublishedOwn(a, kind, muted, track, env), PublishedOwn(b, kind, muted, track, env))
  {
    SameUserView(a.pubs, b.pubs);
    var p, q := Publications.Published(a.pubs, kind, muted, track), Publications.Published(b.pubs, kind, muted, track);
    ViewFrom(p, q);
    AlikeFrom(a, b, p, q, WithStream(a.roster, a.cfg.own, kind, muted), env);
  }

  lemma UnpublishAlike(a: State, b: State, kind: StreamKind, track: nat, env: Env)
    requires Alike(a, b)
    ensures Alike(UnpublishedOwn(a, kind, track, env), UnpublishedOwn(b, kind, track, env))
  {
    SameUserView(a.pubs, b.pubs);
    var p, q := Publications.Unpublished(a.pubs, kind, track), Publications.Unpublished(b.pubs, kind, track);
    ViewFrom(p, q);
    AlikeFrom(a, b, p, q, WithoutStream(a.roster, a.cfg.own, kind), env);
  }

  lemma MuteAlike(a: State, b: State, kind: StreamKind, muted: bool, env: Env)
    requires Alike(a, b) && env.refused == {}
    ensures Alike(MutedOwn(a, kind, muted, env), MutedOwn(b, kind, muted, env))
  {
    SameUserView(a.pubs, b.pubs);
    var p, q := Publications.Muted(a.pubs, kind, muted, Lapsed(a), true), Publications.Muted(b.pubs, kind, muted, Lapsed(b), true);
    ViewFrom(p, q);
    AlikeFrom(a, b, p, q, WithMute(a.roster, a.cfg.own, kind, muted), env);
  }

  lemma LocalTracksAlike(a: State, b: State, i: Input, env: Env)
    requires Alike(a, b) && env.refused == {}
    requires i.LocalPublished? || i.LocalUnpublished? || i.SetLocalMuted?
    ensures Alike(Handle(a, i, env), Handle(b, i, env))
  {
    match i {
      case LocalPublished(kind, muted, track) => PublishAlike(a, b, kind, muted, track, env);
      case LocalUnpublished(kind, track) => UnpublishAlike(a, b, kind, track, env);
      case SetLocalMuted(kind, muted) => MuteAlike(a, b, kind, muted, env);
    }
  }

  lemma TimerAlike(s: State, t: Speakers.Timer, env: Env, lapsed: bool, pubs: Publications.Publications)
    ensures TimerFired(With(s, lapsed, pubs), t, env) == With(TimerFired(s, t, env), lapsed, pubs)
  {
    var fired := s.(speech := Speakers.Fire(s.speech, t));
    PublishTilesAlike(fired, env, lapsed, pubs);
  }

  lemma StartAlike(s: State, i: Input, env: Env, lapsed: bool, pubs: Publications.Publications)
    requires i.Start? && Publications.UserView(s.pubs) == Publications.UserView(pubs)
    ensures Started(With(s, lapsed, pubs), i.members, i.pool, i.hands, env) == With(Started(s, i.members, i.pool, i.hands, env), lapsed, pubs)
  {
    SnapshotAlike(s, i.members, i.pool, env, lapsed, pubs);
    HandsAlike(ApplySnapshot(s, i.members, i.pool, env), i.hands, false, env, lapsed, pubs);
  }

  lemma TimerWith(s: State, i: Input, env: Env, lapsed: bool, pubs: Publications.Publications)
    requires i.SpeakerTimer?
    ensures Handle(With(s, lapsed, pubs), i, env) == With(Handle(s, i, env), lapsed, pubs)
  {
    TimerAlike(s, i.timer, env, lapsed, pubs);
  }

  lemma FlushWith(s: State, i: Input, env: Env, lapsed: bool, pubs: Publications.Publications)
    requires i.FlushReorder?
    ensures Handle(With(s, lapsed, pubs), i, env) == With(Handle(s, i, env), lapsed, pubs)
  {
  }

  lemma WindowWith(s: State, i: Input, env: Env, lapsed: bool, pubs: Publications.Publications)
    requires i.SetWindow?
    ensures Handle(With(s, lapsed, pubs), i, env) == With(Handle(s, i, env), lapsed, pubs)
  {
  }

  lemma ThresholdWith(s: State, i: Input, env: Env, lapsed: bool, pubs: Publications.Publications)
    requires i.SetThreshold?
    ensures Handle(With(s, lapsed, pubs), i, env) == With(Handle(s, i, env), lapsed, pubs)
  {
  }

  lemma MembershipWith(s: State, i: Input, env: Env, lapsed: bool, pubs: Publications.Publications)
    requires Publications.UserView(s.pubs) == Publications.UserView(pubs) && (i.Start? || i.Members? || i.Hands?)
    ensures Handle(With(s, lapsed, pubs), i, env) == With(Handle(s, i, env), lapsed, pubs)
  {
    if i.Start? {
      StartAlike(s, i, env, lapsed, pubs);
    } else if i.Members? {
      SnapshotAlike(s, i.members, i.pool, env, lapsed, pubs);
    } else {
      HandsAlike(s, i.hands, true, env, lapsed, pubs);
    }
  }

  lemma OthersWith(s: State, i: Input, env: Env, lapsed: bool, pubs: Publications.Publications)
    requires i.FromPool? || i.SetConstraints? || i.KeyGrace? || i.Leave?
    ensures Handle(With(s, lapsed, pubs), i, env) == With(Handle(s, i, env), lapsed, pubs)
  {
    if i.FromPool? { PoolStepsAlike(s, i.pool, env, lapsed, pubs); }
  }

  lemma HandleWith(s: State, i: Input, env: Env, lapsed: bool, pubs: Publications.Publications)
    requires Publications.UserView(s.pubs) == Publications.UserView(pubs)
    requires !i.Lapse? && !i.LocalPublished? && !i.LocalUnpublished? && !i.SetLocalMuted?
    ensures Handle(With(s, lapsed, pubs), i, env) == With(Handle(s, i, env), lapsed, pubs)
  {
    if i.Start? || i.Members? || i.Hands? {
      MembershipWith(s, i, env, lapsed, pubs);
    } else if i.SpeakerTimer? {
      TimerWith(s, i, env, lapsed, pubs);
    } else if i.FlushReorder? {
      FlushWith(s, i, env, lapsed, pubs);
    } else if i.SetWindow? {
      WindowWith(s, i, env, lapsed, pubs);
    } else if i.SetThreshold? {
      ThresholdWith(s, i, env, lapsed, pubs);
    } else {
      OthersWith(s, i, env, lapsed, pubs);
    }
  }

  lemma HandleAlike(a: State, b: State, i: Input, j: Input, env: Env)
    requires Alike(a, b) && AlikeInputs(i, j) && env.refused == {}
    ensures Alike(Handle(a, i, env), Handle(b, j, env))
  {
    if i.Lapse? {
    } else if i.LocalPublished? || i.LocalUnpublished? || i.SetLocalMuted? {
      LocalTracksAlike(a, b, i, env);
    } else {
      HandleWith(a, i, env, b.coreLapsed, b.pubs);
    }
  }

  /** The transport's part is not in the user's view. */
  lemma PausedView(p: Publications.Publications, q: Publications.Publications, x: bool, y: bool)
    requires Publications.UserView(p) == Publications.UserView(q)
    ensures Publications.UserView(Publications.Paused(p, x, {})) == Publications.UserView(Publications.Paused(q, y, {}))
  {
  }

  lemma SyncedWith(a: State, b: State, env: Env)
    requires Alike(a, b)
    ensures Synced(a, env) == Synced(b, env)
  {
  }

  lemma SyncAlike(a: State, b: State, env: Env)
    requires Alike(a, b) && env.refused == {}
    ensures Alike(Sync(a, env), Sync(b, env))
  {
    SyncedWith(a, b, env);
    var roster := Synced(a, env);
    RosteredAlike(a, roster, env, b.coreLapsed, b.pubs);
    var r, q := Rostered(a, roster, env), Rostered(b, roster, env);
    PausedView(r.pubs, q.pubs, Lapsed(r), Lapsed(q));
  }

  lemma TurnAlike(a: State, b: State, i: Input, j: Input, env: Env)
    requires Alike(a, b) && AlikeInputs(i, j) && env.refused == {}
    ensures Alike(Turn(a, i, env), Turn(b, j, env))
  {
    HandleAlike(a, b, i, j, env);
    SyncAlike(Handle(a, i, env), Handle(b, j, env), env);
  }

  /**
   * Pause non-interference: two runs that differ only in what the core says of our lapse, the transport accepting
   * every call, give consumers identical participants, tiles and local state at every turn end.
   */
  lemma {:induction false} PauseIsInvisible(cfg: Config, ours: seq<State>, ms: seq<Message>, theirs: seq<State>, ns: seq<Message>, k: nat)
    requires Run(cfg, ours, ms) && Run(cfg, theirs, ns) && |ms| == |ns| && k < |ours|
    requires forall i :: 0 <= i < |ms| ==> AlikeInputs(ms[i].input, ns[i].input) && ms[i].env == ns[i].env && ms[i].env.refused == {}
    ensures Alike(ours[k], theirs[k])
    ensures ours[k].out == theirs[k].out && ours[k].order.log == theirs[k].order.log && ours[k].events == theirs[k].events
  {
    if k > 0 {
      PauseIsInvisible(cfg, ours, ms, theirs, ns, k - 1);
      TurnAlike(ours[k - 1], theirs[k - 1], ms[k - 1].input, ns[k - 1].input, ms[k - 1].env);
    }
  }
}
