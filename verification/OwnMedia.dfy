/** Our own publications over whole runs of the engine: what is up, who muted it, and when it is paused. */
module OwnMedia {
  import opened Ordering
  import opened Tiles
  import opened Roster
  import opened Engine
  import opened EngineRuns
  import opened EngineSafety
  import Publications
  import Speakers

  predicate IsSnapshot(input: Input) {
    input.Start? || input.Members?
  }

  predicate Without(own: MemberId, input: Input) {
    IsSnapshot(input) && own !in MemberIds(input.members)
  }

  predicate With(own: MemberId, input: Input) {
    IsSnapshot(input) && own in MemberIds(input.members)
  }

  predicate Ends(input: Input) {
    input.Leave? || ((IsSnapshot(input) || input.FromPool?) && OwnConnectionLost in input.pool)
  }

  /** The last lapse report before turn `k` was of a lapse. */
  ghost predicate ReportedLapsed(msgs: seq<Message>, k: nat)
    requires k <= |msgs|
  {
    exists i :: 0 <= i < k && msgs[i].input == Lapse(true) && forall l :: i < l < k ==> !msgs[l].input.Lapse?
  }

  ghost predicate Arrived(own: MemberId, msgs: seq<Message>, k: nat)
    requires k <= |msgs|
  {
    exists i :: 0 <= i < k && With(own, msgs[i].input)
  }

  /** We had arrived, and the last snapshot before turn `k` was without us. */
  ghost predicate DroppedFromRoster(own: MemberId, msgs: seq<Message>, k: nat)
    requires k <= |msgs|
  {
    Arrived(own, msgs, k)
    && exists i :: 0 <= i < k && Without(own, msgs[i].input) && forall l :: i < l < k ==> !IsSnapshot(msgs[l].input)
  }

  ghost predicate Ended(msgs: seq<Message>, k: nat)
    requires k <= |msgs|
  {
    exists i :: 0 <= i < k && Ends(msgs[i].input)
  }

  // ---- one turn --------------------------------------------------------------------------

  /** What one turn does to the fields the lapse is computed from. */
  ghost predicate LapseStep(s: State, input: Input, r: State) {
    && r.cfg == s.cfg
    && r.coreLapsed == (if input.Lapse? then input.lapsed else s.coreLapsed)
    && r.arrived == (s.arrived || With(s.cfg.own, input))
    && r.observedLapse == (if IsSnapshot(input) then r.arrived && Without(s.cfg.own, input) else s.observedLapse)
    && r.ended == (s.ended || Ends(input))
  }

  lemma {:induction false} PoolEndsCall(s: State, es: seq<PoolEvent>, env: Env)
    ensures PoolSteps(s, es, env).ended == (s.ended || OwnConnectionLost in es)
  {
    if es != [] {
      var n := |es| - 1;
      PoolEndsCall(s, es[..n], env);
      assert es == es[..n] + [es[n]];
      OneEvent(PoolSteps(s, es[..n], env), es[n], env);
    }
  }

  lemma OneEvent(s: State, e: PoolEvent, env: Env)
    ensures PoolStep(s, e, env).ended == (s.ended || e == OwnConnectionLost)
  {
  }

  lemma SnapshotLapse(s: State, members: seq<Membership>, pool: seq<PoolEvent>, env: Env)
    ensures LapseStep(s, Members(members, pool), ApplySnapshot(s, members, pool, env))
  {
    PoolEndsCall(Reconciled(s, members, env), pool, env);
  }

  lemma HandsLapse(s: State, hands: seq<RaisedHand>, announce: bool, env: Env)
    ensures var r := ApplyHands(s, hands, announce, env);
      r.coreLapsed == s.coreLapsed && r.arrived == s.arrived && r.observedLapse == s.observedLapse && r.ended == s.ended && r.cfg == s.cfg
  {
  }

  lemma HandleLapse(s: State, input: Input, env: Env)
    ensures LapseStep(s, input, Handle(s, input, env))
  {
    if input.Start? {
      SnapshotLapse(s, input.members, input.pool, env);
      HandsLapse(ApplySnapshot(s, input.members, input.pool, env), input.hands, false, env);
    } else if input.Members? {
      SnapshotLapse(s, input.members, input.pool, env);
    } else if input.Hands? {
      HandsLapse(s, input.hands, true, env);
    } else if input.FromPool? {
      PoolEndsCall(s, input.pool, env);
    } else {
      OtherLapse(s, input, env);
    }
  }

  lemma LocalLapse(s: State, input: Input, env: Env)
    requires input.LocalPublished? || input.LocalUnpublished? || input.SetLocalMuted?
    ensures LapseStep(s, input, Handle(s, input, env))
  {
  }

  lemma OtherLapse(s: State, input: Input, env: Env)
    requires !IsSnapshot(input) && !input.Hands? && !input.FromPool?
    ensures LapseStep(s, input, Handle(s, input, env))
  {
    if input.LocalPublished? || input.LocalUnpublished? || input.SetLocalMuted? {
      LocalLapse(s, input, env);
    }
  }

  lemma SyncLapse(h: State, env: Env)
    ensures var r := Sync(h, env);
      r.coreLapsed == h.coreLapsed && r.arrived == h.arrived && r.observedLapse == h.observedLapse && r.ended == h.ended && r.cfg == h.cfg
  {
  }

  lemma TurnLapse(s: State, input: Input, env: Env)
    ensures LapseStep(s, input, Turn(s, input, env))
  {
    HandleLapse(s, input, env);
    SyncLapse(Handle(s, input, env), env);
  }

  // ---- every run ---------------------------------------------------------------------------

  ghost predicate Fields(s: State, own: MemberId, msgs: seq<Message>, k: nat)
    requires k <= |msgs|
  {
    && s.cfg.own == own
    && (s.coreLapsed <==> ReportedLapsed(msgs, k))
    && (s.arrived <==> Arrived(own, msgs, k))
    && (s.observedLapse <==> DroppedFromRoster(own, msgs, k))
    && (s.ended <==> Ended(msgs, k))
  }

  lemma FieldsOfTurn(s: State, own: MemberId, msgs: seq<Message>, n: nat, r: State)
    requires n < |msgs| && Fields(s, own, msgs, n) && LapseStep(s, msgs[n].input, r)
    ensures Fields(r, own, msgs, n + 1)
  {
    SaidSoFar(own, msgs, n);
  }

  lemma NothingSaid(cfg: Config, msgs: seq<Message>)
    ensures Fields(Init(cfg), cfg.own, msgs, 0)
  {
  }

  /** A run, as far as the lapse looks at it. */
  ghost predicate LapseRun(own: MemberId, states: seq<State>, msgs: seq<Message>) {
    && |states| == |msgs| + 1 && Fields(states[0], own, msgs, 0)
    && forall k :: 0 <= k < |msgs| ==> LapseStep(states[k], msgs[k].input, states[k + 1])
  }

  lemma RunLapses(cfg: Config, states: seq<State>, msgs: seq<Message>)
    requires Run(cfg, states, msgs)
    ensures LapseRun(cfg.own, states, msgs)
  {
    NothingSaid(cfg, msgs);
    forall k | 0 <= k < |msgs| ensures LapseStep(states[k], msgs[k].input, states[k + 1]) {
      TurnLapse(states[k], msgs[k].input, msgs[k].env);
    }
  }

  lemma {:induction false} FieldsOfRun(own: MemberId, states: seq<State>, msgs: seq<Message>, k: nat)
    requires LapseRun(own, states, msgs) && k < |states|
    ensures Fields(states[k], own, msgs, k)
  {
    if k > 0 {
      FieldsOfRun(own, states, msgs, k - 1);
      FieldsOfTurn(states[k - 1], own, msgs, k - 1, states[k]);
    }
  }

  /** One more message, and what has been said before it. */
  lemma SaidSoFar(own: MemberId, msgs: seq<Message>, n: nat)
    requires n < |msgs|
    ensures var input := msgs[n].input;
      && (ReportedLapsed(msgs, n + 1) <==> if input.Lapse? then input.lapsed else ReportedLapsed(msgs, n))
      && (Arrived(own, msgs, n + 1) <==> Arrived(own, msgs, n) || With(own, input))
      && (DroppedFromRoster(own, msgs, n + 1) <==>
            if IsSnapshot(input) then Arrived(own, msgs, n + 1) && Without(own, input) else DroppedFromRoster(own, msgs, n))
      && (Ended(msgs, n + 1) <==> Ended(msgs, n) || Ends(input))
  {
    ReportsSoFar(msgs, n);
    SnapshotsSoFar(own, msgs, n);
  }

  lemma ReportsSoFar(msgs: seq<Message>, n: nat)
    requires n < |msgs|
    ensures var input := msgs[n].input;
      ReportedLapsed(msgs, n + 1) <==> if input.Lapse? then input.lapsed else ReportedLapsed(msgs, n)
  {
    if ReportedLapsed(msgs, n) && !msgs[n].input.Lapse? {
      var i :| 0 <= i < n && msgs[i].input == Lapse(true) && forall l :: i < l < n ==> !msgs[l].input.Lapse?;
      assert forall l :: i < l < n + 1 ==> !msgs[l].input.Lapse?;
    }
  }

  lemma SnapshotsSoFar(own: MemberId, msgs: seq<Message>, n: nat)
    requires n < |msgs|
    ensures var input := msgs[n].input;
      DroppedFromRoster(own, msgs, n + 1) <==>
        if IsSnapshot(input) then Arrived(own, msgs, n + 1) && Without(own, input) else DroppedFromRoster(own, msgs, n)
  {
    if DroppedFromRoster(own, msgs, n) && !IsSnapshot(msgs[n].input) {
      var i :| 0 <= i < n && Without(own, msgs[i].input) && forall l :: i < l < n ==> !IsSnapshot(msgs[l].input);
      assert forall l :: i < l < n + 1 ==> !IsSnapshot(msgs[l].input);
    }
  }

  /**
   * The lapse of every run: before turn `k` we have lapsed exactly when the call has not ended and the last lapse
   * report said so, or we had arrived and the last snapshot was without us.
   */
  lemma LapsedExactlyWhen(cfg: Config, states: seq<State>, msgs: seq<Message>, k: nat)
    requires Run(cfg, states, msgs) && k < |states|
    ensures Lapsed(states[k]) <==> !Ended(msgs, k) && (ReportedLapsed(msgs, k) || DroppedFromRoster(cfg.own, msgs, k))
  {
    RunLapses(cfg, states, msgs);
    FieldsOfRun(cfg.own, states, msgs, k);
  }

  /** After every turn a publication whose transport call is not refused is sent muted exactly for the user or that lapse. */
  lemma MutedExactlyWhen(cfg: Config, states: seq<State>, msgs: seq<Message>, k: nat, kind: StreamKind)
    requires Run(cfg, states, msgs) && k < |msgs|
    requires kind in states[k + 1].pubs && kind !in msgs[k].env.refused
    ensures states[k + 1].pubs[kind].applied <==>
      || states[k + 1].pubs[kind].muted
      || (!Ended(msgs, k + 1) && (ReportedLapsed(msgs, k + 1) || DroppedFromRoster(cfg.own, msgs, k + 1)))
  {
    LapsedExactlyWhen(cfg, states, msgs, k + 1);
    TurnPauses(states[k], msgs[k].input, msgs[k].env);
  }

  /** A user's mute leaves the pause in place: where the transport was told right before it, it is right after it. */
  lemma MuteKeepsThePause(s: State, kind: StreamKind, muted: bool, env: Env)
    requires Publications.Settled(s.pubs, Lapsed(s))
    ensures var h := MutedOwn(s, kind, muted, env); Publications.Settled(h.pubs, Lapsed(s)) && Lapsed(h) == Lapsed(s)
  {
  }

  // ---- our own tile ----------------------------------------------------------------------------

  lemma SameMember(roster: seq<Participant>, p: Participant, q: Participant)
    requires UniqueMembers(roster) && p in roster && q in roster && p.id == q.id
    ensures p == q
  {
    var i :| 0 <= i < |roster| && roster[i] == p;
    var j :| 0 <= j < |roster| && roster[j] == q;
    assert !(i < j) && !(j < i);
  }

  lemma {:induction false} FirstLocal(roster: seq<Participant>, p: Participant)
    requires UniqueMembers(roster) && p in roster && p.isLocal
    requires forall q :: q in roster && q.isLocal ==> q.id == p.id
    ensures LocalEntry(roster) == Some(p)
  {
    assert roster == [roster[0]] + roster[1..];
    if !roster[0].isLocal {
      FirstLocal(roster[1..], p);
    } else {
      SameMember(roster, roster[0], p);
    }
  }

  /** Our own state is there while we are on the roster: our tile, and whether an unmuted share of ours is up. */
  lemma LocalStateMeans(s: State, p: Participant)
    requires RosterKept(s) && p in s.roster && p.isLocal
    ensures var local := Local(s);
      && local.Some? && local.value.tile.kind == Person && Depicts(local.value.tile, p, Speakers.RawSpeaking(s.speech))
      && (local.value.isScreenSharing <==> Live(p, ScreenShare))
  {
    var raw := Speakers.RawSpeaking(s.speech);
    OwnTileIsOurs(s.roster, raw);
    forall q | q in s.roster && q.isLocal ensures q == p {
      SameMember(s.roster, q, p);
    }
    FirstLocal(s.roster, p);
    LiveStream(p, ScreenShare);
  }

  // ---- what is up, and muted by whom ---------------------------------------------------------

  /** The host says, and the transport accepts, that what it publishes of `kind` is (un)muted. */
  predicate Mutes(m: Message, kind: StreamKind, muted: bool) {
    m.input == SetLocalMuted(kind, muted) && kind !in m.env.refused
  }

  predicate Publishes(m: Message, kind: StreamKind) {
    m.input.LocalPublished? && m.input.kind == kind
  }

  /** One turn's change to what we publish, in the host's words. */
  ghost predicate PublicationStep(pubs: Publications.Publications, m: Message, pubs': Publications.Publications, kind: StreamKind) {
    if Publishes(m, kind) then
      kind in pubs' && pubs'[kind].track == m.input.track && pubs'[kind].muted == m.input.muted
    else if kind in pubs && m.input == LocalUnpublished(kind, pubs[kind].track) then
      kind !in pubs'
    else
      && (kind in pubs' <==> kind in pubs)
      && (kind in pubs ==>
            && pubs'[kind].track == pubs[kind].track
            && (if Mutes(m, kind, true) || Mutes(m, kind, false) then Mutes(m, kind, pubs'[kind].muted)
                else pubs'[kind].muted == pubs[kind].muted))
  }

  /** What a message does to what we publish, before the end of its turn. */
  function HandledPublications(s: State, input: Input, env: Env): Publications.Publications {
    match input
    case LocalPublished(kind, muted, track) => Publications.Published(s.pubs, kind, muted, track)
    case LocalUnpublished(kind, track) => Publications.Unpublished(s.pubs, kind, track)
    case SetLocalMuted(kind, muted) => Publications.Muted(s.pubs, kind, muted, Lapsed(s), kind !in env.refused)
    case _ => s.pubs
  }

  lemma HandlePublications(s: State, input: Input, env: Env)
    ensures Handle(s, input, env).pubs == HandledPublications(s, input, env)
  {
    match input {
      case LocalPublished(kind, muted, track) => PublishedPubs(s, kind, muted, track, env);
      case LocalUnpublished(kind, track) => UnpublishedPubs(s, kind, track, env);
      case SetLocalMuted(kind, muted) => MutedPubs(s, kind, muted, env);
      case _ =>
    }
  }

  lemma PublishedPubs(s: State, kind: StreamKind, muted: bool, track: nat, env: Env)
    ensures PublishedOwn(s, kind, muted, track, env).pubs == Publications.Published(s.pubs, kind, muted, track)
  {
  }

  lemma UnpublishedPubs(s: State, kind: StreamKind, track: nat, env: Env)
    ensures UnpublishedOwn(s, kind, track, env).pubs == Publications.Unpublished(s.pubs, kind, track)
  {
  }

  lemma MutedPubs(s: State, kind: StreamKind, muted: bool, env: Env)
    ensures MutedOwn(s, kind, muted, env).pubs == Publications.Muted(s.pubs, kind, muted, Lapsed(s), kind !in env.refused)
  {
  }

  lemma HandledStep(s: State, input: Input, env: Env, kind: StreamKind)
    ensures PublicationStep(s.pubs, Message(input, env), HandledPublications(s, input, env), kind)
  {
  }

  lemma SyncPublications(h: State, env: Env, kind: StreamKind)
    ensures var r := Sync(h, env);
      && (kind in r.pubs <==> kind in h.pubs)
      && (kind in h.pubs ==> r.pubs[kind].track == h.pubs[kind].track && r.pubs[kind].muted == h.pubs[kind].muted)
  {
    SyncPauses(h, env);
  }

  lemma TurnPublications(s: State, input: Input, env: Env, kind: StreamKind)
    ensures PublicationStep(s.pubs, Message(input, env), Turn(s, input, env).pubs, kind)
  {
    HandlePublications(s, input, env);
    HandledStep(s, input, env, kind);
    SyncPublications(Handle(s, input, env), env, kind);
  }

  /** Message `i` put up the publication of `kind` that is up before turn `k`. */
  ghost predicate UpSince(msgs: seq<Message>, kind: StreamKind, i: nat, k: nat)
    requires k <= |msgs|
  {
    && i < k && Publishes(msgs[i], kind)
    && forall l :: i < l < k ==> !Publishes(msgs[l], kind) && msgs[l].input != LocalUnpublished(kind, msgs[i].input.track)
  }

  /** The host's last word on the mute of what message `i` put up was `muted`. */
  ghost predicate LastMute(msgs: seq<Message>, kind: StreamKind, i: nat, k: nat, muted: bool)
    requires i < k <= |msgs| && msgs[i].input.LocalPublished?
  {
    exists j :: i <= j < k
      && (if j == i then msgs[i].input.muted == muted else Mutes(msgs[j], kind, muted))
      && forall l :: j < l < k ==> !Mutes(msgs[l], kind, true) && !Mutes(msgs[l], kind, false)
  }

  ghost predicate AsTold(s: State, msgs: seq<Message>, kind: StreamKind, k: nat)
    requires k <= |msgs|
  {
    && (kind in s.pubs <==> exists i: nat :: UpSince(msgs, kind, i, k))
    && forall i: nat :: UpSince(msgs, kind, i, k) && kind in s.pubs ==>
         s.pubs[kind].track == msgs[i].input.track && LastMute(msgs, kind, i, k, s.pubs[kind].muted)
  }

  lemma UpAfter(msgs: seq<Message>, kind: StreamKind, i: nat, n: nat)
    requires n < |msgs|
    ensures UpSince(msgs, kind, i, n + 1) <==>
      if i == n then Publishes(msgs[n], kind)
      else UpSince(msgs, kind, i, n) && !Publishes(msgs[n], kind) && msgs[n].input != LocalUnpublished(kind, msgs[i].input.track)
  {
  }

  lemma MuteAfter(msgs: seq<Message>, kind: StreamKind, i: nat, n: nat, muted: bool)
    requires i < n < |msgs| && msgs[i].input.LocalPublished?
    requires Mutes(msgs[n], kind, muted)
      || (LastMute(msgs, kind, i, n, muted) && !Mutes(msgs[n], kind, true) && !Mutes(msgs[n], kind, false))
    ensures LastMute(msgs, kind, i, n + 1, muted)
  {
    if !Mutes(msgs[n], kind, muted) {
      var j :| i <= j < n
        && (if j == i then msgs[i].input.muted == muted else Mutes(msgs[j], kind, muted))
        && forall l :: j < l < n ==> !Mutes(msgs[l], kind, true) && !Mutes(msgs[l], kind, false);
      assert forall l :: j < l < n + 1 ==> !Mutes(msgs[l], kind, true) && !Mutes(msgs[l], kind, false);
    }
  }

  lemma OneUp(msgs: seq<Message>, kind: StreamKind, i: nat, j: nat, k: nat)
    requires k <= |msgs| && UpSince(msgs, kind, i, k) && UpSince(msgs, kind, j, k)
    ensures i == j
  {
  }

  lemma ToldByTurn(s: State, msgs: seq<Message>, kind: StreamKind, n: nat, r: State)
    requires n < |msgs| && AsTold(s, msgs, kind, n) && PublicationStep(s.pubs, msgs[n], r.pubs, kind)
    ensures AsTold(r, msgs, kind, n + 1)
  {
    if Publishes(msgs[n], kind) {
      assert UpSince(msgs, kind, n, n + 1);
    }
    var k := n + 1;
    if i: nat :| UpSince(msgs, kind, i, k) {
      UpAfter(msgs, kind, i, n);
    }
    forall i: nat | UpSince(msgs, kind, i, k) && kind in r.pubs
      ensures r.pubs[kind].track == msgs[i].input.track && LastMute(msgs, kind, i, k, r.pubs[kind].muted)
    {
      UpAfter(msgs, kind, i, n);
      if i < n {
        MuteAfter(msgs, kind, i, n, r.pubs[kind].muted);
      }
    }
    if kind in r.pubs && !Publishes(msgs[n], kind) {
      var i: nat :| UpSince(msgs, kind, i, n);
      UpAfter(msgs, kind, i, n);
    }
  }

  /**
   * What we publish at every turn end of every run is what the host last published of the kind and has not
   * retracted since, muted as the host last said and the transport accepted. No pause, no read-back and no
   * retraction of an earlier track changes that.
   */
  lemma {:induction false} PublicationsAsTold(cfg: Config, states: seq<State>, msgs: seq<Message>, k: nat, kind: StreamKind)
    requires Run(cfg, states, msgs) && k < |states|
    ensures AsTold(states[k], msgs, kind, k)
  {
    if k > 0 {
      PublicationsAsTold(cfg, states, msgs, k - 1, kind);
      TurnPublications(states[k - 1], msgs[k - 1].input, msgs[k - 1].env, kind);
      ToldByTurn(states[k - 1], msgs, kind, k - 1, states[k]);
    }
  }
}
