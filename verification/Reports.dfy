/** What the engine holds of each other member is the last it was told: over whole runs, from the messages alone. */
module Reports {
  import opened Ordering
  import opened Tiles
  import opened Roster
  import opened Engine
  import opened EngineRuns
  import opened EngineSafety
  import opened Announcements
  import Publications
  import Speakers
  import Keys

  // ---- what was said of a member ---------------------------------------------------------

  datatype Report =
    | MembersAre(ids: set<MemberId>)
    | Heard(event: PoolEvent)
    | Asked(member: MemberId, kind: StreamKind, constraints: Keys.Constraints)

  function AllHeard(pool: seq<PoolEvent>): seq<Report> {
    if pool == [] then [] else AllHeard(pool[..|pool| - 1]) + [Heard(pool[|pool| - 1])]
  }

  function ReportsIn(input: Input): seq<Report> {
    match input
    case Start(members, pool, _) => [MembersAre(MemberIds(members))] + AllHeard(pool)
    case Members(members, pool) => [MembersAre(MemberIds(members))] + AllHeard(pool)
    case FromPool(pool) => AllHeard(pool)
    case SetConstraints(m, kind, c) => [Asked(m, kind, c)]
    case _ => []
  }

  /** Everything said in a run so far, in order. */
  function Told(msgs: seq<Message>): seq<Report> {
    if msgs == [] then [] else Told(msgs[..|msgs| - 1]) + ReportsIn(msgs[|msgs| - 1].input)
  }

  /**
   * The last word on one member and one kind of stream: whether they are in the call, speaking, sending in clear, what
   * their frames decrypt to, what was asked of the pool, and the mute flag of the stream if it is up.
   */
  datatype Word = Word(
    rostered: bool, speaking: bool, inClear: bool, frames: Option<Keys.FrameState>,
    asked: Option<Keys.Constraints>, stream: Option<bool>)

  const NOTHING := Word(false, false, false, None, None, None)

  /** Leaving takes everything with it; streams are only followed of members in the call. */
  function After(w: Word, m: MemberId, kind: StreamKind, r: Report): Word {
    match r
    case MembersAre(ids) => if m in ids then w.(rostered := true) else if w.rostered then NOTHING else w
    case Asked(x, k, c) => if x == m && k == kind then w.(asked := Some(c)) else w
    case Heard(e) =>
      match e
      case ActiveSpeakers(speakers) => w.(speaking := m in speakers)
      case ClearSender(x) => if x == m then w.(inClear := true) else w
      case EncryptionChanged(x, frames) => if x == m then w.(frames := Some(frames)) else w
      case StreamAdded(x, k) => if x == m && k == kind && w.rostered && w.stream.None? then w.(stream := Some(false)) else w
      case StreamRemoved(x, k) => if x == m && k == kind then w.(stream := None) else w
      case StreamMuted(x, k, muted) => if x == m && k == kind && w.stream.Some? then w.(stream := Some(muted)) else w
      case OwnConnectionLost => w
  }

  function AfterAll(w: Word, m: MemberId, kind: StreamKind, rs: seq<Report>): Word {
    if rs == [] then w else After(AfterAll(w, m, kind, rs[..|rs| - 1]), m, kind, rs[|rs| - 1])
  }

  lemma {:induction false} AfterConcat(w: Word, m: MemberId, kind: StreamKind, a: seq<Report>, b: seq<Report>)
    ensures AfterAll(w, m, kind, a + b) == AfterAll(AfterAll(w, m, kind, a), m, kind, b)
  {
    if b == [] {
      assert a + b == a;
    } else {
      AfterConcat(w, m, kind, a, b[..|b| - 1]);
      assert (a + b)[..|a + b| - 1] == a + b[..|b| - 1];
    }
  }

  // ---- what the engine holds ----------------------------------------------------------------

  /** The mute flag of the stream of that kind, if it is up. */
  function MuteOf(streams: seq<Stream>, kind: StreamKind): Option<bool> {
    match FindStream(streams, kind) case None => None case Some(t) => Some(t.muted)
  }

  function StreamIn(roster: seq<Participant>, m: MemberId, kind: StreamKind): Option<bool> {
    match EntryOf(roster, m) case None => None case Some(p) => MuteOf(p.streams, kind)
  }

  ghost predicate HoldsSpeech(s: State, m: MemberId, w: Word) {
    w.speaking <==> m in Speakers.RawSpeaking(s.speech)
  }

  ghost predicate HoldsKeys(s: State, m: MemberId, kind: StreamKind, w: Word) {
    && (w.inClear <==> m in s.keys.clear)
    && w.frames == (if m in s.keys.states then Some(s.keys.states[m]) else None)
    && w.asked == (if (m, kind) in s.keys.host then Some(s.keys.host[(m, kind)]) else None)
  }

  ghost predicate HoldsEntry(s: State, m: MemberId, kind: StreamKind, w: Word) {
    && (w.rostered <==> m in IdsOf(s.roster))
    && (!w.rostered ==> w.stream.None?)
    && (m != s.cfg.own ==> w.stream == StreamIn(s.roster, m, kind))
  }

  ghost predicate HoldsWord(s: State, m: MemberId, kind: StreamKind, w: Word) {
    HoldsSpeech(s, m, w) && HoldsKeys(s, m, kind, w) && HoldsEntry(s, m, kind, w)
  }

  // ---- edits of the roster -------------------------------------------------------------------

  lemma {:induction false} EntryIs(roster: seq<Participant>, i: nat)
    requires UniqueMembers(roster) && i < |roster|
    ensures EntryOf(roster, roster[i].id) == Some(roster[i])
  {
    var n := |roster| - 1;
    if i < n {
      assert roster[i].id != roster[n].id;
      EntryIs(roster[..n], i);
    }
  }

  /** Rosters of the same members, entry by entry, have a member's entry at the same place. */
  lemma {:induction false} SamePlace(a: seq<Participant>, b: seq<Participant>, m: MemberId) returns (i: nat)
    requires |a| == |b| && forall j :: 0 <= j < |a| ==> a[j].id == b[j].id
    ensures m in IdsOf(a) <==> m in IdsOf(b)
    ensures m in IdsOf(a) ==> i < |a| && a[i].id == m && EntryOf(a, m) == Some(a[i]) && EntryOf(b, m) == Some(b[i])
  {
    SameIds(a, b);
    i := 0;
    if a != [] {
      var n := |a| - 1;
      if a[n].id == m {
        i := n;
      } else {
        i := SamePlace(a[..n], b[..n], m);
        assert IdsOf(a) == IdsOf(a[..n]) + {a[n].id};
      }
    }
  }

  /** Entry by entry the same members with the same streams show the same streams. */
  lemma SameStreamIn(a: seq<Participant>, b: seq<Participant>, m: MemberId, kind: StreamKind)
    requires |a| == |b| && forall i :: 0 <= i < |a| ==> a[i].id == b[i].id && (a[i].id == m ==> a[i].streams == b[i].streams)
    ensures StreamIn(a, m, kind) == StreamIn(b, m, kind) && (m in IdsOf(a) <==> m in IdsOf(b))
  {
    var i := SamePlace(a, b, m);
  }

  lemma {:induction false} FoundAppended(streams: seq<Stream>, t: Stream, kind: StreamKind)
    ensures MuteOf(streams + [t], kind) ==
      if MuteOf(streams, kind).Some? then MuteOf(streams, kind) else if t.kind == kind then Some(t.muted) else None
  {
    if streams != [] {
      FoundAppended(streams[1..], t, kind);
      assert (streams + [t])[1..] == streams[1..] + [t];
    }
  }

  lemma FoundFirstOr(t: Stream, rest: seq<Stream>, kind: StreamKind)
    ensures MuteOf([t] + rest, kind) == if t.kind == kind then Some(t.muted) else MuteOf(rest, kind)
  {
    assert ([t] + rest)[1..] == rest;
  }

  lemma {:induction false} FoundDropped(streams: seq<Stream>, gone: StreamKind, kind: StreamKind)
    ensures MuteOf(Dropped(streams, gone), kind) == if kind == gone then None else MuteOf(streams, kind)
  {
    if streams != [] {
      FoundDropped(streams[1..], gone, kind);
      FoundFirstOr(streams[0], streams[1..], kind);
      FoundFirstOr(streams[0], Dropped(streams[1..], gone), kind);
      assert streams == [streams[0]] + streams[1..];
      assert [] + Dropped(streams[1..], gone) == Dropped(streams[1..], gone);
    }
  }

  lemma {:induction false} FoundRemuted(streams: seq<Stream>, which: StreamKind, muted: bool, kind: StreamKind)
    ensures MuteOf(Remuted(streams, which, muted), kind) ==
      if kind == which && MuteOf(streams, kind).Some? then Some(muted) else MuteOf(streams, kind)
  {
    if streams != [] {
      assert streams == [streams[0]] + streams[1..];
      FoundFirstOr(streams[0], streams[1..], kind);
      if streams[0].kind == which {
        FoundFirstOr(Stream(which, muted), streams[1..], kind);
      } else {
        FoundRemuted(streams[1..], which, muted, kind);
        FoundFirstOr(streams[0], Remuted(streams[1..], which, muted), kind);
      }
    }
  }

  lemma StreamAfterAdding(roster: seq<Participant>, x: MemberId, k: StreamKind, muted: bool, m: MemberId, kind: StreamKind)
    ensures var r := WithStream(roster, x, k, muted); var before := StreamIn(roster, m, kind);
      && (m in IdsOf(r) <==> m in IdsOf(roster))
      && StreamIn(r, m, kind) == if x == m && k == kind && m in IdsOf(roster) && before.None? then Some(muted) else before
  {
    var i := SamePlace(roster, WithStream(roster, x, k, muted), m);
    if m in IdsOf(roster) {
      FoundAppended(roster[i].streams, Stream(k, muted), kind);
    }
  }

  lemma StreamAfterRemoving(roster: seq<Participant>, x: MemberId, k: StreamKind, m: MemberId, kind: StreamKind)
    ensures var r := WithoutStream(roster, x, k);
      && (m in IdsOf(r) <==> m in IdsOf(roster))
      && StreamIn(r, m, kind) == if x == m && k == kind then None else StreamIn(roster, m, kind)
  {
    var i := SamePlace(roster, WithoutStream(roster, x, k), m);
    if m in IdsOf(roster) {
      FoundDropped(roster[i].streams, k, kind);
    }
  }

  lemma MutedEntries(roster: seq<Participant>, x: MemberId, k: StreamKind, muted: bool)
    ensures var r := WithMute(roster, x, k, muted);
      forall i :: 0 <= i < |roster| ==>
        r[i].streams == if roster[i].id == x then Remuted(roster[i].streams, k, muted) else roster[i].streams
  {
  }

  lemma StreamAfterMuting(roster: seq<Participant>, x: MemberId, k: StreamKind, muted: bool, m: MemberId, kind: StreamKind)
    ensures var r := WithMute(roster, x, k, muted); var before := StreamIn(roster, m, kind);
      && (m in IdsOf(r) <==> m in IdsOf(roster))
      && StreamIn(r, m, kind) == if x == m && k == kind && before.Some? then Some(muted) else before
  {
    var r := WithMute(roster, x, k, muted);
    MutedEntries(roster, x, k, muted);
    var i := SamePlace(roster, r, m);
    if m in IdsOf(roster) {
      FoundRemuted(roster[i].streams, k, muted, kind);
    }
  }

  // ---- the pool's reports ----------------------------------------------------------------------

  /** What a report of the pool makes of the roster. */
  function RosterAfter(roster: seq<Participant>, e: PoolEvent): seq<Participant> {
    match e
    case StreamAdded(x, k) => WithStream(roster, x, k, false)
    case StreamRemoved(x, k) => WithoutStream(roster, x, k)
    case StreamMuted(x, k, muted) => WithMute(roster, x, k, muted)
    case _ => roster
  }

  lemma StepRoster(s: State, e: PoolEvent, env: Env)
    ensures PoolStep(s, e, env).roster == RosterAfter(s.roster, e) && PoolStep(s, e, env).cfg == s.cfg
  {
  }

  lemma RosterHeard(roster: seq<Participant>, e: PoolEvent, m: MemberId, kind: StreamKind, w: Word)
    requires (w.rostered <==> m in IdsOf(roster)) && (!w.rostered ==> w.stream.None?)
    ensures var r := RosterAfter(roster, e); var w' := After(w, m, kind, Heard(e));
      && (w'.rostered <==> m in IdsOf(r)) && (!w'.rostered ==> w'.stream.None?)
      && (w.stream == StreamIn(roster, m, kind) ==> w'.stream == StreamIn(r, m, kind))
  {
    match e {
      case StreamAdded(x, k) => StreamAfterAdding(roster, x, k, false, m, kind);
      case StreamRemoved(x, k) => StreamAfterRemoving(roster, x, k, m, kind);
      case StreamMuted(x, k, muted) => StreamAfterMuting(roster, x, k, muted, m, kind);
      case _ =>
    }
  }

  lemma StreamHeard(s: State, e: PoolEvent, env: Env, m: MemberId, kind: StreamKind, w: Word)
    requires HoldsEntry(s, m, kind, w)
    ensures HoldsEntry(PoolStep(s, e, env), m, kind, After(w, m, kind, Heard(e)))
  {
    StepRoster(s, e, env);
    RosterHeard(s.roster, e, m, kind, w);
  }

  lemma SpeechHeard(s: State, e: PoolEvent, env: Env, m: MemberId, kind: StreamKind, w: Word)
    requires HoldsSpeech(s, m, w)
    ensures HoldsSpeech(PoolStep(s, e, env), m, After(w, m, kind, Heard(e)))
  {
    if e.ActiveSpeakers? {
      Speakers.ApplyRawStates(s.speech, e.speakers, env.now, s.turn, s.cfg.delays);
    }
  }

  lemma StepKeys(s: State, e: PoolEvent, env: Env)
    ensures var k := PoolStep(s, e, env).keys;
      && k.host == s.keys.host
      && k.clear == (if e.ClearSender? then s.keys.clear + {e.member} else s.keys.clear)
      && k.states == (if e.EncryptionChanged? then s.keys.states[e.member := e.frames] else s.keys.states)
  {
  }

  lemma KeysHeard(s: State, e: PoolEvent, env: Env, m: MemberId, kind: StreamKind, w: Word)
    requires HoldsKeys(s, m, kind, w)
    ensures HoldsKeys(PoolStep(s, e, env), m, kind, After(w, m, kind, Heard(e)))
  {
    StepKeys(s, e, env);
  }

  lemma EventHeard(s: State, e: PoolEvent, env: Env, m: MemberId, kind: StreamKind, w: Word)
    requires HoldsWord(s, m, kind, w)
    ensures HoldsWord(PoolStep(s, e, env), m, kind, After(w, m, kind, Heard(e)))
  {
    SpeechHeard(s, e, env, m, kind, w);
    KeysHeard(s, e, env, m, kind, w);
    StreamHeard(s, e, env, m, kind, w);
  }

  lemma {:induction false} PoolHeard(s: State, es: seq<PoolEvent>, env: Env, m: MemberId, kind: StreamKind, w: Word)
    requires HoldsWord(s, m, kind, w)
    ensures HoldsWord(PoolSteps(s, es, env), m, kind, AfterAll(w, m, kind, AllHeard(es)))
  {
    if es != [] {
      var n := |es| - 1;
      PoolHeard(s, es[..n], env, m, kind, w);
      EventHeard(PoolSteps(s, es[..n], env), es[n], env, m, kind, AfterAll(w, m, kind, AllHeard(es[..n])));
      assert AllHeard(es)[..|AllHeard(es)| - 1] == AllHeard(es[..n]);
    }
  }

  // ---- snapshots -----------------------------------------------------------------------------------

  lemma EntryOfMember(roster: seq<Participant>, p: Participant)
    requires UniqueMembers(roster) && p in roster
    ensures EntryOf(roster, p.id) == Some(p)
  {
    var i :| 0 <= i < |roster| && roster[i] == p;
    EntryIs(roster, i);
  }

  lemma HeadIsIn<T>(s: seq<T>)
    ensures s != [] ==> s[0] in s
  {
  }

  /** Who stays keeps their streams, and who comes, us aside, has none yet. */
  lemma SnapshotStreams(roster: seq<Participant>, members: seq<Membership>, seeds: Seeds, m: MemberId, kind: StreamKind)
    requires WellFormed(roster, seeds.own) && m != seeds.own
    ensures StreamIn(Snapshot(roster, members, seeds), m, kind)
         == if m in MemberIds(members) && m in IdsOf(roster) then StreamIn(roster, m, kind) else None
  {
    var r := Snapshot(roster, members, seeds);
    SnapshotFacts(roster, members, seeds);
    if m in MemberIds(members) {
      if m in IdsOf(roster) {
        EntryOfMember(r, EntryOf(roster, m).value);
      } else {
        var p := EntryOf(r, m).value;
        NewcomersAreSeeded(roster, members, seeds, p);
        HeadIsIn(p.streams);
      }
    }
  }

  lemma EntrySnapshot(s: State, members: seq<Membership>, env: Env, m: MemberId, kind: StreamKind, w: Word)
    requires HoldsEntry(s, m, kind, w) && WellFormed(s.roster, s.cfg.own)
    ensures HoldsEntry(Reconciled(s, members, env), m, kind, After(w, m, kind, MembersAre(MemberIds(members))))
  {
    SnapshotFacts(s.roster, members, SeedsOf(s, env));
    if m != s.cfg.own {
      SnapshotStreams(s.roster, members, SeedsOf(s, env), m, kind);
    }
  }

  lemma SpeechSnapshot(s: State, members: seq<Membership>, env: Env, m: MemberId, kind: StreamKind, w: Word)
    requires HoldsSpeech(s, m, w) && (w.rostered <==> m in IdsOf(s.roster))
    ensures HoldsSpeech(Reconciled(s, members, env), m, After(w, m, kind, MembersAre(MemberIds(members))))
  {
  }

  lemma KeysSnapshot(s: State, members: seq<Membership>, env: Env, m: MemberId, kind: StreamKind, w: Word)
    requires HoldsKeys(s, m, kind, w) && (w.rostered <==> m in IdsOf(s.roster))
    ensures HoldsKeys(Reconciled(s, members, env), m, kind, After(w, m, kind, MembersAre(MemberIds(members))))
  {
    var gone := Gone(s, members);
    assert (m, kind) in Keys.Of(s.keys.host, gone) <==> (m, kind) in s.keys.host && (m, kind).0 in gone;
  }

  lemma ReconciledHolds(s: State, members: seq<Membership>, env: Env, m: MemberId, kind: StreamKind, w: Word)
    requires HoldsWord(s, m, kind, w) && WellFormed(s.roster, s.cfg.own)
    ensures HoldsWord(Reconciled(s, members, env), m, kind, After(w, m, kind, MembersAre(MemberIds(members))))
  {
    EntrySnapshot(s, members, env, m, kind, w);
    SpeechSnapshot(s, members, env, m, kind, w);
    KeysSnapshot(s, members, env, m, kind, w);
  }

  /** A state with the same speakers and keys and, entry by entry, the same streams. */
  lemma SameWord(s: State, r: State, m: MemberId, kind: StreamKind, w: Word)
    requires HoldsWord(s, m, kind, w) && r.cfg == s.cfg
    requires Speakers.RawSpeaking(r.speech) == Speakers.RawSpeaking(s.speech)
    requires r.keys.clear == s.keys.clear && r.keys.states == s.keys.states && r.keys.host == s.keys.host
    requires |r.roster| == |s.roster|
    requires forall i :: 0 <= i < |s.roster| ==>
      r.roster[i].id == s.roster[i].id && (s.roster[i].id == m && m != s.cfg.own ==> r.roster[i].streams == s.roster[i].streams)
    ensures HoldsWord(r, m, kind, w)
  {
    SameIds(s.roster, r.roster);
    if m != s.cfg.own { SameStreamIn(s.roster, r.roster, m, kind); }
  }

  lemma SnapshotTold(s: State, members: seq<Membership>, pool: seq<PoolEvent>, env: Env, m: MemberId, kind: StreamKind, w: Word)
    requires HoldsWord(s, m, kind, w) && WellFormed(s.roster, s.cfg.own)
    ensures HoldsWord(ApplySnapshot(s, members, pool, env), m, kind,
                      AfterAll(w, m, kind, [MembersAre(MemberIds(members))] + AllHeard(pool)))
  {
    var first := MembersAre(MemberIds(members));
    var w' := After(w, m, kind, first);
    var r := Reconciled(s, members, env);
    ReconciledHolds(s, members, env, m, kind, w);
    PoolHeard(r, pool, env, m, kind, w');
    AfterConcat(w, m, kind, [first], AllHeard(pool));
    assert [first][..0] == [] && AfterAll(w, m, kind, [first]) == w';
    SameWord(PoolSteps(r, pool, env), ApplySnapshot(s, members, pool, env), m, kind, AfterAll(w', m, kind, AllHeard(pool)));
  }

  lemma HandsTold(s: State, hands: seq<RaisedHand>, announce: bool, env: Env, m: MemberId, kind: StreamKind, w: Word)
    requires HoldsWord(s, m, kind, w)
    ensures HoldsWord(ApplyHands(s, hands, announce, env), m, kind, w)
  {
    SameWord(s, ApplyHands(s, hands, announce, env), m, kind, w);
  }

  // ---- our own entry -------------------------------------------------------------------------------

  /** What we publish shows on our own entry, unless a stream of its kind already does. */
  lemma OwnPublishes(s: State, k: StreamKind, muted: bool, track: nat, env: Env, kind: StreamKind)
    ensures var r, before := PublishedOwn(s, k, muted, track, env), StreamIn(s.roster, s.cfg.own, kind);
      StreamIn(r.roster, s.cfg.own, kind) == if k == kind && s.cfg.own in IdsOf(s.roster) && before.None? then Some(muted) else before
  {
    StreamAfterAdding(s.roster, s.cfg.own, k, muted, s.cfg.own, kind);
  }

  /** What we retract goes from it, if it is of the track that is up. */
  lemma OwnUnpublishes(s: State, k: StreamKind, track: nat, env: Env, kind: StreamKind)
    ensures var r, before := UnpublishedOwn(s, k, track, env), StreamIn(s.roster, s.cfg.own, kind);
      StreamIn(r.roster, s.cfg.own, kind) == if k == kind && k in s.pubs && s.pubs[k].track == track then None else before
  {
    StreamAfterRemoving(s.roster, s.cfg.own, k, s.cfg.own, kind);
  }

  /** A mute shows where the transport accepted it. */
  lemma OwnMutes(s: State, k: StreamKind, muted: bool, env: Env, kind: StreamKind)
    ensures var r, before := MutedOwn(s, k, muted, env), StreamIn(s.roster, s.cfg.own, kind);
      StreamIn(r.roster, s.cfg.own, kind)
        == if k == kind && k in s.pubs && k !in env.refused && before.Some? then Some(muted) else before
  {
    StreamAfterMuting(s.roster, s.cfg.own, k, muted, s.cfg.own, kind);
  }

  // ---- one turn ------------------------------------------------------------------------------------

  lemma LocalTold(s: State, input: Input, env: Env, m: MemberId, kind: StreamKind, w: Word)
    requires input.LocalPublished? || input.LocalUnpublished? || input.SetLocalMuted?
    requires HoldsWord(s, m, kind, w)
    ensures HoldsWord(Handle(s, input, env), m, kind, w)
  {
    match input {
      case LocalPublished(k, muted, track) => PublishedTold(s, k, muted, track, env, m, kind, w);
      case LocalUnpublished(k, track) => UnpublishedTold(s, k, track, env, m, kind, w);
      case SetLocalMuted(k, muted) => MutedTold(s, k, muted, env, m, kind, w);
      case _ =>
    }
  }

  lemma PublishedTold(s: State, k: StreamKind, muted: bool, track: nat, env: Env, m: MemberId, kind: StreamKind, w: Word)
    requires HoldsWord(s, m, kind, w)
    ensures HoldsWord(PublishedOwn(s, k, muted, track, env), m, kind, w)
  {
    SameWord(s, PublishedOwn(s, k, muted, track, env), m, kind, w);
  }

  lemma UnpublishedTold(s: State, k: StreamKind, track: nat, env: Env, m: MemberId, kind: StreamKind, w: Word)
    requires HoldsWord(s, m, kind, w)
    ensures HoldsWord(UnpublishedOwn(s, k, track, env), m, kind, w)
  {
    SameWord(s, UnpublishedOwn(s, k, track, env), m, kind, w);
  }

  lemma MutedTold(s: State, k: StreamKind, muted: bool, env: Env, m: MemberId, kind: StreamKind, w: Word)
    requires HoldsWord(s, m, kind, w)
    ensures HoldsWord(MutedOwn(s, k, muted, env), m, kind, w)
  {
    SameWord(s, MutedOwn(s, k, muted, env), m, kind, w);
  }

  lemma TimerFrame(s: State, t: Speakers.Timer, env: Env)
    ensures var r := TimerFired(s, t, env);
      r.cfg == s.cfg && r.roster == s.roster && r.keys == s.keys && r.speech.speakers == s.speech.speakers
  {
  }

  lemma TimerTold(s: State, t: Speakers.Timer, env: Env, m: MemberId, kind: StreamKind, w: Word)
    requires HoldsWord(s, m, kind, w)
    ensures HoldsWord(TimerFired(s, t, env), m, kind, w)
  {
    TimerFrame(s, t, env);
  }

  lemma AskedTold(s: State, x: MemberId, k: StreamKind, c: Keys.Constraints, m: MemberId, kind: StreamKind, w: Word)
    requires HoldsWord(s, m, kind, w)
    ensures HoldsWord(s.(keys := Keys.SetConstraints(s.keys, x, k, c)), m, kind, After(w, m, kind, Asked(x, k, c)))
  {
  }

  lemma QuietTold(s: State, input: Input, env: Env, m: MemberId, kind: StreamKind, w: Word)
    requires input.Lapse? || input.KeyGrace? || input.FlushReorder? || input.SetWindow? || input.SetThreshold? || input.Leave?
    requires HoldsWord(s, m, kind, w)
    ensures HoldsWord(Handle(s, input, env), m, kind, w)
  {
    SameWord(s, Handle(s, input, env), m, kind, w);
  }

  lemma HandleTold(s: State, input: Input, env: Env, m: MemberId, kind: StreamKind, w: Word)
    requires HoldsWord(s, m, kind, w) && WellFormed(s.roster, s.cfg.own)
    ensures HoldsWord(Handle(s, input, env), m, kind, AfterAll(w, m, kind, ReportsIn(input)))
  {
    if input.Start? {
      SnapshotTold(s, input.members, input.pool, env, m, kind, w);
      HandsTold(ApplySnapshot(s, input.members, input.pool, env), input.hands, false, env, m, kind, AfterAll(w, m, kind, ReportsIn(input)));
    } else if input.Members? {
      SnapshotTold(s, input.members, input.pool, env, m, kind, w);
    } else if input.Hands? {
      HandsTold(s, input.hands, true, env, m, kind, w);
    } else if input.FromPool? {
      PoolHeard(s, input.pool, env, m, kind, w);
    } else if input.SetConstraints? {
      AskedTold(s, input.member, input.kind, input.constraints, m, kind, w);
      assert ReportsIn(input)[..0] == [];
    } else if input.SpeakerTimer? {
      TimerTold(s, input.timer, env, m, kind, w);
    } else if input.LocalPublished? || input.LocalUnpublished? || input.SetLocalMuted? {
      LocalTold(s, input, env, m, kind, w);
    } else {
      QuietTold(s, input, env, m, kind, w);
    }
  }

  lemma SyncTold(h: State, env: Env, m: MemberId, kind: StreamKind, w: Word)
    requires HoldsWord(h, m, kind, w)
    ensures HoldsWord(Sync(h, env), m, kind, w)
  {
    SameWord(h, Sync(h, env), m, kind, w);
  }

  lemma TurnTold(s: State, input: Input, env: Env, m: MemberId, kind: StreamKind, w: Word, r: State)
    requires HoldsWord(s, m, kind, w) && WellFormed(s.roster, s.cfg.own) && r == Turn(s, input, env)
    ensures HoldsWord(r, m, kind, AfterAll(w, m, kind, ReportsIn(input)))
  {
    HandleTold(s, input, env, m, kind, w);
    SyncTold(Handle(s, input, env), env, m, kind, AfterAll(w, m, kind, ReportsIn(input)));
    Stamped(s, input, env);
  }

  lemma Stamped(s: State, input: Input, env: Env)
    ensures var y, r := Sync(Handle(s, input, env), env), Turn(s, input, env);
      r.cfg == y.cfg && r.roster == y.roster && r.speech == y.speech && r.keys == y.keys
  {
  }

  // ---- every run -----------------------------------------------------------------------------------

  lemma NothingToldYet(cfg: Config, m: MemberId, kind: StreamKind)
    ensures HoldsWord(Init(cfg), m, kind, NOTHING)
  {
  }

  /**
   * What the engine holds of another member at every turn end of every run is the last word on it since they came:
   * who is in the call, whether they speak, send in clear or cannot be decrypted, which constraints the host asked
   * for, which of their streams are up, and which of those are muted.
   */
  lemma {:induction false} TheLastWordIsHeld(cfg: Config, states: seq<State>, msgs: seq<Message>, k: nat, m: MemberId, kind: StreamKind)
    requires Run(cfg, states, msgs) && k < |states|
    ensures HoldsWord(states[k], m, kind, AfterAll(NOTHING, m, kind, Told(msgs[..k])))
  {
    if k == 0 {
      NothingToldYet(cfg, m, kind);
    } else {
      TheLastWordIsHeld(cfg, states, msgs, k - 1, m, kind);
      WordOfTurn(cfg, states, msgs, k - 1, m, kind);
    }
  }

  lemma MembersAreDistinct(cfg: Config, states: seq<State>, msgs: seq<Message>, k: nat)
    requires Run(cfg, states, msgs) && k < |states|
    ensures WellFormed(states[k].roster, states[k].cfg.own)
  {
    EveryTurnKept(cfg, states, msgs, k);
  }

  lemma WordOfTurn(cfg: Config, states: seq<State>, msgs: seq<Message>, n: nat, m: MemberId, kind: StreamKind)
    requires Run(cfg, states, msgs) && n < |msgs|
    requires HoldsWord(states[n], m, kind, AfterAll(NOTHING, m, kind, Told(msgs[..n])))
    ensures HoldsWord(states[n + 1], m, kind, AfterAll(NOTHING, m, kind, Told(msgs[..n + 1])))
  {
    var w := AfterAll(NOTHING, m, kind, Told(msgs[..n]));
    MembersAreDistinct(cfg, states, msgs, n);
    TurnTold(states[n], msgs[n].input, msgs[n].env, m, kind, w, states[n + 1]);
    assert msgs[..n + 1][..n] == msgs[..n];
    AfterConcat(NOTHING, m, kind, Told(msgs[..n]), ReportsIn(msgs[n].input));
  }

  // ---- one stream of each kind -----------------------------------------------------------------------

  ghost predicate DistinctKinds(streams: seq<Stream>) {
    forall i, j :: 0 <= i < j < |streams| ==> streams[i].kind != streams[j].kind
  }

  ghost predicate KindsKept(roster: seq<Participant>) {
    forall i :: 0 <= i < |roster| ==> DistinctKinds(roster[i].streams)
  }

  lemma {:induction false} DroppedKinds(streams: seq<Stream>, kind: StreamKind)
    requires DistinctKinds(streams)
    ensures DistinctKinds(Dropped(streams, kind))
    ensures forall t :: t in Dropped(streams, kind) ==> t in streams
  {
    if streams != [] {
      DroppedKinds(streams[1..], kind);
      var rest := Dropped(streams[1..], kind);
      forall i | 0 <= i < |rest| ensures rest[i].kind != streams[0].kind {
        assert rest[i] in rest;
      }
    }
  }

  lemma {:induction false} RemutedKinds(streams: seq<Stream>, kind: StreamKind, muted: bool)
    ensures var r := Remuted(streams, kind, muted);
      |r| == |streams| && forall i :: 0 <= i < |r| ==> r[i].kind == streams[i].kind
  {
    if streams != [] && streams[0].kind != kind { RemutedKinds(streams[1..], kind, muted); }
  }

  lemma {:induction false} StreamsInKinds(pubs: Publications.Publications, kinds: seq<StreamKind>)
    requires NoDuplicates(kinds)
    ensures DistinctKinds(StreamsIn(pubs, kinds))
  {
    if kinds != [] {
      StreamsInKinds(pubs, kinds[1..]);
      StreamsInMeans(pubs, kinds[1..]);
      var rest := StreamsIn(pubs, kinds[1..]);
      forall i | 0 <= i < |rest| ensures rest[i].kind != kinds[0] {
        assert rest[i] in rest;
      }
    }
  }

  lemma AddedKinds(roster: seq<Participant>, x: MemberId, k: StreamKind, muted: bool)
    requires KindsKept(roster)
    ensures KindsKept(WithStream(roster, x, k, muted))
  {
  }

  lemma RemovedKinds(roster: seq<Participant>, x: MemberId, k: StreamKind)
    requires KindsKept(roster)
    ensures KindsKept(WithoutStream(roster, x, k))
  {
    forall i | 0 <= i < |roster| ensures DistinctKinds(WithoutStream(roster, x, k)[i].streams) {
      DroppedKinds(roster[i].streams, k);
    }
  }

  lemma MutedKinds(roster: seq<Participant>, x: MemberId, k: StreamKind, muted: bool)
    requires KindsKept(roster)
    ensures KindsKept(WithMute(roster, x, k, muted))
  {
    forall i | 0 <= i < |roster| ensures DistinctKinds(WithMute(roster, x, k, muted)[i].streams) {
      RemutedKinds(roster[i].streams, k, muted);
    }
  }

  lemma {:induction false} WelcomedKinds(roster: seq<Participant>, members: seq<Membership>, seeds: Seeds)
    requires KindsKept(roster)
    ensures KindsKept(Welcomed(roster, members, seeds))
  {
    if members != [] {
      WelcomedKinds(roster, members[..|members| - 1], seeds);
      StreamsInKinds(seeds.pubs, KindOrder());
    }
  }

  lemma {:induction false} StayingKinds(roster: seq<Participant>, ids: set<MemberId>)
    requires KindsKept(roster)
    ensures KindsKept(Staying(roster, ids))
  {
    if roster != [] { StayingKinds(roster[..|roster| - 1], ids); }
  }

  lemma {:induction false} PoolKinds(s: State, es: seq<PoolEvent>, env: Env)
    requires KindsKept(s.roster)
    ensures KindsKept(PoolSteps(s, es, env).roster)
  {
    if es != [] {
      var n := |es| - 1;
      PoolKinds(s, es[..n], env);
      var before := PoolSteps(s, es[..n], env);
      StepRoster(before, es[n], env);
      match es[n] {
        case StreamAdded(x, k) => AddedKinds(before.roster, x, k, false);
        case StreamRemoved(x, k) => RemovedKinds(before.roster, x, k);
        case StreamMuted(x, k, muted) => MutedKinds(before.roster, x, k, muted);
        case _ =>
      }
    }
  }

  lemma SnapshotKinds(s: State, members: seq<Membership>, pool: seq<PoolEvent>, env: Env)
    requires KindsKept(s.roster)
    ensures KindsKept(ApplySnapshot(s, members, pool, env).roster)
  {
    StayingKinds(s.roster, MemberIds(members));
    WelcomedKinds(Staying(s.roster, MemberIds(members)), members, SeedsOf(s, env));
    PoolKinds(Reconciled(s, members, env), pool, env);
  }

  lemma HandsKinds(s: State, hands: seq<RaisedHand>, announce: bool, env: Env)
    requires KindsKept(s.roster)
    ensures KindsKept(ApplyHands(s, hands, announce, env).roster)
  {
  }

  lemma LocalKinds(s: State, input: Input, env: Env)
    requires input.LocalPublished? || input.LocalUnpublished? || input.SetLocalMuted?
    requires KindsKept(s.roster)
    ensures KindsKept(Handle(s, input, env).roster)
  {
    match input {
      case LocalPublished(k, muted, track) => AddedKinds(s.roster, s.cfg.own, k, muted);
      case LocalUnpublished(k, track) => RemovedKinds(s.roster, s.cfg.own, k);
      case SetLocalMuted(k, muted) => MutedKinds(s.roster, s.cfg.own, k, muted);
      case _ =>
    }
  }

  lemma HandleKinds(s: State, input: Input, env: Env)
    requires KindsKept(s.roster)
    ensures KindsKept(Handle(s, input, env).roster)
  {
    if input.Start? {
      SnapshotKinds(s, input.members, input.pool, env);
      HandsKinds(ApplySnapshot(s, input.members, input.pool, env), input.hands, false, env);
    } else if input.Members? {
      SnapshotKinds(s, input.members, input.pool, env);
    } else if input.Hands? {
      HandsKinds(s, input.hands, true, env);
    } else if input.FromPool? {
      PoolKinds(s, input.pool, env);
    } else if input.LocalPublished? || input.LocalUnpublished? || input.SetLocalMuted? {
      LocalKinds(s, input, env);
    } else {
      QuietKinds(s, input, env);
    }
  }

  lemma QuietKinds(s: State, input: Input, env: Env)
    requires input.Lapse? || input.SetConstraints? || input.SpeakerTimer? || input.KeyGrace? || input.FlushReorder?
      || input.SetWindow? || input.SetThreshold? || input.Leave?
    ensures Handle(s, input, env).roster == s.roster
  {
  }

  lemma TurnKinds(s: State, input: Input, env: Env)
    requires KindsKept(s.roster)
    ensures KindsKept(Turn(s, input, env).roster)
  {
    HandleKinds(s, input, env);
    TurnFrame(s, input, env);
  }

  /** At every turn end of every run no member, ourselves included, has two streams of a kind. */
  lemma {:induction false} OneStreamOfEachKind(cfg: Config, states: seq<State>, msgs: seq<Message>, k: nat)
    requires Run(cfg, states, msgs) && k < |states|
    ensures KindsKept(states[k].roster)
  {
    if k > 0 {
      OneStreamOfEachKind(cfg, states, msgs, k - 1);
      TurnKinds(states[k - 1], msgs[k - 1].input, msgs[k - 1].env);
    }
  }
}
