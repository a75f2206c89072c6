/**
 * The call engine's actor as a state machine: one `Turn` per message, each ending in the sync of media state.
 * The media pool is an input: what it reports, which connections are up, which transport calls fail.
 */
module Engine {
  import opened Ordering
  import opened Tiles
  import opened Roster
  import Speakers
  import Reorder
  import Keys
  import Publications

  datatype Config = Config(own: MemberId, delays: Speakers.Delays, coalesce: nat, keyGrace: nat)

  datatype LocalState = LocalState(tile: CallTile, isScreenSharing: bool)

  /** What consumers were last given. */
  datatype Out = Out(participants: seq<Participant>, tiles: TileRoster, local: Option<LocalState>)

  /**
   * The actor's fields. `events` is everything emitted so far; `arrivalIds`, `turn` and `lastTurn`
   * record who else was there when we arrived, how many turns ran, and when the last one did.
   */
  datatype State = State(
    cfg: Config,
    roster: seq<Participant>,
    speech: Speakers.Speech,
    order: Reorder.Order,
    keys: Keys.Keys,
    pubs: Publications.Publications,
    hands: seq<RaisedHand>,
    coreLapsed: bool,
    observedLapse: bool,
    arrived: bool,
    ended: bool,
    window: DetailWindow,
    threshold: nat,
    out: Out,
    events: seq<CallEvent>,
    arrivalIds: set<MemberId>,
    turn: nat,
    lastTurn: nat)

  /** What the outside says during one turn. */
  datatype Env = Env(
    now: nat,
    ownConnection: Connection,
    connections: map<MemberId, Connection>,
    reachable: set<MemberId>,
    refused: set<StreamKind>)

  datatype PoolEvent =
    | StreamAdded(member: MemberId, kind: StreamKind)
    | StreamRemoved(member: MemberId, kind: StreamKind)
    | StreamMuted(member: MemberId, kind: StreamKind, muted: bool)
    | ActiveSpeakers(speakers: set<MemberId>)
    | EncryptionChanged(member: MemberId, frames: Keys.FrameState)
    | ClearSender(member: MemberId)
    | OwnConnectionLost

  datatype Input =
    | Start(members: seq<Membership>, pool: seq<PoolEvent>, hands: seq<RaisedHand>)
    | Lapse(lapsed: bool)
    | Members(members: seq<Membership>, pool: seq<PoolEvent>)
    | Hands(hands: seq<RaisedHand>)
    | FromPool(pool: seq<PoolEvent>)
    | LocalPublished(kind: StreamKind, muted: bool, track: nat)
    | LocalUnpublished(kind: StreamKind, track: nat)
    | SetLocalMuted(kind: StreamKind, muted: bool)
    | SetConstraints(member: MemberId, kind: StreamKind, constraints: Keys.Constraints)
    | SpeakerTimer(timer: Speakers.Timer)
    | KeyGrace(due: nat)
    | FlushReorder(flush: Reorder.Flush)
    | SetWindow(window: DetailWindow)
    | SetThreshold(threshold: nat)
    | Leave

  function Init(cfg: Config): State {
    State(
      cfg, [], Speakers.SILENT, Reorder.EMPTY, Keys.NO_KEYS, map[], [],
      false, false, false, false,
      DetailWindow(0, 0xFFFF_FFFF, {}), 0,
      Out([], TileRoster([], []), None), [], {}, 0, 0)
  }

  // ---- publishing ------------------------------------------------------------------

  function Derived(s: State): seq<CallTile> {
    Derive(s.roster, Speakers.RawSpeaking(s.speech), s.speech.speaking, s.threshold)
  }

  function LocalEntry(roster: seq<Participant>): Option<Participant> {
    if roster == [] then None else if roster[0].isLocal then Some(roster[0]) else LocalEntry(roster[1..])
  }

  predicate SharingScreen(roster: seq<Participant>) {
    var own := LocalEntry(roster);
    own.Some? &&
    var share := FindStream(own.value.streams, ScreenShare);
    share.Some? && !share.value.muted
  }

  function Local(s: State): Option<LocalState> {
    match OwnTile(s.roster, Speakers.RawSpeaking(s.speech))
    case None => None
    case Some(t) => Some(LocalState(t, SharingScreen(s.roster)))
  }

  function PublishTiles(s: State, env: Env): (r: State)
    ensures r.(order := s.order, out := s.out) == s
    ensures r.out.participants == s.out.participants
  {
    var remote := Derived(s);
    var order := Reorder.Publish(s.order, Ids(remote), env.now, s.cfg.coalesce);
    s.(order := order,
       out := s.out.(tiles := Windowed(Reorder.Records(order.held, remote), s.window), local := Local(s)))
  }

  function PublishRoster(s: State, env: Env): (r: State)
    ensures r.(order := s.order, out := s.out) == s
    ensures r.out.participants == s.roster
  {
    PublishTiles(s.(out := s.out.(participants := s.roster)), env)
  }

  /** Puts a new roster in place, publishing it if it differs. */
  function Rostered(s: State, roster: seq<Participant>, env: Env): (r: State)
    ensures r.(order := s.order, out := s.out, roster := s.roster) == s
    ensures r.roster == roster
  {
    if roster == s.roster then s else PublishRoster(s.(roster := roster), env)
  }

  function CloseWindow(s: State, f: Reorder.Flush): (r: State)
    ensures r.(order := s.order, out := s.out) == s
  {
    var remote := Derived(s);
    var order := Reorder.Close(s.order, f, Ids(remote));
    if s.order.pending != Some(f.generation) then s.(order := order)
    else s.(order := order, out := s.out.(tiles := Windowed(remote, s.window), local := Local(s)))
  }

  // ---- the pool's reports ---------------------------------------------------------------

  function SpeakersHeard(s: State, raw: set<MemberId>, env: Env): (r: State)
    ensures r.(order := s.order, out := s.out, speech := s.speech) == s
  {
    var heard := s.(speech := Speakers.ApplyRaw(s.speech, raw, env.now, s.turn, s.cfg.delays));
    if Speakers.RawChanges(s.speech, raw) then PublishTiles(heard, env) else heard
  }

  function PoolStep(s: State, e: PoolEvent, env: Env): (r: State)
    ensures r.(order := s.order, out := s.out, roster := s.roster, speech := s.speech, keys := s.keys, ended := s.ended) == s
    ensures SamePlaces(s.roster, r.roster)
    ensures !e.ActiveSpeakers? ==> r.speech == s.speech
    ensures !e.EncryptionChanged? && !e.ClearSender? ==> r.keys == s.keys
    ensures s.ended ==> r.ended
  {
    match e
    case StreamAdded(m, kind) => Rostered(s, WithStream(s.roster, m, kind, false), env)
    case StreamRemoved(m, kind) => Rostered(s, WithoutStream(s.roster, m, kind), env)
    case StreamMuted(m, kind, muted) => Rostered(s, WithMute(s.roster, m, kind, muted), env)
    case ActiveSpeakers(raw) => SpeakersHeard(s, raw, env)
    case EncryptionChanged(m, frames) => s.(keys := Keys.FrameChanged(s.keys, m, frames, env.now, s.cfg.keyGrace))
    case ClearSender(m) => s.(keys := Keys.SentInClear(s.keys, m))
    case OwnConnectionLost => s.(ended := true)
  }

  function PoolSteps(s: State, es: seq<PoolEvent>, env: Env): (r: State)
    ensures r.(order := s.order, out := s.out, roster := s.roster, speech := s.speech, keys := s.keys, ended := s.ended) == s
    ensures SamePlaces(s.roster, r.roster)
  {
    if es == [] then s else PoolStep(PoolSteps(s, es[..|es| - 1], env), es[|es| - 1], env)
  }

  // ---- membership and hands ------------------------------------------------------------------

  function Gone(s: State, members: seq<Membership>): set<MemberId> {
    IdsOf(s.roster) - MemberIds(members)
  }

  /** What a joiner's entry is built from, besides their membership. */
  function SeedsOf(s: State, env: Env): Seeds {
    Seeds(s.cfg.own, s.hands, s.pubs, env.reachable)
  }

  /** The roster becomes the snapshot's members; everything kept about those who left goes with them. */
  function Reconciled(s: State, members: seq<Membership>, env: Env): State {
    var withUs := s.cfg.own in MemberIds(members);
    var seeds := SeedsOf(s, env);
    var roster := Snapshot(s.roster, members, seeds);
    s.(arrived := s.arrived || withUs,
       observedLapse := (s.arrived || withUs) && !withUs,
       roster := roster,
       events := s.events + SnapshotEvents(s.roster, members, seeds, s.arrived && !s.ended),
       speech := Speakers.Remove(s.speech, Gone(s, members)),
       keys := Keys.Forget(s.keys, Gone(s, members)),
       arrivalIds := if !s.arrived && withUs then Others(roster, s.cfg.own) else s.arrivalIds)
  }

  function Renumbered(s: State): State {
    s.(roster := WithPositions(s.roster, s.hands))
  }

  function ApplySnapshot(s: State, members: seq<Membership>, pool: seq<PoolEvent>, env: Env): (r: State)
    ensures r.cfg == s.cfg && r.pubs == s.pubs
  {
    PublishRoster(Renumbered(PoolSteps(Reconciled(s, members, env), pool, env)), env)
  }

  /** A new hand set; positions are renumbered only when a rostered time changed. */
  function ApplyHands(s: State, hands: seq<RaisedHand>, announce: bool, env: Env): (r: State)
    ensures r.cfg == s.cfg && r.speech == s.speech && r.keys == s.keys && r.pubs == s.pubs
  {
    var next := s.(hands := hands);
    if WithHands(s.roster, hands) == s.roster then next
    else
      PublishRoster(Renumbered(next.(
        roster := WithHands(s.roster, hands),
        events := s.events + if announce && s.arrived && !s.ended then HandEvents(s.roster, hands) else [])), env)
  }

  // ---- one turn ----------------------------------------------------------------------------------

  predicate Lapsed(s: State) {
    (s.coreLapsed || s.observedLapse) && !s.ended
  }

  function Started(s: State, members: seq<Membership>, pool: seq<PoolEvent>, hands: seq<RaisedHand>, env: Env): State {
    ApplyHands(ApplySnapshot(s, members, pool, env), hands, false, env)
  }

  function PublishedOwn(s: State, kind: StreamKind, muted: bool, track: nat, env: Env): (r: State)
    ensures r.speech == s.speech && r.keys == s.keys && r.events == s.events
  {
    Rostered(
      s.(pubs := Publications.Published(s.pubs, kind, muted, track)),
      WithStream(s.roster, s.cfg.own, kind, muted), env)
  }

  function UnpublishedOwn(s: State, kind: StreamKind, track: nat, env: Env): (r: State)
    ensures r.speech == s.speech && r.keys == s.keys && r.events == s.events
  {
    if !Publications.Retracts(s.pubs, kind, track) then s
    else Rostered(
      s.(pubs := Publications.Unpublished(s.pubs, kind, track)),
      WithoutStream(s.roster, s.cfg.own, kind), env)
  }

  function MutedOwn(s: State, kind: StreamKind, muted: bool, env: Env): (r: State)
    ensures r.speech == s.speech && r.keys == s.keys && r.events == s.events
  {
    var accepted := kind in s.pubs && kind !in env.refused;
    if !accepted then s
    else Rostered(
      s.(pubs := Publications.Muted(s.pubs, kind, muted, Lapsed(s), accepted)),
      WithMute(s.roster, s.cfg.own, kind, muted), env)
  }

  function TimerFired(s: State, t: Speakers.Timer, env: Env): State {
    var fired := s.(speech := Speakers.Fire(s.speech, t));
    if fired.speech.speaking == s.speech.speaking then fired else PublishTiles(fired, env)
  }

  function WindowMoved(s: State, w: DetailWindow, env: Env): (r: State)
    ensures r.speech == s.speech && r.keys == s.keys && r.events == s.events
  {
    PublishTiles(s.(window := w), env)
  }

  function ThresholdMoved(s: State, n: nat, env: Env): (r: State)
    ensures r.speech == s.speech && r.keys == s.keys && r.events == s.events
  {
    PublishTiles(s.(threshold := n), env)
  }

  function Handle(s: State, input: Input, env: Env): (r: State)
    ensures r.cfg == s.cfg
    ensures !input.LocalPublished? && !input.LocalUnpublished? && !input.SetLocalMuted? ==> r.pubs == s.pubs
  {
    match input
    case Start(members, pool, hands) => Started(s, members, pool, hands, env)
    case Lapse(lapsed) => s.(coreLapsed := lapsed)
    case Members(members, pool) => ApplySnapshot(s, members, pool, env)
    case Hands(hands) => ApplyHands(s, hands, true, env)
    case FromPool(pool) => PoolSteps(s, pool, env)
    case LocalPublished(kind, muted, track) => PublishedOwn(s, kind, muted, track, env)
    case LocalUnpublished(kind, track) => UnpublishedOwn(s, kind, track, env)
    case SetLocalMuted(kind, muted) => MutedOwn(s, kind, muted, env)
    case SetConstraints(m, kind, c) => s.(keys := Keys.SetConstraints(s.keys, m, kind, c))
    case SpeakerTimer(t) => TimerFired(s, t, env)
    case KeyGrace(due) => s.(keys := Keys.Woken(s.keys, due))
    case FlushReorder(f) => CloseWindow(s, f)
    case SetWindow(w) => WindowMoved(s, w, env)
    case SetThreshold(n) => ThresholdMoved(s, n, env)
    case Leave => s.(ended := true)
  }

  function Synced(s: State, env: Env): (r: seq<Participant>)
    ensures SamePlaces(s.roster, r)
  {
    seq(|s.roster|, i requires 0 <= i < |s.roster| =>
      var p := s.roster[i];
      if p.isLocal then p.(connection := env.ownConnection, unable := None)
      else p.(
        connection := if p.id in env.connections then env.connections[p.id] else Connected,
        unable := Keys.UnableOf(s.keys, p.id, p.streams != [], env.now, s.cfg.keyGrace)))
  }

  /** `sync_media_state`, the end of every turn. */
  function Sync(s: State, env: Env): State {
    var synced := Rostered(s, Synced(s, env), env);
    synced.(pubs := Publications.Paused(synced.pubs, Lapsed(synced), env.refused))
  }

  function Turn(s: State, input: Input, env: Env): State {
    Sync(Handle(s, input, env), env).(turn := s.turn + 1, lastTurn := env.now)
  }

  predicate Quiet(pool: seq<PoolEvent>) {
    forall e :: e in pool ==> !e.ActiveSpeakers?
  }

  /**
   * What can arrive: timers that are in flight and due, hands in the producer's order. The pool's answer to a
   * snapshot is buffered media and keys; speaker updates only come from a connection.
   */
  ghost predicate Admissible(s: State, input: Input, env: Env) {
    && s.lastTurn <= env.now
    && match input
       case Start(_, pool, hands) => Quiet(pool) && Queue(hands)
       case Members(_, pool) => Quiet(pool)
       case Hands(hands) => Queue(hands)
       case SpeakerTimer(t) => t in s.speech.timers && t.due <= env.now
       case KeyGrace(due) => due in s.keys.wakeups && due <= env.now
       case FlushReorder(f) => f in s.order.flushes && f.due <= env.now
       case _ => true
  }
}
