/** The client's one to-device subscription, shared by every open room. */
module ToDevice {
  import opened Ordering

  type RoomId = string
  type OpenId = nat

  // ---- what the rooms share -----------------------------------------------------------

  /**
   * The registry, each room with the open that registered it; whether the subscription is held; and how many feeders
   * have been started and not stopped.
   */
  datatype Shared = Shared(registry: map<RoomId, OpenId>, running: bool, feeders: int)

  function Unregistered(s: Shared, room: RoomId): Shared {
    s.(registry := s.registry - {room})
  }

  /** `release`: forgets the room, and stops the subscription with the last one. */
  function Released(s: Shared, room: RoomId): Shared {
    var s' := Unregistered(s, room);
    if s'.registry == map[] && s.running then s'.(running := false, feeders := s.feeders - 1) else s'
  }

  function Registered(s: Shared, room: RoomId, id: OpenId): Shared {
    s.(registry := s.registry[room := id])
  }

  function Started(s: Shared): Shared {
    s.(running := true, feeders := s.feeders + 1)
  }

  /** What every room of a client shares. */
  class ClientShared {
    var registry: map<RoomId, OpenId>
    var toDevice: bool
    var feeders: int

    function AsShared(): Shared
      reads this
    {
      Shared(registry, toDevice, feeders)
    }

    constructor ()
      ensures AsShared() == Shared(map[], false, 0)
    {
      registry, toDevice, feeders := map[], false, 0;
    }

    method Release(room: RoomId)
      modifies this
      ensures AsShared() == Released(old(AsShared()), room)
    {
      registry := registry - {room};
      if registry == map[] && toDevice {
        toDevice, feeders := false, feeders - 1;
      }
    }

    /** Refused while the room has a live entry; `live` says which registered opens are. */
    method Register(room: RoomId, id: OpenId, live: set<OpenId>) returns (needsToDevice: Option<bool>)
      modifies this
      ensures needsToDevice == if room in old(registry) && old(registry)[room] in live then None else Some(!toDevice)
      ensures AsShared() == if needsToDevice.None? then old(AsShared()) else Registered(old(AsShared()), room, id)
    {
      if room in registry && registry[room] in live {
        return None;
      }
      registry := registry[room := id];
      needsToDevice := Some(!toDevice);
    }

    method Start()
      modifies this
      ensures AsShared() == Started(old(AsShared()))
    {
      toDevice, feeders := true, feeders + 1;
    }
  }

  /** One open room; detaching it twice is detaching it once. */
  class RoomHandle {
    const room: RoomId
    const client: ClientShared
    var attached: bool

    constructor (room: RoomId, client: ClientShared)
      ensures attached && this.room == room && this.client == client
    {
      this.room, this.client, attached := room, client, true;
    }

    method Detach()
      modifies this, client
      ensures !attached
      ensures client.AsShared() == if old(attached) then Released(old(client.AsShared()), room) else old(client.AsShared())
    {
      if attached {
        attached := false;
        client.Release(room);
      }
    }
  }

  // ---- opening and closing rooms, in any interleaving -----------------------------------------

  /** Where the open that holds the opening lock is: at one of its two awaits, or about to free the lock. */
  datatype OpenPhase = Starting | Attaching | Leaving

  datatype Opener = Opener(id: OpenId, room: RoomId, phase: OpenPhase)

  datatype World = World(
    shared: Shared,
    waiting: map<OpenId, RoomId>,
    opener: Option<Opener>,
    handles: map<OpenId, RoomId>,
    used: set<OpenId>)

  /** What can happen next; cancelling means the caller drops the open at whatever await it is at. */
  datatype Action =
    | Call(id: OpenId, room: RoomId)
    | TakeLock(id: OpenId)
    | StartEnds(ok: bool)
    | AttachEnds(ok: bool)
    | Cancel(id: OpenId)
    | FreeLock
    | Detach(id: OpenId)

  /** Somebody holds the room's state: the open itself, or the handle it became. */
  predicate Live(w: World, id: OpenId) {
    id in w.handles || (w.opener.Some? && w.opener.value.id == id && !w.opener.value.phase.Leaving?)
  }

  predicate Enabled(w: World, a: Action) {
    match a
    case Call(id, _) => id !in w.used
    case TakeLock(id) => id in w.waiting && w.opener.None?
    case StartEnds(_) => w.opener.Some? && w.opener.value.phase.Starting?
    case AttachEnds(_) => w.opener.Some? && w.opener.value.phase.Attaching?
    case Cancel(id) => id in w.waiting || (w.opener.Some? && w.opener.value.id == id && !w.opener.value.phase.Leaving?)
    case FreeLock => w.opener.Some? && w.opener.value.phase.Leaving?
    case Detach(_) => true
  }

  /** An unfinished open undoes its registration before it frees the lock. */
  function Abandoned(w: World): World
    requires w.opener.Some?
  {
    w.(shared := Released(w.shared, w.opener.value.room), opener := Some(w.opener.value.(phase := Leaving)))
  }

  function Step(w: World, a: Action): World
    requires Enabled(w, a)
  {
    match a
    case Call(id, room) => w.(waiting := w.waiting[id := room], used := w.used + {id})
    case TakeLock(id) =>
      var room := w.waiting[id];
      var w' := w.(waiting := w.waiting - {id});
      if room in w.shared.registry && Live(w, w.shared.registry[room]) then
        w'.(opener := Some(Opener(id, room, Leaving)))
      else
        w'.(shared := Registered(w.shared, room, id),
            opener := Some(Opener(id, room, if w.shared.running then Attaching else Starting)))
    case StartEnds(ok) =>
      if ok then w.(shared := Started(w.shared), opener := Some(w.opener.value.(phase := Attaching)))
      else Abandoned(w)
    case AttachEnds(ok) =>
      if ok then w.(handles := w.handles[w.opener.value.id := w.opener.value.room], opener := Some(w.opener.value.(phase := Leaving)))
      else Abandoned(w)
    case Cancel(id) => if id in w.waiting then w.(waiting := w.waiting - {id}) else Abandoned(w)
    case FreeLock => w.(opener := None)
    case Detach(id) =>
      if id !in w.handles then w
      else w.(handles := w.handles - {id}, shared := Released(w.shared, w.handles[id]))
  }

  ghost function Run(w: World, run: seq<Action>): Option<World> {
    if run == [] then Some(w)
    else
      var before := Run(w, run[..|run| - 1]);
      if before.Some? && Enabled(before.value, run[|run| - 1]) then Some(Step(before.value, run[|run| - 1])) else None
  }

  const NOTHING_OPEN := World(Shared(map[], false, 0), map[], None, map[], {})

  // ---- what every step keeps -----------------------------------------------------------------

  predicate Active(w: World) {
    w.opener.Some? && !w.opener.value.phase.Leaving?
  }

  /** The registry holds exactly the handles' rooms and the one being opened, each under its own open. */
  ghost predicate RegistryKept(w: World) {
    && (forall room | room in w.shared.registry ::
      var id := w.shared.registry[room];
      (id in w.handles && w.handles[id] == room) || (Active(w) && w.opener.value.id == id && w.opener.value.room == room))
    && (forall id | id in w.handles :: w.handles[id] in w.shared.registry && w.shared.registry[w.handles[id]] == id)
    && (Active(w) ==> w.opener.value.room in w.shared.registry && w.shared.registry[w.opener.value.room] == w.opener.value.id)
  }

  /** Every open is in one place only. */
  ghost predicate IdsKept(w: World) {
    && w.handles.Keys <= w.used && w.waiting.Keys <= w.used
    && w.handles.Keys !! w.waiting.Keys
    && (w.opener.Some? ==> w.opener.value.id in w.used && w.opener.value.id !in w.waiting)
    && (Active(w) ==> w.opener.value.id !in w.handles)
  }

  /** Exactly as needed: for the open rooms, and for the one that is attaching. */
  predicate Needed(w: World) {
    w.handles != map[] || (w.opener.Some? && w.opener.value.phase.Attaching?)
  }

  ghost predicate RunningKept(w: World) {
    && (w.shared.running <==> Needed(w))
    && w.shared.feeders == (if w.shared.running then 1 else 0)
    && (w.opener.Some? && w.opener.value.phase.Starting? ==> !w.shared.running)
  }

  ghost predicate Kept(w: World) {
    RegistryKept(w) && IdsKept(w) && RunningKept(w)
  }

  /** Nothing is registered exactly when no handle is open and nobody is opening. */
  lemma EmptyMeansNobody(w: World)
    requires RegistryKept(w)
    ensures w.shared.registry == map[] <==> w.handles == map[] && !Active(w)
  {
  }

  lemma AbandonedKept(w: World)
    requires Kept(w) && Active(w)
    ensures Kept(Abandoned(w))
  {
  }

  lemma DetachKept(w: World, id: OpenId)
    requires Kept(w) && id in w.handles
    ensures Kept(Step(w, Detach(id)))
  {
  }

  lemma TakeLockKept(w: World, id: OpenId)
    requires Kept(w) && Enabled(w, TakeLock(id))
    ensures Kept(Step(w, TakeLock(id)))
  {
  }

  lemma StepKept(w: World, a: Action)
    requires Kept(w) && Enabled(w, a)
    ensures Kept(Step(w, a))
  {
    match a {
      case TakeLock(id) => TakeLockKept(w, id);
      case StartEnds(ok) => if !ok { AbandonedKept(w); }
      case AttachEnds(ok) => if !ok { AbandonedKept(w); }
      case Cancel(id) => if id !in w.waiting { AbandonedKept(w); }
      case Detach(id) => if id in w.handles { DetachKept(w, id); }
      case _ =>
    }
  }

  lemma {:induction false} RunKept(run: seq<Action>)
    requires Run(NOTHING_OPEN, run).Some?
    ensures Kept(Run(NOTHING_OPEN, run).value)
  {
    if run != [] {
      RunKept(run[..|run| - 1]);
      StepKept(Run(NOTHING_OPEN, run[..|run| - 1]).value, run[|run| - 1]);
    }
  }

  // ---- the results ---------------------------------------------------------------------------

  /**
   * In every interleaving of opens, each cancellable at any await, and closes: the subscription runs whenever a handle
   * is open, is stopped whenever nothing is registered, and is never started twice.
   */
  lemma SubscribedExactlyAsNeeded(run: seq<Action>)
    requires Run(NOTHING_OPEN, run).Some?
    ensures var w := Run(NOTHING_OPEN, run).value;
      && (w.handles != map[] ==> w.shared.running)
      && (w.shared.registry == map[] ==> !w.shared.running)
      && (w.opener.None? ==> (w.shared.running <==> w.handles != map[]))
      && w.shared.feeders == (if w.shared.running then 1 else 0)
  {
    RunKept(run);
    EmptyMeansNobody(Run(NOTHING_OPEN, run).value);
  }

  /** No room has two handles, and a room with a handle cannot be opened. */
  lemma OneHandlePerRoom(run: seq<Action>, a: OpenId, b: OpenId)
    requires Run(NOTHING_OPEN, run).Some?
    requires var w := Run(NOTHING_OPEN, run).value; a in w.handles && b in w.handles && w.handles[a] == w.handles[b]
    ensures a == b
  {
    RunKept(run);
  }

  /**
   * An open that gets the lock is refused exactly when a handle has the room, and then nothing is changed; otherwise it
   * goes on, and starts the subscription first exactly when no handle is open.
   */
  lemma RefusedExactlyWhenOpen(run: seq<Action>, id: OpenId)
    requires Run(NOTHING_OPEN, run).Some? && Enabled(Run(NOTHING_OPEN, run).value, TakeLock(id))
    ensures var w := Run(NOTHING_OPEN, run).value; var w' := Step(w, TakeLock(id));
      && w'.handles == w.handles && w'.opener.Some? && w'.opener.value.id == id && w'.opener.value.room == w.waiting[id]
      && (w'.opener.value.phase.Leaving? <==> exists h :: h in w.handles && w.handles[h] == w.waiting[id])
      && (w'.opener.value.phase.Leaving? ==> w'.shared == w.shared)
      && (!w'.opener.value.phase.Leaving? ==> (w'.opener.value.phase.Starting? <==> w.handles == map[]))
  {
    RunKept(run);
  }

  /** An open that is let through its awaits is a handle in the end, and closing it frees its room and no other. */
  lemma OpenedUntilClosed(run: seq<Action>, a: Action)
    requires Run(NOTHING_OPEN, run).Some? && Enabled(Run(NOTHING_OPEN, run).value, a)
    ensures var w := Run(NOTHING_OPEN, run).value; var w' := Step(w, a);
      && (a == StartEnds(true) ==> w'.opener == Some(w.opener.value.(phase := Attaching)) && w'.shared.running && w'.handles == w.handles)
      && (a == AttachEnds(true) ==> w'.handles == w.handles[w.opener.value.id := w.opener.value.room] && !Active(w'))
      && (a.Detach? && a.id in w.handles ==>
            && w'.handles == w.handles - {a.id} && w.handles[a.id] !in w'.shared.registry
            && forall room | room in w.shared.registry && room != w.handles[a.id] ::
                 room in w'.shared.registry && w'.shared.registry[room] == w.shared.registry[room])
      && (a.Detach? && a.id !in w.handles ==> w' == w)
      && (!a.Detach? && a != AttachEnds(true) ==> w'.handles == w.handles)
  {
    RunKept(run);
  }

  /** A failed or cancelled open leaves nothing behind: the room is free, and only open rooms are served. */
  lemma CancelledLeavesNothing(run: seq<Action>)
    requires Run(NOTHING_OPEN, run).Some? && Active(Run(NOTHING_OPEN, run).value)
    ensures var w := Run(NOTHING_OPEN, run).value; var w' := Abandoned(w);
      && w'.handles == w.handles
      && w.opener.value.room !in w'.shared.registry
      && (w'.shared.running <==> w.handles != map[])
      && (forall room | room in w.shared.registry && room != w.opener.value.room ::
        room in w'.shared.registry && w'.shared.registry[room] == w.shared.registry[room])
  {
    RunKept(run);
    AbandonedKept(Run(NOTHING_OPEN, run).value);
  }

  /** Closing any of the other rooms while one is attaching does not take the subscription from it. */
  lemma {:induction false} ClosingSparesTheOpener(w: World, run: seq<Action>)
    requires Kept(w) && w.opener.Some? && w.opener.value.phase.Attaching?
    requires forall k | 0 <= k < |run| :: run[k].Detach? || run[k].Call?
    requires Run(w, run).Some?
    ensures Kept(Run(w, run).value) && Run(w, run).value.opener == w.opener && Run(w, run).value.shared.running
  {
    if run != [] {
      ClosingSparesTheOpener(w, run[..|run| - 1]);
      assert run[|run| - 1].Detach? || run[|run| - 1].Call?;
      StepKept(Run(w, run[..|run| - 1]).value, run[|run| - 1]);
    }
  }
}
