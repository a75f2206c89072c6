/** One room: its slot sessions, and the room state they each hold a copy of. */
module Rooms {
  import opened Ordering
  import opened Slots

  datatype Room = Room(
    id: RoomId,
    sessions: map<SlotId, Session>,
    slots: map<SlotId, SlotEvent>,
    slotStateKnown: bool,
    members: Option<set<UserId>>,
    encryption: Option<RoomEncryption>)

  function EncryptionOf(r: Room): RoomEncryption {
    if r.encryption.Some? then r.encryption.value else Unknown
  }

  function ResolvedIn(slots: map<SlotId, SlotEvent>, encryption: RoomEncryption, slot: SlotId): SlotState {
    if slot in slots then Resolve(slots[slot], encryption) else Closed
  }

  function SlotStateOf(r: Room, slot: SlotId): Option<SlotState> {
    if r.slotStateKnown then Some(ResolvedIn(r.slots, EncryptionOf(r), slot)) else None
  }

  /** What a session made now would be seeded with. */
  function ViewOf(r: Room, slot: SlotId): View {
    View(SlotStateOf(r, slot), r.members, EncryptionOf(r))
  }

  // ---- what each call does, on values --------------------------------------------------------

  function WithSlots(sessions: map<SlotId, Session>, slots: map<SlotId, SlotEvent>, encryption: RoomEncryption): map<SlotId, Session> {
    map slot | slot in sessions :: WithSlot(sessions[slot], ResolvedIn(slots, encryption, slot))
  }

  function WithoutSlots(sessions: map<SlotId, Session>): map<SlotId, Session> {
    map slot | slot in sessions :: WithoutSlot(sessions[slot])
  }

  function AllWithEncryption(sessions: map<SlotId, Session>, e: RoomEncryption): map<SlotId, Session> {
    map slot | slot in sessions :: WithEncryption(sessions[slot], e)
  }

  function AllWithMembers(sessions: map<SlotId, Session>, users: set<UserId>): map<SlotId, Session> {
    map slot | slot in sessions :: WithMembers(sessions[slot], users)
  }

  function AllExpired(sessions: map<SlotId, Session>, now: nat): map<SlotId, Session> {
    map slot | slot in sessions :: Expired(sessions[slot], now)
  }

  function PushedSlotState(r: Room): Room {
    if r.slotStateKnown then r.(sessions := WithSlots(r.sessions, r.slots, EncryptionOf(r))) else r
  }

  /** The room's slots, by state key; the last event for a key stands, one for another room is dropped. */
  function SlotMap(id: RoomId, events: seq<SlotEvent>): map<SlotId, SlotEvent> {
    if events == [] then map[]
    else
      var e := events[|events| - 1];
      var before := SlotMap(id, events[..|events| - 1]);
      if e.room == id then before[e.slot := e] else before
  }

  /** The last event for the slot in this room, if there is one. */
  ghost predicate LastFor(id: RoomId, events: seq<SlotEvent>, slot: SlotId, i: nat) {
    && i < |events| && events[i].room == id && events[i].slot == slot
    && forall j :: i < j < |events| ==> !(events[j].room == id && events[j].slot == slot)
  }

  lemma {:induction false} SlotMapMeans(id: RoomId, events: seq<SlotEvent>, slot: SlotId)
    ensures slot in SlotMap(id, events) <==> exists i: nat :: LastFor(id, events, slot, i)
    ensures forall i: nat :: LastFor(id, events, slot, i) ==> SlotMap(id, events)[slot] == events[i]
  {
    if events != [] {
      var n := |events| - 1;
      SlotMapMeans(id, events[..n], slot);
      if events[n].room == id && events[n].slot == slot {
        assert LastFor(id, events, slot, n);
      } else {
        forall i: nat ensures LastFor(id, events, slot, i) <==> LastFor(id, events[..n], slot, i) {
          if LastFor(id, events[..n], slot, i) {
            assert forall j :: i < j < n ==> events[..n][j] == events[j];
          }
          if LastFor(id, events, slot, i) {
            assert forall j :: i < j < n ==> events[..n][j] == events[j];
          }
        }
      }
    }
  }

  function SlotsReceived(r: Room, events: seq<SlotEvent>): Room {
    PushedSlotState(r.(slotStateKnown := true, slots := SlotMap(r.id, events)))
  }

  function SlotsForgotten(r: Room): Room {
    var r' := r.(slotStateKnown := false, slots := map[]);
    if r.slotStateKnown then r'.(sessions := WithoutSlots(r.sessions)) else r'
  }

  function EncryptionReceived(r: Room, encrypted: bool): Room {
    var e := if encrypted then Encrypted else Unencrypted;
    if r.encryption == Some(e) then r
    else
      var r' := PushedSlotState(r.(encryption := Some(e)));
      r'.(sessions := AllWithEncryption(r'.sessions, e))
  }

  function MembersReceived(r: Room, users: set<UserId>): Room {
    r.(members := Some(users), sessions := AllWithMembers(r.sessions, users))
  }

  /** `session_for_slot`: made on the slot's first use, from what the room holds. */
  function SessionMade(r: Room, slot: SlotId): (r': Room)
    ensures slot in r'.sessions && r'.(sessions := r.sessions) == r
  {
    if slot in r.sessions then r else r.(sessions := r.sessions[slot := Fresh(ViewOf(r, slot))])
  }

  function SessionOf(r: Room, slot: SlotId): Session {
    if slot in r.sessions then r.sessions[slot] else Fresh(ViewOf(r, slot))
  }

  /** Sessions made meanwhile for other slots change nothing of it. */
  lemma SessionOfUnmoved(r: Room, sessions: map<SlotId, Session>, slot: SlotId)
    requires slot in sessions <==> slot in r.sessions
    requires slot in sessions ==> sessions[slot] == r.sessions[slot]
    ensures SessionOf(r.(sessions := sessions), slot) == SessionOf(r, slot)
  {
  }

  ghost function PartlyApplied(start: map<SlotId, Session>, goal: map<SlotId, Session>, todo: set<SlotId>): map<SlotId, Session> {
    map slot | slot in start.Keys + (goal.Keys - todo) ::
      if slot in goal && slot !in todo then goal[slot] else start[slot]
  }

  lemma OneMoreApplied(start: map<SlotId, Session>, goal: map<SlotId, Session>, todo: set<SlotId>, slot: SlotId)
    requires slot in todo && todo <= goal.Keys
    ensures var now := PartlyApplied(start, goal, todo);
      && (slot in now <==> slot in start) && (slot in now ==> now[slot] == start[slot])
      && now[slot := goal[slot]] == PartlyApplied(start, goal, todo - {slot})
  {
  }

  lemma BatchesStart(r: Room, batches: map<SlotId, seq<MemberEvent>>, now: nat)
    ensures var todo := r.sessions.Keys + batches.Keys; var goal := WithBatches(r, batches, now);
      goal.Keys == todo && PartlyApplied(r.sessions, goal, todo) == r.sessions
  {
  }

  lemma AllApplied(start: map<SlotId, Session>, goal: map<SlotId, Session>)
    requires start.Keys <= goal.Keys
    ensures PartlyApplied(start, goal, {}) == goal
  {
  }

  /** One entry of the room's sticky map. */
  datatype StickyEvent = Member(room: RoomId, slot: SlotId, event: MemberEvent) | NotMember(room: RoomId) | Malformed(room: RoomId)

  predicate Convertible(id: RoomId, events: seq<StickyEvent>) {
    forall e | e in events && e.room == id :: !e.Malformed?
  }

  /** A state cannot be read exactly when an entry of this room cannot. */
  lemma ReadableMeans(id: RoomId, events: seq<StickyEvent>)
    ensures Convertible(id, events) <==> Malformed(id) !in events
  {
    if !Convertible(id, events) {
      var e :| e in events && e.room == id && e.Malformed?;
      assert e == Malformed(id);
    }
  }

  function Batches(id: RoomId, events: seq<StickyEvent>): map<SlotId, seq<MemberEvent>> {
    if events == [] then map[]
    else
      var e := events[|events| - 1];
      var before := Batches(id, events[..|events| - 1]);
      if e.room == id && e.Member? then before[e.slot := BatchFor(before, e.slot) + [e.event]] else before
  }

  /** The complete sticky state: a session it does not name has lost everybody; a slot it names first gets a session. */
  function StickyStateSet(r: Room, events: seq<StickyEvent>, now: nat): Room {
    if !Convertible(r.id, events) then r
    else
      r.(sessions := WithBatches(r, Batches(r.id, events), now))
  }

  function BatchFor(batches: map<SlotId, seq<MemberEvent>>, slot: SlotId): seq<MemberEvent> {
    if slot in batches then batches[slot] else []
  }

  function WithBatches(r: Room, batches: map<SlotId, seq<MemberEvent>>, now: nat): map<SlotId, Session> {
    map slot | slot in r.sessions.Keys + batches.Keys :: WithState(SessionOf(r, slot), BatchFor(batches, slot), now)
  }

  datatype JoinError = SlotIsClosed | AlreadyJoined | SessionFailed

  function JoinRefused(r: Room, slot: SlotId): Option<JoinError> {
    if SlotStateOf(r, slot) == Some(Closed) then Some(SlotIsClosed)
    else if slot in r.sessions && r.sessions[slot].own.Some? then Some(AlreadyJoined)
    else None
  }

  function JoinedSlot(r: Room, slot: SlotId, own: Own, fate: JoinFate): Room {
    if JoinRefused(r, slot).Some? then r
    else
      var r' := SessionMade(r, slot);
      r'.(sessions := r'.sessions[slot := JoinedAs(r'.sessions[slot], own, fate)])
  }

  function LeftSlot(r: Room, slot: SlotId): Room {
    if slot in r.sessions then r.(sessions := r.sessions[slot := Left(r.sessions[slot])]) else r
  }

  // ---- the room ---------------------------------------------------------------------------------

  class BaseRtcRoom {
    const roomId: RoomId
    var sessions: map<SlotId, Session>
    var slots: map<SlotId, SlotEvent>
    var slotStateKnown: bool
    var roomMembers: Option<set<UserId>>
    var roomEncryption: Option<RoomEncryption>

    function AsRoom(): Room
      reads this
    {
      Room(roomId, sessions, slots, slotStateKnown, roomMembers, roomEncryption)
    }

    constructor (roomId: RoomId)
      ensures AsRoom() == Room(roomId, map[], map[], false, None, None)
    {
      this.roomId := roomId;
      sessions, slots, slotStateKnown, roomMembers, roomEncryption := map[], map[], false, None, None;
    }

    method PushSlotState()
      modifies `sessions
      ensures AsRoom() == PushedSlotState(old(AsRoom()))
    {
      if !slotStateKnown {
        return;
      }
      ghost var start := sessions;
      var encryption := EncryptionOf(AsRoom());
      ghost var goal := WithSlots(start, slots, encryption);
      var todo := sessions.Keys;
      while todo != {}
        invariant todo <= start.Keys && sessions.Keys == start.Keys
        invariant forall slot | slot in start :: sessions[slot] == if slot in todo then start[slot] else goal[slot]
        decreases |todo|
      {
        var slot :| slot in todo;
        var state := if slot in slots then Resolve(slots[slot], encryption) else Closed;
        sessions := sessions[slot := WithSlot(sessions[slot], state)];
        todo := todo - {slot};
      }
      assert sessions == goal;
    }

    method OnSlotsReceived(events: seq<SlotEvent>)
      modifies `sessions, `slots, `slotStateKnown
      ensures AsRoom() == SlotsReceived(old(AsRoom()), events)
    {
      slotStateKnown := true;
      slots := map[];
      for i := 0 to |events|
        invariant slots == SlotMap(roomId, events[..i])
        invariant slotStateKnown && sessions == old(sessions)
      {
        assert events[..i + 1][..i] == events[..i];
        if events[i].room == roomId {
          slots := slots[events[i].slot := events[i]];
        }
      }
      assert events[..|events|] == events;
      PushSlotState();
    }

    method ForgetSlots()
      modifies `sessions, `slots, `slotStateKnown
      ensures AsRoom() == SlotsForgotten(old(AsRoom()))
    {
      var known := slotStateKnown;
      slotStateKnown, slots := false, map[];
      if !known {
        return;
      }
      ghost var start := sessions;
      var todo := sessions.Keys;
      while todo != {}
        invariant todo <= start.Keys && sessions.Keys == start.Keys
        invariant forall slot | slot in start :: sessions[slot] == if slot in todo then start[slot] else WithoutSlot(start[slot])
        invariant !slotStateKnown && slots == map[]
        decreases |todo|
      {
        var slot :| slot in todo;
        sessions := sessions[slot := WithoutSlot(sessions[slot])];
        todo := todo - {slot};
      }
      assert sessions == WithoutSlots(start);
    }

    method OnEncryptionReceived(encrypted: bool)
      modifies `sessions, `roomEncryption
      ensures AsRoom() == EncryptionReceived(old(AsRoom()), encrypted)
    {
      var encryption := if encrypted then Encrypted else Unencrypted;
      var before := roomEncryption;
      roomEncryption := Some(encryption);
      if before == Some(encryption) {
        return;
      }
      PushSlotState();
      ghost var start := sessions;
      var todo := sessions.Keys;
      while todo != {}
        invariant todo <= start.Keys && sessions.Keys == start.Keys
        invariant forall slot | slot in start ::
          sessions[slot] == if slot in todo then start[slot] else WithEncryption(start[slot], encryption)
        invariant roomEncryption == Some(encryption)
        decreases |todo|
      {
        var slot :| slot in todo;
        sessions := sessions[slot := WithEncryption(sessions[slot], encryption)];
        todo := todo - {slot};
      }
      assert sessions == AllWithEncryption(start, encryption);
    }

    method OnMembersReceived(users: set<UserId>)
      modifies `sessions, `roomMembers
      ensures AsRoom() == MembersReceived(old(AsRoom()), users)
    {
      roomMembers := Some(users);
      ghost var start := sessions;
      var todo := sessions.Keys;
      while todo != {}
        invariant todo <= start.Keys && sessions.Keys == start.Keys
        invariant forall slot | slot in start :: sessions[slot] == if slot in todo then start[slot] else WithMembers(start[slot], users)
        invariant roomMembers == Some(users)
        decreases |todo|
      {
        var slot :| slot in todo;
        sessions := sessions[slot := WithMembers(sessions[slot], users)];
        todo := todo - {slot};
      }
      assert sessions == AllWithMembers(start, users);
    }

    method SessionForSlot(slot: SlotId)
      modifies `sessions
      ensures AsRoom() == SessionMade(old(AsRoom()), slot)
    {
      if slot !in sessions {
        sessions := sessions[slot := Fresh(ViewOf(AsRoom(), slot))];
      }
    }

    /** Fails, applying nothing, on a member event it cannot read. */
    method SetCurrentStickyState(events: seq<StickyEvent>, now: nat) returns (ok: bool)
      modifies `sessions
      ensures ok == Convertible(roomId, events)
      ensures ok <==> Malformed(roomId) !in events
      ensures AsRoom() == StickyStateSet(old(AsRoom()), events, now)
    {
      var batches: map<SlotId, seq<MemberEvent>> := map[];
      for i := 0 to |events|
        invariant batches == Batches(roomId, events[..i])
        invariant Convertible(roomId, events[..i])
      {
        assert events[..i + 1][..i] == events[..i];
        var e := events[i];
        if e.room == roomId {
          if e.Malformed? {
            assert e in events && e == Malformed(roomId);
            return false;
          }
          if e.Member? {
            batches := batches[e.slot := BatchFor(batches, e.slot) + [e.event]];
          }
        }
      }
      assert events[..|events|] == events;
      ReadableMeans(roomId, events);
      ApplyBatches(batches, now);
      return true;
    }

    method ApplyBatches(batches: map<SlotId, seq<MemberEvent>>, now: nat)
      modifies `sessions
      ensures sessions == WithBatches(old(AsRoom()), batches, now)
    {
      ghost var start := AsRoom();
      ghost var goal := WithBatches(start, batches, now);
      var todo := sessions.Keys + batches.Keys;
      BatchesStart(start, batches, now);
      while todo != {}
        invariant Progressed(start, goal, todo)
        decreases todo
      {
        var slot :| slot in todo;
        SetCurrentState(slot, BatchFor(batches, slot), now, start, goal, todo);
        todo := todo - {slot};
      }
      AllApplied(start.sessions, goal);
    }

    ghost predicate Progressed(start: Room, goal: map<SlotId, Session>, todo: set<SlotId>)
      reads this
    {
      AsRoom() == start.(sessions := PartlyApplied(start.sessions, goal, todo)) && todo <= goal.Keys
    }

    /** One session's complete state, in a batch that is to end at `goal`. */
    method SetCurrentState(slot: SlotId, events: seq<MemberEvent>, now: nat,
                           ghost start: Room, ghost goal: map<SlotId, Session>, ghost todo: set<SlotId>)
      requires Progressed(start, goal, todo) && slot in todo && goal[slot] == WithState(SessionOf(start, slot), events, now)
      modifies `sessions
      ensures sessions == old(sessions)[slot := WithState(SessionOf(old(AsRoom()), slot), events, now)]
      ensures Progressed(start, goal, todo - {slot})
    {
      OneMoreApplied(start.sessions, goal, todo, slot);
      SessionOfUnmoved(start, sessions, slot);
      SessionForSlot(slot);
      sessions := sessions[slot := WithState(sessions[slot], events, now)];
    }

    /** Ends every hold that is over, in every slot. */
    method ExpireHolds(now: nat)
      modifies `sessions
      ensures AsRoom() == old(AsRoom()).(sessions := AllExpired(old(sessions), now))
    {
      ghost var start := sessions;
      var todo := sessions.Keys;
      while todo != {}
        invariant todo <= start.Keys && sessions.Keys == start.Keys
        invariant forall slot | slot in start :: sessions[slot] == if slot in todo then start[slot] else Expired(start[slot], now)
        decreases todo
      {
        var slot :| slot in todo;
        sessions := sessions[slot := Expired(sessions[slot], now)];
        todo := todo - {slot};
      }
      assert sessions == AllExpired(start, now);
    }

    method JoinWithin(slot: SlotId, own: Own, fate: JoinFate) returns (error: Option<JoinError>)
      modifies `sessions
      ensures AsRoom() == JoinedSlot(old(AsRoom()), slot, own, fate)
      ensures error == if old(JoinRefused(AsRoom(), slot)).Some? then old(JoinRefused(AsRoom(), slot))
                       else if fate.Joins? then None else Some(SessionFailed)
    {
      if SlotStateOf(AsRoom(), slot) == Some(Closed) {
        return Some(SlotIsClosed);
      }
      if slot in sessions && sessions[slot].own.Some? {
        return Some(AlreadyJoined);
      }
      SessionForSlot(slot);
      sessions := sessions[slot := JoinedAs(sessions[slot], own, fate)];
      error := if fate.Joins? then None else Some(SessionFailed);
    }

    method BeginLeave(slot: SlotId) returns (ok: bool)
      modifies `sessions
      ensures AsRoom() == LeftSlot(old(AsRoom()), slot)
      ensures ok <==> slot in old(sessions) && old(sessions)[slot].own.Some?
    {
      if slot !in sessions {
        return false;
      }
      ok := sessions[slot].own.Some?;
      sessions := sessions[slot := Left(sessions[slot])];
    }
  }

  // ---- any order of calls --------------------------------------------------------------------------

  datatype Call =
    | SlotsAre(events: seq<SlotEvent>)
    | Forget
    | EncryptionIs(encrypted: bool)
    | MembersAre(users: set<UserId>)
    | StickyIs(sticky: seq<StickyEvent>, now: nat)
    | ExpireAt(now: nat)
    | Observe(slot: SlotId)
    | Join(slot: SlotId, own: Own, fate: JoinFate)
    | Leave(slot: SlotId)

  function Called(r: Room, c: Call): Room {
    match c
    case SlotsAre(events) => SlotsReceived(r, events)
    case Forget => SlotsForgotten(r)
    case EncryptionIs(encrypted) => EncryptionReceived(r, encrypted)
    case MembersAre(users) => MembersReceived(r, users)
    case StickyIs(events, now) => StickyStateSet(r, events, now)
    case ExpireAt(now) => r.(sessions := AllExpired(r.sessions, now))
    case Observe(slot) => SessionMade(r, slot)
    case Join(slot, own, fate) => JoinedSlot(r, slot, own, fate)
    case Leave(slot) => LeftSlot(r, slot)
  }

  function Run(id: RoomId, calls: seq<Call>): Room {
    if calls == [] then Room(id, map[], map[], false, None, None)
    else Called(Run(id, calls[..|calls| - 1]), calls[|calls| - 1])
  }

  /** Every session sees what a session made now would. */
  ghost predicate RoomKept(r: Room) {
    forall slot | slot in r.sessions :: r.sessions[slot].view == ViewOf(r, slot) && SessionKept(r.sessions[slot])
  }

  lemma PushedKept(r: Room, before: Room)
    requires RoomKept(before) && r.sessions == before.sessions && r.slotStateKnown
    requires r.members == before.members
    ensures var r' := PushedSlotState(r);
      forall slot | slot in r'.sessions ::
        && r'.sessions[slot].view == ViewOf(r, slot).(encryption := EncryptionOf(before))
        && SessionKept(r'.sessions[slot])
  {
    var r' := PushedSlotState(r);
    forall slot | slot in r'.sessions
      ensures r'.sessions[slot].view == ViewOf(r, slot).(encryption := EncryptionOf(before)) && SessionKept(r'.sessions[slot])
    {
      assert before.sessions[slot].view == ViewOf(before, slot);
      WithSlotKept(before.sessions[slot], ResolvedIn(r.slots, EncryptionOf(r), slot));
    }
  }

  lemma EncryptionKept(r: Room, encrypted: bool)
    requires RoomKept(r)
    ensures RoomKept(EncryptionReceived(r, encrypted))
  {
    var e := if encrypted then Encrypted else Unencrypted;
    if r.encryption != Some(e) && r.slotStateKnown {
      PushedKept(r.(encryption := Some(e)), r);
    }
  }

  lemma StickyKept(r: Room, events: seq<StickyEvent>, now: nat)
    requires RoomKept(r)
    ensures RoomKept(StickyStateSet(r, events, now))
  {
    var r' := StickyStateSet(r, events, now);
    if Convertible(r.id, events) {
      forall slot | slot in r'.sessions
        ensures r'.sessions[slot].view == ViewOf(r', slot) && SessionKept(r'.sessions[slot])
      {
        assert slot in r.sessions ==> r.sessions[slot].view == ViewOf(r, slot) && SessionKept(r.sessions[slot]);
        RebuiltHeld(SessionOf(r, slot), BatchFor(Batches(r.id, events), slot), now);
      }
    }
  }

  lemma ExpireKept(r: Room, now: nat)
    requires RoomKept(r)
    ensures RoomKept(r.(sessions := AllExpired(r.sessions, now)))
  {
    var r' := r.(sessions := AllExpired(r.sessions, now));
    forall slot | slot in r'.sessions ensures r'.sessions[slot].view == ViewOf(r', slot) && SessionKept(r'.sessions[slot]) {
      assert r.sessions[slot].view == ViewOf(r, slot) && SessionKept(r.sessions[slot]);
      ExpiredHeld(r.sessions[slot], now);
    }
  }

  lemma SlotsKept(r: Room, events: seq<SlotEvent>)
    requires RoomKept(r)
    ensures RoomKept(SlotsReceived(r, events))
  {
    var told := r.(slotStateKnown := true, slots := SlotMap(r.id, events));
    PushedKept(told, r);
    var r' := SlotsReceived(r, events);
    forall slot | slot in r'.sessions ensures r'.sessions[slot].view == ViewOf(r', slot) && SessionKept(r'.sessions[slot]) {
      assert r'.sessions[slot].view == ViewOf(told, slot);
    }
  }

  lemma ForgetKept(r: Room)
    requires RoomKept(r)
    ensures RoomKept(SlotsForgotten(r))
  {
  }

  lemma MembersKept(r: Room, users: set<UserId>)
    requires RoomKept(r)
    ensures RoomKept(MembersReceived(r, users))
  {
  }

  lemma MadeKept(r: Room, slot: SlotId)
    requires RoomKept(r)
    ensures RoomKept(SessionMade(r, slot))
  {
  }

  /** Replacing one session by another with the same view. */
  lemma ReplacedKept(r: Room, slot: SlotId, s: Session)
    requires RoomKept(r) && slot in r.sessions && s.view == r.sessions[slot].view && SessionKept(s)
    ensures RoomKept(r.(sessions := r.sessions[slot := s]))
  {
  }

  lemma JoinKept(r: Room, slot: SlotId, own: Own, fate: JoinFate)
    requires RoomKept(r)
    ensures RoomKept(JoinedSlot(r, slot, own, fate))
  {
  }

  lemma CallKept(r: Room, c: Call)
    requires RoomKept(r)
    ensures RoomKept(Called(r, c))
  {
    match c {
      case SlotsAre(events) => SlotsKept(r, events);
      case Forget => ForgetKept(r);
      case EncryptionIs(encrypted) => EncryptionKept(r, encrypted);
      case MembersAre(users) => MembersKept(r, users);
      case StickyIs(events, now) => StickyKept(r, events, now);
      case ExpireAt(now) => ExpireKept(r, now);
      case Observe(slot) => MadeKept(r, slot);
      case Join(slot, own, fate) => JoinKept(r, slot, own, fate);
      case Leave(slot) => if slot in r.sessions { ReplacedKept(r, slot, Left(r.sessions[slot])); }
    }
  }

  lemma CalledId(r: Room, c: Call)
    ensures Called(r, c).id == r.id
  {
  }

  lemma {:induction false} RunId(id: RoomId, calls: seq<Call>)
    ensures Run(id, calls).id == id
  {
    if calls != [] {
      RunId(id, calls[..|calls| - 1]);
      CalledId(Run(id, calls[..|calls| - 1]), calls[|calls| - 1]);
    }
  }

  lemma {:induction false} RunKept(id: RoomId, calls: seq<Call>)
    ensures RoomKept(Run(id, calls))
  {
    if calls != [] {
      RunKept(id, calls[..|calls| - 1]);
      CallKept(Run(id, calls[..|calls| - 1]), calls[|calls| - 1]);
    }
  }

  // ---- the results -----------------------------------------------------------------------------------

  /** What the host last said of the room; nothing here depends on any session. */
  datatype Knowledge = Knowledge(slots: Option<map<SlotId, SlotEvent>>, members: Option<set<UserId>>, encryption: RoomEncryption)

  function Said(id: RoomId, calls: seq<Call>): Knowledge {
    if calls == [] then Knowledge(None, None, Unknown)
    else Learned(id, Said(id, calls[..|calls| - 1]), calls[|calls| - 1])
  }

  function Seen(k: Knowledge, slot: SlotId): View {
    View(if k.slots.Some? then Some(ResolvedIn(k.slots.value, k.encryption, slot)) else None, k.members, k.encryption)
  }

  predicate Knows(r: Room, k: Knowledge) {
    && r.members == k.members
    && EncryptionOf(r) == k.encryption
    && r.slotStateKnown == k.slots.Some?
    && (k.slots.Some? ==> r.slots == k.slots.value)
  }

  function Learned(id: RoomId, k: Knowledge, c: Call): Knowledge {
    match c
    case SlotsAre(events) => k.(slots := Some(SlotMap(id, events)))
    case Forget => k.(slots := None)
    case EncryptionIs(encrypted) => k.(encryption := if encrypted then Encrypted else Unencrypted)
    case MembersAre(users) => k.(members := Some(users))
    case _ => k
  }

  lemma KnowsAfter(r: Room, k: Knowledge, c: Call)
    requires Knows(r, k)
    ensures Knows(Called(r, c), Learned(r.id, k, c))
  {
  }

  lemma {:induction false} RoomHoldsWhatWasSaid(id: RoomId, calls: seq<Call>)
    ensures Knows(Run(id, calls), Said(id, calls))
  {
    if calls != [] {
      RunId(id, calls[..|calls| - 1]);
      RoomHoldsWhatWasSaid(id, calls[..|calls| - 1]);
      KnowsAfter(Run(id, calls[..|calls| - 1]), Said(id, calls[..|calls| - 1]), calls[|calls| - 1]);
    }
  }

  /**
   * For every order of calls, and whenever each session was made: a session's view is what the host last said, and who
   * counts is who satisfies MSC4143's conditions against it. Only an earlier participation of our own device can be
   * there against them, and the joined members are exactly right when none is.
   */
  lemma EverySessionSeesTheRoom(id: RoomId, calls: seq<Call>, slot: SlotId, c: Candidate)
    requires slot in Run(id, calls).sessions
    ensures var s := Run(id, calls).sessions[slot]; var v := Seen(Said(id, calls), slot);
      && s.view == v
      && (!Superseded(s.own, c) ==> (c in s.joined <==> c in s.candidates && Counts(v, s.own, c)))
      && (c in s.joined ==> c in s.candidates && Counts(v, None, c))
      && (s.joined == Counting(v, s.own, s.candidates) <==> forall d :: d in s.joined ==> !Superseded(s.own, d))
  {
    RunKept(id, calls);
    RoomHoldsWhatWasSaid(id, calls);
    var s := Run(id, calls).sessions[slot];
    CountingMeans(s.view, s.own, s.candidates, c);
    CountingMeans(s.view, None, s.candidates, c);
    CurrentExactlyWhen(s);
  }

  /**
   * A join whose media keys fail to start leaves the joined members right exactly when no earlier participation of the
   * device counted before it; every other join leaves them right.
   */
  lemma FailedJoinRightExactlyWhen(r: Room, slot: SlotId, own: Own, fate: JoinFate)
    requires RoomKept(r) && slot in r.sessions && JoinRefused(r, slot).None?
    ensures var s, s' := r.sessions[slot], JoinedSlot(r, slot, own, fate).sessions[slot];
      s'.joined == Counting(s'.view, s'.own, s'.candidates) <==>
        (fate.KeysFail? ==> forall c :: c in s.joined ==> !Superseded(Some(own), c))
  {
    var s := r.sessions[slot];
    var s' := JoinedAs(s, own, fate);
    assert SessionKept(s) && s.joined == Counting(s.view, None, s.candidates);
    if fate.KeysFail? {
      CurrentExactlyWhen(s');
    }
  }

  /**
   * The sticky state replaces, for a map with one entry for each member: afterwards a session's candidates are exactly
   * the members whose entry for its slot joins, and those the session had whose entry is a delayed leave not our own.
   */
  lemma StickyStateReplaces(r: Room, events: seq<StickyEvent>, now: nat, slot: SlotId, c: Candidate)
    requires Convertible(r.id, events) && NamedOnce(BatchFor(Batches(r.id, events), slot))
    ensures var r' := StickyStateSet(r, events, now); var batch := BatchFor(Batches(r.id, events), slot);
      && (slot in r'.sessions <==> slot in r.sessions || slot in Batches(r.id, events))
      && (slot in r'.sessions ==>
        var s := SessionOf(r, slot);
        (c in r'.sessions[slot].candidates <==> exists e :: e in batch && Leaves(s, e, c)))
  {
    RebuiltMeans(SessionOf(r, slot), BatchFor(Batches(r.id, events), slot), now, c);
  }

  /**
   * Over every run, a member held when a state comes is on the same hold after it, or on none; and ending holds takes
   * out exactly those whose time is up.
   */
  lemma HoldsEndOnTime(id: RoomId, calls: seq<Call>, slot: SlotId, events: seq<MemberEvent>, now: nat, key: Key)
    requires slot in Run(id, calls).sessions && key in Run(id, calls).sessions[slot].held
    ensures var s := Run(id, calls).sessions[slot];
      && (key in WithState(s, events, now).held ==> WithState(s, events, now).held[key] == s.held[key])
      && Mine(Expired(s, now).candidates, key) == (if s.held[key] <= now then [] else Mine(s.candidates, key))
      && Mine(s.candidates, key) != []
  {
    RunKept(id, calls);
    var s := Run(id, calls).sessions[slot];
    assert SessionKept(s);
    HoldIsNotExtended(s, events, now, key);
    ExpiredMeans(s, now, key);
  }

  /** We are never joined to a slot the room knows to be closed. */
  lemma NeverInAClosedSlot(id: RoomId, calls: seq<Call>, slot: SlotId)
    requires slot in Run(id, calls).sessions && Run(id, calls).sessions[slot].own.Some?
    ensures var k := Said(id, calls);
      k.slots.Some? ==> slot in k.slots.value && Resolve(k.slots.value[slot], k.encryption).Open?
  {
    RunKept(id, calls);
    RoomHoldsWhatWasSaid(id, calls);
  }

  // ---- who we are in a slot ---------------------------------------------------------------------

  /** The slot's session before call `k`. */
  function SessionAt(id: RoomId, calls: seq<Call>, slot: SlotId, k: nat): Session
    requires k <= |calls|
  {
    SessionOf(Run(id, calls[..k]), slot)
  }

  lemma CallAt(id: RoomId, calls: seq<Call>, k: nat)
    requires k < |calls|
    ensures Run(id, calls[..k + 1]) == Called(Run(id, calls[..k]), calls[k]) && Run(id, calls[..k]).id == id
  {
    assert calls[..k + 1][..k] == calls[..k];
    RunId(id, calls[..k]);
  }

  /** The host has told the room its slots, and the slot is not open by them. */
  predicate KnownClosed(k: Knowledge, slot: SlotId) {
    k.slots.Some? && (slot in k.slots.value ==> Resolve(k.slots.value[slot], k.encryption).Closed?)
  }

  lemma ClosedToTheRoom(r: Room, k: Knowledge, slot: SlotId)
    requires Knows(r, k)
    ensures SlotStateOf(r, slot) == Some(Closed) <==> KnownClosed(k, slot)
  {
  }

  lemma ClosedMeansOut(r: Room, slot: SlotId)
    requires RoomKept(r) && SlotStateOf(r, slot) == Some(Closed)
    ensures SessionOf(r, slot).own.None?
  {
  }

  /** The same candidates and holds; and we are who we were, unless the slot is closed now. */
  predicate SameMembers(s: Session, s': Session, closed: bool) {
    s'.candidates == s.candidates && s'.held == s.held && (!closed ==> s'.own == s.own)
  }

  predicate ClosedIn(r: Room, slot: SlotId) {
    SlotStateOf(r, slot) == Some(Closed)
  }

  lemma PushedSession(r: Room, slot: SlotId)
    ensures SameMembers(SessionOf(r, slot), SessionOf(PushedSlotState(r), slot), ClosedIn(r, slot))
  {
  }

  lemma SlotsSession(r: Room, events: seq<SlotEvent>, slot: SlotId)
    ensures var r' := SlotsReceived(r, events); SameMembers(SessionOf(r, slot), SessionOf(r', slot), ClosedIn(r', slot))
  {
    var told := r.(slotStateKnown := true, slots := SlotMap(r.id, events));
    PushedSession(told, slot);
    assert SameMembers(SessionOf(r, slot), SessionOf(told, slot), false);
  }

  lemma EncryptionSession(r: Room, encrypted: bool, slot: SlotId)
    ensures var r' := EncryptionReceived(r, encrypted); SameMembers(SessionOf(r, slot), SessionOf(r', slot), ClosedIn(r', slot))
  {
    var told := r.(encryption := Some(if encrypted then Encrypted else Unencrypted));
    PushedSession(told, slot);
    assert SameMembers(SessionOf(r, slot), SessionOf(told, slot), false);
    assert ClosedIn(PushedSlotState(told), slot) == ClosedIn(told, slot);
  }

  lemma ForgetSession(r: Room, slot: SlotId)
    ensures SameMembers(SessionOf(r, slot), SessionOf(SlotsForgotten(r), slot), false)
  {
  }

  lemma MembersSession(r: Room, users: set<UserId>, slot: SlotId)
    ensures SameMembers(SessionOf(r, slot), SessionOf(MembersReceived(r, users), slot), false)
  {
  }

  lemma MadeSession(r: Room, made: SlotId, slot: SlotId)
    ensures SameMembers(SessionOf(r, slot), SessionOf(SessionMade(r, made), slot), false)
  {
  }

  /** Joining and leaving move nobody's candidates or holds, and us in the one slot only. */
  lemma JoinSession(r: Room, joined: SlotId, own: Own, fate: JoinFate, slot: SlotId)
    ensures SameMembers(SessionOf(r, slot), SessionOf(JoinedSlot(r, joined, own, fate), slot), joined == slot)
  {
  }

  lemma LeaveSession(r: Room, left: SlotId, slot: SlotId)
    ensures SameMembers(SessionOf(r, slot), SessionOf(LeftSlot(r, left), slot), left == slot)
  {
  }

  /** A call that is about no member's entry. */
  lemma OtherCalls(r: Room, c: Call, slot: SlotId)
    requires !c.StickyIs? && !c.ExpireAt?
    ensures SameMembers(SessionOf(r, slot), SessionOf(Called(r, c), slot),
                        ClosedIn(Called(r, c), slot) || (c.Join? && c.slot == slot) || (c.Leave? && c.slot == slot))
  {
    match c {
      case SlotsAre(events) => SlotsSession(r, events, slot);
      case Forget => ForgetSession(r, slot);
      case EncryptionIs(encrypted) => EncryptionSession(r, encrypted, slot);
      case MembersAre(users) => MembersSession(r, users, slot);
      case Observe(made) => MadeSession(r, made, slot);
      case Join(joined, own, fate) => JoinSession(r, joined, own, fate, slot);
      case Leave(left) => LeaveSession(r, left, slot);
    }
  }

  lemma StickyOwn(r: Room, events: seq<StickyEvent>, now: nat, slot: SlotId)
    ensures SessionOf(StickyStateSet(r, events, now), slot).own == SessionOf(r, slot).own
  {
  }

  lemma OwnStays(r: Room, c: Call, slot: SlotId)
    requires SlotStateOf(Called(r, c), slot) != Some(Closed)
    requires !(c.Join? && c.slot == slot) && !(c.Leave? && c.slot == slot)
    ensures SessionOf(Called(r, c), slot).own == SessionOf(r, slot).own
  {
    if c.StickyIs? {
      StickyOwn(r, c.sticky, c.now, slot);
    } else if !c.ExpireAt? {
      OtherCalls(r, c, slot);
    }
  }

  lemma OwnJoins(r: Room, slot: SlotId, own: Own, fate: JoinFate)
    requires SlotStateOf(r, slot) != Some(Closed)
    ensures var o := SessionOf(r, slot).own;
      SessionOf(JoinedSlot(r, slot, own, fate), slot).own == if o.None? && !fate.NotSent? then Some(own) else o
  {
  }

  lemma OwnStep(r: Room, c: Call, slot: SlotId)
    requires RoomKept(r)
    ensures var o, r' := SessionOf(r, slot).own, Called(r, c);
      SessionOf(r', slot).own ==
        if SlotStateOf(r', slot) == Some(Closed) || (c.Leave? && c.slot == slot) then None
        else if c.Join? && c.slot == slot && o.None? && !c.fate.NotSent? then Some(c.own)
        else o
  {
    var r' := Called(r, c);
    CallKept(r, c);
    if SlotStateOf(r', slot) == Some(Closed) {
      ClosedMeansOut(r', slot);
    } else if c.Join? && c.slot == slot {
      OwnJoins(r, slot, c.own, c.fate);
    } else if !(c.Leave? && c.slot == slot) {
      OwnStays(r, c, slot);
    }
  }

  /**
   * For every order of calls, who we are in a slot's session: nobody while the slot is known to be closed and from a
   * leave on, and otherwise whoever the first join since was made as, that was sent.
   */
  lemma OwnIdentity(id: RoomId, calls: seq<Call>, slot: SlotId, k: nat)
    requires k < |calls|
    ensures var c, o := calls[k], SessionAt(id, calls, slot, k).own;
      SessionAt(id, calls, slot, k + 1).own ==
        if KnownClosed(Said(id, calls[..k + 1]), slot) || c == Leave(slot) then None
        else if o.None? && c.Join? && c.slot == slot && !c.fate.NotSent? then Some(c.own)
        else o
  {
    var r := Run(id, calls[..k]);
    CallAt(id, calls, k);
    RunKept(id, calls[..k]);
    RoomHoldsWhatWasSaid(id, calls[..k + 1]);
    ClosedToTheRoom(Called(r, calls[k]), Said(id, calls[..k + 1]), slot);
    OwnStep(r, calls[k], slot);
  }

  /** A join is refused exactly for a slot known to be closed, and otherwise exactly while we are in it already. */
  lemma RefusedExactlyWhen(id: RoomId, calls: seq<Call>, slot: SlotId)
    ensures var r := Run(id, calls); var closed := KnownClosed(Said(id, calls), slot);
      && (JoinRefused(r, slot) == Some(SlotIsClosed) <==> closed)
      && (JoinRefused(r, slot) == Some(AlreadyJoined) <==> !closed && SessionOf(r, slot).own.Some?)
      && JoinRefused(r, slot) != Some(SessionFailed)
  {
    RoomHoldsWhatWasSaid(id, calls);
    ClosedToTheRoom(Run(id, calls), Said(id, calls), slot);
  }

  /** A room that was told of one participation in a slot. */
  function Earlier(id: RoomId, slot: SlotId, c: Candidate): seq<Call> {
    [StickyIs([Member(id, slot, MemberJoined(c))], 0)]
  }

  lemma OneBatch(id: RoomId, slot: SlotId, c: Candidate)
    ensures Batches(id, [Member(id, slot, MemberJoined(c))]) == map[slot := [MemberJoined(c)]]
  {
    var sticky := [Member(id, slot, MemberJoined(c))];
    assert sticky[..0] == [];
    assert Batches(id, []) == map[] && BatchFor(map[], slot) == [];
    assert [] + [MemberJoined(c)] == [MemberJoined(c)];
  }

  lemma OneCandidate(s: Session, c: Candidate)
    requires s == Fresh(View(None, None, Unknown))
    ensures WithState(s, [MemberJoined(c)], 0) == Session(s.view, None, [c], map[], [c])
  {
    assert [MemberJoined(c)][..0] == [] && [c][..0] == [];
    assert Rebuilt(s, [MemberJoined(c)], 0) == Rebuild([c], map[]);
    assert Counting(s.view, None, [c]) == [c];
  }

  lemma EarlierIsJoined(id: RoomId, slot: SlotId, c: Candidate)
    ensures var r := Run(id, Earlier(id, slot, c));
      slot in r.sessions && r.sessions[slot] == Session(View(None, None, Unknown), None, [c], map[], [c])
      && JoinRefused(r, slot).None?
  {
    assert Earlier(id, slot, c)[..0] == [];
    OneBatch(id, slot, c);
    OneCandidate(Fresh(View(None, None, Unknown)), c);
  }

  /** Such a failed join as a run: it keeps counting the earlier participation of that device. */
  lemma FailedJoinLags(id: RoomId, slot: SlotId, c: Candidate, own: Own)
    requires c.sender == own.user && c.device == Some(own.device) && c.memberId != own.memberId
    ensures var r := Run(id, Earlier(id, slot, c) + [Join(slot, own, KeysFail)]);
      slot in r.sessions && c in r.sessions[slot].joined && !Counts(r.sessions[slot].view, r.sessions[slot].own, c)
  {
    var calls := Earlier(id, slot, c) + [Join(slot, own, KeysFail)];
    assert calls[..|calls| - 1] == Earlier(id, slot, c);
    EarlierIsJoined(id, slot, c);
  }
}
