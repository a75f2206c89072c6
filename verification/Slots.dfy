/** Room-state slots, and what a slot session derives from the room state it is given. */
module Slots {
  import opened Ordering

  type RoomId = string
  type SlotId = string
  type UserId = string

  // ---- slots --------------------------------------------------------------------------

  datatype SlotStatus = StatusOpen | StatusClosed | StatusUnknown(name: string)

  datatype RoomEncryption = Unknown | Encrypted | Unencrypted

  datatype Mechanism = PerMember | Unsupported(name: string)

  /** An `m.rtc.slot` event: its state key is the slot's id; everything in its content is optional. */
  datatype SlotEvent = SlotEvent(
    room: RoomId, slot: SlotId, status: Option<SlotStatus>, application: Option<string>, encryption: Option<string>)

  datatype SlotState = Open(application: string, mechanism: Option<Mechanism>) | Closed

  function MechanismOf(encryptionType: string): Mechanism {
    if encryptionType == "m.per_member" || encryptionType == "org.matrix.msc4143.per_member" then PerMember
    else Unsupported(encryptionType)
  }

  predicate StartsWith(s: string, prefix: string) {
    |prefix| <= |s| && s[..|prefix|] == prefix
  }

  function Resolve(e: SlotEvent, encryption: RoomEncryption): SlotState {
    if e.status != Some(StatusOpen) then Closed
    else if e.application.None? || e.application.value == "" then Closed
    else if !StartsWith(e.slot, e.application.value + "#") then Closed
    else
      var declared := if e.encryption.Some? then Some(MechanismOf(e.encryption.value)) else None;
      match encryption
      case Encrypted => if declared == Some(PerMember) then Open(e.application.value, declared) else Closed
      case Unencrypted => Open(e.application.value, None)
      case Unknown => Open(e.application.value, declared)
  }

  /**
   * MSC4143's rules in both directions: a slot is open exactly when its event says so, names an application its state
   * key starts with, and, in an encrypted room, a mechanism we implement; it is then encrypted by that mechanism in an
   * encrypted room and not at all in an unencrypted one.
   */
  lemma ResolvedByTheRoom(e: SlotEvent, encryption: RoomEncryption)
    ensures var r := Resolve(e, encryption);
      && (r.Open? <==>
        && e.status == Some(StatusOpen)
        && e.application.Some? && e.application.value != "" && StartsWith(e.slot, e.application.value + "#")
        && (encryption.Encrypted? ==>
              e.encryption.Some? && e.encryption.value in {"m.per_member", "org.matrix.msc4143.per_member"}))
      && (r.Open? ==> r.application == e.application.value)
      && (r.Open? && encryption.Encrypted? ==> r.mechanism == Some(PerMember))
      && (r.Open? && encryption.Unencrypted? ==> r.mechanism == None)
      && (r.Open? && encryption.Unknown? ==> (r.mechanism.Some? <==> e.encryption.Some?))
  {
  }

  // ---- a slot's session ------------------------------------------------------------------

  /** A join-shaped member event that is still sticky. */
  datatype Candidate = Candidate(
    sender: UserId, stickyKey: string, memberId: string, device: Option<string>, encrypted: Option<bool>)

  /** A member of a slot: who sent the event, under which sticky key. */
  datatype Key = Key(sender: UserId, stickyKey: string)

  function KeyOf(c: Candidate): Key {
    Key(c.sender, c.stickyKey)
  }

  /** Who we are in the session's current join. */
  datatype Own = Own(user: UserId, device: string, memberId: string)

  /** What a session is told of the room; no slot state at all is not the same as a closed slot. */
  datatype View = View(slot: Option<SlotState>, members: Option<set<UserId>>, encryption: RoomEncryption)

  /** `held` are the candidates whose delayed leave fired, and until when they are kept for a return. */
  datatype Session = Session(
    view: View, own: Option<Own>, candidates: seq<Candidate>, held: map<Key, nat>, joined: seq<Candidate>)

  /** An earlier participation of the very device we are joined with. */
  predicate Superseded(own: Option<Own>, c: Candidate) {
    own.Some? && c.sender == own.value.user && c.device == Some(own.value.device) && c.memberId != own.value.memberId
  }

  /** MSC4143's join conditions, as far as the session can evaluate them. */
  predicate Counts(v: View, own: Option<Own>, c: Candidate) {
    && v.slot != Some(Closed)
    && !(v.encryption.Encrypted? && c.encrypted == Some(false))
    && !Superseded(own, c)
    && (v.members.Some? ==> c.sender in v.members.value)
  }

  function Counting(v: View, own: Option<Own>, candidates: seq<Candidate>): seq<Candidate> {
    if candidates == [] then []
    else
      var n := |candidates| - 1;
      Counting(v, own, candidates[..n]) + if Counts(v, own, candidates[n]) then [candidates[n]] else []
  }

  /**
   * Exactly the candidates that satisfy every condition: the slot is not known to be closed, an encrypted room's member
   * does not send in clear, it is not an earlier participation of the very device we are joined with, and its sender is
   * in the room as far as the room's members are known.
   */
  lemma {:induction false} CountingMeans(v: View, own: Option<Own>, candidates: seq<Candidate>, c: Candidate)
    ensures c in Counting(v, own, candidates) <==> c in candidates && Counts(v, own, c)
    ensures Counts(v, own, c) <==>
      && !(v.slot.Some? && v.slot.value.Closed?)
      && (v.encryption == Encrypted ==> c.encrypted != Some(false))
      && (own.Some? && own.value.user == c.sender && Some(own.value.device) == c.device ==> own.value.memberId == c.memberId)
      && (forall users :: v.members == Some(users) ==> c.sender in users)
  {
    if candidates != [] {
      var n := |candidates| - 1;
      CountingMeans(v, own, candidates[..n], c);
      assert candidates == candidates[..n] + [candidates[n]];
    }
  }

  /** Taking on an identity changes nothing where it supersedes nobody who counts. */
  lemma {:induction false} NobodySuperseded(v: View, own: Option<Own>, candidates: seq<Candidate>)
    requires forall c :: c in Counting(v, None, candidates) ==> !Superseded(own, c)
    ensures Counting(v, own, candidates) == Counting(v, None, candidates)
  {
    if candidates != [] {
      var n := |candidates| - 1;
      var front := Counting(v, None, candidates[..n]);
      forall c | c in front ensures !Superseded(own, c) {
        assert c in Counting(v, None, candidates);
      }
      NobodySuperseded(v, own, candidates[..n]);
      if Counts(v, None, candidates[n]) {
        assert candidates[n] in Counting(v, None, candidates);
      }
    }
  }

  function Refreshed(s: Session): Session {
    s.(joined := Counting(s.view, s.own, s.candidates))
  }

  function Left(s: Session): Session {
    if s.own.None? then s else Refreshed(s.(own := None))
  }

  /** Closing the slot under our own join leaves it. */
  function WithSlot(s: Session, slot: SlotState): Session {
    if s.view.slot == Some(slot) then s
    else
      var s' := s.(view := s.view.(slot := Some(slot)));
      if slot.Closed? && s.own.Some? then Left(s') else Refreshed(s')
  }

  function WithoutSlot(s: Session): Session {
    if s.view.slot.None? then s else Refreshed(s.(view := s.view.(slot := None)))
  }

  function WithEncryption(s: Session, e: RoomEncryption): Session {
    if s.view.encryption == e then s else Refreshed(s.(view := s.view.(encryption := e)))
  }

  function WithMembers(s: Session, users: set<UserId>): Session {
    if s.view.members == Some(users) then s else Refreshed(s.(view := s.view.(members := Some(users))))
  }

  // ---- the complete member state of a slot ---------------------------------------------------

  const DELAYED_LEAVE_HOLD := 10_000

  /** A member event for one slot: who joined, or who left, and whether it was a delayed leave that fired. */
  datatype MemberEvent = MemberJoined(candidate: Candidate) | MemberLeft(key: Key, delayed: bool)

  function Named(e: MemberEvent): Key {
    match e case MemberJoined(c) => KeyOf(c) case MemberLeft(key, _) => key
  }

  /** A delayed leave of anybody but ourselves keeps them for a while. */
  predicate Holds(own: Option<Own>, e: MemberEvent) {
    e.MemberLeft? && e.delayed && !(own.Some? && e.key == Key(own.value.user, own.value.memberId))
  }

  function FirstOf(cs: seq<Candidate>, key: Key): Option<Candidate> {
    if cs == [] then None else if KeyOf(cs[0]) == key then Some(cs[0]) else FirstOf(cs[1..], key)
  }

  function Without(cs: seq<Candidate>, keys: set<Key>): seq<Candidate> {
    if cs == [] then []
    else (if KeyOf(cs[0]) in keys then [] else [cs[0]]) + Without(cs[1..], keys)
  }

  /** In place of the same member's earlier event, or last. */
  function Placed(cs: seq<Candidate>, c: Candidate): seq<Candidate> {
    if cs == [] then [c]
    else if KeyOf(cs[0]) == KeyOf(c) then [c] + cs[1..]
    else [cs[0]] + Placed(cs[1..], c)
  }

  /** The candidates so far, and the holds on them. */
  datatype Rebuild = Rebuild(candidates: seq<Candidate>, held: map<Key, nat>)

  /** One event of a complete state: a held member stays as the last state had them, on the hold they had. */
  function Recorded(s: Session, r: Rebuild, e: MemberEvent, now: nat): Rebuild {
    var key := Named(e);
    match e
    case MemberJoined(c) => Rebuild(Placed(r.candidates, c), r.held - {key})
    case MemberLeft(_, _) =>
      if Holds(s.own, e) && FirstOf(s.candidates, key).Some? then
        Rebuild(r.candidates + [FirstOf(s.candidates, key).value],
                r.held[key := if key in s.held then s.held[key] else now + DELAYED_LEAVE_HOLD])
      else if Holds(s.own, e) && FirstOf(r.candidates, key).Some? then
        Rebuild(r.candidates, if key in r.held then r.held else r.held[key := now + DELAYED_LEAVE_HOLD])
      else Rebuild(Without(r.candidates, {key}), r.held - {key})
  }

  function Rebuilt(s: Session, events: seq<MemberEvent>, now: nat): Rebuild {
    if events == [] then Rebuild([], map[])
    else Recorded(s, Rebuilt(s, events[..|events| - 1], now), events[|events| - 1], now)
  }

  /** Replaces rather than merges: who is not in the state is gone. */
  function WithState(s: Session, events: seq<MemberEvent>, now: nat): Session {
    var r := Rebuilt(s, events, now);
    Refreshed(s.(candidates := r.candidates, held := r.held))
  }

  function Due(held: map<Key, nat>, now: nat): set<Key> {
    set key | key in held && held[key] <= now
  }

  /** The holds that have ended: those members are gone. */
  function Expired(s: Session, now: nat): Session {
    var due := Due(s.held, now);
    if due == {} then s else Refreshed(s.(held := s.held - due, candidates := Without(s.candidates, due)))
  }

  // ---- member by member ------------------------------------------------------------------------

  /** A member's candidates, in order. */
  function Mine(cs: seq<Candidate>, key: Key): seq<Candidate> {
    if cs == [] then [] else (if KeyOf(cs[0]) == key then [cs[0]] else []) + Mine(cs[1..], key)
  }

  /** What the events naming a member, alone, leave of them; `was` is their candidate in the last state, if any. */
  function Standing(was: Option<Candidate>, own: Option<Own>, events: seq<MemberEvent>, key: Key): seq<Candidate> {
    if events == [] then []
    else
      var e := events[|events| - 1];
      var before := Standing(was, own, events[..|events| - 1], key);
      if Named(e) != key then before
      else if e.MemberJoined? then [e.candidate] + if before == [] then [] else before[1..]
      else if Holds(own, e) && was.Some? then before + [was.value]
      else if Holds(own, e) then before
      else []
  }

  lemma {:induction false} MineMeans(cs: seq<Candidate>, key: Key)
    ensures forall c :: c in Mine(cs, key) <==> c in cs && KeyOf(c) == key
    ensures FirstOf(cs, key) == if Mine(cs, key) == [] then None else Some(Mine(cs, key)[0])
  {
    if cs != [] {
      MineMeans(cs[1..], key);
      assert cs == [cs[0]] + cs[1..];
    }
  }

  function MineOf(c: Candidate, key: Key): seq<Candidate> {
    if KeyOf(c) == key then [c] else []
  }

  lemma MineCons(c: Candidate, cs: seq<Candidate>, key: Key)
    ensures Mine([c] + cs, key) == MineOf(c, key) + Mine(cs, key)
  {
    assert ([c] + cs)[1..] == cs;
  }

  lemma {:induction false} MineConcat(a: seq<Candidate>, b: seq<Candidate>, key: Key)
    ensures Mine(a + b, key) == Mine(a, key) + Mine(b, key)
  {
    if a == [] {
      assert a + b == b;
    } else {
      MineConcat(a[1..], b, key);
      MineCons(a[0], a[1..], key);
      MineCons(a[0], a[1..] + b, key);
      assert a == [a[0]] + a[1..] && a + b == [a[0]] + (a[1..] + b);
    }
  }

  lemma {:induction false} MineWithout(cs: seq<Candidate>, keys: set<Key>, key: Key)
    ensures Mine(Without(cs, keys), key) == if key in keys then [] else Mine(cs, key)
  {
    if cs != [] {
      MineWithout(cs[1..], keys, key);
      MineCons(cs[0], cs[1..], key);
      MineCons(cs[0], Without(cs[1..], keys), key);
      assert cs == [cs[0]] + cs[1..] && [] + Without(cs[1..], keys) == Without(cs[1..], keys);
    }
  }

  lemma {:induction false} MinePlaced(cs: seq<Candidate>, c: Candidate, key: Key)
    ensures var mine := Mine(cs, key);
      Mine(Placed(cs, c), key) == if KeyOf(c) != key then mine else [c] + if mine == [] then [] else mine[1..]
  {
    if cs == [] {
      MineCons(c, [], key);
      assert [c] + [] == [c];
    } else {
      assert cs == [cs[0]] + cs[1..];
      MineCons(cs[0], cs[1..], key);
      if KeyOf(cs[0]) == KeyOf(c) {
        MineCons(c, cs[1..], key);
      } else {
        MinePlaced(cs[1..], c, key);
        MineCons(cs[0], Placed(cs[1..], c), key);
      }
    }
  }

  /** For any events: what a complete state leaves of a member depends on the events naming them alone. */
  lemma {:induction false} RebuiltByMember(s: Session, events: seq<MemberEvent>, now: nat, key: Key)
    ensures Mine(Rebuilt(s, events, now).candidates, key) == Standing(FirstOf(s.candidates, key), s.own, events, key)
  {
    if events != [] {
      var n := |events| - 1;
      var e := events[n];
      RebuiltByMember(s, events[..n], now, key);
      var before := Rebuilt(s, events[..n], now).candidates;
      MineMeans(before, Named(e));
      MineMeans(s.candidates, Named(e));
      if e.MemberJoined? {
        MinePlaced(before, e.candidate, key);
      } else {
        MineWithout(before, {e.key}, key);
        if FirstOf(s.candidates, e.key).Some? {
          var was := FirstOf(s.candidates, e.key).value;
          assert was in Mine(s.candidates, e.key);
          MineConcat(before, [was], key);
          MineCons(was, [], key);
          assert [was] + [] == [was];
        }
      }
    }
  }

  /**
   * And what they leave of a hold, alone: `was` is the member's candidate in the last state, if any, and `until` the end
   * of the hold they were on.
   */
  function HoldStanding(was: Option<Candidate>, until: Option<nat>, own: Option<Own>, events: seq<MemberEvent>, now: nat, key: Key): Option<nat> {
    if events == [] then None
    else
      var e := events[|events| - 1];
      var before := HoldStanding(was, until, own, events[..|events| - 1], now, key);
      if Named(e) != key then before
      else if e.MemberJoined? || !e.delayed || (own.Some? && key == Key(own.value.user, own.value.memberId)) then None
      else if was.Some? then Some(if until.Some? then until.value else now + 10_000)
      else if Standing(was, own, events[..|events| - 1], key) == [] then None
      else if before.Some? then before
      else Some(now + 10_000)
  }

  function HoldOf(held: map<Key, nat>, key: Key): Option<nat> {
    if key in held then Some(held[key]) else None
  }

  /** What one more event makes of a hold. */
  lemma OneMoreHold(s: Session, r: Rebuild, e: MemberEvent, now: nat, key: Key)
    ensures HoldOf(Recorded(s, r, e, now).held, key) ==
      if Named(e) != key then HoldOf(r.held, key)
      else if !Holds(s.own, e) then None
      else if FirstOf(s.candidates, key).Some? then Some(if key in s.held then s.held[key] else now + 10_000)
      else if FirstOf(r.candidates, key).None? then None
      else if key in r.held then Some(r.held[key])
      else Some(now + 10_000)
  {
  }

  /** For any events: a hold after a complete state depends on the events naming the member alone. */
  lemma {:induction false} HeldByMember(s: Session, events: seq<MemberEvent>, now: nat, key: Key)
    ensures HoldOf(Rebuilt(s, events, now).held, key)
         == HoldStanding(FirstOf(s.candidates, key), HoldOf(s.held, key), s.own, events, now, key)
  {
    if events != [] {
      var n := |events| - 1;
      var before := Rebuilt(s, events[..n], now);
      HeldByMember(s, events[..n], now, key);
      RebuiltByMember(s, events[..n], now, key);
      MineMeans(before.candidates, key);
      OneMoreHold(s, before, events[n], now, key);
    }
  }

  /** The sticky map: an entry for each member. */
  ghost predicate NamedOnce(events: seq<MemberEvent>) {
    forall i, j :: 0 <= i < j < |events| ==> Named(events[i]) != Named(events[j])
  }

  lemma {:induction false} Unnamed(was: Option<Candidate>, own: Option<Own>, events: seq<MemberEvent>, key: Key)
    requires forall e :: e in events ==> Named(e) != key
    ensures Standing(was, own, events, key) == []
  {
    if events != [] {
      assert events[|events| - 1] in events;
      Unnamed(was, own, events[..|events| - 1], key);
    }
  }

  lemma {:induction false} StandingOnce(was: Option<Candidate>, own: Option<Own>, events: seq<MemberEvent>, i: nat)
    requires NamedOnce(events) && i < |events|
    ensures var e := events[i];
      Standing(was, own, events, Named(e)) ==
        if e.MemberJoined? then [e.candidate] else if Holds(own, e) && was.Some? then [was.value] else []
  {
    var n := |events| - 1;
    if i < n {
      StandingOnce(was, own, events[..n], i);
    } else {
      forall e | e in events[..n] ensures Named(e) != Named(events[n]) {
        var j :| 0 <= j < n && events[j] == e;
      }
      Unnamed(was, own, events[..n], Named(events[n]));
    }
  }

  lemma RebuiltNamed(s: Session, events: seq<MemberEvent>, now: nat, i: nat)
    requires NamedOnce(events) && i < |events|
    ensures var e := events[i]; var was := FirstOf(s.candidates, Named(e));
      Mine(Rebuilt(s, events, now).candidates, Named(e)) ==
        if e.MemberJoined? then [e.candidate] else if Holds(s.own, e) && was.Some? then [was.value] else []
  {
    RebuiltByMember(s, events, now, Named(events[i]));
    StandingOnce(FirstOf(s.candidates, Named(events[i])), s.own, events, i);
  }

  lemma RebuiltUnnamed(s: Session, events: seq<MemberEvent>, now: nat, key: Key)
    requires forall e :: e in events ==> Named(e) != key
    ensures Mine(Rebuilt(s, events, now).candidates, key) == []
  {
    RebuiltByMember(s, events, now, key);
    Unnamed(FirstOf(s.candidates, key), s.own, events, key);
  }

  /** Whether an event leaves `c` a candidate: it joins with that, or holds whom the last state had. */
  predicate Leaves(s: Session, e: MemberEvent, c: Candidate) {
    Named(e) == KeyOf(c) && (e == MemberJoined(c) || (Holds(s.own, e) && FirstOf(s.candidates, KeyOf(c)) == Some(c)))
  }

  /**
   * A member the state names is a candidate, once, exactly when their event joins, with that event, or is a delayed
   * leave not our own of somebody the last state had, with what it had; a member it does not name is gone.
   */
  lemma RebuiltMeans(s: Session, events: seq<MemberEvent>, now: nat, c: Candidate)
    requires NamedOnce(events)
    ensures c in Rebuilt(s, events, now).candidates <==> exists e :: e in events && Leaves(s, e, c)
    ensures |Mine(Rebuilt(s, events, now).candidates, KeyOf(c))| <= 1
  {
    var key := KeyOf(c);
    MineMeans(Rebuilt(s, events, now).candidates, key);
    if e :| e in events && Named(e) == key {
      var i: nat :| i < |events| && events[i] == e;
      RebuiltNamed(s, events, now, i);
      forall d | d in events && Named(d) == key ensures d == e {
        var j: nat :| j < |events| && events[j] == d;
      }
    } else {
      RebuiltUnnamed(s, events, now, key);
    }
  }

  /** What one entry of a complete state leaves. */
  function Contribution(s: Session): MemberEvent -> seq<Candidate> {
    (e: MemberEvent) =>
      match e
      case MemberJoined(c) => [c]
      case MemberLeft(key, delayed) =>
        var was := FirstOf(s.candidates, key);
        if delayed && (s.own.None? || key != Key(s.own.value.user, s.own.value.memberId)) && was.Some? then [was.value] else []
  }

  lemma {:induction false} PlacedLast(cs: seq<Candidate>, c: Candidate)
    requires Mine(cs, KeyOf(c)) == []
    ensures Placed(cs, c) == cs + [c]
  {
    if cs != [] {
      assert cs == [cs[0]] + cs[1..];
      PlacedLast(cs[1..], c);
    }
  }

  lemma {:induction false} WithoutNobody(cs: seq<Candidate>, key: Key)
    requires Mine(cs, key) == []
    ensures Without(cs, {key}) == cs
  {
    if cs != [] {
      assert cs == [cs[0]] + cs[1..];
      WithoutNobody(cs[1..], key);
    }
  }

  /** With one entry for each member, the candidates are what the entries leave, in the state's order. */
  lemma {:induction false} RebuiltInOrder(s: Session, events: seq<MemberEvent>, now: nat)
    requires NamedOnce(events)
    ensures Rebuilt(s, events, now).candidates == FlatMap(Contribution(s), events)
  {
    if events != [] {
      var n := |events| - 1;
      var e := events[n];
      RebuiltInOrder(s, events[..n], now);
      forall d | d in events[..n] ensures Named(d) != Named(e) {
        var j :| 0 <= j < n && events[j] == d;
      }
      var before := Rebuilt(s, events[..n], now).candidates;
      RebuiltUnnamed(s, events[..n], now, Named(e));
      MineMeans(before, Named(e));
      MineMeans(s.candidates, Named(e));
      if e.MemberJoined? {
        PlacedLast(before, e.candidate);
      } else {
        WithoutNobody(before, Named(e));
        assert before + [] == before;
      }
    }
  }

  /** A delayed leave of a member that the state already has standing counts them once more. */
  predicate CountsAgain(was: Option<Candidate>, own: Option<Own>, events: seq<MemberEvent>, key: Key, i: nat)
    requires i < |events|
  {
    Named(events[i]) == key && Holds(own, events[i]) && was.Some? && Standing(was, own, events[..i], key) != []
  }

  /** A leave that is not held takes the member out. */
  predicate TakesOut(own: Option<Own>, e: MemberEvent, key: Key) {
    e.MemberLeft? && e.key == key && !Holds(own, e)
  }

  ghost predicate CountsTwice(was: Option<Candidate>, own: Option<Own>, events: seq<MemberEvent>, key: Key) {
    exists i: nat :: i < |events| && CountsAgain(was, own, events, key, i)
      && forall j :: i < j < |events| ==> !TakesOut(own, events[j], key)
  }

  lemma OneMoreEvent(was: Option<Candidate>, own: Option<Own>, events: seq<MemberEvent>, key: Key)
    requires events != []
    ensures var n := |events| - 1;
      CountsTwice(was, own, events, key) <==>
        CountsAgain(was, own, events, key, n) || (CountsTwice(was, own, events[..n], key) && !TakesOut(own, events[n], key))
  {
    var n := |events| - 1;
    var front := events[..n];
    forall i: nat | i < n ensures CountsAgain(was, own, events, key, i) <==> CountsAgain(was, own, front, key, i) {
      assert front[..i] == events[..i];
    }
    if CountsTwice(was, own, events, key) {
      var i: nat :| i < |events| && CountsAgain(was, own, events, key, i) && forall j :: i < j < |events| ==> !TakesOut(own, events[j], key);
      if i < n {
        assert CountsAgain(was, own, front, key, i);
        assert forall j :: i < j < n ==> !TakesOut(own, front[j], key);
      }
    }
    if CountsTwice(was, own, front, key) && !TakesOut(own, events[n], key) {
      var i: nat :| i < n && CountsAgain(was, own, front, key, i) && forall j :: i < j < n ==> !TakesOut(own, front[j], key);
      assert CountsAgain(was, own, events, key, i);
      forall j | i < j < |events| ensures !TakesOut(own, events[j], key) {
        if j < n { assert !TakesOut(own, front[j], key); }
      }
    }
  }

  /**
   * Where a state names a member more than once they can count twice: exactly when a delayed leave of somebody the
   * last state had comes while they stand in this one, and nothing takes them out after.
   */
  lemma {:induction false} TwiceExactlyWhen(was: Option<Candidate>, own: Option<Own>, events: seq<MemberEvent>, key: Key)
    ensures |Standing(was, own, events, key)| > 1 <==> CountsTwice(was, own, events, key)
  {
    if events != [] {
      TwiceExactlyWhen(was, own, events[..|events| - 1], key);
      OneMoreEvent(was, own, events, key);
    }
  }

  /** For instance a state that shows a join and then a delayed leave of somebody the last state had. */
  lemma CountedTwice(s: Session, c: Candidate, now: nat)
    requires s.own.None? && FirstOf(s.candidates, KeyOf(c)).Some?
    ensures var events := [MemberJoined(c), MemberLeft(KeyOf(c), true)];
      Mine(Rebuilt(s, events, now).candidates, KeyOf(c)) == [c, FirstOf(s.candidates, KeyOf(c)).value]
  {
    var key, was := KeyOf(c), FirstOf(s.candidates, KeyOf(c));
    var joins := [MemberJoined(c)];
    var events := joins + [MemberLeft(key, true)];
    assert events == [MemberJoined(c), MemberLeft(key, true)] && events[..1] == joins && joins[..0] == [];
    assert Standing(was, None, joins, key) == [c];
    RebuiltByMember(s, events, now, key);
  }

  /** Every hold is on somebody. */
  ghost predicate HeldKept(candidates: seq<Candidate>, held: map<Key, nat>) {
    forall key :: key in held ==> Mine(candidates, key) != []
  }

  lemma {:induction false} RebuiltHeld(s: Session, events: seq<MemberEvent>, now: nat)
    ensures var r := Rebuilt(s, events, now); HeldKept(r.candidates, r.held)
  {
    if events != [] {
      var n := |events| - 1;
      var e := events[n];
      RebuiltHeld(s, events[..n], now);
      var before, r := Rebuilt(s, events[..n], now), Rebuilt(s, events, now);
      MineMeans(before.candidates, Named(e));
      forall key | key in r.held ensures Mine(r.candidates, key) != [] {
        RebuiltByMember(s, events, now, key);
        RebuiltByMember(s, events[..n], now, key);
      }
    }
  }

  lemma ExpiredHeld(s: Session, now: nat)
    requires HeldKept(s.candidates, s.held)
    ensures HeldKept(Expired(s, now).candidates, Expired(s, now).held)
  {
    forall key | key in Expired(s, now).held ensures Mine(Expired(s, now).candidates, key) != [] {
      MineWithout(s.candidates, Due(s.held, now), key);
    }
  }

  /** Ending holds takes out exactly the members whose hold is over. */
  lemma ExpiredMeans(s: Session, now: nat, key: Key)
    ensures Mine(Expired(s, now).candidates, key) == if key in s.held && s.held[key] <= now then [] else Mine(s.candidates, key)
  {
    MineWithout(s.candidates, Due(s.held, now), key);
  }

  /** A hold is not extended by a state that still shows the delayed leave. */
  lemma {:induction false} HoldIsNotExtended(s: Session, events: seq<MemberEvent>, now: nat, key: Key)
    requires HeldKept(s.candidates, s.held) && key in s.held
    ensures var r := Rebuilt(s, events, now); key in r.held ==> r.held[key] == s.held[key]
  {
    if events != [] {
      HoldIsNotExtended(s, events[..|events| - 1], now, key);
      MineMeans(s.candidates, key);
    }
  }

  // ---- joining -----------------------------------------------------------------------------------

  /** How a join goes: it never got out, it joined, or its media keys failed to start after it was sent. */
  datatype JoinFate = NotSent | Joins | KeysFail

  /** The last takes on the identity and does not refresh. */
  function JoinedAs(s: Session, own: Own, fate: JoinFate): Session {
    match fate
    case NotSent => s
    case Joins => Refreshed(s.(own := Some(own)))
    case KeysFail => s.(own := Some(own))
  }

  function Fresh(v: View): Session {
    Session(v, None, [], map[], [])
  }

  /**
   * What the joined members are a cache of: the conditions, or at worst the conditions without our own identity. And a
   * slot known to be closed is not one we are in.
   */
  ghost predicate SessionKept(s: Session) {
    && (s.joined == Counting(s.view, s.own, s.candidates) || s.joined == Counting(s.view, None, s.candidates))
    && (s.view.slot == Some(Closed) ==> s.own.None?)
    && HeldKept(s.candidates, s.held)
  }

  lemma WithSlotKept(s: Session, slot: SlotState)
    requires SessionKept(s)
    ensures SessionKept(WithSlot(s, slot)) && WithSlot(s, slot).view == s.view.(slot := Some(slot))
  {
  }

  /** The cache is right exactly when it holds no earlier participation of our device. */
  lemma CurrentExactlyWhen(s: Session)
    requires SessionKept(s)
    ensures s.joined == Counting(s.view, s.own, s.candidates) <==> forall c :: c in s.joined ==> !Superseded(s.own, c)
  {
    if s.joined == Counting(s.view, s.own, s.candidates) {
      forall c | c in s.joined ensures !Superseded(s.own, c) {
        CountingMeans(s.view, s.own, s.candidates, c);
      }
    } else if forall c :: c in s.joined ==> !Superseded(s.own, c) {
      NobodySuperseded(s.view, s.own, s.candidates);
    }
  }
}
