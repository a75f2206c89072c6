/** When a member whose delayed leave fired is kept, and when they are gone, over every order of calls on a room. */
module DelayedLeaves {
  import opened Ordering
  import opened Slots
  import opened Rooms

  // ---- the batch of a slot ---------------------------------------------------------------

  /** The sticky state has this entry for the slot. */
  predicate Shows(id: RoomId, sticky: seq<StickyEvent>, slot: SlotId, e: MemberEvent) {
    Member(id, slot, e) in sticky
  }

  /** A sticky map: in each slot, an entry for each member. */
  ghost predicate OneEntry(id: RoomId, sticky: seq<StickyEvent>) {
    forall i, j :: 0 <= i < j < |sticky| ==>
      !(sticky[i].Member? && sticky[j].Member? && sticky[i].room == sticky[j].room == id
        && sticky[i].slot == sticky[j].slot && Named(sticky[i].event) == Named(sticky[j].event))
  }

  lemma {:induction false} BatchShows(id: RoomId, sticky: seq<StickyEvent>, slot: SlotId, e: MemberEvent)
    ensures e in BatchFor(Batches(id, sticky), slot) <==> Shows(id, sticky, slot, e)
  {
    if sticky != [] {
      var n := |sticky| - 1;
      BatchShows(id, sticky[..n], slot, e);
      assert sticky == sticky[..n] + [sticky[n]];
    }
  }

  lemma {:induction false} BatchOnce(id: RoomId, sticky: seq<StickyEvent>, slot: SlotId)
    requires OneEntry(id, sticky)
    ensures NamedOnce(BatchFor(Batches(id, sticky), slot))
  {
    if sticky != [] {
      var n := |sticky| - 1;
      BatchOnce(id, sticky[..n], slot);
      var front, last := BatchFor(Batches(id, sticky[..n]), slot), sticky[n];
      if last.room == id && last.Member? && last.slot == slot {
        forall i | 0 <= i < |front| ensures Named(front[i]) != Named(last.event) {
          BatchShows(id, sticky[..n], slot, front[i]);
          assert front[i] in front;
          var j :| 0 <= j < n && sticky[j] == Member(id, slot, front[i]);
        }
      }
    }
  }

  // ---- one complete state ----------------------------------------------------------------

  lemma {:induction false} UnnamedIsFree(s: Session, events: seq<MemberEvent>, now: nat, key: Key)
    requires forall e :: e in events ==> Named(e) != key
    ensures key !in Rebuilt(s, events, now).held
  {
    if events != [] {
      var n := |events| - 1;
      assert events[n] in events;
      UnnamedIsFree(s, events[..n], now, key);
    }
  }

  /** Not our own entry. */
  predicate NotOurs(own: Option<Own>, key: Key) {
    own.None? || key != Key(own.value.user, own.value.memberId)
  }

  /** One entry and what it does to a hold, whatever else the state names. */
  ghost predicate HoldAfter(s: Session, e: MemberEvent, now: nat, held: map<Key, nat>) {
    var key := Named(e);
    && (key in held <==> e == MemberLeft(key, true) && NotOurs(s.own, key) && FirstOf(s.candidates, key).Some?)
    && (key in held ==> held[key] == if key in s.held then s.held[key] else now + 10_000)
  }

  lemma {:induction false} HoldOnce(s: Session, events: seq<MemberEvent>, now: nat, i: nat)
    requires NamedOnce(events) && i < |events|
    ensures HoldAfter(s, events[i], now, Rebuilt(s, events, now).held)
  {
    var n := |events| - 1;
    if i < n {
      HoldOnce(s, events[..n], now, i);
    } else {
      forall e | e in events[..n] ensures Named(e) != Named(events[n]) {
        var j :| 0 <= j < n && events[j] == e;
      }
      UnnamedIsFree(s, events[..n], now, Named(events[n]));
      RebuiltUnnamed(s, events[..n], now, Named(events[n]));
      MineMeans(Rebuilt(s, events[..n], now).candidates, Named(events[n]));
    }
  }

  /** The session of a slot after a sticky state. */
  lemma StickySession(r: Room, sticky: seq<StickyEvent>, now: nat, slot: SlotId)
    requires Convertible(r.id, sticky)
    ensures var s, s' := SessionOf(r, slot), SessionOf(StickyStateSet(r, sticky, now), slot);
      var b := Rebuilt(s, BatchFor(Batches(r.id, sticky), slot), now);
      s'.candidates == b.candidates && s'.held == b.held
  {
  }

  /** A sticky state starts a hold, keeps one, or ends it, by the member's own entry; and leaves them accordingly. */
  lemma StickyEntry(r: Room, sticky: seq<StickyEvent>, now: nat, slot: SlotId, e: MemberEvent)
    requires Convertible(r.id, sticky) && OneEntry(r.id, sticky) && Shows(r.id, sticky, slot, e)
    ensures var s, s' := SessionOf(r, slot), SessionOf(StickyStateSet(r, sticky, now), slot);
      && HoldAfter(s, e, now, s'.held)
      && Mine(s'.candidates, Named(e)) ==
           if e.MemberJoined? then [e.candidate]
           else if Named(e) in s'.held then [FirstOf(s.candidates, Named(e)).value]
           else []
  {
    var batch := BatchFor(Batches(r.id, sticky), slot);
    BatchShows(r.id, sticky, slot, e);
    BatchOnce(r.id, sticky, slot);
    StickySession(r, sticky, now, slot);
    var i: nat :| i < |batch| && batch[i] == e;
    HoldOnce(SessionOf(r, slot), batch, now, i);
    RebuiltNamed(SessionOf(r, slot), batch, now, i);
  }

  lemma StickyWithout(r: Room, sticky: seq<StickyEvent>, now: nat, slot: SlotId, key: Key)
    requires Convertible(r.id, sticky) && forall e :: Shows(r.id, sticky, slot, e) ==> Named(e) != key
    ensures var s' := SessionOf(StickyStateSet(r, sticky, now), slot); key !in s'.held && Mine(s'.candidates, key) == []
  {
    var batch := BatchFor(Batches(r.id, sticky), slot);
    forall e | e in batch ensures Named(e) != key { BatchShows(r.id, sticky, slot, e); }
    StickySession(r, sticky, now, slot);
    UnnamedIsFree(SessionOf(r, slot), batch, now, key);
    RebuiltUnnamed(SessionOf(r, slot), batch, now, key);
  }

  // ---- the other calls -----------------------------------------------------------------------

  lemma ExpireSession(r: Room, now: nat, slot: SlotId)
    ensures SessionOf(Called(r, ExpireAt(now)), slot) == Expired(SessionOf(r, slot), now)
  {
  }

  lemma OthersKeepHolds(r: Room, c: Call, slot: SlotId)
    requires !c.ExpireAt? && (c.StickyIs? ==> !Convertible(r.id, c.sticky))
    ensures var s, s' := SessionOf(r, slot), SessionOf(Called(r, c), slot); s'.candidates == s.candidates && s'.held == s.held
  {
    if !c.StickyIs? { OtherCalls(r, c, slot); }
  }

  // ---- whole runs ------------------------------------------------------------------------------

  /** A complete state, that can be read, with a delayed leave of a member who is not us. */
  predicate LeaveShown(id: RoomId, c: Call, own: Option<Own>, slot: SlotId, key: Key) {
    c.StickyIs? && Malformed(id) !in c.sticky && Shows(id, c.sticky, slot, MemberLeft(key, true)) && NotOurs(own, key)
  }

  /** A call under which a hold until `until` goes on. */
  predicate HoldGoesOn(id: RoomId, c: Call, own: Option<Own>, slot: SlotId, key: Key, until: nat) {
    match c
    case StickyIs(sticky, _) => Malformed(id) in sticky || LeaveShown(id, c, own, slot, key)
    case ExpireAt(now) => now < until
    case _ => true
  }

  /** The delayed leave of a candidate not held yet first shows in call `j`. */
  predicate HoldBegins(id: RoomId, calls: seq<Call>, slot: SlotId, key: Key, j: nat) {
    && j < |calls|
    && var s := SessionAt(id, calls, slot, j);
       LeaveShown(id, calls[j], s.own, slot, key) && FirstOf(s.candidates, key).Some? && key !in s.held
  }

  /** Since then every state showed the leave, and no hold was ended that late. */
  ghost predicate HeldSince(id: RoomId, calls: seq<Call>, slot: SlotId, key: Key, j: nat, k: nat) {
    && j < k <= |calls| && HoldBegins(id, calls, slot, key, j)
    && forall l :: j < l < k ==> HoldGoesOn(id, calls[l], SessionAt(id, calls, slot, l).own, slot, key, calls[j].now + 10_000)
  }

  /** The host's sticky states have one entry for each member. */
  ghost predicate StickyMaps(id: RoomId, calls: seq<Call>) {
    forall c :: c in calls && c.StickyIs? ==> OneEntry(id, c.sticky)
  }

  /** A state that has the member joined again. */
  predicate Returns(id: RoomId, c: Call, slot: SlotId, back: Candidate) {
    c.StickyIs? && Shows(id, c.sticky, slot, MemberJoined(back))
  }

  /** The entries of one member in one state are one. */
  lemma SameEntry(id: RoomId, sticky: seq<StickyEvent>, slot: SlotId, d: MemberEvent, e: MemberEvent)
    requires OneEntry(id, sticky) && Shows(id, sticky, slot, d) && Shows(id, sticky, slot, e) && Named(d) == Named(e)
    ensures d == e
  {
    var i :| 0 <= i < |sticky| && sticky[i] == Member(id, slot, d);
    var j :| 0 <= j < |sticky| && sticky[j] == Member(id, slot, e);
    assert i < j || j < i || i == j;
  }

  /** How things stand with a member after a call: on hold with what they had, back, or gone. */
  ghost predicate StandsAfter(id: RoomId, c: Call, s: Session, s': Session, slot: SlotId, key: Key) {
    && (key in s.held && HoldGoesOn(id, c, s.own, slot, key, s.held[key]) ==>
          && key in s'.held && s'.held[key] == s.held[key]
          && FirstOf(s'.candidates, key) == FirstOf(s.candidates, key))
    && (key in s.held && !HoldGoesOn(id, c, s.own, slot, key, s.held[key]) ==>
          && key !in s'.held
          && (forall back :: Returns(id, c, slot, back) && KeyOf(back) == key ==> Mine(s'.candidates, key) == [back])
          && ((forall back :: Returns(id, c, slot, back) ==> KeyOf(back) != key) ==> Mine(s'.candidates, key) == []))
    && (key !in s.held ==> (key in s'.held <==> LeaveShown(id, c, s.own, slot, key) && FirstOf(s.candidates, key).Some?))
    && (key !in s.held && key in s'.held ==>
          && c.StickyIs? && s'.held[key] == c.now + 10_000
          && FirstOf(s'.candidates, key) == FirstOf(s.candidates, key))
  }

  lemma StickyStands(r: Room, c: Call, slot: SlotId, key: Key)
    requires c.StickyIs? && Convertible(r.id, c.sticky) && OneEntry(r.id, c.sticky)
    requires HeldKept(SessionOf(r, slot).candidates, SessionOf(r, slot).held)
    ensures StandsAfter(r.id, c, SessionOf(r, slot), SessionOf(Called(r, c), slot), slot, key)
  {
    var s, s' := SessionOf(r, slot), SessionOf(Called(r, c), slot);
    ReadableMeans(r.id, c.sticky);
    MineMeans(s.candidates, key);
    MineMeans(s'.candidates, key);
    if e :| Shows(r.id, c.sticky, slot, e) && Named(e) == key {
      StickyEntry(r, c.sticky, c.now, slot, e);
      forall d | Shows(r.id, c.sticky, slot, d) && Named(d) == key ensures d == e {
        SameEntry(r.id, c.sticky, slot, d, e);
      }
      assert LeaveShown(r.id, c, s.own, slot, key) <==> e == MemberLeft(key, true) && NotOurs(s.own, key);
    } else {
      StickyWithout(r, c.sticky, c.now, slot, key);
    }
  }

  lemma ExpireStands(r: Room, now: nat, slot: SlotId, key: Key)
    ensures StandsAfter(r.id, ExpireAt(now), SessionOf(r, slot), SessionOf(Called(r, ExpireAt(now)), slot), slot, key)
  {
    var s := SessionOf(r, slot);
    ExpireSession(r, now, slot);
    ExpiredHold(s, now, key);
  }

  lemma ExpiredHold(s: Session, now: nat, key: Key)
    ensures var s' := Expired(s, now);
      && (key in s'.held <==> key in s.held && now < s.held[key])
      && (key in s'.held ==> s'.held[key] == s.held[key] && FirstOf(s'.candidates, key) == FirstOf(s.candidates, key))
      && (key in s.held && key !in s'.held ==> Mine(s'.candidates, key) == [])
  {
    ExpiredMeans(s, now, key);
    MineMeans(s.candidates, key);
    MineMeans(Expired(s, now).candidates, key);
    assert key in Due(s.held, now) <==> key in s.held && s.held[key] <= now;
  }

  lemma CallStands(r: Room, c: Call, slot: SlotId, key: Key)
    requires HeldKept(SessionOf(r, slot).candidates, SessionOf(r, slot).held) && (c.StickyIs? ==> OneEntry(r.id, c.sticky))
    ensures StandsAfter(r.id, c, SessionOf(r, slot), SessionOf(Called(r, c), slot), slot, key)
  {
    if c.StickyIs? { ReadableMeans(r.id, c.sticky); }
    if c.StickyIs? && Convertible(r.id, c.sticky) {
      StickyStands(r, c, slot, key);
    } else if c.ExpireAt? {
      ExpireStands(r, c.now, slot, key);
    } else {
      OthersKeepHolds(r, c, slot);
    }
  }

  lemma StandsAt(id: RoomId, calls: seq<Call>, slot: SlotId, key: Key, k: nat)
    requires StickyMaps(id, calls) && k < |calls|
    ensures StandsAfter(id, calls[k], SessionAt(id, calls, slot, k), SessionAt(id, calls, slot, k + 1), slot, key)
  {
    RunKept(id, calls[..k]);
    CallAt(id, calls, k);
    assert calls[k] in calls;
    CallStands(Run(id, calls[..k]), calls[k], slot, key);
  }

  lemma HeldNext(id: RoomId, calls: seq<Call>, slot: SlotId, key: Key, k: nat)
    requires StickyMaps(id, calls) && k < |calls| && key in SessionAt(id, calls, slot, k).held
    ensures var s, s' := SessionAt(id, calls, slot, k), SessionAt(id, calls, slot, k + 1);
      && (key in s'.held <==> HoldGoesOn(id, calls[k], s.own, slot, key, s.held[key]))
      && (key in s'.held ==> s'.held[key] == s.held[key] && FirstOf(s'.candidates, key) == FirstOf(s.candidates, key))
  {
    StandsAt(id, calls, slot, key, k);
  }

  lemma FreeNext(id: RoomId, calls: seq<Call>, slot: SlotId, key: Key, k: nat)
    requires StickyMaps(id, calls) && k < |calls| && key !in SessionAt(id, calls, slot, k).held
    ensures var s, s' := SessionAt(id, calls, slot, k), SessionAt(id, calls, slot, k + 1);
      && (key in s'.held <==> HoldBegins(id, calls, slot, key, k))
      && (key in s'.held ==> s'.held[key] == calls[k].now + 10_000 && FirstOf(s'.candidates, key) == FirstOf(s.candidates, key))
  {
    StandsAt(id, calls, slot, key, k);
  }

  // ---- the results ---------------------------------------------------------------------------------

  /**
   * A member whose delayed leave first shows in a state is kept for ten seconds: through every later state that still
   * shows the leave and every ending of holds before that, they are on the one hold and a candidate with what they had.
   */
  lemma {:induction false} KeptWhileHeld(id: RoomId, calls: seq<Call>, slot: SlotId, key: Key, j: nat, k: nat)
    requires StickyMaps(id, calls) && HeldSince(id, calls, slot, key, j, k)
    ensures var was, s := SessionAt(id, calls, slot, j), SessionAt(id, calls, slot, k);
      && key in s.held && s.held[key] == calls[j].now + 10_000
      && FirstOf(s.candidates, key) == FirstOf(was.candidates, key)
  {
    if k > j + 1 {
      KeptWhileHeld(id, calls, slot, key, j, k - 1);
      HeldNext(id, calls, slot, key, k - 1);
    } else {
      FreeNext(id, calls, slot, key, j);
    }
  }

  lemma GoesOn(id: RoomId, calls: seq<Call>, slot: SlotId, key: Key, j: nat, k: nat)
    requires k < |calls| && HeldSince(id, calls, slot, key, j, k)
    requires HoldGoesOn(id, calls[k], SessionAt(id, calls, slot, k).own, slot, key, calls[j].now + 10_000)
    ensures HeldSince(id, calls, slot, key, j, k + 1)
  {
  }

  lemma JustBegan(id: RoomId, calls: seq<Call>, slot: SlotId, key: Key, j: nat)
    requires HoldBegins(id, calls, slot, key, j)
    ensures HeldSince(id, calls, slot, key, j, j + 1)
  {
  }

  /** Nobody is on hold otherwise. */
  lemma {:induction false} EveryHoldBegan(id: RoomId, calls: seq<Call>, slot: SlotId, key: Key, k: nat) returns (j: nat)
    requires StickyMaps(id, calls) && k <= |calls| && key in SessionAt(id, calls, slot, k).held
    ensures HeldSince(id, calls, slot, key, j, k)
  {
    var n := BeforeAny(id, calls, slot, key, k);
    if key in SessionAt(id, calls, slot, n).held {
      j := EveryHoldBegan(id, calls, slot, key, n);
      KeptWhileHeld(id, calls, slot, key, j, n);
      HeldNext(id, calls, slot, key, n);
      GoesOn(id, calls, slot, key, j, n);
    } else {
      j := n;
      FreeNext(id, calls, slot, key, n);
      JustBegan(id, calls, slot, key, n);
    }
  }

  lemma BeforeAny(id: RoomId, calls: seq<Call>, slot: SlotId, key: Key, k: nat) returns (n: nat)
    requires k <= |calls| && key in SessionAt(id, calls, slot, k).held
    ensures n + 1 == k
  {
    n := k - 1;
  }

  /** The first call under which a hold does not go on ends it: the member is back, if it has them joined, or gone. */
  lemma HoldEnds(id: RoomId, calls: seq<Call>, slot: SlotId, key: Key, j: nat, k: nat)
    requires StickyMaps(id, calls) && k < |calls| && HeldSince(id, calls, slot, key, j, k)
    requires !HoldGoesOn(id, calls[k], SessionAt(id, calls, slot, k).own, slot, key, calls[j].now + 10_000)
    ensures var s := SessionAt(id, calls, slot, k + 1);
      && key !in s.held
      && (forall back :: Returns(id, calls[k], slot, back) && KeyOf(back) == key ==> Mine(s.candidates, key) == [back])
      && ((forall back :: Returns(id, calls[k], slot, back) ==> KeyOf(back) != key) ==> Mine(s.candidates, key) == [])
  {
    KeptWhileHeld(id, calls, slot, key, j, k);
    StandsAt(id, calls, slot, key, k);
  }
}
