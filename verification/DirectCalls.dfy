/** A DM call's lifecycle: ringing, pickup, decline, no answer, and the ring that starts it. */
module DirectCalls {
  import opened Ordering
  import opened CallStatus

  /** A room event as far as the lifecycle looks at it: whether its type is a decline, and what it references. */
  datatype RoomEvent = RoomEvent(id: EventId, isDecline: bool, sender: UserId, references: Option<EventId>)

  datatype Machine = Machine(
    ownUser: UserId,
    callee: UserId,
    otherSeen: bool,
    ring: Option<EventId>,
    held: seq<RoomEvent>,
    state: DirectState)

  const MAX_HELD_DECLINES := 8

  predicate CalleeDecline(m: Machine, e: RoomEvent) {
    e.isDecline && e.sender == m.callee
  }

  predicate RelatesTo(e: RoomEvent, ring: EventId) {
    e.references == Some(ring)
  }

  /** `callee_of`: takes one other joined member, if the room's members are known, and looks for a second. */
  method CalleeOf(members: Option<set<UserId>>, own: UserId) returns (r: Option<UserId>)
    ensures forall u :: r == Some(u) <==>
      members.Some? && u in members.value && u != own && forall v :: v in members.value ==> v == u || v == own
  {
    if members.None? {
      return None;
    }
    var others := members.value - {own};
    assert forall u :: u in members.value && u != own ==> u in others;
    if others == {} {
      return None;
    }
    var callee :| callee in others;
    if others - {callee} == {} {
      assert forall v :: v in members.value ==> v == callee || v == own || v in others - {callee};
      return Some(callee);
    }
    var second :| second in others - {callee};
    return None;
  }

  // ---- transitions ------------------------------------------------------------------

  function OnRoster(m: Machine, senders: set<UserId>, now: nat): Machine {
    if m.state.Over? then m
    else
      var seen := m.(otherSeen := m.otherSeen || senders - {m.ownUser} != {});
      if (m.state.Sending? || m.state.Ringing?) && m.callee in senders then seen.(state := InCall(now))
      else if m.state.InCall? && seen.otherSeen && senders <= {m.ownUser} then seen.(state := Over(DirectOthersLeft))
      else seen
  }

  function Hold(m: Machine, held: seq<RoomEvent>, es: seq<RoomEvent>): seq<RoomEvent> {
    if es == [] then held
    else
      var e := es[|es| - 1];
      var before := Hold(m, held, es[..|es| - 1]);
      if CalleeDecline(m, e) && |before| < MAX_HELD_DECLINES && e.id !in HeldIds(before) then before + [e] else before
  }

  function HeldIds(held: seq<RoomEvent>): set<EventId> {
    set e | e in held :: e.id
  }

  predicate AnyDeclines(m: Machine, es: seq<RoomEvent>, ring: EventId) {
    exists e :: e in es && CalleeDecline(m, e) && RelatesTo(e, ring)
  }

  function OnRoomEvents(m: Machine, es: seq<RoomEvent>): Machine {
    if m.state.Sending? then m.(held := Hold(m, m.held, es))
    else if m.state.Ringing? && m.ring.Some? && AnyDeclines(m, es, m.ring.value) then m.(state := Over(DirectDeclined))
    else m
  }

  function OnRingSent(m: Machine, ring: EventId, sentAt: nat, lifetime: nat): Machine {
    if !m.state.Sending? then m
    else m.(
      held := [], ring := Some(ring),
      state := if exists e :: e in m.held && RelatesTo(e, ring) then Over(DirectDeclined) else Ringing(sentAt, lifetime))
  }

  function OnRingNotSent(m: Machine): Machine {
    if m.state.Sending? then m.(state := Over(DirectRingNotSent)) else m
  }

  function OnUnanswered(m: Machine): Machine {
    if m.state.Ringing? then m.(state := Over(DirectUnanswered)) else m
  }

  function FinishLeft(m: Machine): Machine {
    if m.state.Over? then m else m.(state := Over(DirectLeft))
  }

  datatype Move =
    | Roster(senders: set<UserId>)
    | Events(events: seq<RoomEvent>)
    | RingSent(ring: EventId, lifetime: nat)
    | RingFailed
    | RingRanOut
    | WeLeft

  function Moved(m: Machine, v: Move, now: nat): Machine {
    match v
    case Roster(senders) => OnRoster(m, senders, now)
    case Events(es) => OnRoomEvents(m, es)
    case RingSent(ring, lifetime) => OnRingSent(m, ring, now, lifetime)
    case RingFailed => OnRingNotSent(m)
    case RingRanOut => OnUnanswered(m)
    case WeLeft => FinishLeft(m)
  }

  /** Forward only: every transition that changes the state takes it strictly further. */
  lemma MovesForward(m: Machine, v: Move, now: nat)
    ensures var m' := Moved(m, v, now);
      && (m'.state == m.state || Progress(m.state) < Progress(m'.state))
      && m'.callee == m.callee && m'.ownUser == m.ownUser
  {
  }

  // ---- declines around the ring's send response -----------------------------------------

  ghost predicate EventsIdentified(es: seq<RoomEvent>) {
    forall a, b :: a in es && b in es && a.id == b.id ==> a == b
  }

  function DeclineIds(m: Machine, es: seq<RoomEvent>): set<EventId> {
    set e | e in es && CalleeDecline(m, e) :: e.id
  }

  /** What one more event adds to the ids of the callee's declines. */
  lemma DeclineIdsGrow(m: Machine, es: seq<RoomEvent>)
    requires es != []
    ensures var e := es[|es| - 1]; var rest := DeclineIds(m, es[..|es| - 1]);
      DeclineIds(m, es) == if CalleeDecline(m, e) then rest + {e.id} else rest
  {
  }

  lemma HeldIdsGrow(held: seq<RoomEvent>, e: RoomEvent)
    ensures HeldIds(held + [e]) == HeldIds(held) + {e.id}
  {
  }

  /** Only callee declines from the stream are held. */
  lemma {:induction false} HeldComeFromTheStream(m: Machine, es: seq<RoomEvent>)
    ensures forall e :: e in Hold(m, [], es) ==> e in es && CalleeDecline(m, e)
  {
    if es != [] { HeldComeFromTheStream(m, es[..|es| - 1]); }
  }

  /** What is held: distinct ids, never more than the bound, and every one that was seen unless full. */
  lemma {:induction false} HoldFacts(m: Machine, es: seq<RoomEvent>)
    ensures var held := Hold(m, [], es);
      && |held| <= MAX_HELD_DECLINES
      && |HeldIds(held)| == |held|
      && (|held| < MAX_HELD_DECLINES ==> HeldIds(held) == DeclineIds(m, es))
      && HeldIds(held) <= DeclineIds(m, es)
  {
    if es != [] {
      var n := |es| - 1;
      HoldFacts(m, es[..n]);
      DeclineIdsGrow(m, es);
      HeldIdsGrow(Hold(m, [], es[..n]), es[n]);
    }
  }

  lemma {:induction false} HoldConcat(m: Machine, held: seq<RoomEvent>, a: seq<RoomEvent>, b: seq<RoomEvent>)
    ensures Hold(m, Hold(m, held, a), b) == Hold(m, held, a + b)
  {
    if b == [] {
      assert a + b == a;
    } else {
      var n := |b| - 1;
      HoldConcat(m, held, a, b[..n]);
      assert (a + b)[..|a + b| - 1] == a + b[..n];
    }
  }

  /** However a host batches room events, they amount to one batch. */
  lemma BatchesAmountToOne(m: Machine, a: seq<RoomEvent>, b: seq<RoomEvent>)
    ensures OnRoomEvents(OnRoomEvents(m, a), b) == OnRoomEvents(m, a + b)
  {
    if m.state.Sending? {
      var m' := OnRoomEvents(m, a);
      HoldSame(m, m', m'.held, b);
      HoldConcat(m, m.held, a, b);
    } else if m.state.Ringing? && m.ring.Some? {
      assert AnyDeclines(m, a + b, m.ring.value) <==> AnyDeclines(m, a, m.ring.value) || AnyDeclines(m, b, m.ring.value);
    }
  }

  lemma {:induction false} HoldSame(m: Machine, m': Machine, held: seq<RoomEvent>, es: seq<RoomEvent>)
    requires m.callee == m'.callee
    ensures Hold(m, held, es) == Hold(m', held, es)
  {
    if es != [] { HoldSame(m, m', held, es[..|es| - 1]); }
  }

  /** Room events before the ring's response, the response, then the rest. */
  function AroundTheResponse(m: Machine, before: seq<RoomEvent>, ring: EventId, sentAt: nat, lifetime: nat, after: seq<RoomEvent>): Machine {
    OnRoomEvents(OnRingSent(OnRoomEvents(m, before), ring, sentAt, lifetime), after)
  }

  /** Exactly when the callee's decline ends the call: one of the held ones references the ring, or a later one does. */
  lemma DeclinedExactlyWhen(m: Machine, before: seq<RoomEvent>, ring: EventId, sentAt: nat, lifetime: nat, after: seq<RoomEvent>)
    requires m.state.Sending? && m.held == []
    ensures var declined := (exists e :: e in Hold(m, [], before) && RelatesTo(e, ring)) || AnyDeclines(m, after, ring);
      AroundTheResponse(m, before, ring, sentAt, lifetime, after).state == if declined then Over(DirectDeclined) else Ringing(sentAt, lifetime)
  {
  }

  /**
   * Confluence: with at most 8 distinct callee declines, wherever the ring's response falls in the stream of room
   * events, the call is declined exactly when some callee decline in the stream references the ring.
   */
  lemma ResponseOrderDoesNotMatter(m: Machine, stream: seq<RoomEvent>, k: nat, ring: EventId, sentAt: nat, lifetime: nat)
    requires m.state.Sending? && m.held == [] && k <= |stream|
    requires EventsIdentified(stream) && |DeclineIds(m, stream)| <= MAX_HELD_DECLINES
    ensures AroundTheResponse(m, stream[..k], ring, sentAt, lifetime, stream[k..]).state
         == if AnyDeclines(m, stream, ring) then Over(DirectDeclined) else Ringing(sentAt, lifetime)
  {
    var before, after := stream[..k], stream[k..];
    assert stream == before + after;
    DeclinedExactlyWhen(m, before, ring, sentAt, lifetime, after);
    HeldComeFromTheStream(m, before);
    var held := Hold(m, [], before);
    HeldAll(m, stream, k);
    if AnyDeclines(m, stream, ring) {
      var e :| e in stream && CalleeDecline(m, e) && RelatesTo(e, ring);
      if e in before {
        assert e.id in HeldIds(held);
        var h :| h in held && h.id == e.id;
        assert h in stream && h == e;
      } else {
        assert e in after;
      }
    }
  }

  /** With few declines none is dropped. */
  lemma HeldAll(m: Machine, stream: seq<RoomEvent>, k: nat)
    requires k <= |stream| && |DeclineIds(m, stream)| <= MAX_HELD_DECLINES
    ensures HeldIds(Hold(m, [], stream[..k])) == DeclineIds(m, stream[..k])
  {
    var before := stream[..k];
    HoldFacts(m, before);
    var held := Hold(m, [], before);
    assert stream == before + stream[k..];
    assert DeclineIds(m, before) <= DeclineIds(m, stream);
    if |held| == MAX_HELD_DECLINES {
      SameSizeSame(HeldIds(held), DeclineIds(m, stream));
    }
  }

  lemma SameSizeSame(a: set<EventId>, b: set<EventId>)
    requires a <= b && |b| <= |a|
    ensures a == b
  {
    if a != b {
      var x :| x in b && x !in a;
      assert a <= b - {x};
      SubsetSize(a, b - {x});
    }
  }

  lemma {:induction false} SubsetSize(a: set<EventId>, b: set<EventId>)
    requires a <= b
    ensures |a| <= |b|
  {
    if a != {} {
      var x :| x in a;
      SubsetSize(a - {x}, b - {x});
    }
  }

  /**
   * A decline that references the ring and is not honoured came while the ring was being sent, behind eight other
   * distinct declines of the callee: the bound is the only way to lose one.
   */
  lemma LostOnlyBehindEight(m: Machine, before: seq<RoomEvent>, ring: EventId, sentAt: nat, lifetime: nat, after: seq<RoomEvent>)
    requires m.state.Sending? && m.held == [] && EventsIdentified(before + after)
    requires AnyDeclines(m, before + after, ring)
    requires AroundTheResponse(m, before, ring, sentAt, lifetime, after).state != Over(DirectDeclined)
    ensures !AnyDeclines(m, after, ring) && AnyDeclines(m, before, ring)
    ensures var held := Hold(m, [], before);
      |HeldIds(held)| == MAX_HELD_DECLINES && forall e :: e in held ==> CalleeDecline(m, e) && !RelatesTo(e, ring)
  {
    DeclinedExactlyWhen(m, before, ring, sentAt, lifetime, after);
    HoldFacts(m, before);
    HeldComeFromTheStream(m, before);
    var e :| e in before + after && CalleeDecline(m, e) && RelatesTo(e, ring);
    assert e in before;
    if e.id in HeldIds(Hold(m, [], before)) {
      HeldIsHeld(m, before, after, e);
    }
  }

  /** An event is held exactly when some occurrence of it found fewer than eight distinct declines before it. */
  lemma {:induction false} HeldExactly(m: Machine, es: seq<RoomEvent>, e: RoomEvent)
    requires EventsIdentified(es)
    ensures e in Hold(m, [], es) <==>
      exists i :: 0 <= i < |es| && es[i] == e && CalleeDecline(m, e) && |DeclineIds(m, es[..i])| < MAX_HELD_DECLINES
  {
    if es != [] {
      var n := |es| - 1;
      assert es == es[..n] + [es[n]];
      HeldExactly(m, es[..n], e);
      HoldFacts(m, es[..n]);
      var before := Hold(m, [], es[..n]);
      forall i | 0 <= i < n ensures es[..n][..i] == es[..i] && es[..n][i] == es[i] {
      }
      if e == es[n] && CalleeDecline(m, e) {
        SubsetSize(HeldIds(before), DeclineIds(m, es[..n]));
        if e.id in HeldIds(before) {
          HeldIsHeld(m, es[..n], [e], e);
        }
      }
    }
  }

  /**
   * When the callee's decline ends the call, over the stream itself: one after the response references the ring, or
   * one before it does and found fewer than eight distinct declines before it. So a decline is lost exactly behind
   * eight others.
   */
  lemma HonouredUnlessBehindEight(m: Machine, before: seq<RoomEvent>, ring: EventId, sentAt: nat, lifetime: nat, after: seq<RoomEvent>)
    requires m.state.Sending? && m.held == [] && EventsIdentified(before)
    ensures AroundTheResponse(m, before, ring, sentAt, lifetime, after).state == Over(DirectDeclined) <==>
      AnyDeclines(m, after, ring)
      || exists i :: 0 <= i < |before| && CalleeDecline(m, before[i]) && RelatesTo(before[i], ring)
                     && |DeclineIds(m, before[..i])| < MAX_HELD_DECLINES
  {
    DeclinedExactlyWhen(m, before, ring, sentAt, lifetime, after);
    if e :| e in Hold(m, [], before) && RelatesTo(e, ring) {
      HeldExactly(m, before, e);
    }
    if i :| 0 <= i < |before| && CalleeDecline(m, before[i]) && RelatesTo(before[i], ring)
            && |DeclineIds(m, before[..i])| < MAX_HELD_DECLINES {
      HeldExactly(m, before, before[i]);
    }
  }

  lemma {:induction false} DistinctDeclines(m: Machine, es: seq<RoomEvent>)
    requires forall e :: e in es ==> CalleeDecline(m, e)
    requires forall i, j :: 0 <= i < j < |es| ==> es[i].id != es[j].id
    ensures |DeclineIds(m, es)| == |es|
  {
    if es != [] {
      var n := |es| - 1;
      DistinctDeclines(m, es[..n]);
      DeclineIdsGrow(m, es);
      assert es[n] in es;
    }
  }

  /** Nine distinct declines of which only the last references the ring: it is lost. */
  lemma NinthDeclineIsLost(m: Machine, before: seq<RoomEvent>, ring: EventId, sentAt: nat, lifetime: nat)
    requires m.state.Sending? && m.held == [] && |before| == 9
    requires forall e :: e in before ==> CalleeDecline(m, e)
    requires forall i, j :: 0 <= i < j < 9 ==> before[i].id != before[j].id
    requires forall i :: 0 <= i < 9 ==> (RelatesTo(before[i], ring) <==> i == 8)
    ensures AnyDeclines(m, before, ring)
    ensures AroundTheResponse(m, before, ring, sentAt, lifetime, []).state == Ringing(sentAt, lifetime)
  {
    assert before[8] in before;
    forall e | e in before[..8] ensures CalleeDecline(m, e) {
      assert e in before;
    }
    DistinctDeclines(m, before[..8]);
    HonouredUnlessBehindEight(m, before, ring, sentAt, lifetime, []);
    DeclinedExactlyWhen(m, before, ring, sentAt, lifetime, []);
  }

  function NumberedDecline(m: Machine, i: nat, references: Option<EventId>): (e: RoomEvent)
    ensures CalleeDecline(m, e) && |e.id| == i && e.references == references
  {
    RoomEvent(seq(i, _ => 'd'), true, m.callee, references)
  }

  function NumberedDeclines(m: Machine, n: nat, ring: EventId): (es: seq<RoomEvent>)
    ensures |es| == n
    ensures forall i :: 0 <= i < n ==> es[i] == NumberedDecline(m, i, if i == 8 then Some(ring) else None)
  {
    if n == 0 then []
    else NumberedDeclines(m, n - 1, ring) + [NumberedDecline(m, n - 1, if n - 1 == 8 then Some(ring) else None)]
  }

  /** Such declines exist, whatever the ring. */
  lemma NineDeclines(m: Machine, ring: EventId, sentAt: nat, lifetime: nat)
    requires m.state.Sending? && m.held == []
    ensures var before := NumberedDeclines(m, 9, ring);
      AnyDeclines(m, before, ring)
      && AroundTheResponse(m, before, ring, sentAt, lifetime, []).state == Ringing(sentAt, lifetime)
  {
    var before := NumberedDeclines(m, 9, ring);
    forall i, j | 0 <= i < j < 9 ensures before[i].id != before[j].id {
      assert |before[i].id| == i && |before[j].id| == j;
    }
    NinthDeclineIsLost(m, before, ring, sentAt, lifetime);
  }

  /** With distinct ids, holding an event's id is holding the event. */
  lemma HeldIsHeld(m: Machine, before: seq<RoomEvent>, after: seq<RoomEvent>, e: RoomEvent)
    requires EventsIdentified(before + after) && e in before && e.id in HeldIds(Hold(m, [], before))
    ensures e in Hold(m, [], before)
  {
    HeldComeFromTheStream(m, before);
    var h :| h in Hold(m, [], before) && h.id == e.id;
    assert h in before + after && e in before + after;
  }

  // ---- the shared object --------------------------------------------------------------------

  /** A DM call's lifecycle; its status cell is told every transition. */
  class DirectCall {
    const ownUser: UserId
    const callee: UserId
    const status: CallStatusCell
    var otherSeen: bool
    var ring: Option<EventId>
    var held: seq<RoomEvent>
    var state: DirectState

    function AsMachine(): Machine
      reads this
    {
      Machine(ownUser, callee, otherSeen, ring, held, state)
    }

    constructor (ownUser: UserId, callee: UserId, senders: set<UserId>, initial: DirectState, status: CallStatusCell)
      ensures AsMachine() == Machine(ownUser, callee, senders - {ownUser} != {}, None, [], initial)
      ensures this.status == status
    {
      this.ownUser, this.callee, this.status := ownUser, callee, status;
      otherSeen := exists u :: u in senders && u != ownUser;
      ring, held, state := None, [], initial;
      new;
      assert otherSeen <==> senders - {ownUser} != {} by {
        if otherSeen { var u :| u in senders && u != ownUser; assert u in senders - {ownUser}; }
        if senders - {ownUser} != {} { var u :| u in senders - {ownUser}; assert u in senders && u != ownUser; }
      }
    }

    /** Every transition: the status hears of it before the state is replaced. */
    method Become(next: DirectState, now: nat)
      modifies `state, status
      ensures state == next && status.AsCell() == Reported(old(status.AsCell()), DirectMoved(next), now)
    {
      status.Report(DirectMoved(next), now);
      state := next;
    }

    method Receive(v: Move, now: nat)
      modifies this, status
      ensures AsMachine() == Moved(old(AsMachine()), v, now)
      ensures status.AsCell() ==
        if state == old(state) then old(status.AsCell()) else Reported(old(status.AsCell()), DirectMoved(state), now)
    {
      if state.Over? {
        return;
      }
      match v {
        case Roster(senders) =>
          if senders - {ownUser} != {} {
            otherSeen := true;
          }
          if (state.Sending? || state.Ringing?) && callee in senders {
            Become(InCall(now), now);
          } else if state.InCall? && otherSeen && senders <= {ownUser} {
            Become(Over(DirectOthersLeft), now);
          }
        case Events(es) =>
          if state.Sending? {
            HoldDeclines(es);
          } else if state.Ringing? && ring.Some? && AnyDeclines(AsMachine(), es, ring.value) {
            Become(Over(DirectDeclined), now);
          }
        case RingSent(id, lifetime) =>
          if state.Sending? {
            var declined := exists e :: e in held && RelatesTo(e, id);
            held, ring := [], Some(id);
            Become(if declined then Over(DirectDeclined) else Ringing(now, lifetime), now);
          }
        case RingFailed =>
          if state.Sending? {
            Become(Over(DirectRingNotSent), now);
          }
        case RingRanOut =>
          if state.Ringing? {
            Become(Over(DirectUnanswered), now);
          }
        case WeLeft =>
          Become(Over(DirectLeft), now);
      }
    }

    /** Keeps the callee's declines until the ring's id is known, each once, up to the bound. */
    method HoldDeclines(es: seq<RoomEvent>)
      modifies `held
      ensures held == Hold(old(AsMachine()), old(held), es)
    {
      ghost var m := AsMachine();
      ghost var start := held;
      for i := 0 to |es|
        invariant held == Hold(m, start, es[..i])
      {
        var e := es[i];
        assert es[..i + 1][..i] == es[..i];
        if e.isDecline && e.sender == callee {
          if |held| < MAX_HELD_DECLINES && forall h :: h in held ==> h.id != e.id {
            held := held + [e];
          }
        }
      }
      assert es[..|es|] == es;
    }
  }

  // ---- sending the ring -------------------------------------------------------------------------

  const RING_SEND_DEADLINE := 10_000

  function Backoff(attempt: nat): nat {
    if attempt == 0 then 1_000 else if attempt == 1 then 2_000 else 4_000
  }

  /** One attempt: when its answer comes, if ever, what it says, and whether the server stored the ring. */
  datatype Attempt = Attempt(takes: Option<nat>, ok: bool, stored: bool)

  /** The earliest of what an await can resolve to; ties are the scheduler's. */
  datatype Wait = Answer | Deadline | LeftSending

  method Await(now: nat, answerAt: Option<nat>, leavesAt: Option<nat>) returns (w: Wait, at: nat)
    requires now <= RING_SEND_DEADLINE
    requires answerAt.Some? ==> now <= answerAt.value
    ensures now <= at <= RING_SEND_DEADLINE
    ensures w.Answer? ==> answerAt == Some(at)
    ensures w.Deadline? ==> at == RING_SEND_DEADLINE
    ensures w.LeftSending? ==> leavesAt.Some? && leavesAt.value <= at
    ensures answerAt.Some? ==> at <= answerAt.value
    ensures leavesAt.Some? ==> at <= if leavesAt.value <= now then now else leavesAt.value
  {
    var left := if leavesAt.None? then RING_SEND_DEADLINE + 1 else if leavesAt.value <= now then now else leavesAt.value;
    var answered := if answerAt.None? then RING_SEND_DEADLINE + 1 else answerAt.value;
    if {
      case answered <= RING_SEND_DEADLINE && answered <= left => w, at := Answer, answered;
      case RING_SEND_DEADLINE <= answered && RING_SEND_DEADLINE <= left => w, at := Deadline, RING_SEND_DEADLINE;
      case left <= RING_SEND_DEADLINE && left <= answered => w, at := LeftSending, left;
    }
  }

  /** The pause after attempt `i`: one second at first, doubling up to four. */
  function Pause(i: nat): nat {
    if i == 0 then 1_000 else if 2 * Pause(i - 1) <= 4_000 then 2 * Pause(i - 1) else 4_000
  }

  /** When attempt `n` starts, if the server refuses all before it. */
  function StartOf(attempts: nat -> Attempt, n: nat): nat {
    if n == 0 then 0
    else StartOf(attempts, n - 1) + (if attempts(n - 1).takes.Some? then attempts(n - 1).takes.value else 0) + Pause(n - 1)
  }

  /** Attempt `n` is answered, and then at `at`. */
  predicate AnsweredAt(attempts: nat -> Attempt, n: nat, at: nat) {
    attempts(n).takes.Some? && at == StartOf(attempts, n) + attempts(n).takes.value
  }

  /** What takes a call out of ringing besides its lifetime: a pickup, our leaving, or the callee declining this ring. */
  predicate EndsRinging(direct: DirectCall, v: Move, ring: EventId) {
    || v == WeLeft
    || (v.Roster? && direct.callee in v.senders)
    || (v.Events? && exists e :: e in v.events && e.isDecline && e.sender == direct.callee && RelatesTo(e, ring))
  }

  datatype Attempted = Sent | Refused | Out

  /** One pass of the sending loop: an attempt, and the pause after a refusal. */
  method TrySending(direct: DirectCall, attempts: nat -> Attempt, n: nat, start: nat, leavesAt: Option<nat>, leaves: Move)
    returns (r: Attempted, at: nat)
    requires direct.state.Sending? && start == StartOf(attempts, n) <= RING_SEND_DEADLINE
    requires leaves == WeLeft || (leaves.Roster? && direct.callee in leaves.senders)
    modifies direct, direct.status
    ensures start <= at <= RING_SEND_DEADLINE
    ensures !r.Out? ==> direct.AsMachine() == old(direct.AsMachine())
    ensures r.Sent? ==> attempts(n).ok && AnsweredAt(attempts, n, at)
    ensures r.Refused? ==> attempts(n).takes.Some? && !attempts(n).ok && at == StartOf(attempts, n + 1)
    ensures r.Out? ==> direct.state.InCall? || (direct.state.Over? && direct.state.reason in {DirectRingNotSent, DirectLeft})
    ensures r.Out? && direct.state == Over(DirectRingNotSent) ==>
      at == RING_SEND_DEADLINE && (attempts(n).takes.None? || StartOf(attempts, n + 1) >= RING_SEND_DEADLINE)
  {
    var attempt := attempts(n);
    var answerAt := if attempt.takes.Some? then Some(start + attempt.takes.value) else None;
    var w;
    w, at := Await(start, answerAt, leavesAt);
    if w.Answer? && !attempt.ok {
      PauseIsBackoff(n);
      w, at := Await(at, Some(at + Backoff(n)), leavesAt);
      r := Refused;
    } else {
      r := Sent;
    }
    if w.Deadline? {
      direct.Receive(RingFailed, at);
      r := Out;
    } else if w.LeftSending? {
      direct.Receive(leaves, at);
      r := Out;
    }
  }

  lemma {:induction false} PauseIsBackoff(n: nat)
    ensures Pause(n) == Backoff(n)
  {
    if n > 0 { PauseIsBackoff(n - 1); }
  }

  /**
   * `RingJob::run`, from the moment our membership is sent: sends the ring, retrying what the server refused, then
   * times it. `leaves` is when, and by which move, another source takes the call out of sending; `ends` likewise for
   * ringing, should it get there.
   */
  method RunRing(direct: DirectCall, attempts: nat -> Attempt, leavesAt: Option<nat>, leaves: Move,
                 endsAt: Option<nat>, ends: Move, ring: EventId, lifetime: nat)
    returns (tries: nat, stores: nat, sentAt: nat, end: nat)
    requires direct.state.Sending?
    requires forall i: nat :: attempts(i).takes.Some? && !attempts(i).ok ==> !attempts(i).stored
    requires forall i: nat :: attempts(i).takes.Some? && attempts(i).ok ==> attempts(i).stored
    requires leaves == WeLeft || (leaves.Roster? && direct.callee in leaves.senders)
    requires EndsRinging(direct, ends, ring)
    modifies direct, direct.status
    ensures 1 <= tries <= 4
    ensures stores <= 1
    ensures direct.state.InCall? || direct.state.Over?
    ensures forall i: nat :: i < tries - 1 ==> attempts(i).takes.Some? && !attempts(i).ok
    ensures direct.state == Over(DirectRingNotSent) ==> end == RING_SEND_DEADLINE
    ensures direct.state == Over(DirectRingNotSent) ==> attempts(tries - 1).takes.None? || StartOf(attempts, tries) >= RING_SEND_DEADLINE
    ensures direct.state == Over(DirectUnanswered) ==> stores == 1 && attempts(tries - 1).ok && AnsweredAt(attempts, tries - 1, sentAt)
    ensures direct.state == Over(DirectUnanswered) ==> sentAt <= RING_SEND_DEADLINE && end == sentAt + lifetime
    ensures direct.state == Over(DirectUnanswered) ==> (leavesAt.Some? ==> end <= leavesAt.value) && (endsAt.Some? ==> end <= endsAt.value)
    ensures direct.state == Over(DirectDeclined) ==> stores == 1
  {
    tries, stores, sentAt, end := 0, 0, 0, 0;
    var sent := false;
    while !sent
      invariant direct.state.Sending?
      invariant end <= RING_SEND_DEADLINE
      invariant forall i: nat :: i < tries - (if sent then 1 else 0) ==> attempts(i).takes.Some? && !attempts(i).ok
      invariant !sent ==> tries <= 3 && stores == 0 && end == StartOf(attempts, tries)
      invariant sent ==> 1 <= tries <= 4 && stores == 1 && sentAt == end && attempts(tries - 1).ok && AnsweredAt(attempts, tries - 1, end)
      decreases !sent, 4 - tries
    {
      stores := stores + if attempts(tries).stored then 1 else 0;
      tries := tries + 1;
      var r, at := TrySending(direct, attempts, tries - 1, end, leavesAt, leaves);
      end := at;
      match r {
        case Out => return;
        case Sent => sent, sentAt := true, end;
        case Refused => StartsGrow(attempts, tries);
      }
    }
    end := TimeRing(direct, ring, lifetime, end, leavesAt, leaves, endsAt, ends);
  }

  /** The pauses alone take the fifth attempt past the deadline. */
  lemma StartsGrow(attempts: nat -> Attempt, n: nat)
    ensures n >= 4 ==> StartOf(attempts, n) > RING_SEND_DEADLINE
  {
    if n == 4 {
      assert Pause(0) == 1_000 && Pause(1) == 2_000 && Pause(2) == 4_000 && Pause(3) == 4_000;
      assert StartOf(attempts, 1) >= 1_000 && StartOf(attempts, 2) >= 3_000 && StartOf(attempts, 3) >= 7_000;
    } else if n > 4 {
      StartsGrow(attempts, n - 1);
    }
  }

  /** The rest of it, once the ring is out: its lifetime, or whatever ends the ringing first. */
  method TimeRing(direct: DirectCall, ring: EventId, lifetime: nat, sentAt: nat,
                  leavesAt: Option<nat>, leaves: Move, endsAt: Option<nat>, ends: Move)
    returns (end: nat)
    requires direct.state.Sending?
    requires leaves == WeLeft || (leaves.Roster? && direct.callee in leaves.senders)
    requires EndsRinging(direct, ends, ring)
    modifies direct, direct.status
    ensures direct.state.InCall? || (direct.state.Over? && direct.state.reason in {DirectDeclined, DirectUnanswered, DirectLeft})
    ensures direct.state == Over(DirectUnanswered) ==> end == sentAt + lifetime
    ensures direct.state == Over(DirectUnanswered) ==> (leavesAt.Some? ==> end <= leavesAt.value) && (endsAt.Some? ==> end <= endsAt.value)
  {
    end := sentAt;
    direct.Receive(RingSent(ring, lifetime), end);
    if direct.state.Ringing? {
      var first, move := leavesAt, leaves;
      if endsAt.Some? && (leavesAt.None? || endsAt.value < leavesAt.value) {
        first, move := endsAt, ends;
      }
      if {
        case first.Some? && first.value <= end + lifetime =>
          end := if first.value <= end then end else first.value;
          direct.Receive(move, end);
        case first.None? || end + lifetime <= first.value =>
          end := end + lifetime;
          direct.Receive(RingRanOut, end);
      }
    }
  }
}
