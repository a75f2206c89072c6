/** What a call's states mean: each is read off everything that happened so far, whatever the interleaving. */
module CallStory {
  import opened Ordering
  import opened CallStatus
  import opened DirectCalls
  import opened CallLifecycle

  // ---- the lifecycle along a run -----------------------------------------------------------

  /** The lifecycle after what it hears of one action. */
  function Hears(m: Machine, t: Timed): Machine {
    match t.action case Lifecycle(v) => Moved(m, v, t.now) case _ => m
  }

  function Heard(m: Machine, run: seq<Timed>): Machine {
    if run == [] then m else Hears(Heard(m, run[..|run| - 1]), run[|run| - 1])
  }

  /** The lifecycle before action `k`. */
  function At(m: Machine, run: seq<Timed>, k: nat): Machine
    requires k <= |run|
  {
    Heard(m, run[..k])
  }

  lemma AtNext(m: Machine, run: seq<Timed>, k: nat)
    requires k < |run|
    ensures At(m, run, k + 1) == Hears(At(m, run, k), run[k])
  {
    assert run[..k + 1][..k] == run[..k];
  }

  /** A lifecycle as a join makes it, unless there is nobody to call. */
  predicate Starts(m: Machine) {
    (m.state.Sending? || m.state.InCall?) && m.ring.None? && m.held == []
  }

  // ---- what can move it ----------------------------------------------------------------------

  predicate Rosters(t: Timed) {
    t.action.Lifecycle? && t.action.move.Roster?
  }

  /** The callee shows up on the roster while we are still calling. */
  predicate PickedUp(m: Machine, run: seq<Timed>, k: nat) {
    && k < |run| && Rosters(run[k]) && m.callee in run[k].action.move.senders
    && (At(m, run, k).state.Sending? || At(m, run, k).state.Ringing?)
  }

  /** Somebody else has been in the call before action `k`. */
  ghost predicate OtherSeen(m: Machine, run: seq<Timed>, k: nat)
    requires k <= |run|
  {
    m.otherSeen || exists i :: 0 <= i < k && Rosters(run[i]) && exists u :: u in run[i].action.move.senders && u != m.ownUser
  }

  /** In the call, a roster shows nobody but us, after somebody else had been there. */
  ghost predicate LeftAlone(m: Machine, run: seq<Timed>, k: nat) {
    && k < |run| && At(m, run, k).state.InCall?
    && Rosters(run[k]) && (forall u :: u in run[k].action.move.senders ==> u == m.ownUser)
    && OtherSeen(m, run, k)
  }

  /** The ring went out as `ring`. */
  predicate RingOut(m: Machine, run: seq<Timed>, j: nat, ring: EventId) {
    && j < |run| && At(m, run, j).state.Sending?
    && run[j].action.Lifecycle? && run[j].action.move.RingSent? && run[j].action.move.ring == ring
  }

  ghost predicate RungAs(m: Machine, run: seq<Timed>, k: nat, ring: EventId) {
    exists j: nat :: j < k && RingOut(m, run, j, ring)
  }

  /** The room events the lifecycle heard, in order. */
  function Stream(run: seq<Timed>): seq<RoomEvent> {
    if run == [] then []
    else
      var t := run[|run| - 1];
      Stream(run[..|run| - 1]) + if t.action.Lifecycle? && t.action.move.Events? then t.action.move.events else []
  }

  predicate Refuses(m: Machine, e: RoomEvent, ring: EventId) {
    e.isDecline && e.sender == m.callee && e.references == Some(ring)
  }

  /** The distinct declines of the callee among the first `i` events. */
  function DeclinesBefore(m: Machine, stream: seq<RoomEvent>, i: nat): set<EventId>
    requires i <= |stream|
  {
    set e | e in stream[..i] && e.isDecline && e.sender == m.callee :: e.id
  }

  /** A decline of the ring that came before the ring's id was known, with fewer than eight others before it. */
  ghost predicate HeldBack(m: Machine, stream: seq<RoomEvent>, ring: EventId) {
    exists i :: 0 <= i < |stream| && Refuses(m, stream[i], ring) && |DeclinesBefore(m, stream, i)| < 8
  }

  /** The callee declines our ring: now that it rings, or before its id was known, which we learn now. */
  ghost predicate Refused(m: Machine, run: seq<Timed>, k: nat) {
    && k < |run| && run[k].action.Lifecycle?
    && ( || (exists ring :: RingOut(m, run, k, ring) && HeldBack(m, Stream(run[..k]), ring))
         || (&& At(m, run, k).state.Ringing? && run[k].action.move.Events?
             && exists ring, e :: RungAs(m, run, k, ring) && e in run[k].action.move.events && Refuses(m, e, ring)))
  }

  /** Action `k` ends the lifecycle, for that reason. */
  ghost predicate EndsAt(m: Machine, run: seq<Timed>, k: nat, reason: DirectEnd) {
    && k < |run| && run[k].action.Lifecycle?
    && var v, state := run[k].action.move, At(m, run, k).state;
       match reason
       case DirectDeclined => Refused(m, run, k)
       case DirectUnanswered => state.Ringing? && v.RingRanOut?
       case DirectRingNotSent => state.Sending? && v.RingFailed?
       case DirectOthersLeft => LeftAlone(m, run, k)
       case DirectLeft => !state.Over? && v.WeLeft?
       case DirectEmpty => false
  }

  // ---- what the lifecycle remembers -------------------------------------------------------------

  ghost predicate Remembers(m: Machine, run: seq<Timed>, k: nat)
    requires k <= |run|
  {
    var x := At(m, run, k);
    && x.callee == m.callee && x.ownUser == m.ownUser
    && (!x.state.Over? ==> (x.otherSeen <==> OtherSeen(m, run, k)))
    && (x.state.Sending? ==> m.state.Sending? && x.ring.None? && x.held == Hold(m, [], Stream(run[..k])))
    && (x.state.Sending? ==> forall ring :: !RungAs(m, run, k, ring))
    && (x.state.Ringing? ==> x.held == [])
    && (x.state.Ringing? ==> x.ring.Some? && forall ring :: RungAs(m, run, k, ring) <==> x.ring == Some(ring))
  }

  lemma StreamNext(run: seq<Timed>, k: nat)
    requires k < |run|
    ensures Stream(run[..k + 1]) == Stream(run[..k]) +
      if run[k].action.Lifecycle? && run[k].action.move.Events? then run[k].action.move.events else []
  {
    assert run[..k + 1][..k] == run[..k];
  }

  lemma SeenNext(m: Machine, run: seq<Timed>, k: nat)
    requires k < |run|
    ensures OtherSeen(m, run, k + 1) <==>
      OtherSeen(m, run, k) || (Rosters(run[k]) && run[k].action.move.senders - {m.ownUser} != {})
  {
    if Rosters(run[k]) {
      var s := run[k].action.move.senders;
      if u :| u in s && u != m.ownUser { assert u in s - {m.ownUser}; }
      if s - {m.ownUser} != {} { var u :| u in s - {m.ownUser}; assert u in s; }
    }
  }

  lemma HeldNext(m: Machine, x: Machine, run: seq<Timed>, k: nat)
    requires k < |run| && run[k].action.Lifecycle? && run[k].action.move.Events?
    requires x.callee == m.callee && x.held == Hold(m, [], Stream(run[..k]))
    ensures Hold(x, x.held, run[k].action.move.events) == Hold(m, [], Stream(run[..k + 1]))
  {
    StreamNext(run, k);
    HoldSame(x, m, x.held, run[k].action.move.events);
    HoldConcat(m, [], Stream(run[..k]), run[k].action.move.events);
  }

  lemma RememberStill(m: Machine, run: seq<Timed>, k: nat)
    requires k < |run| && Remembers(m, run, k) && !run[k].action.Lifecycle?
    ensures Remembers(m, run, k + 1)
  {
    AtNext(m, run, k);
    StreamNext(run, k);
    SeenNext(m, run, k);
    assert Stream(run[..k]) + [] == Stream(run[..k]);
    RingsNext(m, run, k, k + 1);
  }

  /** Who the ring was sent as, one action later. */
  lemma RingsNext(m: Machine, run: seq<Timed>, k: nat, n: nat)
    requires k < |run| && n == k + 1
    ensures forall ring :: RungAs(m, run, n, ring) <==> RingOut(m, run, k, ring) || RungAs(m, run, k, ring)
  {
    forall ring ensures RungAs(m, run, n, ring) <==> RingOut(m, run, k, ring) || RungAs(m, run, k, ring) {
      if RungAs(m, run, k, ring) {
        var j: nat :| j < k && RingOut(m, run, j, ring);
      }
    }
  }

  lemma RememberEvents(m: Machine, run: seq<Timed>, k: nat)
    requires k < |run| && Remembers(m, run, k) && run[k].action.Lifecycle? && run[k].action.move.Events?
    ensures Remembers(m, run, k + 1)
  {
    AtNext(m, run, k);
    SeenNext(m, run, k);
    RingsNext(m, run, k, k + 1);
    var x := At(m, run, k);
    if x.state.Sending? {
      HeldNext(m, x, run, k);
    }
  }

  lemma RememberRoster(m: Machine, run: seq<Timed>, k: nat)
    requires k < |run| && Remembers(m, run, k) && Rosters(run[k])
    ensures Remembers(m, run, k + 1)
  {
    AtNext(m, run, k);
    SeenNext(m, run, k);
    RingsNext(m, run, k, k + 1);
    StreamNext(run, k);
    assert Stream(run[..k]) + [] == Stream(run[..k]);
  }

  lemma RememberMove(m: Machine, run: seq<Timed>, k: nat)
    requires k < |run| && Remembers(m, run, k) && run[k].action.Lifecycle?
    ensures Remembers(m, run, k + 1)
  {
    if run[k].action.move.Events? {
      RememberEvents(m, run, k);
    } else if run[k].action.move.Roster? {
      RememberRoster(m, run, k);
    } else {
      AtNext(m, run, k);
      SeenNext(m, run, k);
      RingsNext(m, run, k, k + 1);
      StreamNext(run, k);
      assert Stream(run[..k]) + [] == Stream(run[..k]);
    }
  }

  lemma {:induction false} AlwaysRemembers(m: Machine, run: seq<Timed>, k: nat)
    requires Starts(m) && k <= |run|
    ensures Remembers(m, run, k)
  {
    if k > 0 {
      AlwaysRemembers(m, run, k - 1);
      if run[k - 1].action.Lifecycle? {
        RememberMove(m, run, k - 1);
      } else {
        RememberStill(m, run, k - 1);
      }
    }
  }

  // ---- one action ---------------------------------------------------------------------------------

  lemma HeldBackIsHeld(m: Machine, stream: seq<RoomEvent>, ring: EventId)
    requires EventsIdentified(stream)
    ensures HeldBack(m, stream, ring) <==> exists e :: e in Hold(m, [], stream) && RelatesTo(e, ring)
  {
    if i :| 0 <= i < |stream| && Refuses(m, stream[i], ring) && |DeclinesBefore(m, stream, i)| < 8 {
      assert DeclinesBefore(m, stream, i) == DeclineIds(m, stream[..i]);
      HeldExactly(m, stream, stream[i]);
    }
    if e :| e in Hold(m, [], stream) && RelatesTo(e, ring) {
      HeldExactly(m, stream, e);
      var i :| 0 <= i < |stream| && stream[i] == e && CalleeDecline(m, e) && |DeclineIds(m, stream[..i])| < MAX_HELD_DECLINES;
      assert DeclinesBefore(m, stream, i) == DeclineIds(m, stream[..i]);
    }
  }

  /** An action answers a call exactly by showing the callee on the roster, and the time of that is kept. */
  lemma PickupStep(m: Machine, run: seq<Timed>, k: nat)
    requires k < |run| && Remembers(m, run, k)
    ensures !At(m, run, k).state.InCall? ==> (At(m, run, k + 1).state.InCall? <==> PickedUp(m, run, k))
    ensures PickedUp(m, run, k) ==> At(m, run, k + 1).state == InCall(run[k].now)
    ensures At(m, run, k).state.InCall? && At(m, run, k + 1).state.InCall? ==> At(m, run, k + 1).state == At(m, run, k).state
  {
    AtNext(m, run, k);
  }

  lemma RefusedWhileSending(m: Machine, run: seq<Timed>, k: nat)
    requires k < |run| && Remembers(m, run, k) && EventsIdentified(Stream(run[..k]))
    requires At(m, run, k).state.Sending?
    ensures At(m, run, k + 1).state == Over(DirectDeclined) <==> Refused(m, run, k)
  {
    AtNext(m, run, k);
    if run[k].action.Lifecycle? && run[k].action.move.RingSent? {
      HeldBackIsHeld(m, Stream(run[..k]), run[k].action.move.ring);
    }
  }

  lemma RefusedWhileRinging(m: Machine, run: seq<Timed>, k: nat)
    requires k < |run| && Remembers(m, run, k) && At(m, run, k).state.Ringing?
    ensures At(m, run, k + 1).state == Over(DirectDeclined) <==> Refused(m, run, k)
  {
    AtNext(m, run, k);
    var x := At(m, run, k);
    if run[k].action.Lifecycle? && run[k].action.move.Events? {
      assert AnyDeclines(x, run[k].action.move.events, x.ring.value) <==>
        exists e :: e in run[k].action.move.events && Refuses(m, e, x.ring.value);
    }
  }

  lemma RefusedInCall(m: Machine, run: seq<Timed>, k: nat)
    requires k < |run| && At(m, run, k).state.InCall?
    ensures At(m, run, k + 1).state != Over(DirectDeclined) && !Refused(m, run, k)
  {
    AtNext(m, run, k);
  }

  lemma LeftAloneStep(m: Machine, run: seq<Timed>, k: nat)
    requires k < |run| && Remembers(m, run, k) && !At(m, run, k).state.Over?
    ensures At(m, run, k + 1).state == Over(DirectOthersLeft) <==> LeftAlone(m, run, k)
  {
    AtNext(m, run, k);
    if Rosters(run[k]) {
      var s := run[k].action.move.senders;
      assert s <= {m.ownUser} <==> forall u :: u in s ==> u == m.ownUser;
      if s <= {m.ownUser} {
        assert s - {m.ownUser} == {};
      }
    }
  }

  /** An action ends the lifecycle, for a reason, exactly when it is that reason. */
  lemma EndStep(m: Machine, run: seq<Timed>, k: nat, reason: DirectEnd)
    requires k < |run| && Remembers(m, run, k) && EventsIdentified(Stream(run[..k])) && !At(m, run, k).state.Over?
    ensures At(m, run, k + 1).state == Over(reason) <==> EndsAt(m, run, k, reason)
  {
    var x := At(m, run, k);
    if reason.DirectDeclined? {
      if x.state.Sending? {
        RefusedWhileSending(m, run, k);
      } else if x.state.Ringing? {
        RefusedWhileRinging(m, run, k);
      } else {
        RefusedInCall(m, run, k);
      }
    } else if reason.DirectOthersLeft? {
      LeftAloneStep(m, run, k);
    } else {
      AtNext(m, run, k);
    }
  }

  // ---- whole runs ----------------------------------------------------------------------------------

  lemma {:induction false} StreamPrefix(run: seq<Timed>, k: nat)
    requires k <= |run|
    ensures forall e :: e in Stream(run[..k]) ==> e in Stream(run)
  {
    if k < |run| {
      StreamPrefix(run[..|run| - 1], k);
      assert run[..|run| - 1][..k] == run[..k];
    } else {
      assert run[..k] == run;
    }
  }

  lemma {:induction false} OverStays(m: Machine, run: seq<Timed>, j: nat, k: nat)
    requires j <= k <= |run| && At(m, run, j).state.Over?
    ensures At(m, run, k).state == At(m, run, j).state
  {
    if j < k {
      OverStays(m, run, j, k - 1);
      AtNext(m, run, k - 1);
    }
  }

  /** Some action along the way took the lifecycle out. */
  lemma {:induction false} WhenItEnded(m: Machine, run: seq<Timed>, n: nat) returns (k: nat)
    requires n <= |run| && !m.state.Over? && At(m, run, n).state.Over?
    ensures k < n && !At(m, run, k).state.Over? && At(m, run, k + 1).state == At(m, run, n).state
  {
    if At(m, run, n - 1).state.Over? {
      k := WhenItEnded(m, run, n - 1);
      OverStays(m, run, n - 1, n);
    } else {
      k := n - 1;
    }
  }

  lemma {:induction false} WhenItWasAnswered(m: Machine, run: seq<Timed>, n: nat) returns (k: nat)
    requires Starts(m) && n <= |run| && !m.state.InCall? && At(m, run, n).state.InCall?
    ensures k < n && PickedUp(m, run, k) && At(m, run, n).state == InCall(run[k].now)
  {
    AlwaysRemembers(m, run, n - 1);
    PickupStep(m, run, n - 1);
    if At(m, run, n - 1).state.InCall? {
      k := WhenItWasAnswered(m, run, n - 1);
    } else {
      k := n - 1;
    }
  }

  /**
   * The call is or was answered exactly when a roster with the callee on it came while we were calling, and it
   * counts from the time of that roster.
   */
  lemma AnsweredExactlyWhen(m: Machine, run: seq<Timed>)
    requires Starts(m) && m.state.Sending?
    ensures (exists j: nat :: j <= |run| && At(m, run, j).state.InCall?) <==> exists k: nat :: PickedUp(m, run, k)
    ensures forall j: nat, t :: j <= |run| && At(m, run, j).state == InCall(t) ==>
      exists k: nat :: k < j && PickedUp(m, run, k) && run[k].now == t
  {
    forall j: nat, t | j <= |run| && At(m, run, j).state == InCall(t)
      ensures exists k: nat :: k < j && PickedUp(m, run, k) && run[k].now == t
    {
      var k := WhenItWasAnswered(m, run, j);
    }
    if k: nat :| PickedUp(m, run, k) {
      AlwaysRemembers(m, run, k);
      PickupStep(m, run, k);
      assert At(m, run, k + 1).state.InCall?;
    }
  }

  /** A call that rings went out when it says, with that lifetime. */
  lemma {:induction false} RingsAsSent(m: Machine, run: seq<Timed>, n: nat) returns (j: nat)
    requires Starts(m) && n <= |run| && At(m, run, n).state.Ringing?
    ensures j < n && exists ring :: RingOut(m, run, j, ring)
    ensures run[j].action.Lifecycle? && run[j].action.move.RingSent?
    ensures At(m, run, n).state == Ringing(run[j].now, run[j].action.move.lifetime)
  {
    AtNext(m, run, n - 1);
    if At(m, run, n - 1).state.Ringing? {
      j := RingsAsSent(m, run, n - 1);
    } else {
      j := n - 1;
      assert RingOut(m, run, j, run[j].action.move.ring);
    }
  }

  /**
   * Why the lifecycle is over, for every interleaving: `Declined` exactly when the callee declined our ring, heard
   * while it rang or held back before its id was known; `Unanswered` exactly when its time ran out while it rang;
   * `RingNotSent` exactly when sending it failed; `OthersLeft` exactly when a roster showed nobody else, in the call,
   * after somebody had been there; `Left` exactly when we left before any of that.
   */
  lemma EndedExactlyWhen(m: Machine, run: seq<Timed>, reason: DirectEnd)
    requires Starts(m) && EventsIdentified(Stream(run))
    ensures At(m, run, |run|).state == Over(reason) <==> exists k: nat :: EndsAt(m, run, k, reason)
  {
    if At(m, run, |run|).state == Over(reason) {
      var k := WhenItEnded(m, run, |run|);
      EndStepOfRun(m, run, k, reason);
    }
    if k: nat :| EndsAt(m, run, k, reason) {
      EndsForGood(m, run, k, reason);
    }
  }

  lemma EndsForGood(m: Machine, run: seq<Timed>, k: nat, reason: DirectEnd)
    requires Starts(m) && EventsIdentified(Stream(run)) && EndsAt(m, run, k, reason)
    ensures At(m, run, |run|).state == Over(reason)
  {
    EndsWhatLives(m, run, k, reason);
    EndStepOfRun(m, run, k, reason);
    OverStays(m, run, k + 1, |run|);
  }

  lemma EndsWhatLives(m: Machine, run: seq<Timed>, k: nat, reason: DirectEnd)
    requires EndsAt(m, run, k, reason)
    ensures !At(m, run, k).state.Over?
  {
  }

  lemma EndStepOfRun(m: Machine, run: seq<Timed>, k: nat, reason: DirectEnd)
    requires Starts(m) && EventsIdentified(Stream(run)) && k < |run| && !At(m, run, k).state.Over?
    ensures At(m, run, k + 1).state == Over(reason) <==> EndsAt(m, run, k, reason)
  {
    AlwaysRemembers(m, run, k);
    StreamPrefix(run, k);
    EndStep(m, run, k, reason);
  }
}
