/** Ending a call: the session's end, the DM lifecycle and the status, racing. */
module CallLifecycle {
  import opened Ordering
  import opened CallStatus
  import opened DirectCalls

  // ---- the session's end ----------------------------------------------------------------

  /** Whether we still take part, why not, and whether the end has a status to tell. */
  datatype Session = Session(live: bool, ended: Option<LeaveReason>, reporting: bool)

  /** Swapping the flag: whoever finds it set wins. */
  function Swapped(s: Session): Session {
    s.(live := false)
  }

  function EndedBy(s: Session, reason: LeaveReason): Session {
    if s.live then s.(live := false, ended := Some(reason)) else s
  }

  /** What an `end` tells the status, if it wins. */
  function EndTells(s: Session): bool {
    s.live && s.reporting
  }

  /** A participation's end: a flag taken once, a reason, and the status cell to tell. */
  class SessionEnd {
    var live: bool
    var ended: Option<LeaveReason>
    var status: CallStatusCell?

    function AsSession(): Session
      reads this
    {
      Session(live, ended, status != null)
    }

    constructor ()
      ensures AsSession() == Session(true, None, false) && status == null
    {
      live, ended, status := true, None, null;
    }

    /** Hands over the status cell; it hears of an end that came before it. */
    method ReportTo(status: CallStatusCell, now: nat)
      modifies this`status, status
      ensures AsSession() == old(AsSession()).(reporting := true) && this.status == status
      ensures status.AsCell() ==
        if ended.Some? then Reported(old(status.AsCell()), EndReported(SessionEndOf(ended.value)), now) else old(status.AsCell())
    {
      if ended.Some? {
        status.Report(EndReported(SessionEndOf(ended.value)), now);
      }
      this.status := status;
    }

    /** Two steps that anything may come between: the status is the caller's to tell. */
    method EndQuietly(reason: LeaveReason) returns (won: bool)
      modifies `live, `ended
      ensures won == old(live) && AsSession() == EndedBy(old(AsSession()), reason) && status == old(status)
    {
      won := SwapLive();
      if won {
        ended := Some(reason);
      }
    }

    method SwapLive() returns (was: bool)
      modifies `live
      ensures was == old(live) && AsSession() == Swapped(old(AsSession()))
    {
      was := live;
      live := false;
    }

    /** `false` if it was already over. */
    method End(reason: LeaveReason, now: nat) returns (won: bool)
      modifies `live, `ended, status
      ensures won == old(live) && AsSession() == EndedBy(old(AsSession()), reason) && status == old(status)
      ensures EndTells(old(AsSession())) ==>
        status.AsCell() == Reported(old(status.AsCell()), EndReported(SessionEndOf(reason)), now)
      ensures !EndTells(old(AsSession())) && status != null ==> status.AsCell() == old(status.AsCell())
    {
      won := SwapLive();
      if won {
        if status != null {
          status.Report(EndReported(SessionEndOf(reason)), now);
        }
        ended := Some(reason);
      }
    }

    /** A dropped session has no ending to report. */
    method Abandon()
      modifies `live
      ensures AsSession() == Swapped(old(AsSession()))
    {
      live := false;
    }
  }

  // ---- everything that can happen to a call ------------------------------------------------

  datatype Winner = ByEnd(reason: LeaveReason) | Quietly(reason: LeaveReason)

  /**
   * A joined call. `quiet` is a quiet end between its two steps. The rest is history: who won, how often anybody did,
   * what the session told the status, and every end reported to the status by anyone.
   */
  datatype World = World(
    machine: Option<Machine>,
    cell: Cell,
    session: Session,
    quiet: Option<LeaveReason>,
    winner: Option<Winner>,
    wins: nat,
    told: seq<LeaveReason>,
    ends: seq<CallEnd>)

  datatype Action =
    | Lifecycle(move: Move)
    | MediaConnects
    | MediaDegrades(degraded: bool)
    | MediaDetaches
    | ConnectionGivenUp(loss: LossReason, message: string)
    | ReportTo
    | End(reason: LeaveReason)
    | SwapQuietly(reason: LeaveReason)
    | SetQuietly
    | Abandon

  /** A session is given its status once. */
  predicate Enabled(w: World, a: Action) {
    a.ReportTo? ==> !w.session.reporting
  }

  function Media(w: World, r: Report, now: nat): World {
    w.(cell := Reported(w.cell, r, now))
  }

  /** Any source reporting an end to the status. */
  function ReportsEnd(w: World, e: CallEnd, now: nat): World {
    w.(cell := Reported(w.cell, EndReported(e), now), ends := w.ends + [e])
  }

  function Tells(w: World, reason: LeaveReason, now: nat): World {
    ReportsEnd(w, SessionEndOf(reason), now).(told := w.told + [reason])
  }

  /** The lifecycle's step; its status hears of a state that changed. */
  function LifecycleStep(w: World, v: Move, now: nat): World {
    match w.machine
    case None => w
    case Some(m) =>
      var m' := Moved(m, v, now);
      var moved := w.(machine := Some(m'));
      if m'.state == m.state then moved
      else moved.(
        cell := Reported(w.cell, DirectMoved(m'.state), now),
        ends := if m'.state.Over? then w.ends + [EndOf(m'.state.reason)] else w.ends)
  }

  function Step(w: World, a: Action, now: nat): World {
    match a
    case Lifecycle(v) => LifecycleStep(w, v, now)
    case MediaConnects => Media(w, MediaUp, now)
    case MediaDegrades(d) => Media(w, MediaDegraded(d), now)
    case MediaDetaches => Media(w, MediaDetached, now)
    case ConnectionGivenUp(loss, message) => ReportsEnd(w, ConnectionClosed(loss, message), now)
    case ReportTo =>
      var w' := if w.session.ended.Some? then Tells(w, w.session.ended.value, now) else w;
      w'.(session := w.session.(reporting := true))
    case End(reason) =>
      if !w.session.live then w
      else
        var w' := if w.session.reporting then Tells(w, reason, now) else w;
        w'.(session := EndedBy(w.session, reason), winner := Some(ByEnd(reason)), wins := w.wins + 1)
    case SwapQuietly(reason) =>
      if !w.session.live then w
      else w.(session := Swapped(w.session), quiet := Some(reason), winner := Some(Quietly(reason)), wins := w.wins + 1)
    case SetQuietly =>
      if w.quiet.None? then w else w.(session := w.session.(ended := w.quiet), quiet := None)
    case Abandon => w.(session := Swapped(w.session))
  }

  /** A run: each action at its time. */
  datatype Timed = Timed(action: Action, now: nat)

  function Run(w: World, run: seq<Timed>): World {
    if run == [] then w else Step(Run(w, run[..|run| - 1]), run[|run| - 1].action, run[|run| - 1].now)
  }

  predicate Allowed(w: World, run: seq<Timed>) {
    run == [] || (Allowed(w, run[..|run| - 1]) && Enabled(Run(w, run[..|run| - 1]), run[|run| - 1].action))
  }

  /** A call as it is joined; in a DM, with its lifecycle where the join found it. */
  function Joined(machine: Option<Machine>, now: nat): World {
    var direct := match machine case None => None case Some(m) => Some(Direct(m.callee, m.state));
    var ends := if machine.Some? && machine.value.state.Over? then [EndOf(machine.value.state.reason)] else [];
    World(machine, Initial(direct, now), Session(true, None, false), None, None, 0, [], ends)
  }

  // ---- what every step keeps -------------------------------------------------------------------

  /** The status follows the lifecycle, and its end is the first one reported. */
  ghost predicate StatusKept(w: World) {
    && CellKept(w.cell)
    && w.cell.inputs.direct == (match w.machine case None => None case Some(m) => Some(Direct(m.callee, m.state)))
    && w.cell.inputs.ended == (if w.ends == [] then None else Some(w.ends[0]))
  }

  /** At most one winner, and what it told. */
  ghost predicate SessionKept(w: World) {
    && w.wins == (if w.winner.Some? then 1 else 0)
    && (w.session.live ==> w.winner.None?)
    && (w.quiet.Some? ==> w.winner == Some(Quietly(w.quiet.value)) && w.session.ended.None?)
    && (w.session.ended.Some? ==> w.winner.Some? && w.winner.value.reason == w.session.ended.value)
    && (w.winner.Some? && w.winner.value.ByEnd? ==> w.session.ended.Some? && w.told == if w.session.reporting then [w.winner.value.reason] else [])
    && (w.winner.None? ==> w.told == [])
    && (w.winner.Some? && w.winner.value.Quietly? ==> w.quiet.Some? || w.session.ended.Some?)
    && (w.told != [] ==> w.session.reporting && w.session.ended.Some? && w.told == [w.session.ended.value] && SessionEndOf(w.told[0]) in w.ends)
  }

  lemma JoinedKept(machine: Option<Machine>, now: nat)
    ensures StatusKept(Joined(machine, now)) && SessionKept(Joined(machine, now))
  {
  }

  /** From one world to a later one: nothing goes back. */
  ghost predicate Onward(w: World, w': World) {
    && (w.machine.Some? <==> w'.machine.Some?)
    && (w.machine.Some? ==>
      w.machine.value.state == w'.machine.value.state || Progress(w.machine.value.state) < Progress(w'.machine.value.state))
    && Phase(w.cell.status) <= Phase(w'.cell.status)
    && (w.cell.inputs.connectedSince.Some? ==> w'.cell.inputs.connectedSince == w.cell.inputs.connectedSince)
    && (w.cell.inputs.ended.Some? ==> w'.cell.inputs.ended == w.cell.inputs.ended && w'.cell.status == w.cell.status)
    && (w.winner.Some? ==> w'.winner == w.winner)
    && w.told <= w'.told && w.ends <= w'.ends
    && (w.session.reporting ==> w'.session.reporting)
  }

  lemma MediaOnward(w: World, r: Report, now: nat)
    requires StatusKept(w) && SessionKept(w) && (r.MediaUp? || r.MediaDegraded? || r.MediaDetached?)
    ensures var w' := Media(w, r, now); StatusKept(w') && SessionKept(w') && Onward(w, w')
  {
  }

  lemma EndOnward(w: World, e: CallEnd, now: nat)
    requires StatusKept(w)
    ensures var w' := ReportsEnd(w, e, now); StatusKept(w') && Onward(w, w') && e in w'.ends
  {
  }

  lemma LifecycleOnward(w: World, v: Move, now: nat)
    requires StatusKept(w) && SessionKept(w)
    ensures var w' := LifecycleStep(w, v, now); StatusKept(w') && SessionKept(w') && Onward(w, w')
  {
    if w.machine.Some? {
      var m := w.machine.value;
      var m' := Moved(m, v, now);
      MovesForward(m, v, now);
      if m'.state != m.state {
        ReportedForward(w.cell, DirectMoved(m'.state), now);
        if m.state.Over? { assert false; }
      }
    }
  }

  lemma StepOnward(w: World, a: Action, now: nat)
    requires StatusKept(w) && SessionKept(w) && Enabled(w, a)
    ensures var w' := Step(w, a, now); StatusKept(w') && SessionKept(w') && Onward(w, w')
  {
    match a {
      case Lifecycle(v) => LifecycleOnward(w, v, now);
      case MediaConnects => MediaOnward(w, MediaUp, now);
      case MediaDegrades(d) => MediaOnward(w, MediaDegraded(d), now);
      case MediaDetaches => MediaOnward(w, MediaDetached, now);
      case ConnectionGivenUp(loss, message) => EndOnward(w, ConnectionClosed(loss, message), now);
      case ReportTo => ReportToOnward(w, now);
      case End(reason) => WinningOnward(w, reason, now);
      case _ =>
    }
  }

  lemma ReportToOnward(w: World, now: nat)
    requires StatusKept(w) && SessionKept(w) && !w.session.reporting
    ensures var w' := Step(w, ReportTo, now); StatusKept(w') && SessionKept(w') && Onward(w, w')
  {
  }

  lemma WinningOnward(w: World, reason: LeaveReason, now: nat)
    requires StatusKept(w) && SessionKept(w)
    ensures var w' := Step(w, End(reason), now); StatusKept(w') && SessionKept(w') && Onward(w, w')
  {
    EndOnward(w, SessionEndOf(reason), now);
  }

  /**
   * Over every interleaving: the lifecycle only moves strictly forward, the status' phase never goes back, the
   * connected time once set and the end once reported stand, and whoever won first stays the winner.
   */
  lemma {:induction false} NothingGoesBack(w: World, run: seq<Timed>)
    requires StatusKept(w) && SessionKept(w) && Allowed(w, run)
    ensures var w' := Run(w, run); StatusKept(w') && SessionKept(w') && Onward(w, w')
  {
    if run != [] {
      var n := |run| - 1;
      NothingGoesBack(w, run[..n]);
      StepOnward(Run(w, run[..n]), run[n].action, run[n].now);
    }
  }

  // ---- the results -------------------------------------------------------------------------------

  /** Whatever the interleaving, at most one caller ends the session. */
  lemma OneEnderWins(machine: Option<Machine>, joinedAt: nat, run: seq<Timed>)
    requires Allowed(Joined(machine, joinedAt), run)
    ensures Run(Joined(machine, joinedAt), run).wins <= 1
  {
    JoinedKept(machine, joinedAt);
    NothingGoesBack(Joined(machine, joinedAt), run);
  }

  /** The status shows the first end anybody reported, as soon as anybody has. */
  lemma FirstEndStands(machine: Option<Machine>, joinedAt: nat, run: seq<Timed>)
    requires Allowed(Joined(machine, joinedAt), run)
    ensures var w := Run(Joined(machine, joinedAt), run);
      if w.ends == [] then !w.cell.status.Ended? else w.cell.status == Ended(w.ends[0])
  {
    JoinedKept(machine, joinedAt);
    NothingGoesBack(Joined(machine, joinedAt), run);
  }

  /** A winning `end` reaches the status exactly once, whichever of it and `report_to` comes first. */
  lemma WinningEndToldOnce(machine: Option<Machine>, joinedAt: nat, run: seq<Timed>)
    requires Allowed(Joined(machine, joinedAt), run)
    ensures var w := Run(Joined(machine, joinedAt), run);
      && |w.told| <= 1
      && (w.winner.Some? && w.winner.value.ByEnd? && w.session.reporting ==>
        w.told == [w.winner.value.reason] && SessionEndOf(w.winner.value.reason) in w.ends && w.cell.status.Ended?)
  {
    JoinedKept(machine, joinedAt);
    NothingGoesBack(Joined(machine, joinedAt), run);
  }

  predicate WithoutReports(run: seq<Timed>) {
    forall k | 0 <= k < |run| :: !run[k].action.ReportTo?
  }

  /** A quiet end that finds a status to report to leaves it to its caller: the session itself never tells. */
  lemma {:induction false} QuietEndsStayQuiet(w: World, run: seq<Timed>)
    requires StatusKept(w) && SessionKept(w) && Allowed(w, run) && WithoutReports(run)
    requires w.winner.Some? && w.winner.value.Quietly? && w.told == []
    ensures Run(w, run).told == []
  {
    if run != [] {
      var n := |run| - 1;
      QuietEndsStayQuiet(w, run[..n]);
      NothingGoesBack(w, run[..n]);
      assert !run[n].action.ReportTo?;
    }
  }
}
