/** A joined call's one status, combined from the DM lifecycle, our media, and whoever ends the call first. */
module CallStatus {
  import opened Ordering

  type UserId = string
  type EventId = string

  // ---- the DM lifecycle's states -----------------------------------------------------

  datatype DirectEnd = DirectDeclined | DirectUnanswered | DirectRingNotSent | DirectOthersLeft | DirectEmpty | DirectLeft

  datatype DirectState =
    | Sending
    | Ringing(sentAt: nat, lifetime: nat)
    | InCall(since: nat)
    | Over(reason: DirectEnd)

  /** How far a lifecycle state is along. */
  function Progress(s: DirectState): nat {
    match s case Sending => 0 case Ringing(_, _) => 1 case InCall(_) => 2 case Over(_) => 3
  }

  // ---- the status ----------------------------------------------------------------------

  datatype LossReason = Budget | ConnectionRefused | NeverConnected

  datatype CallEnd =
    | Left | Declined | Unanswered | RingNotSent | OthersLeft | Empty | SlotClosed
    | ConnectionClosed(reason: LossReason, message: string)

  datatype MediaPhase = MediaConnecting | MediaConnected(degraded: bool)
  datatype RingPhase = RingSending | RingRinging(sentAt: nat, lifetime: nat)

  datatype Status =
    | Connecting
    | Calling(callee: UserId, ring: RingPhase, media: MediaPhase)
    | Connected(since: nat, degraded: bool)
    | Ended(reason: CallEnd)

  /** The phases a status moves through; connected and connecting are one. */
  function Phase(s: Status): nat {
    match s case Calling(_, _, _) => 0 case Connecting => 1 case Connected(_, _) => 1 case Ended(_) => 2
  }

  function EndOf(e: DirectEnd): CallEnd {
    match e
    case DirectDeclined => Declined
    case DirectUnanswered => Unanswered
    case DirectRingNotSent => RingNotSent
    case DirectOthersLeft => OthersLeft
    case DirectEmpty => Empty
    case DirectLeft => Left
  }

  datatype Direct = Direct(callee: UserId, state: DirectState)

  datatype Inputs = Inputs(media: MediaPhase, direct: Option<Direct>, connectedSince: Option<nat>, ended: Option<CallEnd>)

  /** The inputs and the status last published from them. */
  datatype Cell = Cell(inputs: Inputs, status: Status)

  function RingOf(i: Inputs): Option<(UserId, RingPhase)> {
    match i.direct
    case None => None
    case Some(d) =>
      match d.state
      case Sending => Some((d.callee, RingSending))
      case Ringing(at, lifetime) => Some((d.callee, RingRinging(at, lifetime)))
      case _ => None
  }

  predicate IsConnected(i: Inputs) {
    i.ended.None? && RingOf(i).None? && i.media.MediaConnected?
  }

  /** The first time both media and somebody to talk to are there is kept. */
  function Stamped(i: Inputs, now: nat): Inputs {
    if IsConnected(i) && i.connectedSince.None? then i.(connectedSince := Some(now)) else i
  }

  function Shown(i: Inputs): Status
    requires IsConnected(i) ==> i.connectedSince.Some?
  {
    if i.ended.Some? then Ended(i.ended.value)
    else match RingOf(i)
      case Some(r) => Calling(r.0, r.1, i.media)
      case None =>
        if i.media.MediaConnecting? then Connecting
        else Connected(i.connectedSince.value, i.media.degraded)
  }

  function Published(i: Inputs, now: nat): Cell {
    Cell(Stamped(i, now), Shown(Stamped(i, now)))
  }

  function WithEnd(i: Inputs, e: CallEnd): Inputs {
    if i.ended.None? then i.(ended := Some(e)) else i
  }

  function WithDirect(i: Inputs, s: DirectState): Inputs {
    var j := if s.Over? then WithEnd(i, EndOf(s.reason)) else i;
    if j.direct.Some? then j.(direct := Some(j.direct.value.(state := s))) else j
  }

  datatype Report =
    | DirectMoved(state: DirectState)
    | MediaUp
    | MediaDegraded(degraded: bool)
    | MediaDetached
    | EndReported(end: CallEnd)

  function Applied(i: Inputs, r: Report): Inputs {
    match r
    case DirectMoved(s) => WithDirect(i, s)
    case MediaUp => i.(media := MediaConnected(false))
    case MediaDegraded(d) => if i.media.MediaConnected? then i.(media := MediaConnected(d)) else i
    case MediaDetached => i.(media := MediaConnecting)
    case EndReported(e) => WithEnd(i, e)
  }

  function Reported(c: Cell, r: Report, now: nat): Cell {
    Published(Applied(c.inputs, r), now)
  }

  function Initial(direct: Option<Direct>, now: nat): Cell {
    var i := Inputs(MediaConnecting, direct, None, None);
    Published(if direct.Some? then WithDirect(i, direct.value.state) else i, now)
  }

  /** Why a session ended, as a call's end. */
  datatype LeaveReason = LeaveReason(slotClosed: bool)

  function SessionEndOf(r: LeaveReason): CallEnd {
    if r.slotClosed then SlotClosed else Left
  }

  /** The cell: its fields are the inputs, and `status` is what was last published of them. */
  class CallStatusCell {
    var media: MediaPhase
    var direct: Option<Direct>
    var connectedSince: Option<nat>
    var ended: Option<CallEnd>
    var status: Status
    var lossFollowed: bool
    var loss: Option<(LossReason, string)>

    function AsCell(): Cell
      reads this
    {
      Cell(Inputs(media, direct, connectedSince, ended), status)
    }

    constructor (initial: Option<Direct>, now: nat)
      ensures AsCell() == Initial(initial, now) && !lossFollowed && loss.None?
    {
      media, direct, connectedSince := MediaConnecting, initial, None;
      ended := if initial.Some? && initial.value.state.Over? then Some(EndOf(initial.value.state.reason)) else None;
      lossFollowed, loss := false, None;
      status := Connecting;
      new;
      Publish(now);
    }

    /** `status()` then the publication: the connected time is set on first use. */
    method Publish(now: nat)
      modifies `status, `connectedSince
      ensures AsCell() == Published(old(AsCell()).inputs, now)
    {
      if ended.Some? {
        status := Ended(ended.value);
      } else if direct.Some? && direct.value.state.Sending? {
        status := Calling(direct.value.callee, RingSending, media);
      } else if direct.Some? && direct.value.state.Ringing? {
        status := Calling(direct.value.callee, RingRinging(direct.value.state.sentAt, direct.value.state.lifetime), media);
      } else if media.MediaConnecting? {
        status := Connecting;
      } else {
        if connectedSince.None? {
          connectedSince := Some(now);
        }
        status := Connected(connectedSince.value, media.degraded);
      }
    }

    method Report(r: Report, now: nat)
      modifies this
      ensures AsCell() == Reported(old(AsCell()), r, now)
      ensures lossFollowed == old(lossFollowed) && loss == old(loss)
    {
      match r {
        case DirectMoved(s) =>
          if s.Over? && ended.None? { ended := Some(EndOf(s.reason)); }
          if direct.Some? { direct := Some(direct.value.(state := s)); }
        case MediaUp => media := MediaConnected(false);
        case MediaDegraded(d) => if media.MediaConnected? { media := MediaConnected(d); }
        case MediaDetached => media := MediaConnecting;
        case EndReported(e) => if ended.None? { ended := Some(e); }
      }
      Publish(now);
    }

    /** A media loss: handed to the call's follower if there is one, the end of the call otherwise. */
    method Lost(reason: LossReason, message: string, now: nat)
      modifies this
      ensures lossFollowed == old(lossFollowed)
      ensures lossFollowed ==> AsCell() == old(AsCell()) && loss == Some((reason, message))
      ensures !lossFollowed ==> AsCell() == Reported(old(AsCell()), EndReported(ConnectionClosed(reason, message)), now) && loss == old(loss)
    {
      if lossFollowed {
        loss := Some((reason, message));
      } else {
        Report(EndReported(ConnectionClosed(reason, message)), now);
      }
    }
  }

  // ---- what every report keeps -------------------------------------------------------------

  ghost predicate CellKept(c: Cell) {
    && (IsConnected(c.inputs) ==> c.inputs.connectedSince.Some?)
    && c.status == Shown(c.inputs)
    && (c.inputs.direct.Some? && c.inputs.direct.value.state.Over? ==> c.inputs.ended.Some?)
  }

  /** A lifecycle report that does not go back. */
  predicate Forward(c: Cell, r: Report) {
    r.DirectMoved? && c.inputs.direct.Some? ==> Progress(c.inputs.direct.value.state) <= Progress(r.state)
  }

  /** One report: the phase never goes back, a connected time and an end once set stand, and an end is final. */
  lemma ReportedForward(c: Cell, r: Report, now: nat)
    requires CellKept(c) && Forward(c, r)
    ensures var c' := Reported(c, r, now);
      && CellKept(c')
      && Phase(c.status) <= Phase(c'.status)
      && (c.inputs.connectedSince.Some? ==> c'.inputs.connectedSince == c.inputs.connectedSince)
      && (c.status.Connected? && c'.status.Connected? ==> c'.status.since == c.status.since)
      && (c.inputs.ended.Some? ==> c'.inputs.ended == c.inputs.ended && c'.status == c.status)
  {
  }

  /** In a DM, connected means the callee is here. */
  lemma ConnectedMeansInCall(c: Cell)
    requires CellKept(c) && c.inputs.direct.Some? && c.status.Connected?
    ensures c.inputs.direct.value.state.InCall?
  {
  }
}
