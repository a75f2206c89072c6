/** Our raised hand as a desired-state protocol: requests, the sender that meets them, and what a caller is told. */
module HandProtocol {
  import opened Ordering

  type EventId = string

  /** Our annotation as it last landed, and the membership event it annotates. */
  datatype OwnHand = OwnHand(reaction: EventId, on: EventId)

  /** Requests are numbered in order; all up to `settled` are answered; `refused` is the one refused last. */
  datatype Requests = Requests(latest: nat, settled: nat, refused: Option<nat>)

  datatype Hand = Hand(own: Option<OwnHand>, wanted: bool, requests: Requests)

  datatype Send = Annotate(on: EventId, replacing: Option<EventId>) | Redact(reaction: EventId)

  const LOWERED := Hand(None, false, Requests(0, 0, None))

  // ---- the state's operations ------------------------------------------------------

  function Requested(h: Hand, up: bool): Hand {
    if up == h.wanted then h else h.(wanted := up, requests := h.requests.(latest := h.requests.latest + 1))
  }

  /** `hand_step`: what it takes to stand where it was asked to on `current`. */
  function Step(h: Hand, current: Option<EventId>): Option<Send> {
    if current.None? then None
    else if h.wanted then
      match h.own
      case None => Some(Annotate(current.value, None))
      case Some(o) => if o.on != current.value then Some(Annotate(current.value, Some(o.reaction))) else None
    else
      match h.own
      case None => None
      case Some(o) => Some(Redact(o.reaction))
  }

  function SettledAll(h: Hand): Hand {
    h.(requests := h.requests.(settled := h.requests.latest))
  }

  function Raised(h: Hand, reaction: EventId, on: EventId): Hand {
    h.(own := Some(OwnHand(reaction, on)))
  }

  function Lowered(h: Hand): Hand {
    h.(own := None)
  }

  /** A permanent refusal: back to where the hand last landed, and the latest request fails. */
  function Refused(h: Hand): Hand {
    h.(wanted := h.own.Some?, requests := Requests(h.requests.latest, h.requests.latest, Some(h.requests.latest)))
  }

  function RedactedElsewhere(h: Hand, reaction: EventId): Hand {
    if h.own.Some? && h.own.value.reaction == reaction then h.(own := None) else h
  }

  function Reset(h: Hand): Hand {
    SettledAll(h.(own := None, wanted := false))
  }

  /** The hand stands where it was asked to, on our current membership event. */
  predicate Agreed(h: Hand, current: EventId) {
    h.wanted == h.own.Some? && (h.own.Some? ==> h.own.value.on == current)
  }

  // ---- the sender and its surroundings ------------------------------------------------

  /** One participation: the hand, our current membership event, the send in flight, and whether the sender ended. */
  datatype World = World(hand: Hand, current: Option<EventId>, flight: Option<Send>, stopped: bool)

  datatype Outcome = Landed(event: EventId) | RefusedForGood | Failed | TimedOut | Over

  datatype Action =
    | Ask(up: bool)
    | Move(event: EventId)
    | Redaction(reaction: EventId)
    | Look
    | Answer(outcome: Outcome)
    | LeaveCall

  /** A raise, or a lower while the hand is wanted, needs a membership to relate to. */
  predicate Accepted(w: World, up: bool) {
    (up || w.hand.wanted) ==> w.current.Some?
  }

  predicate Enabled(w: World, a: Action) {
    match a
    case Look => !w.stopped && w.flight.None?
    case Answer(_) => !w.stopped && w.flight.Some?
    case _ => true
  }

  /** `hand_sent`: one send's outcome. */
  function Answered(w: World, send: Send, o: Outcome): World {
    if w.current.None? then w.(flight := None, stopped := true)
    else match o
      case Landed(event) =>
        w.(flight := None, hand := if send.Annotate? then Raised(w.hand, event, send.on) else Lowered(w.hand))
      case RefusedForGood => w.(flight := None, hand := Refused(w.hand))
      case Failed => w.(flight := None)
      case TimedOut => w.(flight := None)
      case Over => w.(flight := None, stopped := true)
  }

  function Next(w: World, a: Action): World
    requires Enabled(w, a)
  {
    match a
    case Ask(up) => if Accepted(w, up) then w.(hand := Requested(w.hand, up)) else w
    case Move(event) => w.(current := Some(event))
    case Redaction(reaction) => w.(hand := RedactedElsewhere(w.hand, reaction))
    case Look =>
      var step := Step(w.hand, w.current);
      if step.None? then w.(hand := SettledAll(w.hand)) else w.(flight := step)
    case Answer(o) => Answered(w, w.flight.value, o)
    case LeaveCall => World(Reset(w.hand), None, None, true)
  }

  /** The sender's loop sends exactly when the hand does not stand where it was asked to. */
  lemma SendsUnlessAgreed(h: Hand, current: EventId)
    ensures Step(h, Some(current)).None? <==> Agreed(h, current)
  {
  }

  // ---- how many sends it takes --------------------------------------------------------------

  /** How many sends away agreement is, if nothing interferes. */
  function Distance(h: Hand, current: Option<EventId>): nat {
    if current.None? then 0
    else match h.own
      case None => if h.wanted then 1 else 0
      case Some(o) =>
        if h.wanted then (if o.on == current.value then 0 else 1)
        else (if o.on == current.value then 1 else 2)
  }

  function Potential(w: World): nat {
    if w.stopped then 0
    else match w.flight
      case None => Distance(w.hand, w.current)
      case Some(send) => if Step(w.hand, w.current) == Some(send) then Distance(w.hand, w.current) - 1 else 2
  }

  /** What moves the goal or fails on the way: a new request, a moved event, a foreign redaction, a transient
      failure, or the permanent refusal of a re-annotation. */
  predicate Disturbs(w: World, a: Action) {
    match a
    case Ask(up) => Accepted(w, up) && up != w.hand.wanted
    case Move(event) => w.current != Some(event)
    case Redaction(reaction) => w.hand.own.Some? && w.hand.own.value.reaction == reaction
    case Answer(o) =>
      || o.Failed? || o.TimedOut?
      || (o.RefusedForGood? && w.flight.Some? && w.flight.value.Annotate? && w.flight.value.replacing.Some?)
    case _ => false
  }

  predicate Sends(w: World, a: Action) {
    a.Look? && Step(w.hand, w.current).Some?
  }

  function Count(b: bool): nat { if b then 1 else 0 }

  lemma StepWork(w: World, a: Action)
    requires Enabled(w, a)
    ensures Count(Sends(w, a)) + Potential(Next(w, a)) <= Potential(w) + 2 * Count(Disturbs(w, a))
  {
  }

  ghost predicate Run(ws: seq<World>, actions: seq<Action>) {
    && |ws| == |actions| + 1
    && forall k :: 0 <= k < |actions| ==> Enabled(ws[k], actions[k]) && ws[k + 1] == Next(ws[k], actions[k])
  }

  function SendCount(ws: seq<World>, actions: seq<Action>): nat
    requires |ws| == |actions| + 1
  {
    if actions == [] then 0
    else
      var n := |actions| - 1;
      SendCount(ws[..n + 1], actions[..n]) + Count(Sends(ws[n], actions[n]))
  }

  function DisturbanceCount(ws: seq<World>, actions: seq<Action>): nat
    requires |ws| == |actions| + 1
  {
    if actions == [] then 0
    else
      var n := |actions| - 1;
      DisturbanceCount(ws[..n + 1], actions[..n]) + Count(Disturbs(ws[n], actions[n]))
  }

  /**
   * The sender's work is bounded by what disturbs it: over any run, sends and the distance left never exceed the
   * distance at the start plus two for each disturbance. Undisturbed, it is at rest after at most two sends.
   */
  lemma {:induction false} SendsAreBounded(ws: seq<World>, actions: seq<Action>)
    requires Run(ws, actions)
    ensures SendCount(ws, actions) + Potential(ws[|actions|]) <= Potential(ws[0]) + 2 * DisturbanceCount(ws, actions)
    ensures Potential(ws[0]) <= 2
  {
    if actions != [] {
      var n := |actions| - 1;
      SendsAreBounded(ws[..n + 1], actions[..n]);
      StepWork(ws[n], actions[n]);
    }
  }

  function LookCount(actions: seq<Action>): nat {
    if actions == [] then 0
    else LookCount(actions[..|actions| - 1]) + Count(actions[|actions| - 1].Look?)
  }

  lemma {:induction false} LooksThatAllSend(ws: seq<World>, actions: seq<Action>)
    requires Run(ws, actions) && forall k :: 0 <= k < |actions| && actions[k].Look? ==> Sends(ws[k], actions[k])
    ensures LookCount(actions) == SendCount(ws, actions)
  {
    if actions != [] {
      var n := |actions| - 1;
      LooksThatAllSend(ws[..n + 1], actions[..n]);
    }
  }

  /**
   * Rest is reached: in any run with more looks than the distance at the start plus two for each disturbance, some
   * look sends nothing, and then the hand stands where it was asked to and every request is answered.
   */
  lemma RestIsReached(ws: seq<World>, actions: seq<Action>) returns (k: nat)
    requires Run(ws, actions)
    requires LookCount(actions) > Potential(ws[0]) + 2 * DisturbanceCount(ws, actions)
    ensures k < |actions| && actions[k].Look? && ws[k + 1].hand.requests.settled == ws[k + 1].hand.requests.latest
    ensures ws[k + 1].current.Some? ==> Agreed(ws[k + 1].hand, ws[k + 1].current.value)
  {
    SendsAreBounded(ws, actions);
    if forall j :: 0 <= j < |actions| && actions[j].Look? ==> Sends(ws[j], actions[j]) {
      LooksThatAllSend(ws, actions);
      assert false;
    }
    k :| 0 <= k < |actions| && actions[k].Look? && !Sends(ws[k], actions[k]);
    RestMeansAgreed(ws[k]);
  }

  /** At rest: a look that sends nothing leaves agreement, if we are in the call, and every request answered. */
  lemma RestMeansAgreed(w: World)
    requires Enabled(w, Look) && !Sends(w, Look)
    ensures var r := Next(w, Look);
      && (w.current.Some? ==> Agreed(r.hand, w.current.value))
      && r.hand.requests.settled == r.hand.requests.latest
      && r.hand.own == w.hand.own && r.hand.wanted == w.hand.wanted
  {
  }

  /**
   * The self-loop: a permanent refusal leaves the sender with the very send that was refused exactly when that
   * send re-annotates a hand still wanted on a membership event that has moved on.
   */
  lemma RefusalRepeats(w: World)
    requires !w.stopped && w.current.Some? && w.flight.Some? && Step(w.hand, w.current) == w.flight
    ensures var r := Next(w, Answer(RefusedForGood));
      (Step(r.hand, r.current) == w.flight <==> w.hand.wanted && w.hand.own.Some?)
  {
  }

  /** The loop as a run: raised on `a`, our event moves to `b`, and the refused re-annotation is sent again. */
  lemma RefusedSendIsSentAgain(a: EventId, b: EventId, raised: EventId) returns (ws: seq<World>, actions: seq<Action>)
    requires a != b
    ensures Run(ws, actions) && |actions| == 7 && ws[0] == World(LOWERED, Some(a), None, false)
    ensures actions[4..] == [Look, Answer(RefusedForGood), Look]
    ensures ws[5].flight == ws[7].flight == Some(Annotate(b, Some(raised))) && ws[6].hand == ws[7].hand
  {
    actions := [Ask(true), Look, Answer(Landed(raised)), Move(b), Look, Answer(RefusedForGood), Look];
    var w0 := World(LOWERED, Some(a), None, false);
    var w1 := Next(w0, actions[0]);
    var w2 := Next(w1, actions[1]);
    var w3 := Next(w2, actions[2]);
    var w4 := Next(w3, actions[3]);
    var w5 := Next(w4, actions[4]);
    var w6 := Next(w5, actions[5]);
    ws := [w0, w1, w2, w3, w4, w5, w6, Next(w6, actions[6])];
  }

  /** A redaction of our hand from elsewhere does not take back the wish: the sender raises it again. */
  lemma ForeignRedactionIsUndone(w: World)
    requires w.current.Some? && w.hand.own.Some? && Agreed(w.hand, w.current.value)
    ensures var r := Next(w, Redaction(w.hand.own.value.reaction));
      Step(r.hand, r.current) == Some(Annotate(w.current.value, None))
  {
  }

  // ---- what a waiting caller is told ------------------------------------------------------------

  datatype Verdict = Pending | Fine | Refusal

  /** `wait_for_hand`, on the requests as they stand. */
  function VerdictOf(r: Requests, request: nat): Verdict {
    if r.refused == Some(request) then Refusal
    else if r.latest > request || r.settled >= request then Fine
    else Pending
  }

  ghost predicate Ordered(r: Requests) {
    r.settled <= r.latest && (r.refused.Some? ==> r.refused.value <= r.latest)
  }

  lemma NextOrdered(w: World, a: Action)
    requires Enabled(w, a) && Ordered(w.hand.requests)
    ensures Ordered(Next(w, a).hand.requests)
    ensures w.hand.requests.latest <= Next(w, a).hand.requests.latest
    ensures w.hand.requests.settled <= Next(w, a).hand.requests.settled
  {
  }

  predicate RefusesNow(w: World, a: Action) {
    a.Answer? && a.outcome.RefusedForGood? && w.current.Some?
  }

  lemma {:induction false} RunOrdered(ws: seq<World>, actions: seq<Action>, j: nat, k: nat)
    requires Run(ws, actions) && j <= k < |ws| && Ordered(ws[j].hand.requests)
    ensures Ordered(ws[k].hand.requests)
    ensures ws[j].hand.requests.latest <= ws[k].hand.requests.latest
    ensures ws[j].hand.requests.settled <= ws[k].hand.requests.settled
  {
    if j < k {
      RunOrdered(ws, actions, j, k - 1);
      NextOrdered(ws[k - 1], actions[k - 1]);
    }
  }

  /** One step takes no answer back, and fails a request only by a refusal while it is the latest. */
  lemma AnswerStays(w: World, a: Action, request: nat)
    requires Enabled(w, a) && Ordered(w.hand.requests)
    ensures VerdictOf(w.hand.requests, request) != Pending ==> VerdictOf(Next(w, a).hand.requests, request) != Pending
    ensures VerdictOf(Next(w, a).hand.requests, request) == Refusal ==>
      VerdictOf(w.hand.requests, request) == Refusal || (RefusesNow(w, a) && w.hand.requests.latest == request)
  {
  }

  /** Once answered, always answered; and a request fails only if a refusal came while it was the latest. */
  lemma {:induction false} AnswersStand(ws: seq<World>, actions: seq<Action>, j: nat, k: nat, request: nat)
    requires Run(ws, actions) && j <= k < |ws| && Ordered(ws[j].hand.requests)
    ensures VerdictOf(ws[j].hand.requests, request) != Pending ==> VerdictOf(ws[k].hand.requests, request) != Pending
    ensures VerdictOf(ws[k].hand.requests, request) == Refusal ==>
      || VerdictOf(ws[j].hand.requests, request) == Refusal
      || exists i :: j <= i < k && RefusesNow(ws[i], actions[i]) && ws[i].hand.requests.latest == request
  {
    if j < k {
      AnswersStand(ws, actions, j, k - 1, request);
      RunOrdered(ws, actions, j, k - 1);
      AnswerStays(ws[k - 1], actions[k - 1], request);
    }
  }

  /** A request: the wish changes, in the call. */
  predicate Wishes(w: World, a: Action) {
    a.Ask? && Accepted(w, a.up) && a.up != w.hand.wanted
  }

  /** What answers the requests before it: a new one, a look that finds nothing to send, a refusal, and leaving. */
  predicate Answers(w: World, a: Action) {
    Wishes(w, a) || (a.Look? && !Sends(w, a)) || RefusesNow(w, a) || a.LeaveCall?
  }

  /** One step answers a waiting request exactly if it is one that answers, and refuses it if it is its refusal. */
  lemma AnsweredByStep(w: World, a: Action, request: nat)
    requires Enabled(w, a) && Ordered(w.hand.requests) && request <= w.hand.requests.latest
    ensures var v, v' := VerdictOf(w.hand.requests, request), VerdictOf(Next(w, a).hand.requests, request);
      && (v == Pending ==> (v' == Pending <==> !Answers(w, a)))
      && (v' == Refusal <==> if RefusesNow(w, a) then w.hand.requests.latest == request else v == Refusal)
  {
  }

  /** The request made by action `i`. */
  function Numbered(ws: seq<World>, i: nat): nat
    requires i + 1 < |ws|
  {
    ws[i + 1].hand.requests.latest
  }

  /** The last refusal between two times came while the request was the latest. */
  ghost predicate RefusedLast(ws: seq<World>, actions: seq<Action>, i: nat, k: nat, request: nat)
    requires k <= |actions| && |ws| == |actions| + 1
  {
    exists l :: i < l < k && RefusesNow(ws[l], actions[l]) && ws[l].hand.requests.latest == request
      && forall r :: l < r < k ==> !RefusesNow(ws[r], actions[r])
  }

  lemma RefusedLastNext(ws: seq<World>, actions: seq<Action>, i: nat, k: nat, request: nat)
    requires i < k < |actions| && |ws| == |actions| + 1
    ensures RefusedLast(ws, actions, i, k + 1, request) <==>
      if RefusesNow(ws[k], actions[k]) then ws[k].hand.requests.latest == request else RefusedLast(ws, actions, i, k, request)
  {
    if RefusedLast(ws, actions, i, k, request) && !RefusesNow(ws[k], actions[k]) {
      var l :| i < l < k && RefusesNow(ws[l], actions[l]) && ws[l].hand.requests.latest == request
        && forall r :: l < r < k ==> !RefusesNow(ws[r], actions[r]);
      assert forall r :: l < r < k + 1 ==> !RefusesNow(ws[r], actions[r]);
    }
  }

  /**
   * What a request is told, at any later time of any run: nothing yet exactly while no answer has come since, and a
   * refusal exactly if the last refusal since came while it was the latest. Otherwise it was met or overtaken.
   */
  lemma {:induction false} ToldExactlyWhen(ws: seq<World>, actions: seq<Action>, i: nat, k: nat)
    requires Run(ws, actions) && i < k < |ws| && Wishes(ws[i], actions[i]) && Ordered(ws[i].hand.requests)
    ensures var v := VerdictOf(ws[k].hand.requests, Numbered(ws, i));
      && (v == Pending <==> forall l :: i < l < k ==> !Answers(ws[l], actions[l]))
      && (v == Refusal <==> RefusedLast(ws, actions, i, k, Numbered(ws, i)))
    decreases k
  {
    var request := Numbered(ws, i);
    if k > i + 1 {
      var n := k - 1;
      ToldExactlyWhen(ws, actions, i, n);
      RunOrdered(ws, actions, i, n);
      RunOrdered(ws, actions, i + 1, n);
      RefusedLastNext(ws, actions, i, n, request);
      AnsweredByStep(ws[n], actions[n], request);
      AnswerStays(ws[n], actions[n], request);
    }
  }

  /** We want our hand up only in the call. */
  lemma {:induction false} WantedOnlyInTheCall(ws: seq<World>, actions: seq<Action>, k: nat)
    requires Run(ws, actions) && k < |ws| && !ws[0].hand.wanted && ws[0].hand.own.None? && ws[0].flight.None?
    ensures ws[k].hand.wanted || ws[k].hand.own.Some? || ws[k].flight.Some? ==> ws[k].current.Some?
  {
    if k > 0 { WantedOnlyInTheCall(ws, actions, k - 1); }
  }

  lemma {:induction false} WishStands(ws: seq<World>, actions: seq<Action>, i: nat, k: nat)
    requires Run(ws, actions) && i < k < |ws| && Wishes(ws[i], actions[i])
    requires forall l :: i < l < k ==> !Answers(ws[l], actions[l])
    ensures ws[k].hand.wanted == actions[i].up
    decreases k
  {
    if k > i + 1 { WishStands(ws, actions, i, k - 1); }
  }

  /** A request whose first answer is a look that finds nothing to send has been met: the hand is as it asked. */
  lemma MetMeansDone(ws: seq<World>, actions: seq<Action>, i: nat, k: nat)
    requires Run(ws, actions) && !ws[0].hand.wanted && ws[0].hand.own.None? && ws[0].flight.None?
    requires i < k < |actions| && Wishes(ws[i], actions[i]) && actions[k].Look? && !Sends(ws[k], actions[k])
    requires forall l :: i < l < k ==> !Answers(ws[l], actions[l])
    ensures var h := ws[k + 1].hand;
      h.own.Some? == actions[i].up && (h.own.Some? ==> ws[k + 1].current == Some(h.own.value.on))
  {
    WantedOnlyInTheCall(ws, actions, k);
    WishStands(ws, actions, i, k);
    RestMeansAgreed(ws[k]);
  }

  /** A failure reads as success to a caller who looks only after a later request was refused too, and not before. */
  lemma FailureFadesWithTheNextRefusal(w: World, a: Action, request: nat)
    requires Enabled(w, a) && Ordered(w.hand.requests) && VerdictOf(w.hand.requests, request) == Refusal
    ensures VerdictOf(Next(w, a).hand.requests, request) ==
      if RefusesNow(w, a) && request < w.hand.requests.latest then Fine else Refusal
  {
  }

  /**
   * Asking for what is already asked for makes no new request: the caller waits on the latest one, and at rest is
   * told of a refusal exactly when that one was refused.
   */
  lemma NothingNewGetsTheLatestAnswer(w: World, up: bool)
    requires up == w.hand.wanted && w.hand.requests.settled == w.hand.requests.latest
    ensures Next(w, Ask(up)) == w
    ensures VerdictOf(w.hand.requests, w.hand.requests.latest)
         == if w.hand.requests.refused == Some(w.hand.requests.latest) then Refusal else Fine
  {
  }

  /** So lowering a hand whose raise was refused is told that refusal, although the hand is down as asked. */
  lemma LowerAfterRefusedRaiseFails(current: EventId) returns (ws: seq<World>, actions: seq<Action>)
    ensures Run(ws, actions) && actions == [Ask(true), Look, Answer(RefusedForGood), Look, Ask(false)]
    ensures ws[0] == World(LOWERED, Some(current), None, false)
    ensures var h := ws[5].hand;
      && !h.wanted && Agreed(h, current) && h.requests.settled == h.requests.latest
      && VerdictOf(h.requests, h.requests.latest) == Refusal
  {
    actions := [Ask(true), Look, Answer(RefusedForGood), Look, Ask(false)];
    var w0 := World(LOWERED, Some(current), None, false);
    var w1 := Next(w0, actions[0]);
    var w2 := Next(w1, actions[1]);
    var w3 := Next(w2, actions[2]);
    var w4 := Next(w3, actions[3]);
    ws := [w0, w1, w2, w3, w4, Next(w4, actions[4])];
  }
}
