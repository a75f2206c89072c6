/** What the status shows: read off everything that happened to a call, whatever the interleaving. */
module StatusStory {
  import opened Ordering
  import opened CallStatus
  import opened DirectCalls
  import opened CallLifecycle
  import opened CallStory

  /** A joined call: in a DM with a lifecycle as a join makes it. */
  predicate Begins(machine: Option<Machine>) {
    machine.Some? ==> Starts(machine.value)
  }

  /** The call before action `k`. */
  function WorldAt(machine: Option<Machine>, joinedAt: nat, run: seq<Timed>, k: nat): World
    requires k <= |run|
  {
    Run(Joined(machine, joinedAt), run[..k])
  }

  lemma WorldNext(machine: Option<Machine>, joinedAt: nat, run: seq<Timed>, k: nat)
    requires k < |run|
    ensures WorldAt(machine, joinedAt, run, k + 1) == Step(WorldAt(machine, joinedAt, run, k), run[k].action, run[k].now)
  {
    assert run[..k + 1][..k] == run[..k];
  }

  lemma {:induction false} AllowedPrefix(w: World, run: seq<Timed>, k: nat)
    requires Allowed(w, run) && k <= |run|
    ensures Allowed(w, run[..k]) && (k < |run| ==> Enabled(Run(w, run[..k]), run[k].action))
  {
    if k < |run| {
      var n := |run| - 1;
      AllowedPrefix(w, run[..n], k);
      assert run[..n][..k] == run[..k];
    } else {
      assert run[..k] == run;
    }
  }

  lemma KeptAt(machine: Option<Machine>, joinedAt: nat, run: seq<Timed>, k: nat)
    requires Allowed(Joined(machine, joinedAt), run) && k <= |run|
    ensures StatusKept(WorldAt(machine, joinedAt, run, k)) && SessionKept(WorldAt(machine, joinedAt, run, k))
  {
    AllowedPrefix(Joined(machine, joinedAt), run, k);
    JoinedKept(machine, joinedAt);
    NothingGoesBack(Joined(machine, joinedAt), run[..k]);
  }

  lemma StepHears(w: World, a: Action, now: nat)
    ensures Step(w, a, now).machine == match w.machine case None => None case Some(m) => Some(Hears(m, Timed(a, now)))
  {
  }

  lemma {:induction false} MachineAt(machine: Option<Machine>, joinedAt: nat, run: seq<Timed>, k: nat)
    requires k <= |run|
    ensures WorldAt(machine, joinedAt, run, k).machine == match machine case None => None case Some(m) => Some(At(m, run, k))
  {
    if k > 0 {
      var t := run[k - 1];
      MachineAt(machine, joinedAt, run, k - 1);
      WorldNext(machine, joinedAt, run, k - 1);
      StepHears(WorldAt(machine, joinedAt, run, k - 1), t.action, t.now);
      if machine.Some? { AtNext(machine.value, run, k - 1); }
    }
  }

  // ---- why a call ended ------------------------------------------------------------------------

  /** The session tells the status of its end: it wins it with a status to tell, or is handed one afterwards. */
  predicate SessionTells(w: World, a: Action, reason: LeaveReason) {
    || (a == End(reason) && w.session.live && w.session.reporting)
    || (a.ReportTo? && w.session.ended == Some(reason))
  }

  /** Action `k` ends the lifecycle, and this is how it is to be shown. */
  ghost predicate LifecycleCauses(m: Machine, run: seq<Timed>, k: nat, e: CallEnd) {
    match e
    case Declined => EndsAt(m, run, k, DirectDeclined)
    case Unanswered => EndsAt(m, run, k, DirectUnanswered)
    case RingNotSent => EndsAt(m, run, k, DirectRingNotSent)
    case OthersLeft => EndsAt(m, run, k, DirectOthersLeft)
    case Left => EndsAt(m, run, k, DirectLeft)
    case _ => false
  }

  /** Action `k` ends the call otherwise: the session tells of its end, or the connection is given up. */
  predicate OtherwiseCauses(w: World, a: Action, e: CallEnd) {
    match e
    case Left => SessionTells(w, a, LeaveReason(false))
    case SlotClosed => SessionTells(w, a, LeaveReason(true))
    case ConnectionClosed(loss, message) => a == ConnectionGivenUp(loss, message)
    case _ => false
  }

  /** Action `k` ends the call, and this is how it is to be shown. */
  ghost predicate Causes(machine: Option<Machine>, joinedAt: nat, run: seq<Timed>, k: nat, e: CallEnd) {
    && k < |run|
    && ( || (machine.Some? && LifecycleCauses(machine.value, run, k, e))
         || OtherwiseCauses(WorldAt(machine, joinedAt, run, k), run[k].action, e))
  }

  ghost predicate NothingYet(machine: Option<Machine>, joinedAt: nat, run: seq<Timed>, k: nat) {
    forall j: nat, e :: j < k ==> !Causes(machine, joinedAt, run, j, e)
  }

  /** What one action adds to the ends reported. */
  function Adds(w: World, a: Action, now: nat): Option<CallEnd> {
    match a
    case Lifecycle(v) =>
      if w.machine.None? then None
      else
        var s, s' := w.machine.value.state, Moved(w.machine.value, v, now).state;
        if s != s' && s'.Over? then Some(EndOf(s'.reason)) else None
    case ConnectionGivenUp(loss, message) => Some(ConnectionClosed(loss, message))
    case ReportTo => if w.session.ended.Some? then Some(SessionEndOf(w.session.ended.value)) else None
    case End(reason) => if w.session.live && w.session.reporting then Some(SessionEndOf(reason)) else None
    case _ => None
  }

  lemma StepAdds(w: World, a: Action, now: nat)
    ensures Step(w, a, now).ends == match Adds(w, a, now) case None => w.ends case Some(e) => w.ends + [e]
  {
  }

  /** An action reports an end exactly when it is a cause of it. */
  lemma AddsItsCause(machine: Option<Machine>, joinedAt: nat, run: seq<Timed>, k: nat, e: CallEnd)
    requires Begins(machine) && EventsIdentified(Stream(run)) && k < |run|
    ensures Adds(WorldAt(machine, joinedAt, run, k), run[k].action, run[k].now) == Some(e) <==> Causes(machine, joinedAt, run, k, e)
  {
    var w := WorldAt(machine, joinedAt, run, k);
    MachineAt(machine, joinedAt, run, k);
    if run[k].action.Lifecycle? {
      if machine.Some? { LifecycleAdds(machine.value, run, k, e); }
      LifecycleOnly(w, run[k].action, run[k].now, e);
    } else {
      OthersAdd(w, run[k].action, run[k].now, e);
      if machine.Some? { OthersCauseNothing(machine.value, run, k, e); }
    }
  }

  lemma LifecycleOnly(w: World, a: Action, now: nat, e: CallEnd)
    requires a.Lifecycle?
    ensures !OtherwiseCauses(w, a, e)
    ensures Adds(w, a, now) == Some(e) <==>
      && w.machine.Some?
      && var s, s' := w.machine.value.state, Hears(w.machine.value, Timed(a, now)).state;
         s != s' && s'.Over? && EndOf(s'.reason) == e
  {
  }

  lemma OthersAdd(w: World, a: Action, now: nat, e: CallEnd)
    requires !a.Lifecycle?
    ensures Adds(w, a, now) == Some(e) <==> OtherwiseCauses(w, a, e)
  {
  }

  lemma OthersCauseNothing(m: Machine, run: seq<Timed>, k: nat, e: CallEnd)
    requires k < |run| && !run[k].action.Lifecycle?
    ensures !LifecycleCauses(m, run, k, e)
  {
  }

  lemma EndReasons(m: Machine, run: seq<Timed>, k: nat)
    requires Starts(m) && EventsIdentified(Stream(run)) && k < |run|
    ensures forall reason ::
      EndsAt(m, run, k, reason) <==> !At(m, run, k).state.Over? && Hears(At(m, run, k), run[k]).state == Over(reason)
  {
    AtNext(m, run, k);
    forall reason
      ensures EndsAt(m, run, k, reason) <==> !At(m, run, k).state.Over? && Hears(At(m, run, k), run[k]).state == Over(reason)
    {
      if At(m, run, k).state.Over? {
        if EndsAt(m, run, k, reason) { EndsWhatLives(m, run, k, reason); }
      } else {
        EndStepOfRun(m, run, k, reason);
      }
    }
  }

  lemma LifecycleAdds(m: Machine, run: seq<Timed>, k: nat, e: CallEnd)
    requires Starts(m) && EventsIdentified(Stream(run)) && k < |run|
    ensures var s, s' := At(m, run, k).state, Hears(At(m, run, k), run[k]).state;
      (s != s' && s'.Over? && EndOf(s'.reason) == e) <==> LifecycleCauses(m, run, k, e)
  {
    EndReasons(m, run, k);
    ShownAs(e);
    if At(m, run, k).state.Over? {
      OverStays(m, run, k, k + 1);
      AtNext(m, run, k);
    }
    NeverEmpty(m, run, k);
  }

  lemma ShownAs(e: CallEnd)
    ensures forall reason :: EndOf(reason) == e <==>
      match e
      case Declined => reason.DirectDeclined?
      case Unanswered => reason.DirectUnanswered?
      case RingNotSent => reason.DirectRingNotSent?
      case OthersLeft => reason.DirectOthersLeft?
      case Left => reason.DirectLeft?
      case Empty => reason.DirectEmpty?
      case _ => false
  {
  }

  lemma NeverEmpty(m: Machine, run: seq<Timed>, k: nat)
    ensures !EndsAt(m, run, k, DirectEmpty)
  {
  }

  /** The first end reported is the first cause. */
  lemma {:induction false} FirstCause(machine: Option<Machine>, joinedAt: nat, run: seq<Timed>, n: nat)
    requires Begins(machine) && EventsIdentified(Stream(run)) && n <= |run|
    ensures var ends := WorldAt(machine, joinedAt, run, n).ends;
      if ends == [] then NothingYet(machine, joinedAt, run, n)
      else exists k: nat :: k < n && Causes(machine, joinedAt, run, k, ends[0]) && NothingYet(machine, joinedAt, run, k)
  {
    if n > 0 {
      var k := n - 1;
      var w := WorldAt(machine, joinedAt, run, k);
      FirstCause(machine, joinedAt, run, k);
      WorldNext(machine, joinedAt, run, k);
      StepAdds(w, run[k].action, run[k].now);
      forall e ensures Adds(w, run[k].action, run[k].now) == Some(e) <==> Causes(machine, joinedAt, run, k, e) {
        AddsItsCause(machine, joinedAt, run, k, e);
      }
    }
  }

  lemma OneFirstCause(machine: Option<Machine>, joinedAt: nat, run: seq<Timed>, j: nat, d: CallEnd, k: nat, e: CallEnd)
    requires Begins(machine) && EventsIdentified(Stream(run))
    requires Causes(machine, joinedAt, run, j, d) && NothingYet(machine, joinedAt, run, j)
    requires Causes(machine, joinedAt, run, k, e) && NothingYet(machine, joinedAt, run, k)
    ensures j == k && d == e
  {
    AddsItsCause(machine, joinedAt, run, j, d);
    AddsItsCause(machine, joinedAt, run, j, e);
  }

  /**
   * The end shown is its cause, whatever the interleaving: the status is ended exactly when something ended the
   * call, and shows the first thing that did as what it was.
   */
  lemma TheEndShownIsTheFirstCause(machine: Option<Machine>, joinedAt: nat, run: seq<Timed>, e: CallEnd)
    requires Begins(machine) && EventsIdentified(Stream(run)) && Allowed(Joined(machine, joinedAt), run)
    ensures Run(Joined(machine, joinedAt), run).cell.status == Ended(e) <==>
      exists k: nat :: Causes(machine, joinedAt, run, k, e) && NothingYet(machine, joinedAt, run, k)
  {
    assert run[..|run|] == run;
    FirstEndStands(machine, joinedAt, run);
    FirstCause(machine, joinedAt, run, |run|);
    var ends := Run(Joined(machine, joinedAt), run).ends;
    if k: nat :| Causes(machine, joinedAt, run, k, e) && NothingYet(machine, joinedAt, run, k) {
      if ends != [] {
        var j: nat :| j < |run| && Causes(machine, joinedAt, run, j, ends[0]) && NothingYet(machine, joinedAt, run, j);
        OneFirstCause(machine, joinedAt, run, j, ends[0], k, e);
      }
    }
  }

  // ---- who ended the session ----------------------------------------------------------------------

  /** The actions that take the session's one flag: ending it, ending it quietly, and dropping it. */
  predicate Takes(a: Action) {
    a.End? || a.SwapQuietly? || a.Abandon?
  }

  /** Action `k` is the first that does. */
  ghost predicate TakesFirst(run: seq<Timed>, k: nat, n: nat) {
    k < n <= |run| && Takes(run[k].action) && forall j :: 0 <= j < k ==> !Takes(run[j].action)
  }

  /** What the session makes of it: a winner, if anybody ended it, and the reason, once that is set. */
  ghost predicate EndedByFirst(w: World, run: seq<Timed>, n: nat)
    requires n <= |run|
  {
    && (w.session.live <==> forall k :: 0 <= k < n ==> !Takes(run[k].action))
    && (w.session.live ==> w.winner.None? && w.session.ended.None? && w.quiet.None?)
    && forall k: nat :: TakesFirst(run, k, n) ==>
         match run[k].action
         case End(reason) => w.winner == Some(ByEnd(reason)) && w.session.ended == Some(reason) && w.quiet.None?
         case SwapQuietly(reason) =>
           && w.winner == Some(Quietly(reason))
           && (if exists j :: k < j < n && run[j].action.SetQuietly? then w.session.ended == Some(reason) && w.quiet.None?
               else w.session.ended.None? && w.quiet == Some(reason))
         case _ => w.winner.None? && w.session.ended.None? && w.quiet.None?
  }

  lemma StepEnds(w: World, a: Action, now: nat)
    ensures var w' := Step(w, a, now);
      && w'.session.live == (w.session.live && !Takes(a))
      && (w.session.live && a.End? ==> w'.winner == Some(ByEnd(a.reason)) && w'.session.ended == Some(a.reason) && w'.quiet == w.quiet)
      && (w.session.live && a.SwapQuietly? ==>
            w'.winner == Some(Quietly(a.reason)) && w'.session.ended == w.session.ended && w'.quiet == Some(a.reason))
      && (!(w.session.live && (a.End? || a.SwapQuietly?)) ==> w'.winner == w.winner)
      && (!(w.session.live && (a.End? || a.SwapQuietly?)) && !a.SetQuietly? ==> w'.session.ended == w.session.ended && w'.quiet == w.quiet)
      && (a.SetQuietly? ==>
            w'.quiet.None? && w'.session.ended == if w.quiet.Some? then w.quiet else w.session.ended)
  {
  }

  lemma FirstNext(run: seq<Timed>, n: nat, k: nat)
    requires n < |run|
    ensures TakesFirst(run, k, n + 1) <==>
      TakesFirst(run, k, n) || (k == n && Takes(run[n].action) && forall j :: 0 <= j < n ==> !Takes(run[j].action))
  {
  }

  lemma TakenNow(w: World, run: seq<Timed>, n: nat, w': World)
    requires n < |run| && EndedByFirst(w, run, n) && w.session.live && w' == Step(w, run[n].action, run[n].now)
    ensures EndedByFirst(w', run, n + 1)
  {
    var m := n + 1;
    StepEnds(w, run[n].action, run[n].now);
    forall k: nat | TakesFirst(run, k, m) ensures k == n && Takes(run[n].action) { FirstNext(run, n, k); }
  }

  lemma TakenBefore(w: World, run: seq<Timed>, n: nat, w': World)
    requires n < |run| && EndedByFirst(w, run, n) && !w.session.live && w' == Step(w, run[n].action, run[n].now)
    ensures EndedByFirst(w', run, n + 1)
  {
    var m := n + 1;
    StepEnds(w, run[n].action, run[n].now);
    forall k: nat | TakesFirst(run, k, m) ensures TakesFirst(run, k, n) { FirstNext(run, n, k); }
  }

  lemma NobodyYet(machine: Option<Machine>, joinedAt: nat, run: seq<Timed>)
    ensures EndedByFirst(WorldAt(machine, joinedAt, run, 0), run, 0)
  {
  }

  /**
   * Whatever the interleaving, the first to take the session's flag decides: an end wins with its reason, a quiet end
   * wins and has its reason set by its second step, and a session dropped first has no end at all.
   */
  lemma {:induction false} TheFirstToTakeItEndsIt(machine: Option<Machine>, joinedAt: nat, run: seq<Timed>, n: nat)
    requires n <= |run|
    ensures EndedByFirst(WorldAt(machine, joinedAt, run, n), run, n)
  {
    if n == 0 {
      NobodyYet(machine, joinedAt, run);
    } else {
      TheFirstToTakeItEndsIt(machine, joinedAt, run, n - 1);
      WorldNext(machine, joinedAt, run, n - 1);
      var w, w' := WorldAt(machine, joinedAt, run, n - 1), WorldAt(machine, joinedAt, run, n);
      if w.session.live {
        TakenNow(w, run, n - 1, w');
      } else {
        TakenBefore(w, run, n - 1, w');
      }
    }
  }

  // ---- what is shown before that ------------------------------------------------------------------

  /** Our media connected and has not detached since. */
  ghost predicate MediaIsUp(run: seq<Timed>, n: nat)
    requires n <= |run|
  {
    exists i :: 0 <= i < n && run[i].action.MediaConnects? && forall l :: i < l < n ==> !run[l].action.MediaDetaches?
  }

  predicate GradesMedia(a: Action) {
    a.MediaConnects? || a.MediaDegrades?
  }

  /** The last word on how good it is; connecting starts afresh. */
  ghost predicate MediaIsGraded(run: seq<Timed>, n: nat, degraded: bool)
    requires n <= |run|
  {
    exists i :: 0 <= i < n
      && (if degraded then run[i].action == MediaDegrades(true) else run[i].action == MediaDegrades(false) || run[i].action.MediaConnects?)
      && forall l :: i < l < n ==> !GradesMedia(run[l].action)
  }

  ghost predicate MediaIs(run: seq<Timed>, n: nat, media: MediaPhase)
    requires n <= |run|
  {
    match media
    case MediaConnecting => !MediaIsUp(run, n)
    case MediaConnected(degraded) => MediaIsUp(run, n) && MediaIsGraded(run, n, degraded)
  }

  lemma StepMedia(w: World, a: Action, now: nat)
    ensures var media, media' := w.cell.inputs.media, Step(w, a, now).cell.inputs.media;
      match a
      case MediaConnects => media' == MediaConnected(false)
      case MediaDetaches => media' == MediaConnecting
      case MediaDegrades(d) => media' == if media.MediaConnected? then MediaConnected(d) else media
      case _ => media' == media
  {
  }

  lemma UpNext(run: seq<Timed>, n: nat)
    requires n < |run|
    ensures MediaIsUp(run, n + 1) <==> run[n].action.MediaConnects? || (MediaIsUp(run, n) && !run[n].action.MediaDetaches?)
  {
    if MediaIsUp(run, n) && !run[n].action.MediaDetaches? {
      var i :| 0 <= i < n && run[i].action.MediaConnects? && forall l :: i < l < n ==> !run[l].action.MediaDetaches?;
      assert forall l :: i < l < n + 1 ==> !run[l].action.MediaDetaches?;
    }
  }

  lemma GradedNext(run: seq<Timed>, n: nat, degraded: bool)
    requires n < |run|
    ensures MediaIsGraded(run, n + 1, degraded) <==>
      if run[n].action.MediaConnects? then !degraded
      else if run[n].action.MediaDegrades? then run[n].action.degraded == degraded
      else MediaIsGraded(run, n, degraded)
  {
    if MediaIsGraded(run, n, degraded) && !GradesMedia(run[n].action) {
      var i :| 0 <= i < n
        && (if degraded then run[i].action == MediaDegrades(true) else run[i].action == MediaDegrades(false) || run[i].action.MediaConnects?)
        && forall l :: i < l < n ==> !GradesMedia(run[l].action);
      assert forall l :: i < l < n + 1 ==> !GradesMedia(run[l].action);
    }
  }

  lemma {:induction false} MediaAt(machine: Option<Machine>, joinedAt: nat, run: seq<Timed>, n: nat)
    requires n <= |run|
    ensures MediaIs(run, n, WorldAt(machine, joinedAt, run, n).cell.inputs.media)
  {
    if n > 0 {
      var k := n - 1;
      var media := WorldAt(machine, joinedAt, run, k).cell.inputs.media;
      MediaAt(machine, joinedAt, run, k);
      WorldNext(machine, joinedAt, run, k);
      StepMedia(WorldAt(machine, joinedAt, run, k), run[k].action, run[k].now);
      UpNext(run, k);
      GradedNext(run, k, true);
      GradedNext(run, k, false);
    }
  }

  /**
   * Before anything ended the call its status says how far it is: calling while the lifecycle is sending or ringing,
   * and otherwise connected exactly when our media is up, with the last word on both.
   */
  lemma StatusTellsHowFar(machine: Option<Machine>, joinedAt: nat, run: seq<Timed>)
    requires Begins(machine) && EventsIdentified(Stream(run)) && Allowed(Joined(machine, joinedAt), run)
    requires NothingYet(machine, joinedAt, run, |run|)
    ensures var status := Run(Joined(machine, joinedAt), run).cell.status;
      && !status.Ended?
      && (status.Calling? <==> machine.Some? && (At(machine.value, run, |run|).state.Sending? || At(machine.value, run, |run|).state.Ringing?))
      && (status.Calling? ==>
            && status.callee == machine.value.callee && MediaIs(run, |run|, status.media)
            && match status.ring
               case RingSending => At(machine.value, run, |run|).state.Sending?
               case RingRinging(at, lifetime) => At(machine.value, run, |run|).state == Ringing(at, lifetime))
      && (status.Connecting? ==> MediaIs(run, |run|, MediaConnecting))
      && (status.Connected? ==> MediaIs(run, |run|, MediaConnected(status.degraded)))
  {
    assert run[..|run|] == run;
    FirstEndStands(machine, joinedAt, run);
    FirstCause(machine, joinedAt, run, |run|);
    KeptAt(machine, joinedAt, run, |run|);
    MachineAt(machine, joinedAt, run, |run|);
    MediaAt(machine, joinedAt, run, |run|);
    CalleeStays(machine, run);
    ShownOf(Run(Joined(machine, joinedAt), run));
  }

  lemma CalleeStays(machine: Option<Machine>, run: seq<Timed>)
    requires Begins(machine)
    ensures machine.Some? ==> At(machine.value, run, |run|).callee == machine.value.callee
  {
    if machine.Some? { AlwaysRemembers(machine.value, run, |run|); }
  }

  lemma ShownOf(w: World)
    requires StatusKept(w) && w.ends == []
    ensures var status := w.cell.status;
      if w.machine.Some? && w.machine.value.state.Sending? then status == Calling(w.machine.value.callee, RingSending, w.cell.inputs.media)
      else if w.machine.Some? && w.machine.value.state.Ringing? then
        status == Calling(w.machine.value.callee, RingRinging(w.machine.value.state.sentAt, w.machine.value.state.lifetime), w.cell.inputs.media)
      else if w.cell.inputs.media.MediaConnecting? then status == Connecting
      else status.Connected? && status.degraded == w.cell.inputs.media.degraded
  {
  }

  // ---- since when it has been connected ---------------------------------------------------------------

  /** Action `k` is the first after which the status was connected. */
  ghost predicate FirstConnectedAt(machine: Option<Machine>, joinedAt: nat, run: seq<Timed>, k: nat) {
    && k < |run| && WorldAt(machine, joinedAt, run, k + 1).cell.status.Connected?
    && NeverConnected(machine, joinedAt, run, k)
  }

  ghost predicate NeverConnected(machine: Option<Machine>, joinedAt: nat, run: seq<Timed>, n: nat)
    requires n <= |run|
  {
    forall j :: 0 <= j <= n ==> !WorldAt(machine, joinedAt, run, j).cell.status.Connected?
  }

  lemma StepStamps(w: World, a: Action, now: nat)
    requires StatusKept(w)
    ensures var since, r := w.cell.inputs.connectedSince, Step(w, a, now).cell;
      if since.Some? then r.inputs.connectedSince == since
      else r.inputs.connectedSince == if r.status.Connected? then Some(now) else None
  {
  }

  lemma {:induction false} StampedAt(machine: Option<Machine>, joinedAt: nat, run: seq<Timed>, n: nat)
    requires Allowed(Joined(machine, joinedAt), run) && n <= |run|
    ensures match WorldAt(machine, joinedAt, run, n).cell.inputs.connectedSince
      case None => NeverConnected(machine, joinedAt, run, n)
      case Some(t) => exists k: nat :: k < n && FirstConnectedAt(machine, joinedAt, run, k) && run[k].now == t
  {
    if n > 0 {
      var k := n - 1;
      StampedAt(machine, joinedAt, run, k);
      KeptAt(machine, joinedAt, run, k);
      WorldNext(machine, joinedAt, run, k);
      StepStamps(WorldAt(machine, joinedAt, run, k), run[k].action, run[k].now);
    }
  }

  lemma ConnectedShows(w: World)
    requires StatusKept(w) && w.cell.status.Connected?
    ensures w.cell.inputs.connectedSince == Some(w.cell.status.since)
    ensures w.machine.Some? ==> w.machine.value.state.InCall?
  {
  }

  /** A connected call counts from the first moment its status was. */
  lemma ConnectedSinceItFirstWas(machine: Option<Machine>, joinedAt: nat, run: seq<Timed>)
    requires Allowed(Joined(machine, joinedAt), run) && Run(Joined(machine, joinedAt), run).cell.status.Connected?
    ensures var since := Run(Joined(machine, joinedAt), run).cell.status.since;
      exists k: nat :: FirstConnectedAt(machine, joinedAt, run, k) && run[k].now == since
  {
    assert run[..|run|] == run;
    StampedAt(machine, joinedAt, run, |run|);
    KeptAt(machine, joinedAt, run, |run|);
    ConnectedShows(Run(Joined(machine, joinedAt), run));
  }

  /**
   * In a DM, a connected status means the lifecycle has the callee in the call; and if the call had to be answered,
   * a roster had shown the callee while we were calling.
   */
  lemma ConnectedOnlyWithTheCallee(m: Machine, joinedAt: nat, run: seq<Timed>)
    requires Allowed(Joined(Some(m), joinedAt), run)
    ensures var w := Run(Joined(Some(m), joinedAt), run);
      && w.machine.Some? && (w.machine.value.state.Over? ==> w.cell.status.Ended?)
      && (w.cell.status.Connected? ==> w.machine.value.state.InCall?)
      && (w.cell.status.Connected? && Starts(m) && m.state.Sending? ==>
            exists k: nat :: PickedUp(m, run, k) && w.machine.value.state == InCall(run[k].now))
  {
    assert run[..|run|] == run;
    var w := Run(Joined(Some(m), joinedAt), run);
    KeptAt(Some(m), joinedAt, run, |run|);
    MachineAt(Some(m), joinedAt, run, |run|);
    if w.cell.status.Connected? {
      ConnectedShows(w);
      if Starts(m) && m.state.Sending? {
        var k := WhenItWasAnswered(m, run, |run|);
      }
    }
    if w.machine.value.state.Over? {
      OverIsShown(w);
    }
  }

  lemma OverIsShown(w: World)
    requires StatusKept(w) && w.machine.Some? && w.machine.value.state.Over?
    ensures w.cell.status.Ended?
  {
  }

  /** A DM whose call was already over when we meant to answer or join it has ended from the start. */
  lemma EmptyFromTheStart(m: Machine, joinedAt: nat, run: seq<Timed>)
    requires m.state == Over(DirectEmpty) && Allowed(Joined(Some(m), joinedAt), run)
    ensures Run(Joined(Some(m), joinedAt), run).cell.status == Ended(Empty)
  {
    JoinedKept(Some(m), joinedAt);
    NothingGoesBack(Joined(Some(m), joinedAt), run);
  }
}
