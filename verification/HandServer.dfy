/** The hand protocol against what the server holds: which of our annotations are up there, and on which event. */
module HandServer {
  import opened Ordering
  import opened HandProtocol

  /**
   * The protocol and our annotations at the server, each with the event it annotates. `strays` are those the
   * protocol does not track; `lost` are those gone there without word to us; `used` are all event ids ever given out.
   */
  datatype Served = Served(
    world: World,
    server: map<EventId, EventId>,
    strays: set<EventId>,
    lost: set<EventId>,
    used: set<EventId>)

  /**
   * What an action does at the server beyond what we are told: an unanswered annotation may be `stored`, an
   * unanswered redaction `removed`, the old annotation `tidied` after its replacement landed, and annotations
   * redacted `elsewhere` before we hear of it.
   */
  datatype Effect = Effect(stored: Option<EventId>, removed: bool, tidied: bool, elsewhere: set<EventId>)

  const QUIET := Effect(None, false, true, {})

  predicate Unheard(o: Outcome) {
    o.Failed? || o.TimedOut? || o.Over?
  }

  /** A new event gets a new id. */
  ghost predicate Fresh(v: Served, a: Action, e: Effect) {
    && (e.stored.Some? ==> e.stored.value !in v.used)
    && (a.Answer? && a.outcome.Landed? ==> a.outcome.event !in v.used)
  }

  /** Annotations taken off the server; if we do not hear of it they are lost to us. */
  function TakenOff(v: Served, gone: set<EventId>, heard: bool): Served {
    v.(server := v.server - gone, strays := v.strays - gone, lost := if heard then v.lost else v.lost + v.server.Keys * gone)
  }

  /** An annotation put up that the protocol does not track. */
  function Strayed(v: Served, event: EventId, on: EventId): Served {
    v.(server := v.server[event := on], strays := v.strays + {event}, used := v.used + {event})
  }

  /** A send whose outcome we never learn. */
  function SentUnheard(v: Served, send: Send, e: Effect): Served {
    match send
    case Annotate(on, _) => if e.stored.Some? then Strayed(v, e.stored.value, on) else v
    case Redact(reaction) => if e.removed then TakenOff(v, {reaction}, false) else v
  }

  /** An annotation landed: the one it replaces is tidied away, or is tracked no more. */
  function AnnotationLanded(v: Served, event: EventId, on: EventId, replacing: Option<EventId>, e: Effect): Served {
    var put := v.(server := v.server[event := on], used := v.used + {event});
    if replacing.None? then put
    else if e.tidied then TakenOff(put, {replacing.value}, true)
    else put.(strays := put.strays + put.server.Keys * {replacing.value})
  }

  /** What an answered send did at the server. */
  function Delivered(v: Served, send: Send, o: Outcome, e: Effect): Served {
    match o
    case Landed(event) =>
      (match send
       case Annotate(on, replacing) => AnnotationLanded(v, event, on, replacing, e)
       case Redact(reaction) => TakenOff(v, {reaction}, true))
    case RefusedForGood => v
    case _ => SentUnheard(v, send, e)
  }

  /** The server's side of an action. */
  function AtServer(v: Served, a: Action, e: Effect): Served
    requires Enabled(v.world, a)
  {
    match a
    case Answer(o) => Delivered(v, v.world.flight.value, o, e)
    case Redaction(reaction) => TakenOff(v, {reaction}, true)
    case LeaveCall =>
      var left := if v.world.flight.Some? then SentUnheard(v, v.world.flight.value, e) else v;
      left.(strays := left.server.Keys)
    case _ => v
  }

  function NextServed(v: Served, a: Action, e: Effect): Served
    requires Enabled(v.world, a)
  {
    AtServer(TakenOff(v, e.elsewhere, false), a, e).(world := Next(v.world, a))
  }

  // ---- what every step keeps ---------------------------------------------------------------

  /** The annotations at the server are the strays and, unless it was lost, the one we know ourselves by. */
  ghost predicate Tracked(v: Served) {
    var own := v.world.hand.own;
    && v.server.Keys == v.strays + (if own.Some? && own.value.reaction !in v.lost then {own.value.reaction} else {})
    && (own.Some? ==> own.value.reaction !in v.strays && own.value.reaction in v.used)
    && (own.Some? && own.value.reaction in v.server ==> v.server[own.value.reaction] == own.value.on)
    && v.server.Keys <= v.used && v.lost <= v.used && v.lost !! v.server.Keys
  }

  /** A send in flight is about the annotation we know ourselves by, if we still do. */
  ghost predicate Aimed(v: Served) {
    var own := v.world.hand.own;
    match v.world.flight
    case None => true
    case Some(Annotate(on, replacing)) =>
      && v.world.current.Some?
      && (own.Some? ==> replacing == Some(own.value.reaction) && own.value.on != on)
      && (own.None? && replacing.Some? ==> replacing.value !in v.server && replacing.value in v.used)
    case Some(Redact(reaction)) =>
      && v.world.current.Some?
      && (own.Some? ==> own.value.reaction == reaction)
      && (own.None? ==> reaction !in v.server)
  }

  lemma TakenOffKeeps(v: Served, gone: set<EventId>)
    requires Tracked(v) && Aimed(v)
    ensures Tracked(TakenOff(v, gone, false)) && Aimed(TakenOff(v, gone, false))
  {
  }

  lemma LandedKeeps(v: Served, send: Send, event: EventId, e: Effect)
    requires Tracked(v) && Aimed(v) && v.world.flight == Some(send) && event !in v.used
    ensures var r := Delivered(v, send, Landed(event), e).(world := Answered(v.world, send, Landed(event))); Tracked(r) && Aimed(r)
  {
  }

  lemma UnheardKeeps(v: Served, send: Send, e: Effect)
    requires Tracked(v) && Aimed(v) && v.world.flight == Some(send) && (e.stored.Some? ==> e.stored.value !in v.used)
    ensures Tracked(SentUnheard(v, send, e))
  {
  }

  lemma AnswerKeeps(v: Served, o: Outcome, e: Effect)
    requires Tracked(v) && Aimed(v) && Enabled(v.world, Answer(o)) && Fresh(v, Answer(o), e)
    ensures var r := AtServer(v, Answer(o), e).(world := Next(v.world, Answer(o))); Tracked(r) && Aimed(r)
  {
    if o.Landed? {
      LandedKeeps(v, v.world.flight.value, o.event, e);
    } else {
      UnheardKeeps(v, v.world.flight.value, e);
    }
  }

  lemma LeaveKeeps(v: Served, e: Effect)
    requires Tracked(v) && Aimed(v) && Fresh(v, LeaveCall, e)
    ensures var r := AtServer(v, LeaveCall, e).(world := Next(v.world, LeaveCall)); Tracked(r) && Aimed(r)
  {
    if v.world.flight.Some? {
      UnheardKeeps(v, v.world.flight.value, e);
    }
  }

  lemma ActionKeeps(v: Served, a: Action, e: Effect)
    requires Tracked(v) && Aimed(v) && Enabled(v.world, a) && Fresh(v, a, e)
    ensures var r := AtServer(v, a, e).(world := Next(v.world, a)); Tracked(r) && Aimed(r)
  {
    match a {
      case Answer(o) => AnswerKeeps(v, o, e);
      case LeaveCall => LeaveKeeps(v, e);
      case _ =>
    }
  }

  lemma NextKeeps(v: Served, a: Action, e: Effect)
    requires Tracked(v) && Aimed(v) && Enabled(v.world, a) && Fresh(v, a, e)
    ensures Tracked(NextServed(v, a, e)) && Aimed(NextServed(v, a, e))
  {
    TakenOffKeeps(v, e.elsewhere);
    ActionKeeps(TakenOff(v, e.elsewhere, false), a, e);
  }

  // ---- whole participations -------------------------------------------------------------------

  ghost predicate ServedRun(vs: seq<Served>, actions: seq<Action>, effects: seq<Effect>) {
    && |vs| == |actions| + 1 && |effects| == |actions|
    && forall k :: 0 <= k < |actions| ==>
         && Enabled(vs[k].world, actions[k]) && Fresh(vs[k], actions[k], effects[k])
         && vs[k + 1] == NextServed(vs[k], actions[k], effects[k])
  }

  /** A participation begins with our hand down; whatever annotations of ours are there are nobody's. */
  ghost predicate Begins(v: Served) {
    && v.world.hand.own.None? && v.world.flight.None?
    && v.server.Keys == v.strays && v.strays <= v.used && v.lost == {}
  }

  lemma {:induction false} EveryStepTracked(vs: seq<Served>, actions: seq<Action>, effects: seq<Effect>, k: nat)
    requires ServedRun(vs, actions, effects) && Begins(vs[0]) && k < |vs|
    ensures Tracked(vs[k]) && Aimed(vs[k])
  {
    if k > 0 {
      EveryStepTracked(vs, actions, effects, k - 1);
      NextKeeps(vs[k - 1], actions[k - 1], effects[k - 1]);
    }
  }

  /**
   * What rest means at the server, in every run: when the sender looks and finds nothing to send while we are in the
   * call, a wanted hand is one annotation, on our current membership event, besides the strays, unless it was taken
   * off there without word to us; and for a hand not wanted there is none.
   */
  lemma RestAtTheServer(vs: seq<Served>, actions: seq<Action>, effects: seq<Effect>, k: nat)
    requires ServedRun(vs, actions, effects) && Begins(vs[0])
    requires k < |actions| && actions[k].Look? && !Sends(vs[k].world, Look) && vs[k].world.current.Some?
    ensures var v := vs[k + 1]; var h := v.world.hand;
      && v.world.current == vs[k].world.current
      && (!h.wanted ==> v.server.Keys == v.strays)
      && (h.wanted ==> h.own.Some? && h.own.value.on == v.world.current.value)
      && (h.wanted ==>
            || h.own.value.reaction in v.lost
            || (v.server.Keys - v.strays == {h.own.value.reaction} && v.server[h.own.value.reaction] == v.world.current.value))
  {
    EveryStepTracked(vs, actions, effects, k + 1);
    RestMeansAgreed(vs[k].world);
  }

  /** Where annotations we do not track come from, and how a tracked one is lost. */
  lemma StraysComeFrom(v: Served, a: Action, e: Effect)
    requires Tracked(v) && Aimed(v) && Enabled(v.world, a) && Fresh(v, a, e)
    ensures var r := NextServed(v, a, e);
      && (forall x :: x in r.strays && x !in v.strays ==>
            || a.LeaveCall?
            || (a.Answer? && Unheard(a.outcome) && v.world.flight.value.Annotate? && e.stored == Some(x))
            || (a.Answer? && a.outcome.Landed? && !e.tidied && v.world.hand.own.Some? && v.world.hand.own.value.reaction == x
                && r.world.hand.own.Some? && r.world.hand.own.value.on != r.server[x]))
      && (forall x :: x in r.lost && x !in v.lost ==>
            || x in e.elsewhere
            || (v.world.flight == Some(Redact(x)) && e.removed && (a.LeaveCall? || (a.Answer? && Unheard(a.outcome)))))
  {
  }

  /** Every send is answered, every replaced annotation tidied, and nobody else redacts ours. */
  ghost predicate Undisturbed(actions: seq<Action>, effects: seq<Effect>) {
    && (forall e :: e in effects ==> e == QUIET)
    && (forall a :: a in actions ==> !a.Redaction? && !a.LeaveCall? && (a.Answer? ==> !Unheard(a.outcome)))
  }

  lemma {:induction false} NothingStrays(vs: seq<Served>, actions: seq<Action>, effects: seq<Effect>, k: nat)
    requires ServedRun(vs, actions, effects) && Begins(vs[0]) && Undisturbed(actions, effects) && k < |vs|
    ensures vs[k].strays == vs[0].strays && vs[k].lost == {}
  {
    if k > 0 {
      var n := k - 1;
      NothingStrays(vs, actions, effects, n);
      EveryStepTracked(vs, actions, effects, n);
      assert actions[n] in actions && effects[n] in effects;
      NothingStraysNow(vs[n], actions[n]);
    }
  }

  lemma NothingStraysNow(v: Served, a: Action)
    requires Tracked(v) && Aimed(v) && Enabled(v.world, a)
    requires !a.Redaction? && !a.LeaveCall? && (a.Answer? ==> !Unheard(a.outcome)) && v.lost == {}
    ensures NextServed(v, a, QUIET).strays == v.strays && NextServed(v, a, QUIET).lost == {}
  {
    assert v.strays - {} == v.strays;
  }

  /** Undisturbed, the server holds at rest what it held before and, for a wanted hand, exactly one annotation more. */
  lemma UndisturbedRest(vs: seq<Served>, actions: seq<Action>, effects: seq<Effect>, k: nat)
    requires ServedRun(vs, actions, effects) && Begins(vs[0]) && Undisturbed(actions, effects)
    requires k < |actions| && actions[k].Look? && !Sends(vs[k].world, Look) && vs[k].world.current.Some?
    ensures var v := vs[k + 1]; var h := v.world.hand;
      && (!h.wanted ==> v.server.Keys == vs[0].server.Keys)
      && (h.wanted ==> h.own.Some? && h.own.value.reaction !in vs[0].server)
      && (h.wanted ==> v.server.Keys == vs[0].server.Keys + {h.own.value.reaction})
      && (h.wanted ==> v.server[h.own.value.reaction] == v.world.current.value)
  {
    RestAtTheServer(vs, actions, effects, k);
    EveryStepTracked(vs, actions, effects, k + 1);
    NothingStrays(vs, actions, effects, k + 1);
  }
}
