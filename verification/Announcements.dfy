/** What the events about raised hands tell a consumer, turn by turn and over whole runs of the engine. */
module Announcements {
  import opened Ordering
  import opened Tiles
  import opened Roster
  import opened Engine
  import opened EngineRuns
  import opened EngineSafety

  // ---- the events of one new hand set ------------------------------------------------

  /** The roster's entry for `m`. */
  function EntryOf(roster: seq<Participant>, m: MemberId): (r: Option<Participant>)
    ensures r.Some? <==> m in IdsOf(roster)
    ensures r.Some? ==> r.value in roster && r.value.id == m
  {
    if roster == [] then None
    else
      var n := |roster| - 1;
      if roster[n].id == m then Some(roster[n])
      else
        assert IdsOf(roster) == IdsOf(roster[..n]) + {roster[n].id};
        EntryOf(roster[..n], m)
  }

  /** The hand of the rostered `m`; nobody's is up who is not rostered. */
  function HandOf(roster: seq<Participant>, m: MemberId): Option<nat> {
    match EntryOf(roster, m) case None => None case Some(p) => p.handAt
  }

  /** A hand seen going up: it was down, and the new set has it, not by backfill. */
  ghost predicate Raises(roster: seq<Participant>, hands: seq<RaisedHand>, m: MemberId, at: nat) {
    && m in IdsOf(roster) && HandOf(roster, m).None?
    && exists h :: h in hands && h.member == m && h.raisedAt == at && !h.fromBackfill
  }

  /** A hand seen going down. */
  ghost predicate Lowers(roster: seq<Participant>, hands: seq<RaisedHand>, m: MemberId) {
    && m in IdsOf(roster) && HandOf(roster, m).Some?
    && forall h :: h in hands ==> h.member != m
  }

  lemma OnlyHand(hands: seq<RaisedHand>, h: RaisedHand)
    requires Queue(hands) && h in hands
    ensures Lookup(hands, h.member) == Some(h)
  {
    var g := Lookup(hands, h.member).value;
    var i :| 0 <= i < |hands| && hands[i] == h;
    var j :| 0 <= j < |hands| && hands[j] == g;
    assert i < j || j < i || i == j;
  }

  lemma LastEntry(roster: seq<Participant>, m: MemberId)
    requires UniqueMembers(roster) && roster != []
    ensures var n := |roster| - 1;
      if roster[n].id == m then EntryOf(roster, m) == Some(roster[n]) && m !in IdsOf(roster[..n])
      else EntryOf(roster, m) == EntryOf(roster[..n], m)
  {
  }

  function OneHandEvent(p: Participant, hands: seq<RaisedHand>): seq<CallEvent> {
    HandEvents([p], hands)
  }

  lemma LastHandEvent(roster: seq<Participant>, hands: seq<RaisedHand>)
    requires roster != []
    ensures var n := |roster| - 1; HandEvents(roster, hands) == HandEvents(roster[..n], hands) + OneHandEvent(roster[n], hands)
  {
    var p := roster[|roster| - 1];
    assert [p][..0] == [] && HandEvents([], hands) == [];
    assert [] + OneHandEvent(p, hands) == OneHandEvent(p, hands);
  }

  lemma OneTells(p: Participant, hands: seq<RaisedHand>, m: MemberId, at: nat)
    requires Queue(hands)
    ensures HandRaised(m, at) in OneHandEvent(p, hands) <==>
      p.id == m && p.handAt.None? && exists h :: h in hands && h.member == m && h.raisedAt == at && !h.fromBackfill
    ensures HandLowered(m) in OneHandEvent(p, hands) <==> p.id == m && p.handAt.Some? && forall h :: h in hands ==> h.member != m
  {
    assert [p][..0] == [] && HandEvents([], hands) == [];
    if Lookup(hands, m).Some? {
      var h := Lookup(hands, m).value;
      forall g | g in hands && g.member == m ensures g == h { OnlyHand(hands, g); }
    }
  }

  /** A new hand set's events are exactly the hands seen going up and down. */
  lemma {:induction false} HandEventsTell(roster: seq<Participant>, hands: seq<RaisedHand>, m: MemberId, at: nat)
    requires UniqueMembers(roster) && Queue(hands)
    ensures HandRaised(m, at) in HandEvents(roster, hands) <==> Raises(roster, hands, m, at)
    ensures HandLowered(m) in HandEvents(roster, hands) <==> Lowers(roster, hands, m)
  {
    if roster != [] {
      var n := |roster| - 1;
      HandEventsTell(roster[..n], hands, m, at);
      LastEntry(roster, m);
      LastHandEvent(roster, hands);
      OneTells(roster[n], hands, m, at);
    }
  }

  // ---- replaying them -------------------------------------------------------------------

  /** Whether `m`'s hand is up, as far as `events` say. */
  function HandUp(m: MemberId, up: bool, events: seq<CallEvent>): bool {
    if events == [] then up
    else
      var n := |events| - 1;
      if events[n].HandRaised? && events[n].member == m then true
      else if events[n].HandLowered? && events[n].member == m then false
      else HandUp(m, up, events[..n])
  }

  lemma {:induction false} HandUpConcat(m: MemberId, up: bool, a: seq<CallEvent>, b: seq<CallEvent>)
    ensures HandUp(m, up, a + b) == HandUp(m, HandUp(m, up, a), b)
  {
    if b == [] {
      assert a + b == a;
    } else {
      var n := |b| - 1;
      HandUpConcat(m, up, a, b[..n]);
      assert (a + b)[..|a + b| - 1] == a + b[..n];
    }
  }

  lemma {:induction false} OthersEvents(m: MemberId, up: bool, events: seq<CallEvent>)
    requires forall e :: e in events ==> e.ParticipantJoined? || e.ParticipantLeft? || e.member != m
    ensures HandUp(m, up, events) == up
  {
    if events != [] { OthersEvents(m, up, events[..|events| - 1]); }
  }

  lemma {:induction false} OnlyRostered(roster: seq<Participant>, hands: seq<RaisedHand>)
    ensures forall e :: e in HandEvents(roster, hands) ==> (e.HandRaised? || e.HandLowered?) && e.member in IdsOf(roster)
  {
    if roster != [] {
      var n := |roster| - 1;
      OnlyRostered(roster[..n], hands);
      assert IdsOf(roster) == IdsOf(roster[..n]) + {roster[n].id};
    }
  }

  lemma OneFollows(p: Participant, hands: seq<RaisedHand>)
    requires Lookup(hands, p.id).None? || !Lookup(hands, p.id).value.fromBackfill
    ensures HandUp(p.id, p.handAt.Some?, OneHandEvent(p, hands)) == Lookup(hands, p.id).Some?
  {
    assert [p][..0] == [] && HandEvents([], hands) == [];
  }

  lemma {:induction false} HandEventsFollow(roster: seq<Participant>, hands: seq<RaisedHand>, m: MemberId)
    requires UniqueMembers(roster) && m in IdsOf(roster)
    requires Lookup(hands, m).None? || !Lookup(hands, m).value.fromBackfill
    ensures HandUp(m, HandOf(roster, m).Some?, HandEvents(roster, hands)) == Lookup(hands, m).Some?
  {
    var n := |roster| - 1;
    var up := HandOf(roster, m).Some?;
    var front, last := HandEvents(roster[..n], hands), OneHandEvent(roster[n], hands);
    LastEntry(roster, m);
    LastHandEvent(roster, hands);
    HandUpConcat(m, up, front, last);
    if roster[n].id == m {
      OnlyRostered(roster[..n], hands);
      OthersEvents(m, up, front);
      OneFollows(roster[n], hands);
    } else {
      HandEventsFollow(roster[..n], hands, m);
      OnlyRostered([roster[n]], hands);
      assert IdsOf([roster[n]]) == {roster[n].id};
      OthersEvents(m, HandUp(m, up, front), last);
    }
  }

  // ---- one turn ---------------------------------------------------------------------------

  predicate Announcing(s: State) {
    s.arrived && !s.ended
  }

  /** What a turn adds to the events. */
  function Said(s: State, input: Input, env: Env): seq<CallEvent> {
    match input
    case Start(members, _, _) => SnapshotEvents(s.roster, members, SeedsOf(s, env), Announcing(s))
    case Members(members, _) => SnapshotEvents(s.roster, members, SeedsOf(s, env), Announcing(s))
    case Hands(hands) => if Announcing(s) then HandEvents(s.roster, hands) else []
    case _ => []
  }

  lemma {:induction false} NothingMoved(roster: seq<Participant>, hands: seq<RaisedHand>)
    requires forall i :: 0 <= i < |roster| ==> roster[i].handAt == HandTime(hands, roster[i].id)
    ensures HandEvents(roster, hands) == []
  {
    if roster != [] { NothingMoved(roster[..|roster| - 1], hands); }
  }

  lemma HandsSaid(s: State, hands: seq<RaisedHand>, announce: bool, env: Env)
    ensures ApplyHands(s, hands, announce, env).events
         == s.events + if announce && Announcing(s) then HandEvents(s.roster, hands) else []
  {
    var h := WithHands(s.roster, hands);
    if h == s.roster {
      forall i | 0 <= i < |s.roster| ensures s.roster[i].handAt == HandTime(hands, s.roster[i].id) {
        assert h[i] == s.roster[i];
      }
      NothingMoved(s.roster, hands);
    }
    assert s.events + [] == s.events;
  }

  lemma SnapshotSaid(s: State, members: seq<Membership>, pool: seq<PoolEvent>, env: Env)
    ensures ApplySnapshot(s, members, pool, env).events
         == s.events + SnapshotEvents(s.roster, members, SeedsOf(s, env), Announcing(s))
  {
  }

  lemma TurnSaid(s: State, input: Input, env: Env)
    ensures Turn(s, input, env).events == s.events + Said(s, input, env)
  {
    TurnFrame(s, input, env);
    if input.Start? {
      SnapshotSaid(s, input.members, input.pool, env);
      HandsSaid(ApplySnapshot(s, input.members, input.pool, env), input.hands, false, env);
      assert ApplySnapshot(s, input.members, input.pool, env).events + [] == ApplySnapshot(s, input.members, input.pool, env).events;
    } else if input.Members? {
      SnapshotSaid(s, input.members, input.pool, env);
    } else if input.Hands? {
      HandsSaid(s, input.hands, true, env);
    } else {
      OthersKeepEvents(s, input, env);
      assert s.events + [] == s.events;
    }
  }

  lemma SnapshotSaysNoHands(s: State, members: seq<Membership>, env: Env)
    requires RosterKept(s)
    ensures forall e :: e in SnapshotEvents(s.roster, members, SeedsOf(s, env), Announcing(s)) ==> e.ParticipantJoined? || e.ParticipantLeft?
  {
    SnapshotReplay(s.roster, members, SeedsOf(s, env));
    Unannounced(s.roster, members, SeedsOf(s, env));
  }

  /** What turn `k` of a run added to the events. */
  function News(states: seq<State>, k: nat): seq<CallEvent>
    requires k + 1 < |states| && |states[k].events| <= |states[k + 1].events|
  {
    states[k + 1].events[|states[k].events|..]
  }

  lemma NewsAreSaid(cfg: Config, states: seq<State>, msgs: seq<Message>, k: nat)
    requires Run(cfg, states, msgs) && k < |msgs|
    ensures states[k + 1].events == states[k].events + Said(states[k], msgs[k].input, msgs[k].env)
    ensures News(states, k) == Said(states[k], msgs[k].input, msgs[k].env)
  {
    TurnSaid(states[k], msgs[k].input, msgs[k].env);
  }

  /**
   * A turn of a run announces a raised hand exactly when it takes a hand set that shows the rostered `m`'s hand up,
   * not by backfill, where it was down, and a lowered one exactly when the set no longer has the hand that was up;
   * and only between our arrival and the end.
   */
  lemma HandsAreAnnounced(cfg: Config, states: seq<State>, msgs: seq<Message>, k: nat, m: MemberId, at: nat)
    requires Run(cfg, states, msgs) && k < |msgs|
    ensures |states[k].events| <= |states[k + 1].events|
    ensures var s, input := states[k], msgs[k].input;
      && (HandRaised(m, at) in News(states, k) <==> input.Hands? && Announcing(s) && Raises(s.roster, input.hands, m, at))
      && (HandLowered(m) in News(states, k) <==> input.Hands? && Announcing(s) && Lowers(s.roster, input.hands, m))
  {
    var s, input, env := states[k], msgs[k].input, msgs[k].env;
    EveryTurnKept(cfg, states, msgs, k);
    NewsAreSaid(cfg, states, msgs, k);
    SaidHands(s, input, env, m, at);
  }

  lemma SaidHands(s: State, input: Input, env: Env, m: MemberId, at: nat)
    requires RosterKept(s) && Admissible(s, input, env)
    ensures var said := Said(s, input, env);
      && (HandRaised(m, at) in said <==> input.Hands? && Announcing(s) && Raises(s.roster, input.hands, m, at))
      && (HandLowered(m) in said <==> input.Hands? && Announcing(s) && Lowers(s.roster, input.hands, m))
  {
    if input.Hands? {
      HandEventsTell(s.roster, input.hands, m, at);
    } else if input.Start? || input.Members? {
      SnapshotSaysNoHands(s, input.members, env);
    }
  }

  // ---- whole runs -----------------------------------------------------------------------------

  /** A hand set that has `m`'s hand by backfill. */
  ghost predicate Backfills(input: Input, m: MemberId) {
    input.Hands? && exists h :: h in input.hands && h.member == m && h.fromBackfill
  }

  lemma KeptHand(s: State, m: MemberId)
    requires RosterKept(s) && m in IdsOf(s.roster)
    ensures HandOf(s.roster, m) == HandTime(s.hands, m)
  {
  }

  lemma OtherTurnsKeepHands(s: State, input: Input, env: Env)
    requires !input.Start? && !input.Hands?
    ensures Turn(s, input, env).hands == s.hands
  {
    TurnFrame(s, input, env);
    if input.Members? {
    } else {
      OthersKeepQueue(s, input, env);
    }
  }

  lemma HandsTaken(s: State, hands: seq<RaisedHand>, env: Env)
    ensures ApplyHands(s, hands, true, env).hands == hands
  {
  }

  lemma HandsAreHandled(s: State, hands: seq<RaisedHand>, env: Env)
    ensures Handle(s, Hands(hands), env) == ApplyHands(s, hands, true, env)
  {
  }

  lemma HandsTurnTakesHands(s: State, hands: seq<RaisedHand>, env: Env)
    ensures Turn(s, Hands(hands), env).hands == hands
  {
    HandsTaken(s, hands, env);
    HandsAreHandled(s, hands, env);
    TurnFrame(s, Hands(hands), env);
  }

  /** One turn keeps what the events say of a rostered member's hand right. */
  lemma TurnFollows(s: State, input: Input, env: Env, r: State, m: MemberId)
    requires RosterKept(s) && Admissible(s, input, env) && r == Turn(s, input, env) && RosterKept(r)
    requires Announcing(s) && !input.Start? && !Backfills(input, m)
    requires m in IdsOf(s.roster) && m in IdsOf(r.roster)
    ensures HandUp(m, HandOf(s.roster, m).Some?, Said(s, input, env)) == HandOf(r.roster, m).Some?
  {
    KeptHand(s, m);
    KeptHand(r, m);
    var up := HandOf(s.roster, m).Some?;
    if input.Hands? {
      HandsTurnTakesHands(s, input.hands, env);
      HandEventsFollow(s.roster, input.hands, m);
    } else {
      OtherTurnsKeepHands(s, input, env);
      if input.Members? {
        SnapshotSaysNoHands(s, input.members, env);
      }
      OthersEvents(m, up, Said(s, input, env));
    }
  }

  /** From turn `j` to turn `k` we announce, `m` stays on the roster, and no backfill shows their hand. */
  ghost predicate Watched(states: seq<State>, msgs: seq<Message>, j: nat, k: nat, m: MemberId) {
    && j <= k < |states| && |states| == |msgs| + 1
    && (forall l :: j <= l <= k ==> m in IdsOf(states[l].roster))
    && (forall l :: j <= l < k ==> Announcing(states[l]) && !msgs[l].input.Start? && !Backfills(msgs[l].input, m))
  }

  /** The events since `s`, replayed on `m`'s hand there, give their hand at `r`. */
  ghost predicate HandsFollow(s: State, r: State, m: MemberId) {
    && s.events <= r.events
    && HandUp(m, HandOf(s.roster, m).Some?, r.events[|s.events|..]) == HandOf(r.roster, m).Some?
  }

  lemma FollowOn(a: State, b: State, c: State, m: MemberId)
    requires HandsFollow(a, b, m) && HandsFollow(b, c, m)
    ensures HandsFollow(a, c, m)
  {
    var n, o := |a.events|, |b.events|;
    assert c.events[n..] == b.events[n..] + c.events[o..];
    HandUpConcat(m, HandOf(a.roster, m).Some?, b.events[n..], c.events[o..]);
  }

  lemma RunFollows(cfg: Config, states: seq<State>, msgs: seq<Message>, n: nat, m: MemberId)
    requires Run(cfg, states, msgs) && n < |msgs| && Watched(states, msgs, n, n + 1, m)
    ensures HandsFollow(states[n], states[n + 1], m)
  {
    EveryTurnKept(cfg, states, msgs, n);
    NewsAreSaid(cfg, states, msgs, n);
    TurnKeepsRoster(states[n], msgs[n].input, msgs[n].env);
    TurnFollows(states[n], msgs[n].input, msgs[n].env, states[n + 1], m);
  }

  lemma {:induction false} FollowedAlong(states: seq<State>, j: nat, k: nat, m: MemberId)
    requires j <= k < |states| && forall l :: j <= l < k ==> HandsFollow(states[l], states[l + 1], m)
    ensures HandsFollow(states[j], states[k], m)
    decreases k
  {
    if j < k {
      FollowedAlong(states, j, k - 1, m);
      FollowOn(states[j], states[k - 1], states[k], m);
    } else {
      NoNews(states[j], m);
    }
  }

  lemma NoNews(s: State, m: MemberId)
    ensures HandsFollow(s, s, m)
  {
    assert s.events[|s.events|..] == [];
  }

  /**
   * The hand events refine the rostered hands: while `m` stays and nothing about them is backfilled, replaying the
   * events emitted since turn `j` on the hand of that turn gives the hand of turn `k`.
   */
  lemma HandEventsRefineTheRoster(cfg: Config, states: seq<State>, msgs: seq<Message>, j: nat, k: nat, m: MemberId)
    requires Run(cfg, states, msgs) && Watched(states, msgs, j, k, m)
    ensures HandsFollow(states[j], states[k], m)
  {
    forall l | j <= l < k ensures HandsFollow(states[l], states[l + 1], m) {
      RunFollows(cfg, states, msgs, l, m);
    }
    FollowedAlong(states, j, k, m);
  }
}
