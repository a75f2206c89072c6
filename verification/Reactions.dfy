/** One session's reactions state: everyone's raised hands, and our own asked-for and landed hand. */
module Reactions {
  import opened Ordering
  import opened PeerHands
  import opened HandProtocol
  import Roster

  /** A joined membership: the member and their current membership event, if known. */
  datatype Member = Member(id: MemberId, event: Option<EventId>)

  function Present(members: seq<Member>): set<MemberId> {
    set m | m in members :: m.id
  }

  /** One member's remembered events after a roster. */
  function KnownAfter(known: map<MemberId, seq<EventId>>, members: seq<Member>): map<MemberId, seq<EventId>> {
    if members == [] then known
    else
      var m := members[|members| - 1];
      var before := KnownAfter(known, members[..|members| - 1]);
      if m.event.None? then before
      else before[m.id := Remember(if m.id in before then before[m.id] else [], m.event.value)]
  }

  /** What a roster keeps of the lists, and adds to them. */
  function KnownSynced(known: map<MemberId, seq<EventId>>, members: seq<Member>): map<MemberId, seq<EventId>> {
    KnownAfter(map m | m in known && m in Present(members) :: known[m], members)
  }

  function KnownAfterAll(rosters: seq<seq<Member>>): map<MemberId, seq<EventId>> {
    if rosters == [] then map[] else KnownSynced(KnownAfterAll(rosters[..|rosters| - 1]), rosters[|rosters| - 1])
  }

  /** A member's membership events in one roster. */
  function EventsOf(members: seq<Member>, m: MemberId): seq<EventId> {
    if members == [] then []
    else
      var last := members[|members| - 1];
      EventsOf(members[..|members| - 1], m) + if last.id == m && last.event.Some? then [last.event.value] else []
  }

  /** And in all rosters since they were last absent from one. */
  function HistoryOf(rosters: seq<seq<Member>>, m: MemberId): seq<EventId> {
    if rosters == [] then []
    else
      var last := rosters[|rosters| - 1];
      if m !in Present(last) then [] else HistoryOf(rosters[..|rosters| - 1], m) + EventsOf(last, m)
  }

  /** The list kept for a member is the one a history leaves; there is none without a history. */
  ghost predicate Remembers(known: map<MemberId, seq<EventId>>, m: MemberId, history: seq<EventId>) {
    if history == [] then m !in known else m in known && known[m] == Remembered(history)
  }

  lemma {:induction false} OneRoster(known: map<MemberId, seq<EventId>>, members: seq<Member>, m: MemberId, history: seq<EventId>)
    requires Remembers(known, m, history)
    ensures Remembers(KnownAfter(known, members), m, history + EventsOf(members, m))
  {
    if members == [] {
      assert history + [] == history;
    } else {
      var n := |members| - 1;
      OneRoster(known, members[..n], m, history);
      var before := history + EventsOf(members[..n], m);
      if members[n].id == m && members[n].event.Some? {
        var e := members[n].event.value;
        assert (before + [e])[..|before|] == before;
        assert history + EventsOf(members, m) == before + [e];
      } else {
        assert EventsOf(members, m) == EventsOf(members[..n], m);
      }
    }
  }

  lemma {:induction false} AbsentIsUnknown(known: map<MemberId, seq<EventId>>, members: seq<Member>, m: MemberId)
    requires m !in Present(members) && m !in known
    ensures m !in KnownAfter(known, members)
  {
    if members != [] {
      var n := |members| - 1;
      assert members[n] in members;
      forall x | x in Present(members[..n]) ensures x in Present(members) {
        var y :| y in members[..n] && y.id == x;
        assert y in members;
      }
      AbsentIsUnknown(known, members[..n], m);
    }
  }

  /**
   * Over any run of rosters, the list kept for a member is exactly the last 8 distinct ids of their events since they
   * were last absent, by most recent appearance; a member without such events has none.
   */
  lemma {:induction false} KnownIsRecent(rosters: seq<seq<Member>>, m: MemberId)
    ensures var known := KnownAfterAll(rosters); var history := HistoryOf(rosters, m);
      && Remembers(known, m, history)
      && (m in known ==> known[m] == LastOf(RecencyOf(history), KNOWN_EVENTS_PER_MEMBER))
  {
    if rosters != [] {
      var n := |rosters| - 1;
      KnownIsRecent(rosters[..n], m);
      var known, last := KnownAfterAll(rosters[..n]), rosters[n];
      var kept := map x | x in known && x in Present(last) :: known[x];
      if m in Present(last) {
        OneRoster(kept, last, m, HistoryOf(rosters[..n], m));
      } else {
        AbsentIsUnknown(kept, last, m);
      }
    }
    RememberedIsRecent(HistoryOf(rosters, m));
  }

  /** Whether one hand queues before another: by time, then member. */
  function QueueOrder(): (Roster.RaisedHand, Roster.RaisedHand) -> bool {
    (a: Roster.RaisedHand, b: Roster.RaisedHand) => Roster.QueuedBefore(a.raisedAt, a.member, b.raisedAt, b.member)
  }

  lemma QueueOrderIsWeak()
    ensures WeakOrder(QueueOrder())
  {
    var less := QueueOrder();
    forall x, y ensures less(x, y) ==> !less(y, x) {
      StrTotal(x.member, y.member);
    }
    forall x, y, z | less(x, z) ensures less(x, y) || less(y, z) {
      StrTotal(x.member, y.member);
      StrTotal(y.member, z.member);
      if StrLess(y.member, x.member) && StrLess(x.member, z.member) {
        LexTransitive(Codes(y.member), Codes(x.member), Codes(z.member));
      }
    }
  }

  /** Everybody else's hand is as it was. */
  predicate PeersSame(before: map<MemberId, PeerHand>, after: map<MemberId, PeerHand>, me: MemberId) {
    && (forall m | m in before && m != me :: m in after && after[m] == before[m])
    && (forall m | m in after && m != me :: m in before)
  }

  function Entry(hands: map<MemberId, PeerHand>, m: MemberId): Roster.RaisedHand
    requires m in hands
  {
    Roster.RaisedHand(m, hands[m].raisedAt, hands[m].fromBackfill)
  }

  datatype SenderNext = Again | Stop | Backoff

  class ReactionsState {
    var raisedHands: map<MemberId, PeerHand>
    var known: map<MemberId, seq<EventId>>
    var own: Option<OwnHand>
    var wanted: bool
    var requests: Requests

    constructor ()
      ensures raisedHands == map[] && known == map[] && OurHand() == LOWERED
    {
      raisedHands, known, own, wanted, requests := map[], map[], None, false, Requests(0, 0, None);
    }

    /** Our hand as the protocol sees it. */
    function OurHand(): Hand
      reads this
    {
      Hand(own, wanted, requests)
    }

    /** The raised hands, oldest first: every member's once, in the queue order the engine numbers. */
    method RaisedHands() returns (hands: seq<Roster.RaisedHand>)
      ensures Roster.Queue(hands)
      ensures forall h :: h in hands <==> h.member in raisedHands && h == Entry(raisedHands, h.member)
    {
      var members := raisedHands.Keys;
      hands := [];
      while members != {}
        invariant members <= raisedHands.Keys
        invariant forall h :: h in hands <==> h.member in raisedHands.Keys - members && h.member in raisedHands && h == Entry(raisedHands, h.member)
        invariant forall i, j :: 0 <= i < j < |hands| ==> hands[i].member != hands[j].member
        decreases members
      {
        var m :| m in members;
        hands := hands + [Entry(raisedHands, m)];
        members := members - {m};
      }
      hands := SortHands(hands);
    }

    /**
     * Brings the bookkeeping in line with the roster: members gone lose their hand and history, and each member's
     * current event is remembered as their latest.
     */
    method SyncRoster(members: seq<Member>)
      modifies this
      ensures raisedHands == map m | m in old(raisedHands) && m in Present(members) :: old(raisedHands)[m]
      ensures known == KnownSynced(old(known), members)
      ensures OurHand() == old(OurHand())
    {
      raisedHands := map m | m in raisedHands && m in Present(members) :: raisedHands[m];
      known := map m | m in known && m in Present(members) :: known[m];
      RememberAll(members);
    }

    method RememberAll(members: seq<Member>)
      modifies `known
      ensures known == KnownAfter(old(known), members)
    {
      for i := 0 to |members|
        invariant known == KnownAfter(old(known), members[..i])
      {
        var m := members[i];
        assert members[..i + 1][..i] == members[..i];
        if m.event.Some? {
          var ids := if m.id in known then known[m.id] else [];
          if ids == [] || ids[|ids| - 1] != m.event.value {
            ids := Without(ids, m.event.value) + [m.event.value];
            if |ids| > KNOWN_EVENTS_PER_MEMBER {
              ids := ids[1..];
            }
          }
          known := known[m.id := ids];
        }
      }
      assert members[..|members|] == members;
    }

    /** An accepted raised-hand annotation of `m`. */
    method Ingest(m: MemberId, note: Note)
      modifies this
      ensures raisedHands == old(raisedHands)[m := if m in old(raisedHands) then Merge(old(raisedHands)[m], note) else First(note)]
      ensures known == old(known) && OurHand() == old(OurHand())
    {
      if m !in raisedHands {
        raisedHands := raisedHands[m := PeerHand(note.id, note.sender, note.at, note.backfill)];
      } else {
        var existing := raisedHands[m];
        if existing.reaction != note.id {
          var raisedAt := if existing.raisedAt <= note.at then existing.raisedAt else note.at;
          var newest := if note.at >= existing.raisedAt then First(note) else existing;
          raisedHands := raisedHands[m := newest.(raisedAt := raisedAt, fromBackfill := existing.fromBackfill)];
        } else {
          assert raisedHands[m := existing] == raisedHands;
        }
      }
    }

    /** Lowers whichever hands `event` raised, ours included; the wish for ours stays. */
    method OnEventRedacted(event: EventId) returns (ours: bool)
      modifies this
      ensures raisedHands == map m | m in old(raisedHands) && old(raisedHands)[m].reaction != event :: old(raisedHands)[m]
      ensures OurHand() == RedactedElsewhere(old(OurHand()), event)
      ensures ours == (OurHand() != old(OurHand()))
      ensures known == old(known)
    {
      raisedHands := map m | m in raisedHands && raisedHands[m].reaction != event :: raisedHands[m];
      ours := own.Some? && own.value.reaction == event;
      if ours {
        own := None;
      }
    }

    /** Shows our hand where it was asked to be, keeping the time it is up since. */
    method ShowOwnHand(me: MemberId, user: string, now: nat)
      modifies `raisedHands
      ensures me in raisedHands <==> wanted
      ensures forall m :: m != me ==> (m in raisedHands <==> m in old(raisedHands)) && (m in raisedHands ==> raisedHands[m] == old(raisedHands)[m])
      ensures wanted ==> raisedHands[me] == PeerHand(
        if own.Some? then own.value.reaction else "", user,
        if me in old(raisedHands) then old(raisedHands)[me].raisedAt else now, false)
    {
      if wanted {
        var reaction := if own.Some? then own.value.reaction else "";
        var raisedAt := if me in raisedHands then raisedHands[me].raisedAt else now;
        raisedHands := raisedHands[me := PeerHand(reaction, user, raisedAt, false)];
      } else {
        raisedHands := raisedHands - {me};
      }
    }

    method RequestHand(up: bool, me: MemberId, user: string, now: nat) returns (request: nat)
      modifies this
      ensures OurHand() == Requested(old(OurHand()), up) && known == old(known)
      ensures request == requests.latest
      ensures up != old(wanted) ==> (me in raisedHands <==> up)
      ensures up == old(wanted) ==> raisedHands == old(raisedHands)
      ensures PeersSame(old(raisedHands), raisedHands, me)
    {
      if up == wanted {
        return requests.latest;
      }
      wanted := up;
      ShowOwnHand(me, user, now);
      requests := requests.(latest := requests.latest + 1);
      request := requests.latest;
    }

    method HandStep(current: Option<EventId>) returns (send: Option<Send>)
      ensures send == Step(OurHand(), current)
    {
      if current.None? {
        return None;
      }
      if own.None? && wanted {
        return Some(Annotate(current.value, None));
      }
      if own.Some? && wanted && own.value.on != current.value {
        return Some(Annotate(current.value, Some(own.value.reaction)));
      }
      if own.Some? && !wanted {
        return Some(Redact(own.value.reaction));
      }
      return None;
    }

    method SettleHand()
      modifies `requests
      ensures OurHand() == SettledAll(old(OurHand()))
    {
      requests := requests.(settled := requests.latest);
    }

    /** Records one send's outcome and says what the sender does next; out of the call it only stops. */
    method HandSent(send: Send, outcome: Outcome, inCall: bool, me: MemberId, user: string, now: nat) returns (next: SenderNext)
      modifies this
      ensures var before := World(old(OurHand()), if inCall then Some("") else None, Some(send), false);
        OurHand() == Answered(before, send, outcome).hand && (next.Stop? <==> Answered(before, send, outcome).stopped)
      ensures next.Backoff? <==> inCall && (outcome.Failed? || outcome.TimedOut?)
      ensures known == old(known) && PeersSame(old(raisedHands), raisedHands, me)
      ensures inCall && (outcome.Landed? || outcome.RefusedForGood?) ==> (me in raisedHands <==> wanted)
      ensures !inCall || !(outcome.Landed? || outcome.RefusedForGood?) ==> raisedHands == old(raisedHands)
    {
      if !inCall {
        return Stop;
      }
      match outcome {
        case Landed(event) =>
          own := if send.Annotate? then Some(OwnHand(event, send.on)) else None;
          ShowOwnHand(me, user, now);
          next := Again;
        case RefusedForGood =>
          wanted := own.Some?;
          ShowOwnHand(me, user, now);
          requests := Requests(requests.latest, requests.latest, Some(requests.latest));
          next := Again;
        case Over => next := Stop;
        case _ => next := Backoff;
      }
    }

    method ResetOwn()
      modifies this
      ensures OurHand() == Reset(old(OurHand()))
      ensures raisedHands == old(raisedHands) && known == old(known)
    {
      own, wanted := None, false;
      SettleHand();
    }
  }

  const BACKOFF_INITIAL := 1_000
  const BACKOFF_MAX := 30_000

  predicate Transient(o: Outcome) {
    o.Failed? || o.TimedOut?
  }

  /** Everything sent lands, and our membership event stands. */
  ghost predicate Smooth(currents: nat -> Option<EventId>, answers: nat -> Outcome) {
    forall i: nat :: answers(i).Landed? && currents(i) == currents(0)
  }

  lemma SmoothAt(currents: nat -> Option<EventId>, answers: nat -> Outcome, i: nat)
    requires Smooth(currents, answers)
    ensures answers(i).Landed? && currents(i) == currents(i + 1)
  {
    assert currents(i) == currents(0) && currents(i + 1) == currents(0);
  }

  /** How many attempts failed in a row just before attempt `i`. */
  function FailedInARow(answers: nat -> Outcome, i: nat): nat {
    if i == 0 || !Transient(answers(i - 1)) then 0 else 1 + FailedInARow(answers, i - 1)
  }

  function TwoTo(n: nat): (p: nat)
    ensures p > 0
  {
    if n == 0 then 1 else 2 * TwoTo(n - 1)
  }

  function Least(a: nat, b: nat): nat { if a <= b then a else b }

  /** Our own wait after a failure with `n` before it: a second, doubled each time, up to half a minute. */
  function OwnWait(n: nat): (w: nat)
    ensures BACKOFF_INITIAL <= w <= BACKOFF_MAX
  {
    Least(1_000 * TwoTo(n), 30_000)
  }

  /** The wait after attempt `i`, if it failed for now: ours, or the server's where it asks for more. */
  function WaitAfter(answers: nat -> Outcome, retryAfter: nat -> Option<nat>, i: nat): Option<nat> {
    if !Transient(answers(i)) then None
    else
      var ours := OwnWait(FailedInARow(answers, i));
      Some(if answers(i).Failed? && retryAfter(i).Some? && retryAfter(i).value > ours then retryAfter(i).value else ours)
  }

  /** The waits after the first `n` attempts. */
  function Waits(answers: nat -> Outcome, retryAfter: nat -> Option<nat>, n: nat): (ws: seq<Option<nat>>)
    ensures |ws| == n
    ensures forall i :: 0 <= i < n ==> ws[i] == WaitAfter(answers, retryAfter, i)
  {
    if n == 0 then [] else Waits(answers, retryAfter, n - 1) + [WaitAfter(answers, retryAfter, n - 1)]
  }

  lemma OwnWaitDoubles(n: nat)
    ensures OwnWait(n + 1) == Least(2 * OwnWait(n), BACKOFF_MAX)
  {
  }

  /** The wait after an attempt, and our own for the next failure. */
  method WaitOut(answers: nat -> Outcome, retryAfter: nat -> Option<nat>, i: nat, next: SenderNext, backoff: nat)
    returns (wait: Option<nat>, backoff': nat)
    requires next.Backoff? <==> Transient(answers(i))
    requires backoff == OwnWait(FailedInARow(answers, i))
    ensures wait == WaitAfter(answers, retryAfter, i)
    ensures backoff' == OwnWait(FailedInARow(answers, i + 1))
  {
    if !next.Backoff? {
      return None, BACKOFF_INITIAL;
    }
    OwnWaitDoubles(FailedInARow(answers, i));
    var asked := retryAfter(i);
    wait := Some(if answers(i).Failed? && asked.Some? && asked.value > backoff then asked.value else backoff);
    backoff' := if backoff * 2 <= BACKOFF_MAX then backoff * 2 else BACKOFF_MAX;
  }

  /** The hand after a send, with our membership event at `current` by then. */
  function AfterSend(h: Hand, current: Option<EventId>, send: Send, o: Outcome): Hand {
    Answered(World(h, current, Some(send), false), send, o).hand
  }

  predicate StopsAfter(current: Option<EventId>, o: Outcome) {
    current.None? || o.Over?
  }

  /** A send makes no request; one that lands, with our membership event where it was, leaves nothing to send. */
  lemma SentFacts(h: Hand, before: Option<EventId>, current: Option<EventId>, send: Send, o: Outcome)
    requires Step(h, before) == Some(send)
    ensures var h' := AfterSend(h, current, send, o);
      && h'.requests.latest == h.requests.latest
      && (o.Landed? && current == before ==>
            h'.wanted == h.wanted && Step(h', current).None? && Distance(h', current) < Distance(h, before))
  {
  }

  /** One pass of the sender: a send, what came of it, and the wait if it failed for now. */
  method SendOnce(state: ReactionsState, send: Send, current: Option<EventId>, answers: nat -> Outcome,
                  retryAfter: nat -> Option<nat>, i: nat, backoff: nat, me: MemberId, user: string, now: nat)
    returns (stopped: bool, wait: Option<nat>, backoff': nat)
    requires backoff == OwnWait(FailedInARow(answers, i))
    modifies state
    ensures state.OurHand() == AfterSend(old(state.OurHand()), current, send, answers(i))
    ensures stopped == StopsAfter(current, answers(i))
    ensures wait == if stopped then None else WaitAfter(answers, retryAfter, i)
    ensures !stopped ==> backoff' == OwnWait(FailedInARow(answers, i + 1))
    ensures state.known == old(state.known) && PeersSame(old(state.raisedHands), state.raisedHands, me)
  {
    var next := state.HandSent(send, answers(i), current.Some?, me, user, now);
    if next.Stop? {
      return true, None, backoff;
    }
    stopped := false;
    wait, backoff' := WaitOut(answers, retryAfter, i, next, backoff);
  }

  /**
   * `drive_hand`: sends what our hand needs until it stands where it was asked to, or there is nothing to send it on.
   * Before the `i`-th send our membership event is `currents(i)`; `answers` is what the server says to each attempt,
   * with the wait it asks for. From some attempt on the server has to accept or our sends be over, and our membership
   * event has to stand. Nothing is sent once agreed. `waits` has what is waited after each attempt: nothing unless it
   * failed for now, and then as `WaitAfter` says.
   */
  method DriveHand(state: ReactionsState, currents: nat -> Option<EventId>, answers: nat -> Outcome,
                   retryAfter: nat -> Option<nat>, ghost steady: nat, me: MemberId, user: string, now: nat)
    returns (sends: nat, waits: seq<Option<nat>>, stopped: bool)
    requires forall i: nat :: i >= steady ==> (answers(i).Landed? || answers(i).Over?) && currents(i) == currents(steady)
    modifies state
    ensures !stopped && currents(sends).Some? ==> Agreed(state.OurHand(), currents(sends).value)
    ensures !stopped ==> state.requests.settled == state.requests.latest
    ensures stopped ==> sends > 0 && (answers(sends - 1).Over? || currents(sends).None?)
    ensures state.requests.latest == old(state.requests.latest)
    ensures sends == 0 <==> currents(0).None? || Agreed(old(state.OurHand()), currents(0).value)
    ensures Smooth(currents, answers) ==> !stopped && sends <= 1 && state.wanted == old(state.wanted)
    ensures waits == if stopped then Waits(answers, retryAfter, sends - 1) + [None] else Waits(answers, retryAfter, sends)
    ensures state.known == old(state.known) && PeersSame(old(state.raisedHands), state.raisedHands, me)
  {
    sends, waits, stopped := 0, [], false;
    var backoff := BACKOFF_INITIAL;
    ghost var start, hand := state.OurHand(), state.OurHand();
    var send := state.HandStep(currents(0));
    ghost var first, smooth := send, Smooth(currents, answers);
    while send.Some?
      invariant state.OurHand() == hand && send == Step(hand, currents(sends))
      invariant hand.requests.latest == start.requests.latest
      invariant if sends == 0 then send == first else first.Some?
      invariant smooth ==> hand.wanted == start.wanted && (sends == 0 || (sends == 1 && send.None?))
      invariant backoff == OwnWait(FailedInARow(answers, sends)) && waits == Waits(answers, retryAfter, sends)
      invariant state.known == old(state.known) && PeersSame(old(state.raisedHands), state.raisedHands, me)
      decreases if sends < steady then steady - sends else 0, Distance(hand, currents(sends))
    {
      var i := sends;
      if smooth { SmoothAt(currents, answers, i); }
      SentFacts(hand, currents(i), currents(i + 1), send.value, answers(i));
      var wait;
      stopped, wait, backoff := SendOnce(state, send.value, currents(i + 1), answers, retryAfter, i, backoff, me, user, now);
      sends, waits := i + 1, waits + [wait];
      if stopped {
        return;
      }
      hand := AfterSend(hand, currents(i + 1), send.value, answers(i));
      send := state.HandStep(currents(sends));
    }
    state.SettleHand();
    if currents(0).Some? { SendsUnlessAgreed(start, currents(0).value); }
    if currents(sends).Some? { SendsUnlessAgreed(hand, currents(sends).value); }
  }

  method SortHands(hands: seq<Roster.RaisedHand>) returns (r: seq<Roster.RaisedHand>)
    requires forall i, j :: 0 <= i < j < |hands| ==> hands[i].member != hands[j].member
    ensures Roster.Queue(r)
    ensures forall h :: h in r <==> h in hands
  {
    r := Sort(QueueOrder(), hands);
    QueueOrderIsWeak();
    SortFacts(QueueOrder(), hands);
    SortedHandsQueue(hands, r);
  }

  ghost predicate DistinctMembers(hands: seq<Roster.RaisedHand>) {
    forall i, j :: 0 <= i < j < |hands| ==> hands[i].member != hands[j].member
  }

  lemma DistinctHands(hands: seq<Roster.RaisedHand>, r: seq<Roster.RaisedHand>)
    requires multiset(hands) == multiset(r) && DistinctMembers(hands)
    ensures DistinctMembers(r)
  {
    forall i, j | 0 <= i < j < |r| ensures r[i].member != r[j].member {
      if r[i].member == r[j].member {
        assert r[i] in multiset(hands) && r[j] in multiset(hands);
        var x :| 0 <= x < |hands| && hands[x] == r[i];
        TwiceInMultiset(r, i, j);
        OnceInMultiset(hands, x);
      }
    }
  }

  lemma SortedHandsQueue(hands: seq<Roster.RaisedHand>, r: seq<Roster.RaisedHand>)
    requires multiset(hands) == multiset(r) && NotDescending(QueueOrder(), r)
    requires forall i, j :: 0 <= i < j < |hands| ==> hands[i].member != hands[j].member
    ensures Roster.Queue(r)
    ensures forall h :: h in r <==> h in hands
  {
    DistinctHands(hands, r);
    forall i, j | 0 <= i < j < |r| ensures Roster.QueuedBefore(r[i].raisedAt, r[i].member, r[j].raisedAt, r[j].member) {
      StrTotal(r[i].member, r[j].member);
      assert !QueueOrder()(r[j], r[i]);
    }
    forall h ensures h in r <==> h in hands {
      assert h in multiset(r) <==> h in multiset(hands);
    }
  }
}
