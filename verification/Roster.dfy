/** The participant roster: snapshots, raised hands and their queue, streams, and the events about them. */
module Roster {
  import opened Ordering
  import opened Tiles
  import opened Publications

  /** A joined membership as the core publishes it. */
  datatype Membership = Membership(id: MemberId, sender: string, deviceId: Option<string>, membershipTs: Option<nat>, originTs: Option<nat>)

  datatype RaisedHand = RaisedHand(member: MemberId, raisedAt: nat, fromBackfill: bool)

  /** The events about who is in the call and whose hand is up. */
  datatype CallEvent =
    | ParticipantJoined(member: MemberId, userId: string, count: nat)
    | ParticipantLeft(member: MemberId, count: nat)
    | HandRaised(member: MemberId, raisedAt: nat)
    | HandLowered(member: MemberId)

  function IdsOf(roster: seq<Participant>): set<MemberId> {
    set p | p in roster :: p.id
  }

  function MemberIds(members: seq<Membership>): set<MemberId> {
    set m | m in members :: m.id
  }

  // ---- snapshots -----------------------------------------------------------------

  function Staying(roster: seq<Participant>, ids: set<MemberId>): seq<Participant> {
    if roster == [] then []
    else
      var n := |roster| - 1;
      Staying(roster[..n], ids) + if roster[n].id in ids then [roster[n]] else []
  }

  function LeftEvents(roster: seq<Participant>, ids: set<MemberId>, own: MemberId, announce: bool): seq<CallEvent> {
    if roster == [] then []
    else
      var n := |roster| - 1;
      LeftEvents(roster[..n], ids, own, announce)
      + if roster[n].id !in ids && announce && roster[n].id != own then [ParticipantLeft(roster[n].id, |ids|)] else []
  }

  /** What a joiner's entry is built from, besides their membership. */
  datatype Seeds = Seeds(own: MemberId, hands: seq<RaisedHand>, pubs: Publications, reachable: set<MemberId>)

  function KindOrder(): seq<StreamKind> {
    [Microphone, Camera, ScreenShare, ScreenShareAudio, Data]
  }

  function StreamsIn(pubs: Publications, kinds: seq<StreamKind>): seq<Stream> {
    if kinds == [] then []
    else (if kinds[0] in pubs then [Stream(kinds[0], pubs[kinds[0]].muted)] else []) + StreamsIn(pubs, kinds[1..])
  }

  function Lookup(hands: seq<RaisedHand>, m: MemberId): (r: Option<RaisedHand>)
    ensures r.Some? <==> exists h :: h in hands && h.member == m
    ensures r.Some? ==> r.value in hands && r.value.member == m
  {
    if hands == [] then None else if hands[0].member == m then Some(hands[0]) else Lookup(hands[1..], m)
  }

  function HandTime(hands: seq<RaisedHand>, m: MemberId): Option<nat> {
    match Lookup(hands, m) case None => None case Some(h) => Some(h.raisedAt)
  }

  function Joiner(m: Membership, seeds: Seeds): Participant {
    Participant(
      m.id, m.sender, m.deviceId, m.id == seeds.own,
      if m.id in seeds.reachable then Connected else Unreachable,
      None,
      if m.id == seeds.own then StreamsIn(seeds.pubs, KindOrder()) else [],
      HandTime(seeds.hands, m.id), None,
      if m.membershipTs.Some? then m.membershipTs else m.originTs)
  }

  /** Appends the members not on the roster yet, in snapshot order. */
  function Welcomed(roster: seq<Participant>, members: seq<Membership>, seeds: Seeds): seq<Participant> {
    if members == [] then roster
    else
      var n := |members| - 1;
      var before := Welcomed(roster, members[..n], seeds);
      if members[n].id in IdsOf(before) then before else before + [Joiner(members[n], seeds)]
  }

  function JoinedEvents(roster: seq<Participant>, members: seq<Membership>, seeds: Seeds, count: nat, announce: bool): seq<CallEvent> {
    if members == [] then []
    else
      var n := |members| - 1;
      JoinedEvents(roster, members[..n], seeds, count, announce)
      + if members[n].id !in IdsOf(Welcomed(roster, members[..n], seeds)) && announce && members[n].id != seeds.own
        then [ParticipantJoined(members[n].id, members[n].sender, count)] else []
  }

  function Snapshot(roster: seq<Participant>, members: seq<Membership>, seeds: Seeds): seq<Participant> {
    Welcomed(Staying(roster, MemberIds(members)), members, seeds)
  }

  function SnapshotEvents(roster: seq<Participant>, members: seq<Membership>, seeds: Seeds, announce: bool): seq<CallEvent> {
    var ids := MemberIds(members);
    LeftEvents(roster, ids, seeds.own, announce)
    + JoinedEvents(Staying(roster, ids), members, seeds, |ids|, announce)
  }

  ghost predicate WellFormed(roster: seq<Participant>, own: MemberId) {
    && UniqueMembers(roster)
    && forall p :: p in roster ==> p.isLocal == (p.id == own)
  }

  lemma {:induction false} StayingFacts(roster: seq<Participant>, ids: set<MemberId>)
    ensures forall p :: p in Staying(roster, ids) <==> p in roster && p.id in ids
    ensures UniqueMembers(roster) ==> UniqueMembers(Staying(roster, ids))
  {
    if roster != [] {
      var n := |roster| - 1;
      StayingFacts(roster[..n], ids);
      assert roster == roster[..n] + [roster[n]];
      var front := Staying(roster[..n], ids);
      if UniqueMembers(roster) {
        assert UniqueMembers(roster[..n]);
        forall i | 0 <= i < |front| ensures front[i].id != roster[n].id {
          assert front[i] in front && front[i] in roster[..n];
        }
      }
    }
  }

  lemma {:induction false} WelcomedIds(roster: seq<Participant>, members: seq<Membership>, seeds: Seeds)
    ensures IdsOf(Welcomed(roster, members, seeds)) == IdsOf(roster) + MemberIds(members)
  {
    if members != [] {
      var n := |members| - 1;
      WelcomedIds(roster, members[..n], seeds);
      assert members == members[..n] + [members[n]];
      var before := Welcomed(roster, members[..n], seeds);
      assert MemberIds(members) == MemberIds(members[..n]) + {members[n].id};
      if members[n].id !in IdsOf(before) {
        var j := Joiner(members[n], seeds);
        assert (before + [j])[|before|] == j;
        assert IdsOf(before + [j]) == IdsOf(before) + {j.id};
      }
    }
  }

  lemma {:induction false} WelcomedFacts(roster: seq<Participant>, members: seq<Membership>, seeds: Seeds)
    requires WellFormed(roster, seeds.own)
    ensures var r := Welcomed(roster, members, seeds);
      && WellFormed(r, seeds.own)
      && (forall p :: p in roster ==> p in r)
      && (forall p :: p in r ==> p in roster || p.handAt == HandTime(seeds.hands, p.id))
  {
    if members != [] {
      var n := |members| - 1;
      WelcomedFacts(roster, members[..n], seeds);
      var before := Welcomed(roster, members[..n], seeds);
      if members[n].id !in IdsOf(before) {
        forall i | 0 <= i < |before| ensures before[i].id != members[n].id {
          assert before[i] in before;
        }
      }
    }
  }

  /** A snapshot replaces the roster: its members are exactly the snapshot's, each once. */
  lemma SnapshotFacts(roster: seq<Participant>, members: seq<Membership>, seeds: Seeds)
    requires WellFormed(roster, seeds.own)
    ensures var r := Snapshot(roster, members, seeds);
      && WellFormed(r, seeds.own)
      && IdsOf(r) == MemberIds(members)
      && |r| == |MemberIds(members)|
      && (forall p :: p in roster && p.id in MemberIds(members) ==> p in r)
      && (forall p :: p in r ==> p in roster || p.handAt == HandTime(seeds.hands, p.id))
  {
    var ids := MemberIds(members);
    StayingFacts(roster, ids);
    var stay := Staying(roster, ids);
    WelcomedFacts(stay, members, seeds);
    WelcomedIds(stay, members, seeds);
    var r := Snapshot(roster, members, seeds);
    assert IdsOf(stay) <= ids;
    IdsSize(r);
  }

  lemma {:induction false} IdsSize(roster: seq<Participant>)
    requires UniqueMembers(roster)
    ensures |IdsOf(roster)| == |roster|
  {
    if roster != [] {
      var n := |roster| - 1;
      IdsSize(roster[..n]);
      assert roster == roster[..n] + [roster[n]];
      assert IdsOf(roster) == IdsOf(roster[..n]) + {roster[n].id};
      forall p | p in roster[..n] ensures p.id != roster[n].id {
        var i :| 0 <= i < n && roster[i] == p;
      }
    }
  }

  // ---- newcomers ---------------------------------------------------------------------

  /** A newcomer's entry: their membership, their hand if it is up already, and for us what we publish. */
  ghost predicate SeededFrom(p: Participant, x: Membership, seeds: Seeds) {
    && p.id == x.id && p.userId == x.sender && p.deviceId == x.deviceId && p.isLocal == (x.id == seeds.own)
    && p.connection == (if x.id in seeds.reachable then Connected else Unreachable) && p.unable.None?
    && p.handAt == HandTime(seeds.hands, x.id)
    && (x.membershipTs.Some? ==> p.joinedAt == x.membershipTs) && (x.membershipTs.None? ==> p.joinedAt == x.originTs)
    && forall t :: t in p.streams <==> x.id == seeds.own && t.kind in seeds.pubs && t.muted == seeds.pubs[t.kind].muted
  }

  lemma {:induction false} StreamsInMeans(pubs: Publications, kinds: seq<StreamKind>)
    ensures forall t :: t in StreamsIn(pubs, kinds) <==> t.kind in kinds && t.kind in pubs && t.muted == pubs[t.kind].muted
  {
    if kinds != [] {
      StreamsInMeans(pubs, kinds[1..]);
      assert kinds == [kinds[0]] + kinds[1..];
    }
  }

  lemma JoinerIsSeeded(x: Membership, seeds: Seeds)
    ensures SeededFrom(Joiner(x, seeds), x, seeds)
  {
    StreamsInMeans(seeds.pubs, KindOrder());
    forall kind: StreamKind ensures kind in KindOrder() {
      match kind {
        case Microphone => assert KindOrder()[0] == kind;
        case Camera => assert KindOrder()[1] == kind;
        case ScreenShare => assert KindOrder()[2] == kind;
        case ScreenShareAudio => assert KindOrder()[3] == kind;
        case Data => assert KindOrder()[4] == kind;
      }
    }
  }

  lemma {:induction false} WelcomedAreSeeded(roster: seq<Participant>, members: seq<Membership>, seeds: Seeds, p: Participant)
    requires p in Welcomed(roster, members, seeds) && p !in roster
    ensures exists x :: x in members && SeededFrom(p, x, seeds)
  {
    var n := |members| - 1;
    var before := Welcomed(roster, members[..n], seeds);
    if p in before {
      WelcomedAreSeeded(roster, members[..n], seeds, p);
      var x :| x in members[..n] && SeededFrom(p, x, seeds);
      assert x in members;
    } else {
      JoinerIsSeeded(members[n], seeds);
      assert members[n] in members;
    }
  }

  /** After a snapshot everybody who stayed is as they were, and everybody else is seeded from a membership of theirs. */
  lemma NewcomersAreSeeded(roster: seq<Participant>, members: seq<Membership>, seeds: Seeds, p: Participant)
    requires p in Snapshot(roster, members, seeds)
    ensures p in roster || exists x :: x in members && SeededFrom(p, x, seeds)
  {
    StayingFacts(roster, MemberIds(members));
    if p !in roster {
      WelcomedAreSeeded(Staying(roster, MemberIds(members)), members, seeds, p);
    }
  }

  // ---- the event stream --------------------------------------------------------------

  /** Who is in the call besides us, as far as the joins and leaves in `events` say. */
  function Replay(start: set<MemberId>, events: seq<CallEvent>): set<MemberId> {
    if events == [] then start
    else
      var n := |events| - 1;
      match events[n]
      case ParticipantJoined(m, _, _) => Replay(start, events[..n]) + {m}
      case ParticipantLeft(m, _) => Replay(start, events[..n]) - {m}
      case _ => Replay(start, events[..n])
  }

  function Others(roster: seq<Participant>, own: MemberId): set<MemberId> {
    IdsOf(roster) - {own}
  }

  lemma {:induction false} ReplayConcat(start: set<MemberId>, a: seq<CallEvent>, b: seq<CallEvent>)
    ensures Replay(start, a + b) == Replay(Replay(start, a), b)
  {
    if b == [] {
      assert a + b == a;
    } else {
      var n := |b| - 1;
      ReplayConcat(start, a, b[..n]);
      assert (a + b)[..|a + b| - 1] == a + b[..n];
    }
  }

  lemma {:induction false} LeavesReplay(roster: seq<Participant>, ids: set<MemberId>, own: MemberId, start: set<MemberId>)
    ensures Replay(start, LeftEvents(roster, ids, own, true)) == start - Leavers(roster, ids, own)
  {
    if roster != [] {
      var n := |roster| - 1;
      LeavesReplay(roster[..n], ids, own, start);
      OneLeaver(roster, ids, own);
      var front, e := LeftEvents(roster[..n], ids, own, true), ParticipantLeft(roster[n].id, |ids|);
      ReplayOne(start, front, e);
      assert front + [] == front;
    }
  }

  function Leavers(roster: seq<Participant>, ids: set<MemberId>, own: MemberId): set<MemberId> {
    IdsOf(roster) - ids - {own}
  }

  lemma OneLeaver(roster: seq<Participant>, ids: set<MemberId>, own: MemberId)
    requires roster != []
    ensures var n := |roster| - 1; var m := roster[n].id;
      Leavers(roster, ids, own) == Leavers(roster[..n], ids, own) + if m !in ids && m != own then {m} else {}
  {
  }

  lemma ReplayOne(start: set<MemberId>, front: seq<CallEvent>, e: CallEvent)
    ensures e.ParticipantLeft? ==> Replay(start, front + [e]) == Replay(start, front) - {e.member}
    ensures e.ParticipantJoined? ==> Replay(start, front + [e]) == Replay(start, front) + {e.member}
  {
  }

  lemma {:induction false} LeavesSay(roster: seq<Participant>, ids: set<MemberId>, own: MemberId)
    ensures forall e :: e in LeftEvents(roster, ids, own, true) ==> e.ParticipantLeft? && e.count == |ids| && e.member != own
  {
    if roster != [] { LeavesSay(roster[..|roster| - 1], ids, own); }
  }

  lemma {:induction false} JoinsReplay(roster: seq<Participant>, members: seq<Membership>, seeds: Seeds, count: nat, start: set<MemberId>)
    requires start == Others(roster, seeds.own)
    ensures Replay(start, JoinedEvents(roster, members, seeds, count, true)) == Others(Welcomed(roster, members, seeds), seeds.own)
  {
    if members != [] {
      var n := |members| - 1;
      JoinsReplay(roster, members[..n], seeds, count, start);
      OneJoin(roster, members, seeds, count);
      var front := JoinedEvents(roster, members[..n], seeds, count, true);
      var e := ParticipantJoined(members[n].id, members[n].sender, count);
      ReplayOne(start, front, e);
      assert front + [] == front;
    }
  }

  /** Who the last of `members` adds. */
  lemma OneJoin(roster: seq<Participant>, members: seq<Membership>, seeds: Seeds, count: nat)
    requires members != []
    ensures var n := |members| - 1; var before := Welcomed(roster, members[..n], seeds);
      Others(Welcomed(roster, members, seeds), seeds.own) ==
        Others(before, seeds.own) + if members[n].id in IdsOf(before) || members[n].id == seeds.own then {} else {members[n].id}
  {
  }

  lemma {:induction false} JoinsSay(roster: seq<Participant>, members: seq<Membership>, seeds: Seeds, count: nat)
    ensures forall e :: e in JoinedEvents(roster, members, seeds, count, true) ==>
      e.ParticipantJoined? && e.count == count && e.member != seeds.own
  {
    if members != [] { JoinsSay(roster, members[..|members| - 1], seeds, count); }
  }

  /** An announced snapshot: its events turn the old membership into the new one, and count the new one. */
  lemma SnapshotReplay(roster: seq<Participant>, members: seq<Membership>, seeds: Seeds)
    requires WellFormed(roster, seeds.own)
    ensures var events := SnapshotEvents(roster, members, seeds, true);
      && Replay(Others(roster, seeds.own), events) == Others(Snapshot(roster, members, seeds), seeds.own)
      && forall e :: e in events ==>
           && (e.ParticipantJoined? || e.ParticipantLeft?)
           && e.count == |Snapshot(roster, members, seeds)|
           && e.member != seeds.own
           && (e.ParticipantJoined? <==> e.member in IdsOf(Snapshot(roster, members, seeds)))
  {
    var ids := MemberIds(members);
    var stay := Staying(roster, ids);
    var start := Others(roster, seeds.own);
    var lefts := LeftEvents(roster, ids, seeds.own, true);
    var joins := JoinedEvents(stay, members, seeds, |ids|, true);
    SnapshotFacts(roster, members, seeds);
    StayingFacts(roster, ids);
    LeavesReplay(roster, ids, seeds.own, start);
    LeavesSay(roster, ids, seeds.own);
    JoinsSay(stay, members, seeds, |ids|);
    assert IdsOf(stay) == IdsOf(roster) * ids;
    assert Replay(start, lefts) == Others(stay, seeds.own);
    JoinsReplay(stay, members, seeds, |ids|, Others(stay, seeds.own));
    ReplayConcat(start, lefts, joins);
    LeaversAreGone(roster, ids, seeds.own);
    JoinersAreIn(stay, members, seeds, |ids|);
  }

  lemma {:induction false} LeaversAreGone(roster: seq<Participant>, ids: set<MemberId>, own: MemberId)
    ensures forall e :: e in LeftEvents(roster, ids, own, true) ==> e.member !in ids
  {
    if roster != [] { LeaversAreGone(roster[..|roster| - 1], ids, own); }
  }

  lemma {:induction false} JoinersAreIn(roster: seq<Participant>, members: seq<Membership>, seeds: Seeds, count: nat)
    ensures forall e :: e in JoinedEvents(roster, members, seeds, count, true) ==> e.member in MemberIds(members)
  {
    if members != [] {
      var n := |members| - 1;
      JoinersAreIn(roster, members[..n], seeds, count);
      assert members == members[..n] + [members[n]];
    }
  }

  /** Whoever is announced to have joined is named as their membership names them. */
  lemma {:induction false} JoinersAreNamed(roster: seq<Participant>, members: seq<Membership>, seeds: Seeds, count: nat)
    ensures forall e :: e in JoinedEvents(roster, members, seeds, count, true) ==>
      e.ParticipantJoined? && exists x :: x in members && x.id == e.member && x.sender == e.userId
  {
    if members != [] {
      var n := |members| - 1;
      JoinersAreNamed(roster, members[..n], seeds, count);
      assert members == members[..n] + [members[n]];
      forall e | e in JoinedEvents(roster, members[..n], seeds, count, true)
        ensures exists x :: x in members && x.id == e.member && x.sender == e.userId
      {
        var x :| x in members[..n] && x.id == e.member && x.sender == e.userId;
        assert x in members;
      }
    }
  }

  lemma {:induction false} Unannounced(roster: seq<Participant>, members: seq<Membership>, seeds: Seeds)
    ensures SnapshotEvents(roster, members, seeds, false) == []
  {
    NoLeft(roster, MemberIds(members), seeds.own);
    NoJoined(Staying(roster, MemberIds(members)), members, seeds, |MemberIds(members)|);
  }

  lemma {:induction false} NoLeft(roster: seq<Participant>, ids: set<MemberId>, own: MemberId)
    ensures LeftEvents(roster, ids, own, false) == []
  {
    if roster != [] { NoLeft(roster[..|roster| - 1], ids, own); }
  }

  lemma {:induction false} NoJoined(roster: seq<Participant>, members: seq<Membership>, seeds: Seeds, count: nat)
    ensures JoinedEvents(roster, members, seeds, count, false) == []
  {
    if members != [] { NoJoined(roster, members[..|members| - 1], seeds, count); }
  }

  // ---- raised hands --------------------------------------------------------------------

  /** The rostered entries with the hand times of a new hand set. */
  function WithHands(roster: seq<Participant>, hands: seq<RaisedHand>): (r: seq<Participant>)
    ensures |r| == |roster|
  {
    seq(|roster|, i requires 0 <= i < |roster| => roster[i].(handAt := HandTime(hands, roster[i].id)))
  }

  function HandEvents(roster: seq<Participant>, hands: seq<RaisedHand>): seq<CallEvent> {
    if roster == [] then []
    else
      var n := |roster| - 1;
      var p := roster[n];
      HandEvents(roster[..n], hands)
      + match Lookup(hands, p.id)
        case None => if p.handAt.Some? then [HandLowered(p.id)] else []
        case Some(h) => if p.handAt.None? && !h.fromBackfill then [HandRaised(p.id, h.raisedAt)] else []
  }

  function CountIn(hands: seq<RaisedHand>, rostered: set<MemberId>): nat {
    if hands == [] then 0
    else CountIn(hands[..|hands| - 1], rostered) + if hands[|hands| - 1].member in rostered then 1 else 0
  }

  /** The number the renumbering pass gives a member: one more than the rostered hands queued before theirs. */
  function PositionIn(hands: seq<RaisedHand>, rostered: set<MemberId>, m: MemberId): Option<nat> {
    if hands == [] then None
    else
      var n := |hands| - 1;
      if hands[n].member == m && m in rostered then Some(1 + CountIn(hands[..n], rostered))
      else PositionIn(hands[..n], rostered, m)
  }

  function WithPositions(roster: seq<Participant>, hands: seq<RaisedHand>): (r: seq<Participant>)
    ensures |r| == |roster|
  {
    seq(|roster|, i requires 0 <= i < |roster| => roster[i].(handPosition := PositionIn(hands, IdsOf(roster), roster[i].id)))
  }

  /** The producer's order: by time, then member id. */
  predicate QueuedBefore(at: nat, m: MemberId, at': nat, m': MemberId) {
    at < at' || (at == at' && StrLess(m, m'))
  }

  ghost predicate Queue(hands: seq<RaisedHand>) {
    && (forall i, j :: 0 <= i < j < |hands| ==> QueuedBefore(hands[i].raisedAt, hands[i].member, hands[j].raisedAt, hands[j].member))
    && (forall i, j :: 0 <= i < j < |hands| ==> hands[i].member != hands[j].member)
  }

  /** The rostered members whose hand went up before `p`'s, of two at once the one with the smaller id. */
  function Ahead(roster: seq<Participant>, p: Participant): set<MemberId>
    requires p.handAt.Some?
  {
    set q | q in roster && q.handAt.Some?
      && (q.handAt.value < p.handAt.value || (q.handAt.value == p.handAt.value && StrLess(q.id, p.id))) :: q.id
  }

  function QueuePosition(roster: seq<Participant>, p: Participant): Option<nat> {
    if p.handAt.None? then None else Some(1 + |Ahead(roster, p)|)
  }

  /** Every entry's place in the queue is what the rostered hand times alone say. */
  ghost predicate Numbered(roster: seq<Participant>) {
    forall p :: p in roster ==> p.handPosition == QueuePosition(roster, p)
  }

  ghost predicate HandsCurrent(roster: seq<Participant>, hands: seq<RaisedHand>) {
    forall p :: p in roster ==> p.handAt == HandTime(hands, p.id)
  }

  /** Entry by entry, the same members with the same hands and positions. */
  ghost predicate SameQueue(a: seq<Participant>, b: seq<Participant>) {
    && |a| == |b|
    && forall i :: 0 <= i < |a| ==> a[i].id == b[i].id && a[i].isLocal == b[i].isLocal && a[i].handAt == b[i].handAt
  }

  /** The same queue, with the same places in it. */
  ghost predicate SamePlaces(a: seq<Participant>, b: seq<Participant>) {
    SameQueue(a, b) && forall i :: 0 <= i < |a| ==> a[i].handPosition == b[i].handPosition
  }

  lemma SameQueueSamePositions(a: seq<Participant>, b: seq<Participant>)
    requires SameQueue(a, b)
    ensures IdsOf(a) == IdsOf(b)
    ensures UniqueMembers(a) ==> UniqueMembers(b)
    ensures forall i :: 0 <= i < |a| ==> QueuePosition(a, a[i]) == QueuePosition(b, b[i])
  {
    forall m ensures m in IdsOf(a) <==> m in IdsOf(b) {
      if m in IdsOf(a) { var i :| 0 <= i < |a| && a[i].id == m; assert b[i] in b; }
      if m in IdsOf(b) { var i :| 0 <= i < |b| && b[i].id == m; assert a[i] in a; }
    }
    forall i | 0 <= i < |a| ensures QueuePosition(a, a[i]) == QueuePosition(b, b[i]) {
      if a[i].handAt.Some? {
        AheadStays(a, b, i);
        AheadStays(b, a, i);
        assert Ahead(a, a[i]) == Ahead(b, b[i]);
      }
    }
  }

  lemma AheadStays(a: seq<Participant>, b: seq<Participant>, i: nat)
    requires SameQueue(a, b) && i < |a| && a[i].handAt.Some?
    ensures Ahead(a, a[i]) <= Ahead(b, b[i])
  {
    forall m | m in Ahead(a, a[i]) ensures m in Ahead(b, b[i]) {
      var q :| q in a && q.id == m && q.handAt.Some?
        && (q.handAt.value < a[i].handAt.value || (q.handAt.value == a[i].handAt.value && StrLess(q.id, a[i].id)));
      var j :| 0 <= j < |a| && a[j] == q;
      assert b[j] in b;
    }
  }

  lemma {:induction false} LookupAt(hands: seq<RaisedHand>, i: nat)
    requires i < |hands| && forall a, b :: 0 <= a < b < |hands| ==> hands[a].member != hands[b].member
    ensures Lookup(hands, hands[i].member) == Some(hands[i])
  {
  }

  function RosteredIn(hands: seq<RaisedHand>, rostered: set<MemberId>): set<MemberId> {
    set h | h in hands && h.member in rostered :: h.member
  }

  lemma {:induction false} CountIsSize(hands: seq<RaisedHand>, rostered: set<MemberId>)
    requires forall a, b :: 0 <= a < b < |hands| ==> hands[a].member != hands[b].member
    ensures CountIn(hands, rostered) == |RosteredIn(hands, rostered)|
  {
    if hands != [] {
      var n := |hands| - 1;
      CountIsSize(hands[..n], rostered);
      assert hands == hands[..n] + [hands[n]];
      var before := RosteredIn(hands[..n], rostered);
      assert hands[n].member !in before;
      assert RosteredIn(hands, rostered) == before + if hands[n].member in rostered then {hands[n].member} else {};
    }
  }

  lemma {:induction false} PositionAt(hands: seq<RaisedHand>, rostered: set<MemberId>, i: nat)
    requires i < |hands| && hands[i].member in rostered
    requires forall a, b :: 0 <= a < b < |hands| ==> hands[a].member != hands[b].member
    ensures PositionIn(hands, rostered, hands[i].member) == Some(1 + CountIn(hands[..i], rostered))
  {
    var n := |hands| - 1;
    if i < n {
      PositionAt(hands[..n], rostered, i);
      assert hands[..n][..i] == hands[..i];
    }
  }

  lemma {:induction false} NoPosition(hands: seq<RaisedHand>, rostered: set<MemberId>, m: MemberId)
    requires forall h :: h in hands ==> h.member != m
    ensures PositionIn(hands, rostered, m).None?
  {
    if hands != [] { NoPosition(hands[..|hands| - 1], rostered, m); }
  }

  /** Renumbering a queue in the producer's order gives every entry the position its hand time says. */
  lemma RenumberedByTime(roster: seq<Participant>, hands: seq<RaisedHand>)
    requires UniqueMembers(roster) && Queue(hands) && HandsCurrent(roster, hands)
    ensures Numbered(WithPositions(roster, hands))
    ensures SameQueue(roster, WithPositions(roster, hands))
  {
    var r := WithPositions(roster, hands);
    SameQueueSamePositions(roster, r);
    forall k | 0 <= k < |roster| ensures r[k].handPosition == QueuePosition(roster, roster[k]) {
      PositionByTime(roster, hands, roster[k]);
    }
    forall p | p in r ensures p.handPosition == QueuePosition(r, p) {
      var k :| 0 <= k < |r| && r[k] == p;
    }
  }

  /** The rostered hands queued before the `i`-th are those that went up before it. */
  lemma AheadInQueue(roster: seq<Participant>, hands: seq<RaisedHand>, p: Participant, i: nat)
    requires Queue(hands) && HandsCurrent(roster, hands)
    requires i < |hands| && hands[i].member == p.id && p.handAt == Some(hands[i].raisedAt)
    ensures RosteredIn(hands[..i], IdsOf(roster)) == Ahead(roster, p)
  {
    forall m | m in RosteredIn(hands[..i], IdsOf(roster)) ensures m in Ahead(roster, p) {
      var j :| 0 <= j < i && hands[j].member == m;
      var q :| q in roster && q.id == m;
      LookupAt(hands, j);
      assert q.handAt == HandTime(hands, m) == Some(hands[j].raisedAt);
      assert q.id in Ahead(roster, p);
    }
    forall m | m in Ahead(roster, p) ensures m in RosteredIn(hands[..i], IdsOf(roster)) {
      var q :| q in roster && q.id == m && q.handAt.Some?
        && (q.handAt.value < p.handAt.value || (q.handAt.value == p.handAt.value && StrLess(q.id, p.id)));
      assert q.handAt == HandTime(hands, m);
      var j :| 0 <= j < |hands| && hands[j] == Lookup(hands, m).value;
      StrTotal(m, p.id);
      assert hands[..i][j] == hands[j];
    }
  }

  lemma PositionByTime(roster: seq<Participant>, hands: seq<RaisedHand>, p: Participant)
    requires UniqueMembers(roster) && Queue(hands) && HandsCurrent(roster, hands) && p in roster
    ensures PositionIn(hands, IdsOf(roster), p.id) == QueuePosition(roster, p)
  {
    assert p.handAt == HandTime(hands, p.id);
    if p.handAt.None? {
      NoPosition(hands, IdsOf(roster), p.id);
    } else {
      var i :| 0 <= i < |hands| && hands[i] == Lookup(hands, p.id).value;
      PositionAt(hands, IdsOf(roster), i);
      CountIsSize(hands[..i], IdsOf(roster));
      AheadInQueue(roster, hands, p, i);
    }
  }

  // ---- streams ---------------------------------------------------------------------------

  function WithStream(roster: seq<Participant>, m: MemberId, kind: StreamKind, muted: bool): (r: seq<Participant>)
    ensures SamePlaces(roster, r)
  {
    seq(|roster|, i requires 0 <= i < |roster| =>
      if roster[i].id == m && FindStream(roster[i].streams, kind).None?
      then roster[i].(streams := roster[i].streams + [Stream(kind, muted)]) else roster[i])
  }

  function Dropped(streams: seq<Stream>, kind: StreamKind): seq<Stream> {
    if streams == [] then [] else (if streams[0].kind == kind then [] else [streams[0]]) + Dropped(streams[1..], kind)
  }

  function WithoutStream(roster: seq<Participant>, m: MemberId, kind: StreamKind): (r: seq<Participant>)
    ensures SamePlaces(roster, r)
  {
    seq(|roster|, i requires 0 <= i < |roster| =>
      if roster[i].id == m then roster[i].(streams := Dropped(roster[i].streams, kind)) else roster[i])
  }

  function Remuted(streams: seq<Stream>, kind: StreamKind, muted: bool): seq<Stream> {
    if streams == [] then []
    else if streams[0].kind == kind then [Stream(kind, muted)] + streams[1..]
    else [streams[0]] + Remuted(streams[1..], kind, muted)
  }

  function WithMute(roster: seq<Participant>, m: MemberId, kind: StreamKind, muted: bool): (r: seq<Participant>)
    ensures SamePlaces(roster, r)
  {
    seq(|roster|, i requires 0 <= i < |roster| =>
      if roster[i].id == m then roster[i].(streams := Remuted(roster[i].streams, kind, muted)) else roster[i])
  }
}
