/** What one edit of one entry, or one entry more, does to the roster functions: the steps of the actor's loops. */
module RosterEdits {
  import opened Ordering
  import opened Tiles
  import opened Roster

  // ---- one entry's streams ---------------------------------------------------------

  lemma {:induction false} DroppedNothing(streams: seq<Stream>, kind: StreamKind)
    ensures Dropped(streams, kind) == streams <==> FindStream(streams, kind).None?
    ensures |Dropped(streams, kind)| <= |streams|
  {
    if streams != [] {
      DroppedNothing(streams[1..], kind);
      assert streams == [streams[0]] + streams[1..];
      if streams[0].kind == kind {
        assert |Dropped(streams, kind)| < |streams|;
      } else {
        assert Dropped(streams, kind)[1..] == Dropped(streams[1..], kind);
      }
    }
  }

  lemma {:induction false} RemutedSame(streams: seq<Stream>, kind: StreamKind, muted: bool)
    ensures Remuted(streams, kind, muted) == streams <==>
      FindStream(streams, kind).None? || FindStream(streams, kind).value.muted == muted
  {
    if streams != [] {
      RemutedSame(streams[1..], kind, muted);
      assert streams == [streams[0]] + streams[1..];
      if streams[0].kind == kind {
        assert Remuted(streams, kind, muted)[0] == Stream(kind, muted);
      } else {
        assert Remuted(streams, kind, muted)[1..] == Remuted(streams[1..], kind, muted);
      }
    }
  }

  /** An edit of the one entry with a member's id. */
  lemma StreamAt(roster: seq<Participant>, i: nat, kind: StreamKind, muted: bool)
    requires UniqueMembers(roster) && i < |roster|
    ensures var p := roster[i]; var r := WithStream(roster, p.id, kind, muted);
      && (FindStream(p.streams, kind).Some? ==> r == roster)
      && (FindStream(p.streams, kind).None? ==> r == roster[i := p.(streams := p.streams + [Stream(kind, muted)])] && r != roster)
  {
  }

  lemma DropAt(roster: seq<Participant>, i: nat, kind: StreamKind)
    requires UniqueMembers(roster) && i < |roster|
    ensures var p := roster[i]; var r := WithoutStream(roster, p.id, kind);
      && r == roster[i := p.(streams := Dropped(p.streams, kind))]
      && (r == roster <==> FindStream(p.streams, kind).None?)
  {
    var p := roster[i];
    var r := WithoutStream(roster, p.id, kind);
    DroppedNothing(p.streams, kind);
    assert r == roster[i := p.(streams := Dropped(p.streams, kind))];
    assert r[i].streams == Dropped(p.streams, kind);
    if FindStream(p.streams, kind).None? { assert r == roster; }
  }

  lemma MuteAt(roster: seq<Participant>, i: nat, kind: StreamKind, muted: bool)
    requires UniqueMembers(roster) && i < |roster|
    ensures var p := roster[i]; var r := WithMute(roster, p.id, kind, muted);
      && r == roster[i := p.(streams := Remuted(p.streams, kind, muted))]
      && (r == roster <==> FindStream(p.streams, kind).None? || FindStream(p.streams, kind).value.muted == muted)
  {
    var p := roster[i];
    var r := WithMute(roster, p.id, kind, muted);
    RemutedSame(p.streams, kind, muted);
    assert r == roster[i := p.(streams := Remuted(p.streams, kind, muted))];
    assert r[i].streams == Remuted(p.streams, kind, muted);
    if Remuted(p.streams, kind, muted) == p.streams { assert r == roster; }
  }

  /** A member who is not on the roster. */
  lemma Nowhere(roster: seq<Participant>, m: MemberId, kind: StreamKind, muted: bool)
    requires forall p | p in roster :: p.id != m
    ensures WithStream(roster, m, kind, muted) == roster
    ensures WithoutStream(roster, m, kind) == roster
    ensures WithMute(roster, m, kind, muted) == roster
  {
  }

  // ---- departures ----------------------------------------------------------------------

  /** `retain`: everybody but one member. */
  function WithoutMember(roster: seq<Participant>, m: MemberId): seq<Participant> {
    if roster == [] then []
    else (if roster[0].id == m then [] else [roster[0]]) + WithoutMember(roster[1..], m)
  }

  lemma {:induction false} WithoutNobody(roster: seq<Participant>, m: MemberId)
    requires forall p | p in roster :: p.id != m
    ensures WithoutMember(roster, m) == roster
  {
    if roster != [] {
      WithoutNobody(roster[1..], m);
    }
  }

  /** Taking out the entry between two parts. */
  lemma {:induction false} WithoutBetween(front: seq<Participant>, p: Participant, back: seq<Participant>)
    requires forall q | q in front + back :: q.id != p.id
    ensures WithoutMember(front + [p] + back, p.id) == front + back
  {
    if front == [] {
      assert ([p] + back)[1..] == back && front + [p] + back == [p] + back;
      assert forall q | q in back :: q in front + back;
      WithoutNobody(back, p.id);
      assert front + back == back;
    } else {
      assert front[0] in front + back;
      forall q: Participant | q in front[1..] + back ensures q.id != p.id {
        assert q in front + back;
      }
      WithoutBetween(front[1..], p, back);
      assert (front + [p] + back)[1..] == front[1..] + [p] + back;
      assert (front + back)[1..] == front[1..] + back;
    }
  }

  function GoneIn(roster: seq<Participant>, ids: set<MemberId>): set<MemberId> {
    IdsOf(roster) - ids
  }

  /** One entry of the departures loop: kept, or taken out of what is left. */
  lemma OneDeparture(roster: seq<Participant>, ids: set<MemberId>, i: nat)
    requires UniqueMembers(roster) && i < |roster|
    ensures var now := Staying(roster[..i], ids) + roster[i..];
      (if roster[i].id in ids then now else WithoutMember(now, roster[i].id)) == Staying(roster[..i + 1], ids) + roster[i + 1..]
    ensures GoneIn(roster[..i + 1], ids) == GoneIn(roster[..i], ids) + if roster[i].id in ids then {} else {roster[i].id}
    ensures roster[..i + 1][..i] == roster[..i]
  {
    var front, p, back := Staying(roster[..i], ids), roster[i], roster[i + 1..];
    StayingFacts(roster[..i], ids);
    assert roster[..i + 1][..i] == roster[..i];
    assert roster[i..] == [p] + back;
    assert front + roster[i..] == front + [p] + back;
    assert roster[..i + 1] == roster[..i] + [p];
    assert IdsOf(roster[..i + 1]) == IdsOf(roster[..i]) + {p.id};
    if p.id !in ids {
      forall q: Participant | q in front + back ensures q.id != p.id {
        if q in front {
          assert q in roster[..i];
        } else {
          assert q in back;
        }
      }
      WithoutBetween(front, p, back);
    }
  }

  // ---- hands -----------------------------------------------------------------------------

  /** One step of the renumbering: the numbers given after one more hand. */
  lemma OneMoreHand(hands: seq<RaisedHand>, j: nat, rostered: set<MemberId>)
    requires j < |hands|
    ensures hands[..j + 1][..j] == hands[..j]
    ensures forall m ::
      PositionIn(hands[..j + 1], rostered, m) ==
        if hands[j].member == m && m in rostered then Some(1 + CountIn(hands[..j], rostered)) else PositionIn(hands[..j], rostered, m)
    ensures CountIn(hands[..j + 1], rostered) == CountIn(hands[..j], rostered) + if hands[j].member in rostered then 1 else 0
  {
  }

  lemma HandsPrefix(roster: seq<Participant>, hands: seq<RaisedHand>, i: nat)
    requires i < |roster|
    ensures roster[..i + 1][..i] == roster[..i]
    ensures HandEvents(roster[..i + 1], hands) == HandEvents(roster[..i], hands) + HandEvents([roster[i]], hands)
  {
  }
}
