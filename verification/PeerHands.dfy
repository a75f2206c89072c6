/** What is known of the other members: their membership events, and the annotations that raise their hands. */
module PeerHands {
  import opened Ordering

  type EventId = string
  type MemberId = string

  // ---- membership events -----------------------------------------------------------

  const KNOWN_EVENTS_PER_MEMBER := 8

  function Without(known: seq<EventId>, id: EventId): seq<EventId> {
    if known == [] then [] else (if known[0] == id then [] else [known[0]]) + Without(known[1..], id)
  }

  /** What `sync_roster` does to one member's list: the same, bounded by dropping the oldest. */
  function Remember(known: seq<EventId>, id: EventId): (r: seq<EventId>)
    ensures r != [] && r[|r| - 1] == id
  {
    if known != [] && known[|known| - 1] == id then known
    else
      var next := Without(known, id) + [id];
      if |next| > KNOWN_EVENTS_PER_MEMBER then next[1..] else next
  }

  /** The distinct ids of a whole history, by most recent appearance, the current one last. */
  function RecencyOf(history: seq<EventId>): seq<EventId> {
    if history == [] then []
    else Without(RecencyOf(history[..|history| - 1]), history[|history| - 1]) + [history[|history| - 1]]
  }

  function Remembered(history: seq<EventId>): seq<EventId> {
    if history == [] then []
    else Remember(Remembered(history[..|history| - 1]), history[|history| - 1])
  }

  function LastOf(s: seq<EventId>, n: nat): seq<EventId> {
    if |s| <= n then s else s[|s| - n..]
  }

  lemma {:induction false} WithoutFacts(s: seq<EventId>, id: EventId)
    ensures id !in Without(s, id) && |Without(s, id)| <= |s|
    ensures forall x :: x in Without(s, id) <==> x in s && x != id
    ensures id !in s ==> Without(s, id) == s
    ensures NoDuplicates(s) ==> NoDuplicates(Without(s, id)) && |Without(s, id)| >= |s| - 1
  {
    if s != [] {
      WithoutFacts(s[1..], id);
      assert s == [s[0]] + s[1..];
      if NoDuplicates(s) {
        assert s[0] !in s[1..];
      }
    }
  }

  lemma WithoutCons(x: EventId, s: seq<EventId>, id: EventId)
    ensures Without([x] + s, id) == (if x == id then [] else [x]) + Without(s, id)
  {
  }

  lemma {:induction false} WithoutConcat(a: seq<EventId>, b: seq<EventId>, id: EventId)
    ensures Without(a + b, id) == Without(a, id) + Without(b, id)
  {
    if a == [] {
      assert a + b == b;
    } else {
      WithoutConcat(a[1..], b, id);
      WithoutCons(a[0], a[1..], id);
      WithoutCons(a[0], a[1..] + b, id);
      assert a == [a[0]] + a[1..] && a + b == [a[0]] + (a[1..] + b);
    }
  }

  /** Position of the latest appearance of `id`. */
  ghost predicate LastAt(history: seq<EventId>, id: EventId, i: nat) {
    i < |history| && history[i] == id && forall j :: i < j < |history| ==> history[j] != id
  }

  /** The recency list holds exactly the ids of the history, each once. */
  lemma {:induction false} RecencyMembers(history: seq<EventId>)
    ensures NoDuplicates(RecencyOf(history))
    ensures forall x :: x in RecencyOf(history) <==> x in history
  {
    if history != [] {
      var n := |history| - 1;
      RecencyMembers(history[..n]);
      WithoutFacts(RecencyOf(history[..n]), history[n]);
      assert history == history[..n] + [history[n]];
    }
  }

  lemma {:induction false} WithoutOrder(s: seq<EventId>, id: EventId, i: nat, j: nat) returns (x: nat, y: nat)
    requires i < j < |Without(s, id)|
    ensures x < y < |s| && s[x] == Without(s, id)[i] && s[y] == Without(s, id)[j]
  {
    if s[0] == id {
      x, y := WithoutOrder(s[1..], id, i, j);
      x, y := x + 1, y + 1;
    } else if i == 0 {
      WithoutFacts(s[1..], id);
      assert Without(s, id)[j] == Without(s[1..], id)[j - 1];
      assert Without(s[1..], id)[j - 1] in Without(s[1..], id);
      var k :| 0 <= k < |s[1..]| && s[1..][k] == Without(s[1..], id)[j - 1];
      x, y := 0, k + 1;
    } else {
      x, y := WithoutOrder(s[1..], id, i - 1, j - 1);
      x, y := x + 1, y + 1;
    }
  }

  /** And it is ordered by latest appearance. */
  lemma {:induction false} RecencyOrder(history: seq<EventId>, i: nat, j: nat, x: nat, y: nat)
    requires i < j < |RecencyOf(history)|
    requires LastAt(history, RecencyOf(history)[i], x) && LastAt(history, RecencyOf(history)[j], y)
    ensures x < y
  {
    var n := |history| - 1;
    var before := RecencyOf(history[..n]);
    var rest := Without(before, history[n]);
    WithoutFacts(before, history[n]);
    if j < |rest| {
      var p, q := WithoutOrder(before, history[n], i, j);
      assert rest[i] in rest && rest[j] in rest;
      assert x != n && y != n;
      assert LastAt(history[..n], before[p], x) && LastAt(history[..n], before[q], y);
      RecencyOrder(history[..n], p, q, x, y);
    } else {
      assert rest[i] in rest;
      assert LastAt(history, history[n], n);
      assert y == n && x != n;
    }
  }

  lemma {:induction false} OneLess(s: seq<EventId>, id: EventId)
    requires NoDuplicates(s) && id in s
    ensures |Without(s, id)| == |s| - 1
  {
    assert s == [s[0]] + s[1..];
    if s[0] == id {
      assert id !in s[1..];
      WithoutFacts(s[1..], id);
    } else {
      OneLess(s[1..], id);
    }
  }

  lemma LastOfConcat(a: seq<EventId>, b: seq<EventId>, n: nat)
    requires |b| >= n
    ensures LastOf(a + b, n) == LastOf(b, n)
  {
  }

  /** One bounded update of a list is the unbounded one, cut to the bound. */
  lemma RememberIsCut(known: seq<EventId>, id: EventId)
    requires NoDuplicates(known) && |known| <= KNOWN_EVENTS_PER_MEMBER
    ensures Remember(known, id) == LastOf(Without(known, id) + [id], KNOWN_EVENTS_PER_MEMBER)
  {
    WithoutFacts(known, id);
    if known != [] && known[|known| - 1] == id { WithoutTheLast(known, id); }
  }

  lemma WithoutTheLast(known: seq<EventId>, id: EventId)
    requires NoDuplicates(known) && known != [] && known[|known| - 1] == id
    ensures Without(known, id) + [id] == known
  {
  }

  /** What the bound has dropped is not missed. */
  lemma LostIsNotMissed(lost: seq<EventId>, kept: seq<EventId>, id: EventId)
    requires NoDuplicates(kept) && |kept| == KNOWN_EVENTS_PER_MEMBER
    ensures LastOf(Without(lost + kept, id) + [id], KNOWN_EVENTS_PER_MEMBER) == LastOf(Without(kept, id) + [id], KNOWN_EVENTS_PER_MEMBER)
  {
    WithoutConcat(lost, kept, id);
    WithoutFacts(kept, id);
    if id in kept { OneLess(kept, id); }
    LastOfConcat(Without(lost, id), Without(kept, id) + [id], KNOWN_EVENTS_PER_MEMBER);
    assert Without(lost + kept, id) + [id] == Without(lost, id) + (Without(kept, id) + [id]);
  }

  /** Dropping the oldest of the bounded list drops what the unbounded one no longer shows. */
  lemma RememberIsLast(all: seq<EventId>, id: EventId)
    requires NoDuplicates(all)
    ensures Remember(LastOf(all, KNOWN_EVENTS_PER_MEMBER), id) == LastOf(Without(all, id) + [id], KNOWN_EVENTS_PER_MEMBER)
  {
    var kept := LastOf(all, KNOWN_EVENTS_PER_MEMBER);
    RememberIsCut(kept, id);
    if |all| > KNOWN_EVENTS_PER_MEMBER {
      var lost := all[..|all| - KNOWN_EVENTS_PER_MEMBER];
      assert all == lost + kept;
      LostIsNotMissed(lost, kept, id);
    }
  }

  /**
   * The bounded list refines the unbounded one: after any history it is exactly the last 8 distinct ids by most
   * recent appearance, in that order.
   */
  lemma {:induction false} RememberedIsRecent(history: seq<EventId>)
    ensures Remembered(history) == LastOf(RecencyOf(history), KNOWN_EVENTS_PER_MEMBER)
  {
    if history != [] {
      var n := |history| - 1;
      RememberedIsRecent(history[..n]);
      RecencyMembers(history[..n]);
      RememberIsLast(RecencyOf(history[..n]), history[n]);
    }
  }

  // ---- a peer's annotations ------------------------------------------------------------

  /** An accepted raised-hand annotation. */
  datatype Note = Note(id: EventId, sender: string, at: nat, backfill: bool)

  /** A hand as shown: the annotation to redact, since when it is up, and how it was first learnt. */
  datatype PeerHand = PeerHand(reaction: EventId, sender: string, raisedAt: nat, fromBackfill: bool)

  function First(n: Note): PeerHand {
    PeerHand(n.id, n.sender, n.at, n.backfill)
  }

  function Merge(h: PeerHand, n: Note): PeerHand {
    if n.id == h.reaction then h
    else if n.at >= h.raisedAt then PeerHand(n.id, n.sender, h.raisedAt, h.fromBackfill)
    else h.(raisedAt := n.at)
  }

  function Merged(notes: seq<Note>): PeerHand
    requires notes != []
  {
    if |notes| == 1 then First(notes[0]) else Merge(Merged(notes[..|notes| - 1]), notes[|notes| - 1])
  }

  function MinAt(notes: seq<Note>): nat
    requires notes != []
  {
    var n := |notes| - 1;
    if n == 0 then notes[0].at
    else if MinAt(notes[..n]) <= notes[n].at then MinAt(notes[..n]) else notes[n].at
  }

  /** An event id names one event. */
  ghost predicate Identified(notes: seq<Note>) {
    forall i, j :: 0 <= i < |notes| && 0 <= j < |notes| && notes[i].id == notes[j].id ==> notes[i] == notes[j]
  }

  /** The latest annotation that did not precede every one before it. */
  ghost predicate KeptAt(notes: seq<Note>, k: nat) {
    && k < |notes|
    && (k == 0 || notes[k].at >= MinAt(notes[..k]))
    && forall j :: k < j < |notes| ==> notes[j].at < MinAt(notes[..j])
  }

  lemma {:induction false} MinAtFacts(notes: seq<Note>)
    requires notes != []
    ensures forall i :: 0 <= i < |notes| ==> MinAt(notes) <= notes[i].at
    ensures exists i :: 0 <= i < |notes| && MinAt(notes) == notes[i].at
  {
    var n := |notes| - 1;
    if n > 0 {
      MinAtFacts(notes[..n]);
      var i :| 0 <= i < n && MinAt(notes[..n]) == notes[..n][i].at;
      assert notes[i].at == MinAt(notes[..n]);
      var w := if MinAt(notes[..n]) <= notes[n].at then i else n;
      assert MinAt(notes) == notes[w].at;
      forall j | 0 <= j < n ensures MinAt(notes) <= notes[j].at { assert notes[..n][j] == notes[j]; }
    } else {
      assert MinAt(notes) == notes[0].at;
    }
  }

  function KeptIndex(notes: seq<Note>): (k: nat)
    requires notes != []
    ensures k < |notes|
  {
    var n := |notes| - 1;
    if n == 0 || notes[n].at >= MinAt(notes[..n]) then n else KeptIndex(notes[..n])
  }

  lemma {:induction false} KeptIndexIsKept(notes: seq<Note>)
    requires notes != []
    ensures KeptAt(notes, KeptIndex(notes))
  {
    var n := |notes| - 1;
    if n > 0 && notes[n].at < MinAt(notes[..n]) {
      KeptIndexIsKept(notes[..n]);
      var k := KeptIndex(notes[..n]);
      assert notes[..k] == notes[..n][..k];
      forall j | k < j < |notes| ensures notes[j].at < MinAt(notes[..j]) {
        if j < n {
          assert notes[..j] == notes[..n][..j] && notes[..n][j] == notes[j];
        }
      }
    }
  }

  /**
   * A hand after any annotations since it went up: raised at the earliest of their times, learnt as the first was,
   * and redacted by the latest that did not precede all before it.
   */
  lemma {:induction false} MergedFacts(notes: seq<Note>)
    requires notes != [] && Identified(notes)
    ensures Merged(notes).raisedAt == MinAt(notes)
    ensures Merged(notes).fromBackfill == notes[0].backfill
    ensures Merged(notes).reaction == notes[KeptIndex(notes)].id && Merged(notes).sender == notes[KeptIndex(notes)].sender
    ensures KeptAt(notes, KeptIndex(notes))
  {
    KeptIndexIsKept(notes);
    var n := |notes| - 1;
    if n > 0 {
      var front := notes[..n];
      assert forall i :: 0 <= i < n ==> front[i] == notes[i];
      MergedFacts(front);
      MinAtFacts(front);
      var l := KeptIndex(front);
      assert front[l] == notes[l];
      if notes[n].id == Merged(front).reaction {
        assert notes[l] == notes[n];
      }
    }
  }

  /** Arrivals that never go back in time leave the last annotation as the one to redact. */
  lemma InOrderKeepsTheLast(notes: seq<Note>)
    requires notes != [] && Identified(notes)
    requires forall i, j :: 0 <= i < j < |notes| ==> notes[i].at <= notes[j].at
    ensures Merged(notes).reaction == notes[|notes| - 1].id
  {
    MergedFacts(notes);
    var n := |notes| - 1;
    if n > 0 {
      MinAtFacts(notes[..n]);
      assert notes[..n][0] == notes[0];
    }
  }

  /** The time of the annotation a redaction has to name. */
  function KeptTime(notes: seq<Note>): nat
    requires notes != []
  {
    notes[KeptIndex(notes)].at
  }

  ghost predicate KeptIsNewest(notes: seq<Note>)
    requires notes != []
  {
    forall i :: 0 <= i < |notes| ==> notes[i].at <= KeptTime(notes)
  }

  /**
   * The kept annotation is meant to be the newest. After one more, whatever came before, it is exactly when that one
   * is not older than any, or the kept one was the newest and that one precedes them all: the code compares with the
   * earliest time, so one that falls between replaces the newest.
   */
  lemma NewestUnlessBetween(notes: seq<Note>, next: Note)
    requires notes != []
    ensures KeptIsNewest(notes + [next]) <==>
      (forall i :: 0 <= i < |notes| ==> notes[i].at <= next.at) || (KeptIsNewest(notes) && next.at < MinAt(notes))
  {
    var all := notes + [next];
    var n := |notes|;
    assert all[..n] == notes && all[n] == next;
    assert all[KeptIndex(notes)].at == KeptTime(notes);
    MinAtFacts(notes);
    forall i | 0 <= i < n ensures all[i] == notes[i] {}
    assert KeptTime(all) == if next.at >= MinAt(notes) then next.at else KeptTime(notes);
    if KeptIsNewest(all) {
      assert all[n].at <= KeptTime(all);
      forall i | 0 <= i < n ensures notes[i].at <= KeptTime(all) {
        assert all[i].at <= KeptTime(all);
      }
    }
  }

  /** Three annotations sent at 5, 3 and 4, arriving in that order: the one kept is not the newest. */
  lemma OutOfOrderKeepsAnOlder(a: EventId, b: EventId, c: EventId, who: string)
    requires a != b && b != c && a != c
    ensures var notes := [Note(a, who, 5, false), Note(b, who, 3, false), Note(c, who, 4, false)];
      Merged(notes) == PeerHand(c, who, 3, false)
  {
    var notes := [Note(a, who, 5, false), Note(b, who, 3, false), Note(c, who, 4, false)];
    assert notes[..2] == [notes[0], notes[1]] && notes[..2][..1] == [notes[0]];
    assert Merged(notes[..2][..1]) == PeerHand(a, who, 5, false);
    assert Merged(notes[..2]) == PeerHand(a, who, 3, false);
  }
}
