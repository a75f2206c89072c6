/** The roster as a UI draws it: tile derivation, ranking and the detail window. */
module Tiles {
  import opened Ordering

  type MemberId = string

  datatype StreamKind = Microphone | Camera | ScreenShare | ScreenShareAudio | Data
  datatype Connection = Connected | Connecting | Reconnecting | Unreachable
  datatype UnableToDecrypt = MissingKey | BadKey | NotEncrypted

  datatype Stream = Stream(kind: StreamKind, muted: bool)

  /** One joined membership with its live media state. */
  datatype Participant = Participant(
    id: MemberId,
    userId: string,
    deviceId: Option<string>,
    isLocal: bool,
    connection: Connection,
    unable: Option<UnableToDecrypt>,
    streams: seq<Stream>,
    handAt: Option<nat>,
    handPosition: Option<nat>,
    joinedAt: Option<nat>)

  datatype TileKind = Person | Share
  datatype TileId = TileId(member: MemberId, kind: TileKind)

  datatype CallTile = CallTile(
    member: MemberId,
    kind: TileKind,
    userId: string,
    deviceId: Option<string>,
    hero: bool,
    hasVideo: bool,
    microphoneMuted: bool,
    speaking: bool,
    handAt: Option<nat>,
    handPosition: Option<nat>,
    joinedAt: Option<nat>,
    connection: Connection,
    unable: Option<UnableToDecrypt>)
  {
    function Id(): TileId { TileId(member, kind) }
  }

  datatype TileRef = TileRef(id: TileId, userId: string, hero: bool)
  datatype TileRoster = TileRoster(order: seq<TileRef>, detail: seq<CallTile>)
  datatype DetailWindow = DetailWindow(offset: nat, len: nat, also: set<TileId>)

  /** The first stream of a kind; a participant has at most one of each. */
  function FindStream(streams: seq<Stream>, kind: StreamKind): (r: Option<Stream>)
    ensures r.Some? <==> exists i :: 0 <= i < |streams| && streams[i].kind == kind
    ensures r.Some? ==> r.value in streams && r.value.kind == kind
  {
    if streams == [] then None
    else if streams[0].kind == kind then Some(streams[0])
    else FindStream(streams[1..], kind)
  }

  function VideoStream(kind: TileKind): StreamKind {
    match kind case Person => Camera case Share => ScreenShare
  }

  function TileOf(p: Participant, kind: TileKind, speaking: set<MemberId>): CallTile {
    var video := FindStream(p.streams, VideoStream(kind));
    var mic := FindStream(p.streams, Microphone);
    CallTile(
      p.id, kind, p.userId, p.deviceId,
      kind == Share,
      video.Some? && !video.value.muted,
      mic.None? || mic.value.muted,
      p.id in speaking,
      p.handAt, p.handPosition, p.joinedAt, p.connection, p.unable)
  }

  predicate Shares(p: Participant) {
    FindStream(p.streams, ScreenShare).Some?
  }

  /** The tiles one participant contributes to the remote list. */
  function RemoteTilesOf(p: Participant, speaking: set<MemberId>): seq<CallTile> {
    if p.isLocal then []
    else [TileOf(p, Person, speaking)] + if Shares(p) then [TileOf(p, Share, speaking)] else []
  }

  function Contribution(speaking: set<MemberId>): Participant -> seq<CallTile> {
    p => RemoteTilesOf(p, speaking)
  }

  function RemoteTiles(roster: seq<Participant>, speaking: set<MemberId>): seq<CallTile> {
    FlatMap(Contribution(speaking), roster)
  }

  function OwnTile(roster: seq<Participant>, speaking: set<MemberId>): Option<CallTile> {
    if roster == [] then None
    else
      var p := roster[|roster| - 1];
      if p.isLocal then Some(TileOf(p, Person, speaking)) else OwnTile(roster[..|roster| - 1], speaking)
  }

  // ---- ranking -----------------------------------------------------------

  /** Sort key, lowest first: the activity part, then the tie-break every client agrees on. */
  datatype RankKey = RankKey(activity: seq<int>, member: MemberId, share: bool)

  function Last01(b: bool): int { if b then 0 else 1 }

  function NoneLast(v: Option<nat>): seq<int> {
    match v case None => [1, 0] case Some(x) => [0, x]
  }

  function Rank(t: CallTile, byActivity: bool, ranked: set<MemberId>): (k: RankKey)
    ensures |k.activity| == 7
  {
    RankKey(
      [Last01(t.hero)]
      + NoneLast(if byActivity then t.handAt else None)
      + [Last01(byActivity && t.member in ranked), Last01(byActivity && t.hasVideo)]
      + NoneLast(t.joinedAt),
      t.member,
      t.kind == Share)
  }

  predicate RankLess(a: RankKey, b: RankKey) {
    || LexLess(a.activity, b.activity)
    || (a.activity == b.activity && StrLess(a.member, b.member))
    || (a.activity == b.activity && a.member == b.member && !a.share && b.share)
  }

  /** The ranking is a strict total order on keys. */
  lemma RankTotal(a: RankKey, b: RankKey)
    ensures RankLess(a, b) || a == b || RankLess(b, a)
    ensures !(RankLess(a, b) && RankLess(b, a))
    ensures !RankLess(a, a)
  {
    LexTotal(a.activity, b.activity);
    LexTotal(a.activity, a.activity);
    StrTotal(a.member, b.member);
  }

  lemma RankTransitive(a: RankKey, b: RankKey, c: RankKey)
    requires RankLess(a, b) && RankLess(b, c)
    ensures RankLess(a, c)
  {
    LexTotal(a.activity, b.activity);
    LexTotal(b.activity, c.activity);
    if LexLess(a.activity, b.activity) && LexLess(b.activity, c.activity) {
      LexTransitive(a.activity, b.activity, c.activity);
    }
    if StrLess(a.member, b.member) && StrLess(b.member, c.member) {
      LexTransitive(Codes(a.member), Codes(b.member), Codes(c.member));
    }
  }

  /** Whether one tile ranks before another. */
  function Before(byActivity: bool, ranked: set<MemberId>): (CallTile, CallTile) -> bool {
    (a: CallTile, b: CallTile) => RankLess(Rank(a, byActivity, ranked), Rank(b, byActivity, ranked))
  }

  lemma BeforeIsWeakOrder(byActivity: bool, ranked: set<MemberId>)
    ensures WeakOrder(Before(byActivity, ranked))
  {
    var less := Before(byActivity, ranked);
    forall x, y ensures less(x, y) ==> !less(y, x) {
      RankTotal(Rank(x, byActivity, ranked), Rank(y, byActivity, ranked));
    }
    forall x, y, z | less(x, z) ensures less(x, y) || less(y, z) {
      var kx, ky, kz := Rank(x, byActivity, ranked), Rank(y, byActivity, ranked), Rank(z, byActivity, ranked);
      RankTotal(kx, ky);
      if RankLess(ky, kx) {
        RankTransitive(ky, kx, kz);
      }
    }
  }

  // ---- derivation ----------------------------------------------------------

  /** The remote tiles in rank order. */
  function Derive(roster: seq<Participant>, speaking: set<MemberId>, ranked: set<MemberId>, threshold: nat): seq<CallTile> {
    var remote := RemoteTiles(roster, speaking);
    Sort(Before(|remote| > threshold, ranked), remote)
  }

  /** `derive_tiles`: collects in roster order, our own tile aside, then ranks. */
  method DeriveTiles(roster: seq<Participant>, speaking: set<MemberId>, ranked: set<MemberId>, threshold: nat)
    returns (remote: seq<CallTile>, own: Option<CallTile>)
    ensures remote == Derive(roster, speaking, ranked, threshold)
    ensures own == OwnTile(roster, speaking)
    ensures multiset(remote) == multiset(RemoteTiles(roster, speaking))
    ensures NotDescending(Before(|remote| > threshold, ranked), remote)
  {
    remote, own := [], None;
    for i := 0 to |roster|
      invariant remote == RemoteTiles(roster[..i], speaking)
      invariant own == OwnTile(roster[..i], speaking)
    {
      var p := roster[i];
      assert roster[..i + 1][..i] == roster[..i];
      var camera := TileOf(p, Person, speaking);
      if p.isLocal {
        own := Some(camera);
      } else {
        remote := remote + [camera];
        if FindStream(p.streams, ScreenShare).Some? {
          remote := remote + [TileOf(p, Share, speaking)];
        }
      }
    }
    assert roster[..|roster|] == roster;
    BeforeIsWeakOrder(|remote| > threshold, ranked);
    SortFacts(Before(|remote| > threshold, ranked), remote);
    remote := Sort(Before(|remote| > threshold, ranked), remote);
  }

  ghost predicate UniqueMembers(roster: seq<Participant>) {
    forall i, j :: 0 <= i < j < |roster| ==> roster[i].id != roster[j].id
  }

  function Ids(tiles: seq<CallTile>): (r: seq<TileId>)
    ensures |r| == |tiles|
    ensures forall i :: 0 <= i < |tiles| ==> r[i] == tiles[i].Id()
  {
    seq(|tiles|, i requires 0 <= i < |tiles| => tiles[i].Id())
  }

  /** Every remote tile is contributed by a member of the roster. */
  lemma {:induction false} TileOrigin(roster: seq<Participant>, speaking: set<MemberId>, t: CallTile)
    requires t in RemoteTiles(roster, speaking)
    ensures exists i :: 0 <= i < |roster| && t in RemoteTilesOf(roster[i], speaking)
  {
    var n := |roster| - 1;
    if t in RemoteTilesOf(roster[n], speaking) {
    } else {
      TileOrigin(roster[..n], speaking, t);
      var i :| 0 <= i < n && t in RemoteTilesOf(roster[..n][i], speaking);
      assert t in RemoteTilesOf(roster[i], speaking);
    }
  }

  lemma IdsConcat(a: seq<CallTile>, b: seq<CallTile>)
    requires NoDuplicates(Ids(a)) && NoDuplicates(Ids(b))
    requires forall x, y :: x in a && y in b ==> x.member != y.member
    ensures NoDuplicates(Ids(a + b))
  {
  }

  /** A tile id names one remote tile. */
  lemma {:induction false} RemoteTileIds(roster: seq<Participant>, speaking: set<MemberId>)
    requires UniqueMembers(roster)
    ensures NoDuplicates(Ids(RemoteTiles(roster, speaking)))
  {
    if roster != [] {
      var n := |roster| - 1;
      RemoteTileIds(roster[..n], speaking);
      var front, back := RemoteTiles(roster[..n], speaking), RemoteTilesOf(roster[n], speaking);
      forall x, y | x in front && y in back ensures x.member != y.member {
        NewMember(roster, speaking, x);
      }
      IdsConcat(front, back);
    }
  }

  /** The tiles before the last member's are other members'. */
  lemma NewMember(roster: seq<Participant>, speaking: set<MemberId>, x: CallTile)
    requires UniqueMembers(roster) && roster != [] && x in RemoteTiles(roster[..|roster| - 1], speaking)
    ensures x.member != roster[|roster| - 1].id
  {
    var n := |roster| - 1;
    TileOrigin(roster[..n], speaking, x);
    var i :| 0 <= i < n && x in RemoteTilesOf(roster[..n][i], speaking);
    assert roster[i].id != roster[n].id;
  }

  /** The derived list: one tile per id, strictly in rank order, from the roster and nothing else. */
  lemma DeriveFacts(roster: seq<Participant>, speaking: set<MemberId>, ranked: set<MemberId>, threshold: nat)
    requires UniqueMembers(roster)
    ensures var tiles := Derive(roster, speaking, ranked, threshold);
      && multiset(tiles) == multiset(RemoteTiles(roster, speaking))
      && NoDuplicates(Ids(tiles))
      && SortedBy(Before(|tiles| > threshold, ranked), tiles)
  {
    var remote := RemoteTiles(roster, speaking);
    var active := |remote| > threshold;
    var tiles := Derive(roster, speaking, ranked, threshold);
    BeforeIsWeakOrder(active, ranked);
    SortFacts(Before(active, ranked), remote);
    RemoteTileIds(roster, speaking);
    IdsPermute(remote, tiles);
    forall i, j | 0 <= i < j < |tiles| ensures Before(active, ranked)(tiles[i], tiles[j]) {
      assert Ids(tiles)[i] != Ids(tiles)[j];
      RankTotal(Rank(tiles[i], active, ranked), Rank(tiles[j], active, ranked));
      assert !Before(active, ranked)(tiles[j], tiles[i]);
    }
  }

  /** Distinctness of ids survives a permutation of the tiles. */
  lemma IdsPermute(a: seq<CallTile>, b: seq<CallTile>)
    requires multiset(a) == multiset(b) && NoDuplicates(Ids(a))
    ensures NoDuplicates(Ids(b))
    ensures ToSet(Ids(a)) == ToSet(Ids(b))
  {
    forall i, j | 0 <= i < j < |b| ensures Ids(b)[i] != Ids(b)[j] {
      if b[i].Id() == b[j].Id() {
        assert b[i] in multiset(a) && b[j] in multiset(a);
        var x :| 0 <= x < |a| && a[x] == b[i];
        var y :| 0 <= y < |a| && a[y] == b[j];
        assert Ids(a)[x] == Ids(a)[y];
        assert b[i] == b[j];
        TwiceInMultiset(b, i, j);
        forall z | 0 <= z < |a| && z != x ensures a[z] != a[x] {
          assert Ids(a)[z] != Ids(a)[x];
        }
        OnceInMultiset(a, x);
      }
    }
    forall id ensures id in Ids(a) <==> id in Ids(b) {
      if id in Ids(a) {
        var x :| 0 <= x < |a| && Ids(a)[x] == id;
        assert a[x] in multiset(b);
        var y :| 0 <= y < |b| && b[y] == a[x];
        assert Ids(b)[y] == id;
      }
      if id in Ids(b) {
        var y :| 0 <= y < |b| && Ids(b)[y] == id;
        assert b[y] in multiset(a);
        var x :| 0 <= x < |a| && a[x] == b[y];
        assert Ids(a)[x] == id;
      }
    }
  }

  /** Every permutation of the roster gives the same tiles in the same order. */
  lemma DeriveIgnoresRosterOrder(a: seq<Participant>, b: seq<Participant>, speaking: set<MemberId>, ranked: set<MemberId>, threshold: nat)
    requires UniqueMembers(a) && UniqueMembers(b) && multiset(a) == multiset(b)
    ensures Derive(a, speaking, ranked, threshold) == Derive(b, speaking, ranked, threshold)
  {
    var ta, tb := Derive(a, speaking, ranked, threshold), Derive(b, speaking, ranked, threshold);
    FlatMapPermutes(Contribution(speaking), a, b);
    DeriveFacts(a, speaking, ranked, threshold);
    DeriveFacts(b, speaking, ranked, threshold);
    assert |multiset(ta)| == |multiset(tb)|;
    BeforeIsWeakOrder(|ta| > threshold, ranked);
    SortedUnique(Before(|ta| > threshold, ranked), ta, tb);
  }

  // ---- what the order and the records mean -----------------------------------

  /** An earlier time comes first, and no time at all comes last. */
  predicate Sooner(a: Option<nat>, b: Option<nat>) {
    a.Some? && (b.None? || a.value < b.value)
  }

  /** Which of two tiles a viewer is to see first, by what the tiles themselves show. */
  predicate Outranks(a: CallTile, b: CallTile, large: bool, ranked: set<MemberId>) {
    if a.kind != b.kind then a.kind == Share
    else if large && a.handAt != b.handAt then Sooner(a.handAt, b.handAt)
    else if large && (a.member in ranked) != (b.member in ranked) then a.member in ranked
    else if large && a.hasVideo != b.hasVideo then a.hasVideo
    else if a.joinedAt != b.joinedAt then Sooner(a.joinedAt, b.joinedAt)
    else StrLess(a.member, b.member)
  }

  /** The first stream of this kind is at `i`. */
  ghost predicate FirstAt(streams: seq<Stream>, kind: StreamKind, i: nat) {
    i < |streams| && streams[i].kind == kind && forall j :: 0 <= j < i ==> streams[j].kind != kind
  }

  /** The participant has a stream of this kind up, and it is not muted. */
  ghost predicate Live(p: Participant, kind: StreamKind) {
    exists i: nat :: FirstAt(p.streams, kind, i) && !p.streams[i].muted
  }

  /** A tile says of its participant what the roster says. */
  ghost predicate Depicts(t: CallTile, p: Participant, speaking: set<MemberId>) {
    && t.member == p.id && t.userId == p.userId && t.deviceId == p.deviceId
    && t.hero == (t.kind == Share)
    && t.hasVideo == Live(p, if t.kind == Person then Camera else ScreenShare)
    && t.microphoneMuted == !Live(p, Microphone)
    && t.speaking == (p.id in speaking)
    && t.handAt == p.handAt && t.handPosition == p.handPosition && t.joinedAt == p.joinedAt
    && t.connection == p.connection && t.unable == p.unable
  }

  ghost predicate HasShare(p: Participant) {
    exists s :: s in p.streams && s.kind == ScreenShare
  }

  lemma {:induction false} FoundFirst(streams: seq<Stream>, kind: StreamKind) returns (i: nat)
    requires FindStream(streams, kind).Some?
    ensures FirstAt(streams, kind, i) && streams[i] == FindStream(streams, kind).value
  {
    if streams[0].kind == kind {
      i := 0;
    } else {
      var k := FoundFirst(streams[1..], kind);
      i := k + 1;
      forall j | 0 <= j < i ensures streams[j].kind != kind {
        assert j > 0 ==> streams[j] == streams[1..][j - 1];
      }
    }
  }

  lemma LiveStream(p: Participant, kind: StreamKind)
    ensures var s := FindStream(p.streams, kind); Live(p, kind) <==> s.Some? && !s.value.muted
  {
    if FindStream(p.streams, kind).Some? {
      var i := FoundFirst(p.streams, kind);
      assert forall j: nat :: FirstAt(p.streams, kind, j) ==> j == i;
    }
  }

  lemma TileDepicts(t: CallTile, p: Participant, speaking: set<MemberId>)
    ensures Depicts(t, p, speaking) <==> t == TileOf(p, t.kind, speaking)
  {
    LiveStream(p, if t.kind == Person then Camera else ScreenShare);
    LiveStream(p, Microphone);
  }

  lemma Contributes(t: CallTile, p: Participant, speaking: set<MemberId>)
    ensures t in RemoteTilesOf(p, speaking) <==> !p.isLocal && Depicts(t, p, speaking) && (t.kind == Share ==> HasShare(p))
  {
    TileDepicts(t, p, speaking);
    assert Shares(p) <==> HasShare(p);
  }

  lemma {:induction false} Contributed(roster: seq<Participant>, i: nat, speaking: set<MemberId>, t: CallTile)
    requires i < |roster| && t in RemoteTilesOf(roster[i], speaking)
    ensures t in RemoteTiles(roster, speaking)
  {
    var n := |roster| - 1;
    if i < n {
      Contributed(roster[..n], i, speaking, t);
    }
  }

  /**
   * The list holds exactly the others: everybody's person tile, a share tile for whoever has a
   * screen share up, each showing what the roster says of its member.
   */
  lemma DerivedTiles(roster: seq<Participant>, speaking: set<MemberId>, ranked: set<MemberId>, threshold: nat, t: CallTile)
    ensures t in Derive(roster, speaking, ranked, threshold)
      <==> exists i :: 0 <= i < |roster| && !roster[i].isLocal && Depicts(t, roster[i], speaking) && (t.kind == Share ==> HasShare(roster[i]))
  {
    var remote := RemoteTiles(roster, speaking);
    var tiles := Derive(roster, speaking, ranked, threshold);
    SortPermutes(Before(|remote| > threshold, ranked), remote);
    assert t in tiles <==> t in multiset(tiles);
    assert t in remote <==> t in multiset(remote);
    if t in remote {
      TileOrigin(roster, speaking, t);
      var i :| 0 <= i < |roster| && t in RemoteTilesOf(roster[i], speaking);
      Contributes(t, roster[i], speaking);
    }
    if i :| 0 <= i < |roster| && !roster[i].isLocal && Depicts(t, roster[i], speaking) && (t.kind == Share ==> HasShare(roster[i])) {
      Contributes(t, roster[i], speaking);
      Contributed(roster, i, speaking, t);
    }
  }

  /** Our own tile is our membership's, never a share, and there exactly when we are on the roster. */
  lemma {:induction false} OwnTileIsOurs(roster: seq<Participant>, speaking: set<MemberId>)
    ensures var own := OwnTile(roster, speaking);
      && (own.Some? <==> exists i :: 0 <= i < |roster| && roster[i].isLocal)
      && (own.Some? ==> own.value.kind == Person)
      && (own.Some? ==> exists i :: 0 <= i < |roster| && roster[i].isLocal && Depicts(own.value, roster[i], speaking))
  {
    if roster != [] {
      var n := |roster| - 1;
      if roster[n].isLocal {
        TileDepicts(TileOf(roster[n], Person, speaking), roster[n], speaking);
      } else {
        OwnTileIsOurs(roster[..n], speaking);
        if OwnTile(roster[..n], speaking).Some? {
          var own := OwnTile(roster[..n], speaking).value;
          var i :| 0 <= i < n && roster[..n][i].isLocal && Depicts(own, roster[..n][i], speaking);
          assert roster[i].isLocal && Depicts(own, roster[i], speaking);
        }
        assert forall i :: 0 <= i < n ==> roster[..n][i] == roster[i];
      }
    }
  }

  lemma SoonerIsLess(a: Option<nat>, b: Option<nat>, x: seq<int>, y: seq<int>)
    ensures LexLess(NoneLast(a) + x, NoneLast(b) + y) <==> (if a == b then LexLess(x, y) else Sooner(a, b))
  {
    var s, t := NoneLast(a) + x, NoneLast(b) + y;
    assert s[1..] == [s[1]] + x && t[1..] == [t[1]] + y;
    assert s[1..][1..] == x && t[1..][1..] == y;
  }

  lemma FirstIsLess(a: bool, b: bool, x: seq<int>, y: seq<int>)
    ensures LexLess([Last01(a)] + x, [Last01(b)] + y) <==> (if a == b then LexLess(x, y) else a)
  {
    assert ([Last01(a)] + x)[1..] == x && ([Last01(b)] + y)[1..] == y;
  }

  /** The parts of a sort key one after another, the hero flag first. */
  function Parts(t: CallTile, large: bool, ranked: set<MemberId>): seq<int> {
    [Last01(t.hero)] + (NoneLast(if large then t.handAt else None)
      + ([Last01(large && t.member in ranked)] + ([Last01(large && t.hasVideo)] + (NoneLast(t.joinedAt) + []))))
  }

  lemma ActivityParts(t: CallTile, large: bool, ranked: set<MemberId>)
    ensures Rank(t, large, ranked).activity == Parts(t, large, ranked)
  {
  }

  /** What one level of the comparison after another decides. */
  lemma PartsCompared(a: CallTile, b: CallTile, large: bool, ranked: set<MemberId>)
    ensures LexLess(Parts(a, large, ranked), Parts(b, large, ranked)) <==>
      if a.hero != b.hero then a.hero
      else if large && a.handAt != b.handAt then Sooner(a.handAt, b.handAt)
      else if large && (a.member in ranked) != (b.member in ranked) then a.member in ranked
      else if large && a.hasVideo != b.hasVideo then a.hasVideo
      else Sooner(a.joinedAt, b.joinedAt)
  {
    var ja, jb := NoneLast(a.joinedAt) + [], NoneLast(b.joinedAt) + [];
    SoonerIsLess(a.joinedAt, b.joinedAt, [], []);
    var va, vb := [Last01(large && a.hasVideo)] + ja, [Last01(large && b.hasVideo)] + jb;
    FirstIsLess(large && a.hasVideo, large && b.hasVideo, ja, jb);
    var sa, sb := [Last01(large && a.member in ranked)] + va, [Last01(large && b.member in ranked)] + vb;
    FirstIsLess(large && a.member in ranked, large && b.member in ranked, va, vb);
    var ha, hb := if large then a.handAt else None, if large then b.handAt else None;
    SoonerIsLess(ha, hb, sa, sb);
    FirstIsLess(a.hero, b.hero, NoneLast(ha) + sa, NoneLast(hb) + sb);
  }

  lemma BeforeOutranks(a: CallTile, b: CallTile, large: bool, ranked: set<MemberId>)
    requires a.hero == (a.kind == Share) && b.hero == (b.kind == Share) && a.Id() != b.Id()
    requires Before(large, ranked)(a, b)
    ensures Outranks(a, b, large, ranked)
  {
    ActivityParts(a, large, ranked);
    ActivityParts(b, large, ranked);
    PartsCompared(a, b, large, ranked);
    PartsCompared(b, a, large, ranked);
    var x, y := Rank(a, large, ranked), Rank(b, large, ranked);
    if x.activity == y.activity {
      LexTotal(x.activity, y.activity);
    }
  }

  /**
   * The order of the list, read off the tiles alone. Above the threshold shares come first, then
   * raised hands by time, then whoever counts as speaking, then video, then join time, then the id;
   * at or below it hands, speaking and video do not matter.
   */
  lemma DerivedInRankOrder(roster: seq<Participant>, speaking: set<MemberId>, ranked: set<MemberId>, threshold: nat)
    requires UniqueMembers(roster)
    ensures var tiles := Derive(roster, speaking, ranked, threshold);
      forall i, j :: 0 <= i < j < |tiles| ==> Outranks(tiles[i], tiles[j], |tiles| > threshold, ranked)
  {
    var tiles := Derive(roster, speaking, ranked, threshold);
    DeriveFacts(roster, speaking, ranked, threshold);
    forall i, j | 0 <= i < j < |tiles| ensures Outranks(tiles[i], tiles[j], |tiles| > threshold, ranked) {
      assert Ids(tiles)[i] != Ids(tiles)[j];
      DerivedTiles(roster, speaking, ranked, threshold, tiles[i]);
      DerivedTiles(roster, speaking, ranked, threshold, tiles[j]);
      BeforeOutranks(tiles[i], tiles[j], |tiles| > threshold, ranked);
    }
  }

  // ---- small calls do not shuffle -------------------------------------------

  /** What the order of a small call may depend on. */
  datatype Skeleton = Skeleton(id: MemberId, isLocal: bool, joinedAt: Option<nat>, shares: bool)

  function SkeletonOf(p: Participant): Skeleton {
    Skeleton(p.id, p.isLocal, p.joinedAt, Shares(p))
  }

  function Skeletons(roster: seq<Participant>): (r: seq<Skeleton>)
    ensures |r| == |roster|
  {
    seq(|roster|, i requires 0 <= i < |roster| => SkeletonOf(roster[i]))
  }

  function QuietKey(id: MemberId, joinedAt: Option<nat>, share: bool): RankKey {
    RankKey([Last01(share), 1, 0, 1, 1] + NoneLast(joinedAt), id, share)
  }

  function QuietKeysOf(): Skeleton -> seq<RankKey> {
    (s: Skeleton) =>
      if s.isLocal then []
      else [QuietKey(s.id, s.joinedAt, false)] + if s.shares then [QuietKey(s.id, s.joinedAt, true)] else []
  }

  function Keys(tiles: seq<CallTile>): (r: seq<RankKey>)
    ensures |r| == |tiles|
  {
    seq(|tiles|, i requires 0 <= i < |tiles| => Rank(tiles[i], false, {}))
  }

  lemma QuietKeysOfOne(p: Participant, speaking: set<MemberId>)
    ensures Keys(RemoteTilesOf(p, speaking)) == QuietKeysOf()(SkeletonOf(p))
  {
    if !p.isLocal {
      assert Rank(TileOf(p, Person, speaking), false, {}).activity == QuietKey(p.id, p.joinedAt, false).activity;
      assert Rank(TileOf(p, Share, speaking), false, {}).activity == QuietKey(p.id, p.joinedAt, true).activity;
    }
  }

  lemma {:induction false} QuietKeysFromSkeletons(roster: seq<Participant>, speaking: set<MemberId>)
    ensures Keys(RemoteTiles(roster, speaking)) == FlatMap(QuietKeysOf(), Skeletons(roster))
  {
    if roster != [] {
      var n := |roster| - 1;
      QuietKeysFromSkeletons(roster[..n], speaking);
      assert Skeletons(roster)[..n] == Skeletons(roster[..n]);
      var mine := RemoteTilesOf(roster[n], speaking);
      QuietKeysOfOne(roster[n], speaking);
      assert Keys(RemoteTiles(roster[..n], speaking) + mine) == Keys(RemoteTiles(roster[..n], speaking)) + Keys(mine);
    }
  }

  lemma {:induction false} KeysPermute(a: seq<CallTile>, b: seq<CallTile>)
    requires multiset(a) == multiset(b)
    ensures multiset(Keys(a)) == multiset(Keys(b))
  {
    var f := (t: CallTile) => [Rank(t, false, {})];
    FlatMapPermutes(f, a, b);
    KeysAsFlatMap(f, a);
    KeysAsFlatMap(f, b);
  }

  lemma {:induction false} KeysAsFlatMap(f: CallTile -> seq<RankKey>, a: seq<CallTile>)
    requires forall t :: f(t) == [Rank(t, false, {})]
    ensures FlatMap(f, a) == Keys(a)
  {
    if a != [] {
      KeysAsFlatMap(f, a[..|a| - 1]);
    }
  }

  /**
   * At or below the threshold the order of ids is decided by who is there, who is local,
   * when they joined and who shares: hands, speaking and cameras change nothing.
   */
  lemma SmallCallsDoNotShuffle(
    a: seq<Participant>, speakingA: set<MemberId>, rankedA: set<MemberId>,
    b: seq<Participant>, speakingB: set<MemberId>, rankedB: set<MemberId>,
    threshold: nat)
    requires UniqueMembers(a) && UniqueMembers(b)
    requires multiset(Skeletons(a)) == multiset(Skeletons(b))
    requires |RemoteTiles(a, speakingA)| <= threshold
    ensures Ids(Derive(a, speakingA, rankedA, threshold)) == Ids(Derive(b, speakingB, rankedB, threshold))
  {
    var ta, tb := Derive(a, speakingA, rankedA, threshold), Derive(b, speakingB, rankedB, threshold);
    QuietKeysFromSkeletons(a, speakingA);
    QuietKeysFromSkeletons(b, speakingB);
    FlatMapPermutes(QuietKeysOf(), Skeletons(a), Skeletons(b));
    var ra, rb := RemoteTiles(a, speakingA), RemoteTiles(b, speakingB);
    assert |multiset(Keys(ra))| == |multiset(Keys(rb))|;
    DeriveFacts(a, speakingA, rankedA, threshold);
    DeriveFacts(b, speakingB, rankedB, threshold);
    assert |multiset(ta)| == |multiset(ra)| && |multiset(tb)| == |multiset(rb)|;
    KeysPermute(ta, ra);
    KeysPermute(tb, rb);
    QuietKeysSorted(ta, rankedA);
    QuietKeysSorted(tb, rankedB);
    var less := (x: RankKey, y: RankKey) => RankLess(x, y);
    forall x, y ensures less(x, y) ==> !less(y, x) { RankTotal(x, y); }
    SortedUnique(less, Keys(ta), Keys(tb));
    SameKeysSameIds(ta, tb);
  }

  lemma QuietKeysSorted(tiles: seq<CallTile>, ranked: set<MemberId>)
    requires SortedBy(Before(false, ranked), tiles)
    ensures forall i, j :: 0 <= i < j < |tiles| ==> RankLess(Keys(tiles)[i], Keys(tiles)[j])
  {
  }

  lemma SameKeysSameIds(a: seq<CallTile>, b: seq<CallTile>)
    requires Keys(a) == Keys(b)
    ensures Ids(a) == Ids(b)
  {
    assert |a| == |Keys(a)| == |Keys(b)| == |b|;
    forall i | 0 <= i < |a| ensures Ids(a)[i] == Ids(b)[i] {
      assert Keys(a)[i] == Keys(b)[i];
    }
  }

  // ---- what the order does not look at ----------------------------------------

  /** Tile by tile the same sort key. */
  ghost predicate SameRanks(a: seq<CallTile>, b: seq<CallTile>, large: bool, ranked: set<MemberId>) {
    |a| == |b| && forall i :: 0 <= i < |a| ==> Rank(a[i], large, ranked) == Rank(b[i], large, ranked)
  }

  /** Entry by entry the same member with the same hand, join time and streams. */
  ghost predicate SameStanding(a: seq<Participant>, b: seq<Participant>) {
    && |a| == |b|
    && forall i :: 0 <= i < |a| ==>
         && a[i].id == b[i].id && a[i].isLocal == b[i].isLocal && a[i].streams == b[i].streams
         && a[i].handAt == b[i].handAt && a[i].joinedAt == b[i].joinedAt
  }

  lemma SortSameRanks(a: seq<CallTile>, b: seq<CallTile>, large: bool, ranked: set<MemberId>)
    requires SameRanks(a, b, large, ranked)
    ensures SameRanks(Sort(Before(large, ranked), a), Sort(Before(large, ranked), b), large, ranked)
  {
    SortOfSameKeys(Before(large, ranked), (t: CallTile) => Rank(t, large, ranked), a, b);
  }

  lemma {:induction false} SameStandingSameRanks(
    a: seq<Participant>, sa: set<MemberId>, b: seq<Participant>, sb: set<MemberId>, large: bool, ranked: set<MemberId>)
    requires SameStanding(a, b)
    ensures SameRanks(RemoteTiles(a, sa), RemoteTiles(b, sb), large, ranked)
  {
    if a != [] {
      var n := |a| - 1;
      SameStandingSameRanks(a[..n], sa, b[..n], sb, large, ranked);
    }
  }

  /** Connections, decryptability, names and who is speaking right now never move a tile, however large the call. */
  lemma OrderIgnoresTheRest(
    a: seq<Participant>, sa: set<MemberId>, b: seq<Participant>, sb: set<MemberId>, ranked: set<MemberId>, threshold: nat)
    requires SameStanding(a, b)
    ensures Ids(Derive(a, sa, ranked, threshold)) == Ids(Derive(b, sb, ranked, threshold))
  {
    var large := |RemoteTiles(a, sa)| > threshold;
    SameStandingSameRanks(a, sa, b, sb, large, ranked);
    SortSameRanks(RemoteTiles(a, sa), RemoteTiles(b, sb), large, ranked);
    var ta, tb := Derive(a, sa, ranked, threshold), Derive(b, sb, ranked, threshold);
    forall i | 0 <= i < |ta| ensures Ids(ta)[i] == Ids(tb)[i] {
      assert Rank(ta[i], large, ranked) == Rank(tb[i], large, ranked);
    }
  }

  // ---- the detail window -------------------------------------------------------

  predicate InWindow(t: CallTile, rank: nat, w: DetailWindow) {
    w.offset <= rank < w.offset + w.len || t.Id() in w.also
  }

  function Refs(ranked: seq<CallTile>): seq<TileRef> {
    seq(|ranked|, i requires 0 <= i < |ranked| => TileRef(ranked[i].Id(), ranked[i].userId, ranked[i].hero))
  }

  function Detail(ranked: seq<CallTile>, w: DetailWindow): seq<CallTile> {
    if ranked == [] then []
    else
      var n := |ranked| - 1;
      Detail(ranked[..n], w) + if InWindow(ranked[n], n, w) then [ranked[n]] else []
  }

  function Windowed(ranked: seq<CallTile>, w: DetailWindow): TileRoster {
    TileRoster(Refs(ranked), Detail(ranked, w))
  }

  /** `window`: every tile is in the order, and a full record is given to exactly the windowed ones. */
  method Window(ranked: seq<CallTile>, w: DetailWindow) returns (r: TileRoster)
    ensures r == Windowed(ranked, w)
    ensures |r.order| == |ranked|
    ensures forall i :: 0 <= i < |ranked| ==>
      && r.order[i].id == TileId(ranked[i].member, ranked[i].kind)
      && r.order[i].userId == ranked[i].userId && r.order[i].hero == ranked[i].hero
    ensures Subsequence(r.detail, ranked)
    ensures forall i :: 0 <= i < |ranked| && InWindow(ranked[i], i, w) ==> ranked[i] in r.detail
    ensures forall t :: t in r.detail ==> exists i :: 0 <= i < |ranked| && t == ranked[i] && InWindow(t, i, w)
  {
    var order: seq<TileRef>, detail: seq<CallTile> := [], [];
    for rank := 0 to |ranked|
      invariant order == Refs(ranked[..rank])
      invariant detail == Detail(ranked[..rank], w)
    {
      var t := ranked[rank];
      assert ranked[..rank + 1][..rank] == ranked[..rank];
      order := order + [TileRef(t.Id(), t.userId, t.hero)];
      if InWindow(t, rank, w) {
        detail := detail + [t];
      }
    }
    assert ranked[..|ranked|] == ranked;
    DetailFacts(ranked, w);
    r := TileRoster(order, detail);
  }

  lemma {:induction false} DetailFacts(ranked: seq<CallTile>, w: DetailWindow)
    ensures Subsequence(Detail(ranked, w), ranked)
    ensures forall i :: 0 <= i < |ranked| && InWindow(ranked[i], i, w) ==> ranked[i] in Detail(ranked, w)
    ensures forall t :: t in Detail(ranked, w) ==> exists i :: 0 <= i < |ranked| && t == ranked[i] && InWindow(t, i, w)
  {
    if ranked != [] {
      var n := |ranked| - 1;
      DetailFacts(ranked[..n], w);
      assert ranked == ranked[..n] + [ranked[n]];
      SubsequenceAppend(Detail(ranked[..n], w), ranked[..n], ranked[n]);
      assert InWindow(ranked[n], n, w) || Detail(ranked, w) == Detail(ranked[..n], w);
      forall t | t in Detail(ranked[..n], w) ensures exists i :: 0 <= i < |ranked| && t == ranked[i] && InWindow(t, i, w) {
        var i :| 0 <= i < n && t == ranked[..n][i] && InWindow(t, i, w);
        assert t == ranked[i];
      }
      forall i | 0 <= i < n && InWindow(ranked[i], i, w) ensures ranked[i] in Detail(ranked, w) {
        assert ranked[..n][i] == ranked[i];
      }
    }
  }

  /** Without tiles asked for by id, the detail is the ranks from `offset` on, `len` of them if there are as many. */
  lemma {:induction false} DetailIsASlice(ranked: seq<CallTile>, w: DetailWindow)
    requires w.also == {}
    ensures var from := if w.offset <= |ranked| then w.offset else |ranked|;
      var to := if w.offset + w.len <= |ranked| then w.offset + w.len else |ranked|;
      Detail(ranked, w) == ranked[from..to]
  {
    if ranked != [] {
      var n := |ranked| - 1;
      DetailIsASlice(ranked[..n], w);
      assert ranked == ranked[..n] + [ranked[n]];
    }
  }

  lemma {:induction false} SubsequenceAppend<T>(a: seq<T>, b: seq<T>, x: T)
    requires Subsequence(a, b)
    ensures Subsequence(a, b + [x]) && Subsequence(a + [x], b + [x])
  {
    if b == [] {
      assert a + [x] == [x] && b + [x] == [x];
    } else {
      assert (b + [x])[1..] == b[1..] + [x];
      if a == [] {
        SubsequenceAppend([], b[1..], x);
      } else if a[0] == b[0] && Subsequence(a[1..], b[1..]) {
        SubsequenceAppend(a[1..], b[1..], x);
        assert (a + [x])[1..] == a[1..] + [x];
      } else {
        SubsequenceAppend(a, b[1..], x);
      }
    }
  }
}
