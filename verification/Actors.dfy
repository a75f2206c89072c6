/**
 * The call engine's actor: fields updated in place, one message at a time. Every method is proved to do what the state
 * machine of `Engine` does, so what is proved of its turns holds of these methods.
 */
module Actors {
  import opened Ordering
  import opened Tiles
  import opened Roster
  import opened RosterEdits
  import Speakers
  import Reorder
  import Keys
  import Publications
  import E = Engine

  // ---- the steps of its loops --------------------------------------------------------

  /** `apply_raw_speakers` after the members of `done`. */
  ghost function PartlyHeard(s: Speakers.Speech, raw: set<MemberId>, now: nat, turn: nat, d: Speakers.Delays, done: set<MemberId>): Speakers.Speech {
    s.(speakers := map m | m in s.speakers.Keys + done ::
         if m in done then Speakers.Heard(Speakers.StateOf(s, m), m in raw) else s.speakers[m],
       timers := s.timers + set m | m in done && Speakers.Arms(s, raw, m) :: Speakers.TimerFor(s, raw, now, turn, d, m))
  }

  lemma HeardOneMore(s: Speakers.Speech, raw: set<MemberId>, now: nat, turn: nat, d: Speakers.Delays, done: set<MemberId>, m: MemberId)
    requires m !in done
    ensures var p := PartlyHeard(s, raw, now, turn, d, done); var q := PartlyHeard(s, raw, now, turn, d, done + {m});
      && Speakers.StateOf(p, m) == Speakers.StateOf(s, m)
      && q.speakers == p.speakers[m := Speakers.Heard(Speakers.StateOf(s, m), m in raw)]
      && q.timers == p.timers + (if Speakers.Arms(s, raw, m) then {Speakers.TimerFor(s, raw, now, turn, d, m)} else {})
      && q.speaking == p.speaking == s.speaking
  {
  }

  lemma HeardAll(s: Speakers.Speech, raw: set<MemberId>, now: nat, turn: nat, d: Speakers.Delays)
    ensures PartlyHeard(s, raw, now, turn, d, {}) == s
    ensures PartlyHeard(s, raw, now, turn, d, s.speakers.Keys + raw) == Speakers.ApplyRaw(s, raw, now, turn, d)
    ensures Speakers.RawChanges(s, raw) <==> exists m :: m in s.speakers.Keys + raw && Speakers.Raw(s, m) != (m in raw)
  {
  }

  lemma {:induction false} RetainOneMore(s: seq<TileId>, keep: set<TileId>, i: nat)
    requires i < |s|
    ensures Retain(s[..i + 1], keep) == Retain(s[..i], keep) + if s[i] in keep then [s[i]] else []
  {
    if i == 0 {
      assert s[..1][1..] == [];
      assert s[..0] == [];
    } else {
      RetainOneMore(s[1..], keep, i - 1);
      assert s[..i + 1][1..] == s[1..][..i];
      assert s[..i][1..] == s[1..][..i - 1];
    }
  }

  /** `by_id`: each tile under its own id. */
  ghost predicate ById(byId: map<TileId, CallTile>, remote: seq<CallTile>) {
    byId.Keys == ToSet(Ids(remote)) && forall i | 0 <= i < |remote| :: Ids(remote)[i] in byId && byId[Ids(remote)[i]] == remote[i]
  }

  lemma ByIdIsRecord(byId: map<TileId, CallTile>, remote: seq<CallTile>, id: TileId)
    requires ById(byId, remote) && NoDuplicates(Ids(remote)) && id in byId
    ensures id in Ids(remote) && byId[id] == Reorder.RecordOf(remote, id)
  {
  }

  lemma KeepsLocal(a: seq<Participant>, b: seq<Participant>, own: MemberId)
    requires SamePlaces(a, b) && WellFormed(a, own)
    ensures WellFormed(b, own)
  {
  }

  /** What is kept about members, without those of `gone`; the departure is recorded once per snapshot. */
  function Forgotten(k: Keys.Keys, gone: set<MemberId>): Keys.Keys {
    Keys.Forget(k, gone).(log := k.log)
  }

  lemma ForgottenOneMore(k: Keys.Keys, gone: set<MemberId>, m: MemberId)
    ensures Forgotten(Forgotten(k, gone), {m}) == Forgotten(k, gone + {m})
    ensures Forgotten(k, {}) == k
  {
  }

  lemma RemovedOneMore(s: Speakers.Speech, gone: set<MemberId>, m: MemberId)
    ensures Speakers.Remove(Speakers.Remove(s, gone), {m}) == Speakers.Remove(s, gone + {m})
    ensures Speakers.Remove(s, {}) == s
  {
  }

  lemma MembersPrefix(members: seq<Membership>, i: nat)
    requires i < |members|
    ensures members[..i + 1][..i] == members[..i]
  {
  }

  lemma SnapshotValid(roster: seq<Participant>, members: seq<Membership>, seeds: Seeds)
    requires WellFormed(roster, seeds.own)
    ensures WellFormed(Snapshot(roster, members, seeds), seeds.own)
  {
    SnapshotFacts(roster, members, seeds);
  }

  lemma TakenAll(before: seq<Participant>, after: seq<Participant>, hands: seq<RaisedHand>)
    requires |after| == |before| && forall k | 0 <= k < |before| :: after[k] == before[k].(handAt := HandTime(hands, before[k].id))
    ensures after == WithHands(before, hands)
    ensures after != before <==> exists k :: 0 <= k < |before| && before[k].handAt != HandTime(hands, before[k].id)
  {
  }

  lemma HandsKeepValid(before: seq<Participant>, hands: seq<RaisedHand>, own: MemberId)
    requires WellFormed(before, own)
    ensures WellFormed(WithHands(before, hands), own)
  {
  }

  /** What a snapshot with or without us says of our own membership. */
  function Noted(s: E.State, withUs: bool): E.State {
    s.(arrived := s.arrived || withUs, observedLapse := (s.arrived || withUs) && !withUs)
  }

  /** The roster becomes the snapshot's members; everything kept about those who left goes with them. */
  function Repeopled(s: E.State, members: seq<Membership>, env: E.Env, announce: bool): E.State {
    s.(roster := Snapshot(s.roster, members, E.SeedsOf(s, env)),
       events := s.events + SnapshotEvents(s.roster, members, E.SeedsOf(s, env), announce),
       speech := Speakers.Remove(s.speech, E.Gone(s, members)),
       keys := Keys.Forget(s.keys, E.Gone(s, members)))
  }

  /** The reconciliation in the order the actor does it. */
  function InSteps(s: E.State, members: seq<Membership>, env: E.Env): E.State {
    var withUs := s.cfg.own in MemberIds(members);
    var r := Repeopled(Noted(s, withUs), members, env, s.arrived && !s.ended);
    if !s.arrived && withUs then r.(arrivalIds := Others(r.roster, s.cfg.own)) else r
  }

  lemma ReconciledInSteps(s: E.State, members: seq<Membership>, env: E.Env)
    ensures InSteps(s, members, env) == E.Reconciled(s, members, env)
  {
  }

  function MutedPubs(s: E.State, kind: StreamKind, muted: bool): E.State
    requires kind in s.pubs
  {
    s.(pubs := s.pubs[kind := s.pubs[kind].(muted := muted, applied := muted || E.Lapsed(s))])
  }

  lemma MutedIs(s: E.State, kind: StreamKind, muted: bool, env: E.Env)
    requires kind in s.pubs && kind !in env.refused
    ensures E.MutedOwn(s, kind, muted, env) ==
      E.Rostered(MutedPubs(s, kind, muted), WithMute(s.roster, s.cfg.own, kind, muted), env)
  {
  }

  /** A changed hand set, with what it has to say. */
  function WithNews(s: E.State, hands: seq<RaisedHand>, said: seq<CallEvent>): E.State {
    s.(hands := hands, roster := WithHands(s.roster, hands), events := s.events + said)
  }

  lemma HandsAre(s: E.State, hands: seq<RaisedHand>, announce: bool, env: E.Env, said: seq<CallEvent>)
    requires said == if announce && s.arrived && !s.ended then HandEvents(s.roster, hands) else []
    ensures E.ApplyHands(s, hands, announce, env) ==
      if WithHands(s.roster, hands) == s.roster then s.(hands := hands)
      else E.PublishRoster(E.Renumbered(WithNews(s, hands, said)), env)
  {
  }

  /** The departures of a snapshot. */
  function WithoutDeparted(s: E.State, members: seq<Membership>, announce: bool): E.State {
    s.(roster := Staying(s.roster, MemberIds(members)),
       events := s.events + LeftEvents(s.roster, MemberIds(members), s.cfg.own, announce),
       speech := Speakers.Remove(s.speech, E.Gone(s, members)),
       keys := Keys.Forget(s.keys, E.Gone(s, members)))
  }

  /** Its arrivals. */
  function WithJoined(s: E.State, members: seq<Membership>, env: E.Env, announce: bool): E.State {
    s.(roster := Welcomed(s.roster, members, E.SeedsOf(s, env)),
       events := s.events + JoinedEvents(s.roster, members, E.SeedsOf(s, env), |MemberIds(members)|, announce))
  }

  lemma RepeopledIs(s: E.State, members: seq<Membership>, env: E.Env, announce: bool)
    ensures Repeopled(s, members, env, announce) == WithJoined(WithoutDeparted(s, members, announce), members, env, announce)
  {
  }

  function LocalShown(s: E.State): E.State {
    s.(out := s.out.(local := E.Local(s)))
  }

  function OrderShown(s: E.State, remote: seq<CallTile>, env: E.Env): E.State {
    var order := Reorder.Publish(s.order, Ids(remote), env.now, s.cfg.coalesce);
    s.(order := order, out := s.out.(tiles := Windowed(Reorder.Records(order.held, remote), s.window)))
  }

  /** A publication is our local state, then the order. */
  lemma PublishedIs(s: E.State, env: E.Env)
    ensures E.PublishTiles(s, env) == OrderShown(LocalShown(s), E.Derived(s), env)
  {
  }

  /** Closing the open window. */
  lemma ClosedIs(s: E.State, f: Reorder.Flush)
    requires s.order.pending == Some(f.generation)
    ensures var remote := E.Derived(s);
      E.CloseWindow(s, f) == s.(
        order := Reorder.Order(Ids(remote), None, s.order.generation, s.order.flushes - {f},
                               s.order.log + [Reorder.Publication(Ids(remote), Ids(remote), true)]),
        out := s.out.(tiles := Windowed(remote, s.window), local := E.Local(s)))
  {
  }

  lemma IndexCovers(roster: seq<Participant>, index: map<MemberId, nat>)
    requires forall m | m in index :: index[m] < |roster| && roster[index[m]].id == m
    requires forall j | 0 <= j < |roster| :: roster[j].id in index
    ensures forall m :: m in index <==> m in IdsOf(roster)
  {
  }

  // ---- the actor -------------------------------------------------------------------------

  class Actor {
    const cfg: E.Config
    var roster: seq<Participant>
    var speaking: set<MemberId>
    var speakers: map<MemberId, Speakers.SpeakerState>
    var speakerTimers: set<Speakers.Timer>
    var lastOrder: seq<TileId>
    var pendingReorder: Option<nat>
    var reorderGeneration: nat
    var flushes: set<Reorder.Flush>
    var sent: seq<Reorder.Publication>
    var keys: Keys.Keys
    var localTracks: Publications.Publications
    var raisedHands: seq<RaisedHand>
    var coreLapsed: bool
    var observedLapse: bool
    var arrived: bool
    var ended: bool
    var window: DetailWindow
    var rankingThreshold: nat
    var out: E.Out
    var events: seq<CallEvent>
    var arrivalIds: set<MemberId>
    var turn: nat
    var lastTurn: nat

    function Speech(): Speakers.Speech
      reads this
    {
      Speakers.Speech(speaking, speakers, speakerTimers)
    }

    function Order(): Reorder.Order
      reads this
    {
      Reorder.Order(lastOrder, pendingReorder, reorderGeneration, flushes, sent)
    }

    function View(): E.State
      reads this
    {
      E.State(cfg, roster, Speech(), Order(), keys, localTracks, raisedHands, coreLapsed, observedLapse, arrived, ended,
              window, rankingThreshold, out, events, arrivalIds, turn, lastTurn)
    }

    ghost predicate Valid()
      reads this
    {
      WellFormed(roster, cfg.own)
    }

    constructor (cfg: E.Config)
      ensures Valid() && View() == E.Init(cfg)
    {
      this.cfg := cfg;
      roster, speaking, speakers, speakerTimers := [], {}, map[], {};
      lastOrder, pendingReorder, reorderGeneration, flushes, sent := [], None, 0, {}, [];
      keys, localTracks, raisedHands := Keys.NO_KEYS, map[], [];
      coreLapsed, observedLapse, arrived, ended := false, false, false, false;
      window, rankingThreshold := DetailWindow(0, 0xFFFF_FFFF, {}), 0;
      out, events, arrivalIds, turn, lastTurn := E.Out([], TileRoster([], []), None), [], {}, 0, 0;
    }

    // ---- publishing ----------------------------------------------------------------------

    method PublishLocal(own: Option<CallTile>)
      requires own == OwnTile(roster, Speakers.RawSpeaking(Speech()))
      modifies `out
      ensures View() == LocalShown(old(View()))
    {
      var local := match own
        case None => None
        case Some(t) => Some(E.LocalState(t, E.SharingScreen(roster)));
      out := out.(local := local);
    }

    method SendTiles(list: seq<CallTile>, derived: seq<TileId>, flushed: bool)
      modifies `out, `sent
      ensures out == old(out).(tiles := Windowed(list, window))
      ensures sent == old(sent) + [Reorder.Publication(lastOrder, derived, flushed)]
    {
      var tiles := Window(list, window);
      out := out.(tiles := tiles);
      sent := sent + [Reorder.Publication(lastOrder, derived, flushed)];
    }

    /** Departed tiles leave the held order at once; joiners wait. */
    method HoldOrder(remote: seq<CallTile>) returns (held: seq<CallTile>)
      requires NoDuplicates(Ids(remote))
      modifies `lastOrder
      ensures lastOrder == Retain(old(lastOrder), ToSet(Ids(remote)))
      ensures ToSet(lastOrder) <= ToSet(Ids(remote)) && held == Reorder.Records(lastOrder, remote)
    {
      var byId: map<TileId, CallTile> := map[];
      for i := 0 to |remote|
        invariant ById(byId, remote[..i])
      {
        assert remote[..i + 1] == remote[..i] + [remote[i]];
        assert Ids(remote[..i + 1]) == Ids(remote[..i]) + [remote[i].Id()];
        assert forall j | 0 <= j < i :: Ids(remote)[j] != Ids(remote)[i];
        byId := byId[remote[i].Id() := remote[i]];
      }
      assert remote[..|remote|] == remote;
      ghost var keep := ToSet(Ids(remote));
      var order: seq<TileId> := [];
      held := [];
      for i := 0 to |lastOrder|
        invariant lastOrder == old(lastOrder)
        invariant order == Retain(lastOrder[..i], keep) && |held| == |order|
        invariant forall k | 0 <= k < |order| :: order[k] in byId && held[k] == byId[order[k]]
      {
        RetainOneMore(lastOrder, keep, i);
        if lastOrder[i] in byId {
          order := order + [lastOrder[i]];
          held := held + [byId[lastOrder[i]]];
        }
      }
      assert lastOrder[..|lastOrder|] == lastOrder;
      lastOrder := order;
      forall k | 0 <= k < |order| ensures order[k] in keep && held[k] == Reorder.RecordOf(remote, order[k]) {
        ByIdIsRecord(byId, remote, order[k]);
      }
      assert held == Reorder.Records(lastOrder, remote);
    }

    method PublishTiles(env: E.Env)
      requires Valid()
      modifies `lastOrder, `pendingReorder, `reorderGeneration, `flushes, `sent, `out
      ensures View() == E.PublishTiles(old(View()), env)
    {
      PublishedIs(View(), env);
      var remote, own := Derive();
      PublishLocal(own);
      PublishOrder(remote, env);
    }

    method PublishOrder(remote: seq<CallTile>, env: E.Env)
      requires NoDuplicates(Ids(remote))
      modifies `lastOrder, `pendingReorder, `reorderGeneration, `flushes, `sent, `out
      ensures View() == OrderShown(old(View()), remote, env)
    {
      PublishOrdered(remote, env.now);
    }

    method Derive() returns (remote: seq<CallTile>, own: Option<CallTile>)
      requires Valid()
      ensures remote == E.Derived(View()) && NoDuplicates(Ids(remote))
      ensures own == OwnTile(roster, Speakers.RawSpeaking(Speech()))
    {
      var raw := Speakers.RawSpeaking(Speech());
      remote, own := DeriveTiles(roster, raw, speaking, rankingThreshold);
      DeriveFacts(roster, raw, speaking, rankingThreshold);
    }

    method PublishOrdered(remote: seq<CallTile>, now: nat)
      requires NoDuplicates(Ids(remote))
      modifies `lastOrder, `pendingReorder, `reorderGeneration, `flushes, `sent, `out
      ensures Order() == Reorder.Publish(old(Order()), Ids(remote), now, cfg.coalesce)
      ensures ToSet(lastOrder) <= ToSet(Ids(remote))
      ensures out == old(out).(tiles := Windowed(Reorder.Records(lastOrder, remote), window))
    {
      var order := Ids(remote);
      if order == lastOrder || lastOrder == [] {
        Reorder.RecordsOfDerived(remote);
        lastOrder := order;
        SendTiles(remote, order, false);
        return;
      }
      if pendingReorder.None? {
        reorderGeneration := reorderGeneration + 1;
        pendingReorder := Some(reorderGeneration);
        flushes := flushes + {Reorder.Flush(reorderGeneration, now + cfg.coalesce)};
      }
      var held := HoldOrder(remote);
      SendTiles(held, order, false);
    }

    /** The coalesce window closed. */
    method PublishTilesReordered() returns (remote: seq<CallTile>, ghost local: Option<E.LocalState>)
      requires Valid()
      modifies `lastOrder, `sent, `out
      ensures remote == E.Derived(old(View())) && local == E.Local(old(View()))
      ensures lastOrder == Ids(remote) && sent == old(sent) + [Reorder.Publication(lastOrder, lastOrder, true)]
      ensures out == old(out).(tiles := Windowed(remote, window), local := local)
    {
      var own;
      remote, own := Derive();
      local := E.Local(View());
      PublishLocal(own);
      lastOrder := Ids(remote);
      SendTiles(remote, lastOrder, true);
    }

    method PublishRoster(env: E.Env)
      requires Valid()
      modifies `lastOrder, `pendingReorder, `reorderGeneration, `flushes, `sent, `out
      ensures View() == E.PublishRoster(old(View()), env)
    {
      out := out.(participants := roster);
      PublishTiles(env);
    }

    // ---- streams ---------------------------------------------------------------------------

    method Find(m: MemberId) returns (i: Option<nat>)
      requires Valid()
      ensures i.Some? ==> i.value < |roster| && roster[i.value].id == m
      ensures i.None? ==> forall p | p in roster :: p.id != m
    {
      for k := 0 to |roster|
        invariant forall j | 0 <= j < k :: roster[j].id != m
      {
        if roster[k].id == m {
          return Some(k);
        }
      }
      return None;
    }

    /** A stream that came up, a member's or our own. */
    method AddStream(m: MemberId, kind: StreamKind, muted: bool, env: E.Env)
      requires Valid()
      modifies `roster, `lastOrder, `pendingReorder, `reorderGeneration, `flushes, `sent, `out
      ensures Valid() && View() == E.Rostered(old(View()), WithStream(old(roster), m, kind, muted), env)
    {
      KeepsLocal(roster, WithStream(roster, m, kind, muted), cfg.own);
      var i := Find(m);
      if i.None? {
        Nowhere(roster, m, kind, muted);
        return;
      }
      var p := roster[i.value];
      StreamAt(roster, i.value, kind, muted);
      if FindStream(p.streams, kind).Some? {
        return;
      }
      roster := roster[i.value := p.(streams := p.streams + [Stream(kind, muted)])];
      PublishRoster(env);
    }

    method RemoveStream(m: MemberId, kind: StreamKind, env: E.Env)
      requires Valid()
      modifies `roster, `lastOrder, `pendingReorder, `reorderGeneration, `flushes, `sent, `out
      ensures Valid() && View() == E.Rostered(old(View()), WithoutStream(old(roster), m, kind), env)
    {
      KeepsLocal(roster, WithoutStream(roster, m, kind), cfg.own);
      var i := Find(m);
      if i.None? {
        Nowhere(roster, m, kind, false);
        return;
      }
      var p := roster[i.value];
      DropAt(roster, i.value, kind);
      var had := FindStream(p.streams, kind).Some?;
      roster := roster[i.value := p.(streams := Dropped(p.streams, kind))];
      if had {
        PublishRoster(env);
      }
    }

    method SetMemberMuted(m: MemberId, kind: StreamKind, muted: bool, env: E.Env)
      requires Valid()
      modifies `roster, `lastOrder, `pendingReorder, `reorderGeneration, `flushes, `sent, `out
      ensures Valid() && View() == E.Rostered(old(View()), WithMute(old(roster), m, kind, muted), env)
    {
      KeepsLocal(roster, WithMute(roster, m, kind, muted), cfg.own);
      var i := Find(m);
      if i.None? {
        Nowhere(roster, m, kind, muted);
        return;
      }
      var p := roster[i.value];
      MuteAt(roster, i.value, kind, muted);
      var stream := FindStream(p.streams, kind);
      if stream.None? || stream.value.muted == muted {
        return;
      }
      roster := roster[i.value := p.(streams := Remuted(p.streams, kind, muted))];
      PublishRoster(env);
    }

    // ---- speakers -----------------------------------------------------------------------------

    method ApplyRawSpeakers(raw: set<MemberId>, env: E.Env)
      requires Valid()
      modifies `speakers, `speakerTimers, `lastOrder, `pendingReorder, `reorderGeneration, `flushes, `sent, `out
      ensures View() == E.SpeakersHeard(old(View()), raw, env)
    {
      var rawChanged := Hear(raw, env.now);
      if rawChanged {
        PublishTiles(env);
      }
    }

    method Hear(raw: set<MemberId>, now: nat) returns (rawChanged: bool)
      modifies `speakers, `speakerTimers
      ensures Speech() == Speakers.ApplyRaw(old(Speech()), raw, now, turn, cfg.delays)
      ensures rawChanged == Speakers.RawChanges(old(Speech()), raw)
    {
      ghost var start := Speech();
      ghost var ids := speakers.Keys + raw;
      HeardAll(start, raw, now, turn, cfg.delays);
      rawChanged := false;
      var todo := speakers.Keys + raw;
      while todo != {}
        invariant todo <= ids
        invariant Speech() == PartlyHeard(start, raw, now, turn, cfg.delays, ids - todo)
        invariant rawChanged <==> exists m :: m in ids - todo && Speakers.Raw(start, m) != (m in raw)
        decreases todo
      {
        var m :| m in todo;
        HeardOneMore(start, raw, now, turn, cfg.delays, ids - todo, m);
        assert ids - (todo - {m}) == ids - todo + {m};
        var moved := HearOne(m, m in raw, now);
        rawChanged := rawChanged || moved;
        todo := todo - {m};
      }
      assert ids - {} == ids;
    }

    /** One member's part of the update. */
    method HearOne(m: MemberId, isRaw: bool, now: nat) returns (moved: bool)
      modifies `speakers, `speakerTimers
      ensures moved == (Speakers.Raw(old(Speech()), m) != isRaw)
      ensures speakers == old(speakers)[m := Speakers.Heard(Speakers.StateOf(old(Speech()), m), isRaw)]
      ensures speakerTimers == old(speakerTimers) +
        (if Speakers.Raw(old(Speech()), m) != isRaw && isRaw != (m in speaking)
         then {Speakers.Timer(m, Speakers.Gen(old(Speech()), m) + 1, now + Speakers.Delay(cfg.delays, isRaw), turn)} else {})
    {
      var state := if m in speakers then speakers[m] else Speakers.SpeakerState(false, 0);
      speakers := speakers[m := state];
      if state.raw == isRaw {
        return false;
      }
      moved := true;
      state := Speakers.SpeakerState(isRaw, state.generation + 1);
      speakers := speakers[m := state];
      if isRaw == (m in speaking) {
        return;
      }
      var delay := if isRaw then cfg.delays.promote else cfg.delays.demote;
      speakerTimers := speakerTimers + {Speakers.Timer(m, state.generation, now + delay, turn)};
    }

    // ---- encryption ----------------------------------------------------------------------------

    /** Records the state; the pool is asked again only when the member starts or stops failing. */
    method EncryptionStateChanged(m: MemberId, state: Keys.FrameState, now: nat)
      modifies `keys
      ensures keys == Keys.FrameChanged(old(keys), m, state, now, cfg.keyGrace)
    {
      var failing := Keys.Failing(keys, m);
      keys := keys.(states := keys.states[m := state], log := keys.log + [Keys.Became(now, m, state)]);
      if failing != state.Failure() {
        Reprobe(m, state.Failure());
      }
      if !state.Failure() {
        keys := keys.(since := keys.since - {m});
      } else if m !in keys.since {
        keys := keys.(since := keys.since[m := now], wakeups := keys.wakeups + {now + cfg.keyGrace});
      }
    }

    method Reprobe(m: MemberId, undecryptable: bool)
      modifies `keys
      ensures keys == old(keys).(given := old(keys).given + Keys.Reprobed(old(keys), m, undecryptable))
    {
      ghost var start := keys;
      ghost var goal := Keys.Reprobed(start, m, undecryptable);
      var streams := set key | key in keys.host && key.0 == m;
      var given := keys.given;
      while streams != {}
        invariant streams <= goal.Keys && keys == start
        invariant given.Keys == start.given.Keys + (goal.Keys - streams)
        invariant forall key | key in given :: given[key] == if key in goal && key !in streams then goal[key] else start.given[key]
        decreases streams
      {
        var key :| key in streams;
        given := given[key := Keys.Probe(key.1, keys.host[key], undecryptable)];
        streams := streams - {key};
      }
      assert given == start.given + goal;
      keys := keys.(given := given);
    }

    // ---- the pool's events ------------------------------------------------------------------------

    method ApplyPoolEvent(e: E.PoolEvent, env: E.Env)
      requires Valid()
      modifies this
      ensures Valid() && View() == E.PoolStep(old(View()), e, env)
    {
      match e {
        case StreamAdded(m, kind) => AddStream(m, kind, false, env);
        case StreamRemoved(m, kind) => RemoveStream(m, kind, env);
        case StreamMuted(m, kind, muted) => SetMemberMuted(m, kind, muted, env);
        case ActiveSpeakers(raw) => ApplyRawSpeakers(raw, env);
        case EncryptionChanged(m, frames) => EncryptionStateChanged(m, frames, env.now);
        case ClearSender(m) => keys := keys.(clear := keys.clear + {m});
        case OwnConnectionLost => ended := true;
      }
    }

    method ApplyPoolEvents(pool: seq<E.PoolEvent>, env: E.Env)
      requires Valid()
      modifies this
      ensures Valid() && View() == E.PoolSteps(old(View()), pool, env)
    {
      for i := 0 to |pool|
        invariant Valid() && View() == E.PoolSteps(old(View()), pool[..i], env)
      {
        assert pool[..i + 1][..i] == pool[..i];
        ApplyPoolEvent(pool[i], env);
      }
      assert pool[..|pool|] == pool;
    }

    // ---- membership ----------------------------------------------------------------------------------

    /** Our live publications and the mute state we last applied to them, in the order of their kinds. */
    method OwnPublishedStreams(m: MemberId) returns (streams: seq<Stream>)
      ensures streams == if m == cfg.own then StreamsIn(localTracks, KindOrder()) else []
    {
      streams := [];
      if m != cfg.own {
        return;
      }
      var kinds := KindOrder();
      for k := 0 to |kinds|
        invariant streams + StreamsIn(localTracks, kinds[k..]) == StreamsIn(localTracks, kinds)
      {
        if kinds[k] in localTracks {
          streams := streams + [Stream(kinds[k], localTracks[kinds[k]].muted)];
        }
      }
    }

    method AddMember(member: Membership, announce: Option<nat>, env: E.Env)
      modifies `roster, `events
      ensures roster == old(roster) + [Joiner(member, Seeds(cfg.own, raisedHands, localTracks, env.reachable))]
      ensures events == old(events) + if announce.Some? then [ParticipantJoined(member.id, member.sender, announce.value)] else []
    {
      var streams := OwnPublishedStreams(member.id);
      roster := roster + [Participant(
        member.id, member.sender, member.deviceId, member.id == cfg.own,
        if member.id in env.reachable then Connected else Unreachable, None, streams,
        HandTime(raisedHands, member.id), None,
        if member.membershipTs.Some? then member.membershipTs else member.originTs)];
      if announce.Some? {
        events := events + [ParticipantJoined(member.id, member.sender, announce.value)];
      }
    }

    method RemoveMember(m: MemberId, announce: Option<nat>)
      modifies `roster, `speaking, `speakers, `keys, `events
      ensures roster == WithoutMember(old(roster), m)
      ensures Speech() == Speakers.Remove(old(Speech()), {m}) && keys == Forgotten(old(keys), {m})
      ensures events == old(events) + if announce.Some? then [ParticipantLeft(m, announce.value)] else []
    {
      roster := WithoutMember(roster, m);
      keys := keys.(
        states := keys.states - {m}, since := keys.since - {m}, clear := keys.clear - {m},
        host := keys.host - Keys.Of(keys.host, {m}), given := keys.given - Keys.Of(keys.given, {m}));
      speaking := speaking - {m};
      speakers := speakers - {m};
      if announce.Some? {
        events := events + [ParticipantLeft(m, announce.value)];
      }
    }

    /** Where the departures loop is after `i` of the entries it started with. */
    ghost predicate Departing(before: seq<Participant>, i: nat, ids: set<MemberId>, announce: bool,
                              speech: Speakers.Speech, kept: Keys.Keys, said: seq<CallEvent>)
      requires i <= |before|
      reads this
    {
      && roster == Staying(before[..i], ids) + before[i..]
      && events == said + LeftEvents(before[..i], ids, cfg.own, announce)
      && Speech() == Speakers.Remove(speech, GoneIn(before[..i], ids))
      && keys == Forgotten(kept, GoneIn(before[..i], ids))
    }

    method RemoveIfDeparted(ids: set<MemberId>, announce: bool, before: seq<Participant>, i: nat,
                            ghost speech: Speakers.Speech, ghost kept: Keys.Keys, ghost said: seq<CallEvent>)
      requires UniqueMembers(before) && i < |before| && Departing(before, i, ids, announce, speech, kept, said)
      modifies `roster, `speaking, `speakers, `keys, `events
      ensures Departing(before, i + 1, ids, announce, speech, kept, said)
    {
      var m := before[i].id;
      OneDeparture(before, ids, i);
      ghost var gone := GoneIn(before[..i], ids);
      if m in ids {
        assert gone + {} == gone;
      } else {
        RemovedOneMore(speech, gone, m);
        ForgottenOneMore(kept, gone, m);
        RemoveMember(m, if announce && m != cfg.own then Some(|ids|) else None);
      }
    }

    /** Departures first, so a member id that rejoins starts clean. */
    method RemoveDeparted(ids: set<MemberId>, announce: bool)
      requires Valid()
      modifies `roster, `speaking, `speakers, `keys, `events
      ensures roster == Staying(old(roster), ids)
      ensures events == old(events) + LeftEvents(old(roster), ids, cfg.own, announce)
      ensures Speech() == Speakers.Remove(old(Speech()), GoneIn(old(roster), ids))
      ensures keys == Forgotten(old(keys), GoneIn(old(roster), ids))
    {
      var before := roster;
      ghost var speech, kept, said := Speech(), keys, events;
      RemovedOneMore(speech, {}, "");
      ForgottenOneMore(kept, {}, "");
      assert before[..0] == [] && before[0..] == before && GoneIn([], ids) == {};
      for i := 0 to |before|
        invariant Departing(before, i, ids, announce, speech, kept, said)
      {
        RemoveIfDeparted(ids, announce, before, i, speech, kept, said);
      }
      assert before[..|before|] == before && before[|before|..] == [];
    }

    method AddJoined(members: seq<Membership>, announce: bool, count: nat, env: E.Env)
      modifies `roster, `events
      ensures var seeds := Seeds(cfg.own, raisedHands, localTracks, env.reachable);
        && roster == Welcomed(old(roster), members, seeds)
        && events == old(events) + JoinedEvents(old(roster), members, seeds, count, announce)
    {
      ghost var seeds := Seeds(cfg.own, raisedHands, localTracks, env.reachable);
      for i := 0 to |members|
        invariant roster == Welcomed(old(roster), members[..i], seeds)
        invariant events == old(events) + JoinedEvents(old(roster), members[..i], seeds, count, announce)
      {
        MembersPrefix(members, i);
        if forall p | p in roster :: p.id != members[i].id {
          AddMember(members[i], if announce && members[i].id != cfg.own then Some(count) else None, env);
        }
      }
      assert members[..|members|] == members;
    }

    method DropDeparted(members: seq<Membership>, announce: bool)
      requires Valid()
      modifies `roster, `speaking, `speakers, `keys, `events
      ensures View() == WithoutDeparted(old(View()), members, announce)
    {
      var gone := GoneIn(roster, MemberIds(members));
      RemoveDeparted(MemberIds(members), announce);
      keys := keys.(log := keys.log + [Keys.Left(gone)]);
    }

    method WelcomeJoined(members: seq<Membership>, announce: bool, env: E.Env)
      modifies `roster, `events
      ensures View() == WithJoined(old(View()), members, env, announce)
    {
      AddJoined(members, announce, |MemberIds(members)|, env);
    }

    /** The roster becomes the snapshot's members. */
    method Repeople(members: seq<Membership>, announce: bool, env: E.Env)
      requires Valid()
      modifies `roster, `speaking, `speakers, `keys, `events
      ensures View() == Repeopled(old(View()), members, env, announce)
    {
      RepeopledIs(View(), members, env, announce);
      DropDeparted(members, announce);
      WelcomeJoined(members, announce, env);
    }

    method NoteArrival(withUs: bool)
      modifies `arrived, `observedLapse
      ensures View() == Noted(old(View()), withUs)
    {
      arrived := arrived || withUs;
      observedLapse := arrived && !withUs;
    }

    method Reconcile(members: seq<Membership>, env: E.Env)
      requires Valid()
      modifies this
      ensures Valid() && View() == InSteps(old(View()), members, env)
    {
      var withUs := cfg.own in MemberIds(members);
      var announce, first := arrived && !ended, !arrived && withUs;
      NoteArrival(withUs);
      SnapshotValid(roster, members, E.SeedsOf(View(), env));
      Repeople(members, announce, env);
      if first {
        arrivalIds := Others(roster, cfg.own);
      }
    }

    method ApplySnapshot(members: seq<Membership>, pool: seq<E.PoolEvent>, env: E.Env)
      requires Valid()
      modifies this
      ensures Valid() && View() == E.ApplySnapshot(old(View()), members, pool, env)
    {
      ReconciledInSteps(View(), members, env);
      Reconcile(members, env);
      ApplyPoolEvents(pool, env);
      RefreshHandPositions();
      PublishRoster(env);
    }

    // ---- hands ------------------------------------------------------------------------------------------

    /** Numbers the rostered hands 1, 2, … in the queue's order. */
    method RefreshHandPositions()
      requires Valid()
      modifies `roster
      ensures Valid() && View() == E.Renumbered(old(View()))
    {
      var index := IndexOf(roster);
      var positions := NumberHands(roster, index, raisedHands);
      SetPositions(positions, IdsOf(roster));
    }

    static method IndexOf(entries: seq<Participant>) returns (index: map<MemberId, nat>)
      requires UniqueMembers(entries)
      ensures forall m | m in index :: index[m] < |entries| && entries[index[m]].id == m
      ensures forall m :: m in index <==> m in IdsOf(entries)
    {
      index := map[];
      for i := 0 to |entries|
        invariant forall m | m in index :: index[m] < |entries| && entries[index[m]].id == m
        invariant forall j | 0 <= j < i :: entries[j].id in index && index[entries[j].id] == j
      {
        index := index[entries[i].id := i];
      }
      IndexCovers(entries, index);
    }

    static method NumberHands(entries: seq<Participant>, index: map<MemberId, nat>, hands: seq<RaisedHand>)
      returns (positions: seq<Option<nat>>)
      requires UniqueMembers(entries)
      requires forall m | m in index :: index[m] < |entries| && entries[index[m]].id == m
      requires forall m :: m in index <==> m in IdsOf(entries)
      ensures |positions| == |entries|
      ensures forall i | 0 <= i < |entries| :: positions[i] == PositionIn(hands, IdsOf(entries), entries[i].id)
    {
      ghost var rostered := IdsOf(entries);
      positions := seq(|entries|, _ => None);
      var next := 1;
      for j := 0 to |hands|
        invariant |positions| == |entries| && next == 1 + CountIn(hands[..j], rostered)
        invariant forall i | 0 <= i < |entries| :: positions[i] == PositionIn(hands[..j], rostered, entries[i].id)
      {
        OneMoreHand(hands, j, rostered);
        var m := hands[j].member;
        if m in index {
          positions := positions[index[m] := Some(next)];
          next := next + 1;
        }
      }
      assert hands[..|hands|] == hands;
    }

    method SetPositions(positions: seq<Option<nat>>, ghost rostered: set<MemberId>)
      requires Valid() && |positions| == |roster| && rostered == IdsOf(roster)
      requires forall i | 0 <= i < |roster| :: positions[i] == PositionIn(raisedHands, rostered, roster[i].id)
      modifies `roster
      ensures Valid() && roster == WithPositions(old(roster), raisedHands)
    {
      ghost var before := roster;
      for i := 0 to |roster|
        invariant |roster| == |before| && forall k | 0 <= k < |before| ::
          roster[k] == if k < i then before[k].(handPosition := positions[k]) else before[k]
      {
        roster := roster[i := roster[i].(handPosition := positions[i])];
      }
      assert roster == WithPositions(before, raisedHands);
      assert forall p | p in roster :: exists k :: 0 <= k < |before| && p.id == before[k].id && p.isLocal == before[k].isLocal && before[k] in before;
    }

    /** Where the hands loop is after `i` entries. */
    ghost predicate Taking(before: seq<Participant>, i: nat, hands: seq<RaisedHand>)
      reads this
    {
      |roster| == |before| && forall k | 0 <= k < |before| ::
        roster[k] == if k < i then before[k].(handAt := HandTime(hands, before[k].id)) else before[k]
    }

    /** One entry's hand time, and whether that is news. */
    method TakeHand(i: nat, hands: seq<RaisedHand>, ghost before: seq<Participant>) returns (moved: bool, news: seq<CallEvent>)
      requires i < |before| && Taking(before, i, hands)
      modifies `roster
      ensures Taking(before, i + 1, hands)
      ensures moved == (before[i].handAt != HandTime(hands, before[i].id)) && news == HandEvents([before[i]], hands)
    {
      var p := roster[i];
      assert p == before[i] && [p][..0] == [];
      var hand := Lookup(hands, p.id);
      var now := match hand case None => None case Some(h) => Some(h.raisedAt);
      moved, news := p.handAt != now, [];
      if moved {
        roster := roster[i := p.(handAt := now)];
        if hand.None? {
          news := [HandLowered(p.id)];
        } else if p.handAt.None? && !hand.value.fromBackfill {
          news := [HandRaised(p.id, hand.value.raisedAt)];
        }
      }
    }

    /** The roster entries' hand times, and the news in them. */
    method TakeHands(hands: seq<RaisedHand>) returns (changed: bool, news: seq<CallEvent>)
      requires Valid()
      modifies `roster
      ensures Valid() && roster == WithHands(old(roster), hands)
      ensures changed == (roster != old(roster)) && news == HandEvents(old(roster), hands)
    {
      ghost var before := roster;
      changed, news := false, [];
      for i := 0 to |roster|
        invariant Taking(before, i, hands)
        invariant changed <==> exists k :: 0 <= k < i && before[k].handAt != HandTime(hands, before[k].id)
        invariant news == HandEvents(before[..i], hands)
      {
        HandsPrefix(before, hands, i);
        var moved, more := TakeHand(i, hands, before);
        changed, news := changed || moved, news + more;
      }
      assert before[..|before|] == before;
      TakenAll(before, roster, hands);
      HandsKeepValid(before, hands, cfg.own);
    }

    method Say(news: seq<CallEvent>)
      modifies `events
      ensures events == old(events) + news
    {
      events := events + news;
    }

    /** Takes the hands in, and says what is news if it is to be said. */
    method TakeNews(hands: seq<RaisedHand>, say: bool) returns (changed: bool)
      requires Valid()
      modifies `raisedHands, `roster, `events
      ensures Valid() && changed == (WithHands(old(roster), hands) != old(roster))
      ensures raisedHands == hands && roster == WithHands(old(roster), hands)
      ensures changed ==> events == old(events) + if say then HandEvents(old(roster), hands) else []
      ensures !changed ==> events == old(events)
    {
      raisedHands := hands;
      var news;
      changed, news := TakeHands(hands);
      if changed {
        Say(if say then news else []);
      }
    }

    method TakeIn(hands: seq<RaisedHand>, say: bool) returns (changed: bool, ghost said: seq<CallEvent>)
      requires Valid()
      modifies `raisedHands, `roster, `events
      ensures Valid() && changed == (WithHands(old(roster), hands) != old(roster))
      ensures said == if say then HandEvents(old(roster), hands) else []
      ensures View() == if changed then WithNews(old(View()), hands, said) else old(View()).(hands := hands)
    {
      said := if say then HandEvents(roster, hands) else [];
      changed := TakeNews(hands, say);
    }

    method ApplyRaisedHands(hands: seq<RaisedHand>, announce: bool, env: E.Env)
      requires Valid()
      modifies this
      ensures Valid() && View() == E.ApplyHands(old(View()), hands, announce, env)
    {
      ghost var s := View();
      var changed, said := TakeIn(hands, announce && arrived && !ended);
      if changed {
        RefreshHandPositions();
        PublishRoster(env);
      }
      HandsAre(s, hands, announce, env, said);
    }

    // ---- the end of every turn ------------------------------------------------------------------------------

    /** Mutes or restores each publication that is not where the pause puts it; the transport refuses `refused`. */
    method ApplyPause(refused: set<StreamKind>)
      modifies `localTracks
      ensures localTracks == Publications.Paused(old(localTracks), E.Lapsed(View()), refused)
    {
      var paused := E.Lapsed(View());
      ghost var start := localTracks;
      ghost var goal := Publications.Paused(start, paused, refused);
      var kinds := localTracks.Keys;
      while kinds != {}
        invariant kinds <= start.Keys && localTracks.Keys == start.Keys
        invariant forall kind | kind in start :: localTracks[kind] == if kind in kinds then start[kind] else goal[kind]
        decreases kinds
      {
        var kind :| kind in kinds;
        var p := localTracks[kind];
        var effective := p.muted || paused;
        if p.applied != effective && kind !in refused {
          localTracks := localTracks[kind := p.(applied := effective)];
        }
        kinds := kinds - {kind};
      }
      assert localTracks == goal;
    }

    /** Each entry's connection and decryptability, read back from the pool and the key state. */
    method ReadBack(env: E.Env) returns (changed: bool)
      requires Valid()
      modifies `roster
      ensures Valid() && roster == E.Synced(old(View()), env) && changed == (roster != old(roster))
    {
      ghost var before := roster;
      ghost var goal := E.Synced(View(), env);
      changed := false;
      for i := 0 to |roster|
        invariant |roster| == |before| == |goal|
        invariant forall k | 0 <= k < |before| :: roster[k] == if k < i then goal[k] else before[k]
        invariant changed <==> exists k :: 0 <= k < i && goal[k] != before[k]
      {
        var p := roster[i];
        var connection, unable := env.ownConnection, None;
        if !p.isLocal {
          connection := if p.id in env.connections then env.connections[p.id] else Connected;
          unable := Keys.UnableOf(keys, p.id, p.streams != [], env.now, cfg.keyGrace);
        }
        assert goal[i] == p.(connection := connection, unable := unable);
        if p.connection != connection || p.unable != unable {
          roster := roster[i := p.(connection := connection, unable := unable)];
          changed := true;
        }
      }
      assert roster == goal;
      KeepsLocal(before, roster, cfg.own);
    }

    method SyncRoster(env: E.Env)
      requires Valid()
      modifies this
      ensures Valid() && View() == E.Rostered(old(View()), E.Synced(old(View()), env), env)
    {
      var changed := ReadBack(env);
      if changed {
        PublishRoster(env);
      }
    }

    method SyncMediaState(env: E.Env)
      requires Valid()
      modifies this
      ensures Valid() && View() == E.Sync(old(View()), env)
    {
      SyncRoster(env);
      ApplyPause(env.refused);
    }

    // ---- messages ---------------------------------------------------------------------------------------------

    /** Applies the timer if its generation is still the member's. */
    method Fire(t: Speakers.Timer) returns (moved: bool)
      modifies `speakerTimers, `speaking
      ensures Speech() == Speakers.Fire(old(Speech()), t) && moved == (speaking != old(speaking))
    {
      speakerTimers := speakerTimers - {t};
      if t.member !in speakers || speakers[t.member].generation != t.generation {
        return false;
      }
      var was := t.member in speaking;
      var now := speakers[t.member].raw;
      speaking := if now then speaking + {t.member} else speaking - {t.member};
      moved := was != now;
    }

    method FireSpeakerTimer(t: Speakers.Timer, env: E.Env)
      requires Valid()
      modifies this
      ensures Valid() && View() == E.TimerFired(old(View()), t, env)
    {
      var moved := Fire(t);
      if moved {
        PublishTiles(env);
      }
    }

    method CloseWindow(f: Reorder.Flush)
      requires Valid()
      modifies `flushes, `pendingReorder, `lastOrder, `sent, `out
      ensures View() == E.CloseWindow(old(View()), f)
    {
      if pendingReorder == Some(f.generation) {
        CloseOpenWindow(f);
      } else {
        flushes := flushes - {f};
      }
    }

    method CloseOpenWindow(f: Reorder.Flush)
      requires Valid() && pendingReorder == Some(f.generation)
      modifies `flushes, `pendingReorder, `lastOrder, `sent, `out
      ensures View() == E.CloseWindow(old(View()), f)
    {
      ghost var s := View();
      ClosedIs(s, f);
      Reordered(f, s);
    }

    method Reordered(f: Reorder.Flush, ghost s: E.State)
      requires Valid() && s == View()
      modifies `flushes, `pendingReorder, `lastOrder, `sent, `out
      ensures var ids := Ids(E.Derived(s));
        Order() == Reorder.Order(ids, None, s.order.generation, s.order.flushes - {f}, s.order.log + [Reorder.Publication(ids, ids, true)])
      ensures out == s.out.(tiles := Windowed(E.Derived(s), s.window), local := E.Local(s))
    {
      var _, _ := PublishTilesReordered();
      flushes, pendingReorder := flushes - {f}, None;
    }

    method PublishedLocally(kind: StreamKind, muted: bool, track: nat, env: E.Env)
      requires Valid()
      modifies this
      ensures Valid() && View() == E.PublishedOwn(old(View()), kind, muted, track, env)
    {
      localTracks := localTracks[kind := Publications.Publication(track, muted, muted)];
      AddStream(cfg.own, kind, muted, env);
    }

    method UnpublishedLocally(kind: StreamKind, track: nat, env: E.Env)
      requires Valid()
      modifies this
      ensures Valid() && View() == E.UnpublishedOwn(old(View()), kind, track, env)
    {
      if kind in localTracks && localTracks[kind].track == track {
        localTracks := localTracks - {kind};
        RemoveStream(cfg.own, kind, env);
      }
    }

    /** The user's mute is kept apart from what the transport is told, which the pause can force. */
    method MuteLocally(kind: StreamKind, muted: bool, env: E.Env) returns (ok: bool)
      requires Valid()
      modifies this
      ensures Valid() && View() == E.MutedOwn(old(View()), kind, muted, env)
      ensures ok <==> kind in old(localTracks) && kind !in env.refused
    {
      ok := kind in localTracks && kind !in env.refused;
      if ok {
        MutedIs(View(), kind, muted, env);
        MuteAccepted(kind, muted, env);
      }
    }

    method MuteAccepted(kind: StreamKind, muted: bool, env: E.Env)
      requires Valid() && kind in localTracks
      modifies this
      ensures Valid()
      ensures View() == E.Rostered(MutedPubs(old(View()), kind, muted), WithMute(old(roster), cfg.own, kind, muted), env)
    {
      var paused := E.Lapsed(View());
      localTracks := localTracks[kind := localTracks[kind].(muted := muted, applied := muted || paused)];
      SetMemberMuted(cfg.own, kind, muted, env);
    }

    method Start(members: seq<Membership>, pool: seq<E.PoolEvent>, hands: seq<RaisedHand>, env: E.Env)
      requires Valid()
      modifies this
      ensures Valid() && View() == E.Started(old(View()), members, pool, hands, env)
    {
      ApplySnapshot(members, pool, env);
      ApplyRaisedHands(hands, false, env);
    }

    method HandleMembership(input: E.Input, env: E.Env)
      requires Valid() && (input.Start? || input.Members? || input.Hands?)
      modifies this
      ensures Valid() && View() == E.Handle(old(View()), input, env)
    {
      if input.Hands? {
        ApplyRaisedHands(input.hands, true, env);
      } else if input.Members? {
        ApplySnapshot(input.members, input.pool, env);
      } else {
        Start(input.members, input.pool, input.hands, env);
      }
    }

    method HandlePublished(input: E.Input, env: E.Env)
      requires Valid() && input.LocalPublished?
      modifies this
      ensures Valid() && View() == E.Handle(old(View()), input, env)
    {
      PublishedLocally(input.kind, input.muted, input.track, env);
    }

    method HandleUnpublished(input: E.Input, env: E.Env)
      requires Valid() && input.LocalUnpublished?
      modifies this
      ensures Valid() && View() == E.Handle(old(View()), input, env)
    {
      UnpublishedLocally(input.kind, input.track, env);
    }

    method HandleMute(input: E.Input, env: E.Env)
      requires Valid() && input.SetLocalMuted?
      modifies this
      ensures Valid() && View() == E.Handle(old(View()), input, env)
    {
      var _ := MuteLocally(input.kind, input.muted, env);
    }

    method SetDetailWindow(w: DetailWindow, env: E.Env)
      requires Valid()
      modifies this
      ensures Valid() && View() == E.WindowMoved(old(View()), w, env)
    {
      window := w;
      PublishTiles(env);
    }

    method SetRankingThreshold(n: nat, env: E.Env)
      requires Valid()
      modifies this
      ensures Valid() && View() == E.ThresholdMoved(old(View()), n, env)
    {
      rankingThreshold := n;
      PublishTiles(env);
    }

    method HandleKeys(input: E.Input, env: E.Env)
      requires Valid() && (input.SetConstraints? || input.KeyGrace?)
      modifies `keys
      ensures View() == E.Handle(old(View()), input, env)
    {
      if input.SetConstraints? {
        var key := (input.member, input.kind);
        keys := keys.(host := keys.host[key := input.constraints],
                      given := keys.given[key := Keys.Probe(input.kind, input.constraints, Keys.Failing(keys, input.member))]);
      } else {
        keys := keys.(wakeups := keys.wakeups - {input.due});
      }
    }

    method HandleMessage(input: E.Input, env: E.Env)
      requires Valid()
      modifies this
      ensures Valid() && View() == E.Handle(old(View()), input, env)
    {
      if input.Start? || input.Members? || input.Hands? {
        HandleMembership(input, env);
      } else if input.LocalPublished? {
        HandlePublished(input, env);
      } else if input.LocalUnpublished? {
        HandleUnpublished(input, env);
      } else if input.SetLocalMuted? {
        HandleMute(input, env);
      } else if input.FlushReorder? {
        CloseWindow(input.flush);
      } else if input.SetWindow? {
        SetDetailWindow(input.window, env);
      } else if input.SetThreshold? {
        SetRankingThreshold(input.threshold, env);
      } else if input.SetConstraints? || input.KeyGrace? {
        HandleKeys(input, env);
      } else if input.FromPool? {
        ApplyPoolEvents(input.pool, env);
      } else if input.SpeakerTimer? {
        FireSpeakerTimer(input.timer, env);
      } else if input.Lapse? {
        coreLapsed := input.lapsed;
      } else {
        ended := true;
      }
    }

    /** A message, and the sync after it. */
    method HandleAndSync(input: E.Input, env: E.Env)
      requires Valid()
      modifies this
      ensures Valid() && View() == E.Sync(E.Handle(old(View()), input, env), env)
    {
      HandleMessage(input, env);
      SyncMediaState(env);
    }

    /** One pass of the actor's loop. */
    method RunTurn(input: E.Input, env: E.Env)
      requires Valid()
      modifies this
      ensures Valid() && View() == E.Turn(old(View()), input, env)
    {
      var n := turn;
      HandleAndSync(input, env);
      EndTurn(n, env.now);
    }

    method EndTurn(n: nat, now: nat)
      requires Valid()
      modifies `turn, `lastTurn
      ensures Valid() && View() == old(View()).(turn := n + 1, lastTurn := now)
    {
      turn, lastTurn := n + 1, now;
    }
  }
}
