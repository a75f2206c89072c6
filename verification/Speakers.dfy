/** Speaker hysteresis: raw speaking states, the damped set the ranking reads, and the timers between them. */
module Speakers {
  import opened Ordering

  type MemberId = string
  type Time = nat

  /** Raw state of one member and the generation of the timer that would make it effective. */
  datatype SpeakerState = SpeakerState(raw: bool, generation: nat)

  /** A sleeping hysteresis timer: when its message may arrive, and the actor turn that armed it. */
  datatype Timer = Timer(member: MemberId, generation: nat, due: Time, turn: nat)

  datatype Delays = Delays(promote: nat, demote: nat)

  datatype Speech = Speech(speaking: set<MemberId>, speakers: map<MemberId, SpeakerState>, timers: set<Timer>)

  const SILENT := Speech({}, map[], {})

  function StateOf(s: Speech, m: MemberId): SpeakerState {
    if m in s.speakers then s.speakers[m] else SpeakerState(false, 0)
  }

  predicate Raw(s: Speech, m: MemberId) { StateOf(s, m).raw }

  function Gen(s: Speech, m: MemberId): nat { StateOf(s, m).generation }

  function Delay(d: Delays, raw: bool): nat { if raw then d.promote else d.demote }

  function RawSpeaking(s: Speech): set<MemberId> {
    set m | m in s.speakers && s.speakers[m].raw
  }

  // ---- the three operations --------------------------------------------------

  function Heard(st: SpeakerState, raw: bool): SpeakerState {
    if st.raw == raw then st else SpeakerState(raw, st.generation + 1)
  }

  /** Whether a member's update arms a timer: their raw state moved, away from the ranked one. */
  predicate Arms(s: Speech, raw: set<MemberId>, m: MemberId) {
    Raw(s, m) != (m in raw) && (m in raw) != (m in s.speaking)
  }

  function TimerFor(s: Speech, raw: set<MemberId>, now: Time, turn: nat, d: Delays, m: MemberId): Timer {
    Timer(m, Gen(s, m) + 1, now + Delay(d, m in raw), turn)
  }

  function ApplyRaw(s: Speech, raw: set<MemberId>, now: Time, turn: nat, d: Delays): Speech {
    s.(speakers := map m | m in s.speakers.Keys + raw :: Heard(StateOf(s, m), m in raw),
       timers := s.timers + set m | m in s.speakers.Keys + raw && Arms(s, raw, m) :: TimerFor(s, raw, now, turn, d, m))
  }

  predicate RawChanges(s: Speech, raw: set<MemberId>) {
    RawSpeaking(s) != raw
  }

  function Fire(s: Speech, t: Timer): Speech {
    var rest := s.(timers := s.timers - {t});
    if t.member !in s.speakers || s.speakers[t.member].generation != t.generation then rest
    else if s.speakers[t.member].raw then rest.(speaking := s.speaking + {t.member})
    else rest.(speaking := s.speaking - {t.member})
  }

  /** Departure: the entry goes, so a return starts again at generation 0; timers stay in flight. */
  function Remove(s: Speech, gone: set<MemberId>): Speech {
    s.(speaking := s.speaking - gone, speakers := s.speakers - gone)
  }

  // ---- what every state keeps --------------------------------------------------

  /** A generation is odd exactly while its raw state is speaking, and only heard members rank. */
  ghost predicate Consistent(s: Speech) {
    && (forall m :: m in s.speakers ==> s.speakers[m].raw == (s.speakers[m].generation % 2 == 1))
    && s.speaking <= s.speakers.Keys
  }

  /** Wherever the raw state differs from the ranked set, the current generation's timer is in flight. */
  ghost predicate Covered(s: Speech) {
    forall m :: Raw(s, m) != (m in s.speaking) ==>
      exists t :: t in s.timers && t.member == m && t.generation == Gen(s, m)
  }

  /** One actor turn, as far as speakers go: who left in it, and the timer it fired, if any. */
  datatype TurnInfo = TurnInfo(now: Time, index: nat, gone: set<MemberId>, fired: Option<Timer>, listened: bool)

  /**
   * What a turn may do. Generations only grow while a member stays; a timer it arms carries this turn's
   * stamp and the delay of its own direction; the ranked set moves only for the member whose current timer fires.
   */
  ghost predicate Advances(s: Speech, s': Speech, i: TurnInfo, d: Delays) {
    && Consistent(s) && Consistent(s')
    && (Covered(s) ==> Covered(s'))
    && (forall m :: m !in i.gone ==> Gen(s, m) <= Gen(s', m))
    && (forall m :: m in i.gone && !i.listened ==> Gen(s', m) == 0)
    && (forall t :: t in s'.timers && t !in s.timers ==>
          && t.turn == i.index
          && t.due == i.now + Delay(d, t.generation % 2 == 1)
          && t.generation <= Gen(s', t.member))
    && (forall m :: (m in s.speaking) != (m in s'.speaking) && m !in i.gone ==>
          && i.fired.Some?
          && i.fired.value.member == m
          && i.fired.value.generation == Gen(s, m) == Gen(s', m)
          && Raw(s', m) == (m in s'.speaking))
    && (forall m :: m in i.gone ==> m !in s'.speaking)
  }

  lemma ApplyRawStates(s: Speech, raw: set<MemberId>, now: Time, turn: nat, d: Delays)
    ensures forall m :: StateOf(ApplyRaw(s, raw, now, turn, d), m) == Heard(StateOf(s, m), m in raw)
    ensures RawSpeaking(ApplyRaw(s, raw, now, turn, d)) == raw
  {
  }

  lemma ApplyRawTimers(s: Speech, raw: set<MemberId>, now: Time, turn: nat, d: Delays)
    requires Consistent(s)
    ensures var s' := ApplyRaw(s, raw, now, turn, d);
      forall t :: t in s'.timers && t !in s.timers ==>
        t.turn == turn && t.due == now + Delay(d, t.generation % 2 == 1) && t.generation <= Gen(s', t.member)
  {
  }

  lemma ApplyRawCovers(s: Speech, raw: set<MemberId>, now: Time, turn: nat, d: Delays)
    requires Covered(s)
    ensures Covered(ApplyRaw(s, raw, now, turn, d))
  {
    var s' := ApplyRaw(s, raw, now, turn, d);
    ApplyRawStates(s, raw, now, turn, d);
    forall m | Raw(s', m) != (m in s'.speaking)
      ensures exists t :: t in s'.timers && t.member == m && t.generation == Gen(s', m)
    {
      assert StateOf(s', m) == Heard(StateOf(s, m), m in raw);
      if Raw(s, m) == (m in raw) {
        var t :| t in s.timers && t.member == m && t.generation == Gen(s, m);
        assert t in s'.timers;
      } else {
        assert m in s.speakers.Keys + raw && Arms(s, raw, m);
        assert TimerFor(s, raw, now, turn, d, m) in s'.timers;
      }
    }
  }

  lemma ApplyRawAdvances(s: Speech, raw: set<MemberId>, now: Time, turn: nat, d: Delays)
    requires Consistent(s)
    ensures Advances(s, ApplyRaw(s, raw, now, turn, d), TurnInfo(now, turn, {}, None, true), d)
  {
    var s' := ApplyRaw(s, raw, now, turn, d);
    ApplyRawStates(s, raw, now, turn, d);
    ApplyRawTimers(s, raw, now, turn, d);
    if Covered(s) { ApplyRawCovers(s, raw, now, turn, d); }
    forall m | m in s'.speakers ensures s'.speakers[m].raw == (s'.speakers[m].generation % 2 == 1) {
      assert StateOf(s', m) == Heard(StateOf(s, m), m in raw);
    }
  }

  lemma FireAdvances(s: Speech, t: Timer, now: Time, turn: nat, d: Delays)
    requires Consistent(s)
    ensures Advances(s, Fire(s, t), TurnInfo(now, turn, {}, Some(t), false), d)
  {
  }

  lemma RemoveAdvances(s: Speech, gone: set<MemberId>, now: Time, turn: nat, d: Delays)
    requires Consistent(s)
    ensures Advances(s, Remove(s, gone), TurnInfo(now, turn, gone, None, false), d)
    ensures Remove(s, gone).timers == s.timers
    ensures forall m :: m in gone ==> StateOf(Remove(s, gone), m) == SpeakerState(false, 0) && m !in Remove(s, gone).speaking
  {
  }

  /** A raw update after the rest of a turn is still one turn. */
  lemma AdvancesThenListens(a: Speech, b: Speech, c: Speech, i: TurnInfo, d: Delays)
    requires i.fired.None? && i.gone == {}
    requires Advances(a, b, i, d)
    requires Advances(b, c, TurnInfo(i.now, i.index, {}, None, true), d)
    ensures Advances(a, c, i.(listened := true), d)
  {
  }

  // ---- every run ---------------------------------------------------------------

  /** A run: `states[k]` before turn `k`, which happens at `infos[k].now`. */
  ghost predicate Run(states: seq<Speech>, infos: seq<TurnInfo>, d: Delays) {
    && |states| == |infos| + 1
    && states[0] == SILENT
    && (forall k :: 0 <= k < |infos| ==>
          && infos[k].index == k
          && Advances(states[k], states[k + 1], infos[k], d)
          && (infos[k].fired.Some? ==> infos[k].fired.value in states[k].timers && infos[k].fired.value.due <= infos[k].now))
    && (forall j, k :: 0 <= j < k < |infos| ==> infos[j].now <= infos[k].now)
  }

  /** Whether `m` leaves the roster in a turn after `from` and before `to`. */
  ghost predicate LeavesBetween(infos: seq<TurnInfo>, m: MemberId, from: nat, to: nat)
    requires to <= |infos|
  {
    exists r :: from < r < to && m in infos[r].gone
  }

  lemma {:induction false} EveryStateCovered(states: seq<Speech>, infos: seq<TurnInfo>, d: Delays, k: nat)
    requires Run(states, infos, d) && k < |states|
    ensures Consistent(states[k]) && Covered(states[k])
  {
    if k > 0 {
      EveryStateCovered(states, infos, d, k - 1);
      assert Advances(states[k - 1], states[k], infos[k - 1], d);
    } else {
      forall m ensures Raw(states[0], m) == (m in states[0].speaking) {}
    }
  }

  /** Where a timer in flight comes from. */
  lemma {:induction false} TimerOrigin(states: seq<Speech>, infos: seq<TurnInfo>, d: Delays, k: nat, t: Timer)
    requires Run(states, infos, d) && k < |states| && t in states[k].timers
    ensures t.turn < k
    ensures t.due == infos[t.turn].now + Delay(d, t.generation % 2 == 1)
    ensures t.generation <= Gen(states[t.turn + 1], t.member)
  {
    assert k > 0;
    if t in states[k - 1].timers {
      TimerOrigin(states, infos, d, k - 1, t);
    } else {
      assert Advances(states[k - 1], states[k], infos[k - 1], d);
    }
  }

  lemma {:induction false} GenerationsGrow(states: seq<Speech>, infos: seq<TurnInfo>, d: Delays, m: MemberId, i: nat, k: nat)
    requires Run(states, infos, d) && i < k < |states| && !LeavesBetween(infos, m, i, k)
    ensures Gen(states[i + 1], m) <= Gen(states[k], m)
  {
    if i + 1 < k {
      assert i < k - 1 < k;
      assert !LeavesBetween(infos, m, i, k - 1);
      GenerationsGrow(states, infos, d, m, i, k - 1);
      assert Advances(states[k - 1], states[k], infos[k - 1], d);
    }
  }

  /** The turn, after a departure, in which a ranked member was promoted again. */
  lemma {:induction false} RankedAgain(states: seq<Speech>, infos: seq<TurnInfo>, d: Delays, m: MemberId, r: nat, k: nat)
    returns (p: nat)
    requires Run(states, infos, d) && r < k < |states|
    requires m in infos[r].gone && m in states[k].speaking
    ensures r + 1 < p <= k && Raw(states[p], m)
  {
    assert Advances(states[k - 1], states[k], infos[k - 1], d);
    if m in states[k - 1].speaking && r < k - 1 {
      p := RankedAgain(states, infos, d, m, r, k - 1);
    } else {
      p := k;
      assert r < k - 1;
      assert m !in infos[k - 1].gone;
    }
  }

  /** A member who stays keeps the raw state their timer was armed for. */
  lemma RawHeld(states: seq<Speech>, infos: seq<TurnInfo>, d: Delays, m: MemberId, i: nat, j: nat, k: nat)
    requires Run(states, infos, d) && i < j <= k < |states| && !LeavesBetween(infos, m, i, k)
    requires Gen(states[k], m) <= Gen(states[i + 1], m)
    ensures Raw(states[j], m) == Raw(states[k], m)
  {
    assert !LeavesBetween(infos, m, i, j) && !LeavesBetween(infos, m, j - 1, k);
    GenerationsGrow(states, infos, d, m, i, j);
    GenerationsGrow(states, infos, d, m, j - 1, k);
    EveryStateCovered(states, infos, d, j);
    EveryStateCovered(states, infos, d, k);
  }

  /** A member who left and came back spoke or fell silent anew in between. */
  lemma RawBroken(states: seq<Speech>, infos: seq<TurnInfo>, d: Delays, m: MemberId, i: nat, k: nat)
    returns (j: nat)
    requires Run(states, infos, d) && i < k < |infos| && LeavesBetween(infos, m, i, k)
    requires forall r :: 0 <= r < |infos| && m in infos[r].gone ==> !infos[r].listened
    requires Raw(states[k], m) != (m in states[k].speaking)
    ensures i < j <= k && Raw(states[j], m) != Raw(states[k], m)
  {
    var r :| i < r < k && m in infos[r].gone;
    if Raw(states[k], m) {
      j := r + 1;
      assert Advances(states[r], states[r + 1], infos[r], d);
      EveryStateCovered(states, infos, d, j);
    } else {
      j := RankedAgain(states, infos, d, m, r, k);
    }
  }

  /**
   * Hysteresis over every run. When a turn moves `m` in or out of the ranked set while they stay on the
   * roster, the timer it fires was armed at least the whole delay earlier, and `m`'s raw state held its new
   * value from that turn to this one if and only if `m` did not leave in between.
   */
  lemma Hysteresis(states: seq<Speech>, infos: seq<TurnInfo>, d: Delays, k: nat, m: MemberId)
    requires Run(states, infos, d) && k < |infos|
    requires m !in infos[k].gone && (m in states[k].speaking) != (m in states[k + 1].speaking)
    requires forall r :: 0 <= r < |infos| && m in infos[r].gone ==> !infos[r].listened
    ensures infos[k].fired.Some? && infos[k].fired.value.member == m
    ensures var t := infos[k].fired.value;
      && t.turn < k
      && infos[t.turn].now + Delay(d, m in states[k + 1].speaking) <= infos[k].now
      && ((forall j :: t.turn < j <= k ==> Raw(states[j], m) == (m in states[k + 1].speaking))
          <==> !LeavesBetween(infos, m, t.turn, k))
  {
    assert Advances(states[k], states[k + 1], infos[k], d);
    var t := infos[k].fired.value;
    TimerOrigin(states, infos, d, k, t);
    EveryStateCovered(states, infos, d, k);
    EveryStateCovered(states, infos, d, k + 1);
    var up := m in states[k + 1].speaking;
    assert Raw(states[k], m) == Raw(states[k + 1], m) == (t.generation % 2 == 1) == up;
    if LeavesBetween(infos, m, t.turn, k) {
      var j := RawBroken(states, infos, d, m, t.turn, k);
    } else {
      forall j | t.turn < j <= k ensures Raw(states[j], m) == up {
        RawHeld(states, infos, d, m, t.turn, j, k);
      }
    }
  }

  lemma RunExtends(states: seq<Speech>, infos: seq<TurnInfo>, d: Delays, s': Speech, i: TurnInfo)
    requires Run(states, infos, d) && i.index == |infos|
    requires Advances(states[|infos|], s', i, d)
    requires i.fired.Some? ==> i.fired.value in states[|infos|].timers && i.fired.value.due <= i.now
    requires infos != [] ==> infos[|infos| - 1].now <= i.now
    ensures Run(states + [s'], infos + [i], d)
  {
  }

  lemma RunHears(states: seq<Speech>, infos: seq<TurnInfo>, d: Delays, raw: set<MemberId>, now: Time)
    requires Run(states, infos, d) && (infos != [] ==> infos[|infos| - 1].now <= now)
    ensures Run(states + [ApplyRaw(states[|infos|], raw, now, |infos|, d)], infos + [TurnInfo(now, |infos|, {}, None, true)], d)
  {
    EveryStateCovered(states, infos, d, |infos|);
    ApplyRawAdvances(states[|infos|], raw, now, |infos|, d);
    RunExtends(states, infos, d, ApplyRaw(states[|infos|], raw, now, |infos|, d), TurnInfo(now, |infos|, {}, None, true));
  }

  lemma RunLeaves(states: seq<Speech>, infos: seq<TurnInfo>, d: Delays, gone: set<MemberId>, now: Time)
    requires Run(states, infos, d) && (infos != [] ==> infos[|infos| - 1].now <= now)
    ensures Run(states + [Remove(states[|infos|], gone)], infos + [TurnInfo(now, |infos|, gone, None, false)], d)
  {
    EveryStateCovered(states, infos, d, |infos|);
    RemoveAdvances(states[|infos|], gone, now, |infos|, d);
    RunExtends(states, infos, d, Remove(states[|infos|], gone), TurnInfo(now, |infos|, gone, None, false));
  }

  lemma RunFires(states: seq<Speech>, infos: seq<TurnInfo>, d: Delays, t: Timer, now: Time)
    requires Run(states, infos, d) && (infos != [] ==> infos[|infos| - 1].now <= now)
    requires t in states[|infos|].timers && t.due <= now
    ensures Run(states + [Fire(states[|infos|], t)], infos + [TurnInfo(now, |infos|, {}, Some(t), false)], d)
  {
    EveryStateCovered(states, infos, d, |infos|);
    FireAdvances(states[|infos|], t, now, |infos|, d);
    RunExtends(states, infos, d, Fire(states[|infos|], t), TurnInfo(now, |infos|, {}, Some(t), false));
  }

  /** A member speaks, leaves, and is back speaking at `back`. */
  lemma LeaveAndReturn(m: MemberId, d: Delays, back: Time) returns (states: seq<Speech>, infos: seq<TurnInfo>)
    ensures Run(states, infos, d) && |infos| == 3 && infos[2].now == back
    ensures states[2] == Remove(ApplyRaw(SILENT, {m}, 0, 0, d), {m})
    ensures states[3] == ApplyRaw(states[2], {m}, back, 2, d)
  {
    states, infos := [SILENT], [];
    RunHears(states, infos, d, {m}, 0);
    states, infos := states + [ApplyRaw(SILENT, {m}, 0, 0, d)], infos + [TurnInfo(0, 0, {}, None, true)];
    RunLeaves(states, infos, d, {m}, 0);
    states, infos := states + [Remove(states[1], {m})], infos + [TurnInfo(0, 1, {m}, None, false)];
    RunHears(states, infos, d, {m}, back);
    states, infos := states + [ApplyRaw(states[2], {m}, back, 2, d)], infos + [TurnInfo(back, 2, {}, None, true)];
  }

  /**
   * The edge the condition guards: a member who spoke, left and came back speaking at `back` is promoted
   * by the timer of their first stay, having spoken for less than the delay.
   */
  lemma ReturnInheritsTimer(m: MemberId, d: Delays, back: Time) returns (states: seq<Speech>, infos: seq<TurnInfo>)
    requires 0 < back < d.promote
    ensures Run(states, infos, d) && |infos| == 4 && infos[2].now == back
    ensures m !in infos[3].gone && m !in states[3].speaking && m in states[4].speaking
    ensures !Raw(states[2], m) && infos[3].now < infos[2].now + d.promote
  {
    var t := Timer(m, 1, d.promote, 0);
    states, infos := LeaveAndReturn(m, d, back);
    InheritedTimer(m, d, back);
    RunFires(states, infos, d, t, d.promote);
    states, infos := states + [Fire(states[3], t)], infos + [TurnInfo(d.promote, 3, {}, Some(t), false)];
  }

  lemma InheritedTimer(m: MemberId, d: Delays, back: Time)
    ensures var t := Timer(m, 1, d.promote, 0);
      var s2 := Remove(ApplyRaw(SILENT, {m}, 0, 0, d), {m});
      var s3 := ApplyRaw(s2, {m}, back, 2, d);
      t in s3.timers && m !in s3.speaking && m in Fire(s3, t).speaking && !Raw(s2, m)
  {
  }
}
