/** Frame-encryption failures: the grace before they are shown, and the constraints probed meanwhile. */
module Keys {
  import opened Ordering
  import opened Tiles

  type Time = nat

  datatype FrameState = FrameOk | FrameMissingKey | FrameDecryptionFailed | FrameEncryptionFailed | FrameInternalError
  {
    predicate Failure() { !FrameOk? }
  }

  datatype QualityLimit = Low | Medium | High
  datatype VideoDetail = Auto | Dimensions(width: nat, height: nat) | Quality(limit: QualityLimit)
  datatype Constraints = Constraints(enabled: bool, visible: bool, detail: VideoDetail, lowBandwidth: bool)

  type StreamKey = (MemberId, StreamKind)

  /** One key event the actor handled, in order: the record the grace is judged against. */
  datatype Stamp = Became(at: Time, member: MemberId, state: FrameState) | Left(gone: set<MemberId>)

  datatype Keys = Keys(
    states: map<MemberId, FrameState>,
    since: map<MemberId, Time>,
    host: map<StreamKey, Constraints>,
    given: map<StreamKey, Constraints>,
    clear: set<MemberId>,
    wakeups: set<Time>,
    log: seq<Stamp>)

  const NO_KEYS := Keys(map[], map[], map[], map[], {}, {}, [])

  predicate Failing(k: Keys, m: MemberId) {
    m in k.states && k.states[m].Failure()
  }

  /** `probe_undecryptable`: hidden video we cannot decrypt is kept flowing at the lowest layer. */
  function Probe(kind: StreamKind, c: Constraints, undecryptable: bool): (r: Constraints)
    ensures r.enabled == c.enabled && r.lowBandwidth == c.lowBandwidth
    ensures r != c ==> undecryptable && (kind.Camera? || kind.ScreenShare?) && c.enabled && !c.visible && r.visible
    ensures r != c ==> r.detail == Quality(Low)
    ensures undecryptable && (kind.Camera? || kind.ScreenShare?) && c.enabled ==> r.visible
  {
    if !undecryptable || !(kind.Camera? || kind.ScreenShare?) || !c.enabled || c.visible then c
    else c.(visible := true, detail := Quality(Low))
  }

  // ---- the operations ----------------------------------------------------------

  function Reprobed(k: Keys, m: MemberId, undecryptable: bool): map<StreamKey, Constraints> {
    map key | key in k.host && key.0 == m :: Probe(key.1, k.host[key], undecryptable)
  }

  function FrameChanged(k: Keys, m: MemberId, st: FrameState, now: Time, grace: nat): Keys {
    k.(states := k.states[m := st],
       given := if Failing(k, m) != st.Failure() then k.given + Reprobed(k, m, st.Failure()) else k.given,
       since := if !st.Failure() then k.since - {m} else if m in k.since then k.since else k.since[m := now],
       wakeups := if st.Failure() && m !in k.since then k.wakeups + {now + grace} else k.wakeups,
       log := k.log + [Became(now, m, st)])
  }

  function SetConstraints(k: Keys, m: MemberId, kind: StreamKind, c: Constraints): Keys {
    k.(host := k.host[(m, kind) := c], given := k.given[(m, kind) := Probe(kind, c, Failing(k, m))])
  }

  function SentInClear(k: Keys, m: MemberId): Keys {
    k.(clear := k.clear + {m})
  }

  function Of(host: map<StreamKey, Constraints>, gone: set<MemberId>): set<StreamKey> {
    set key | key in host && key.0 in gone
  }

  /** Departure: the pool drops the member's constraints with the same snapshot. */
  function Forget(k: Keys, gone: set<MemberId>): Keys {
    k.(states := k.states - gone, since := k.since - gone,
       host := k.host - Of(k.host, gone), given := k.given - Of(k.given, gone),
       clear := k.clear - gone, log := k.log + [Left(gone)])
  }

  function Woken(k: Keys, due: Time): Keys {
    k.(wakeups := k.wakeups - {due})
  }

  /** `unable_to_decrypt`, for a remote member. */
  function UnableOf(k: Keys, m: MemberId, publishing: bool, now: Time, grace: nat): Option<UnableToDecrypt> {
    if m in k.clear then Some(NotEncrypted)
    else if !publishing then None
    else if m !in k.since || now < k.since[m] + grace then None
    else if m in k.states && k.states[m] == FrameMissingKey then Some(MissingKey)
    else Some(BadKey)
  }

  // ---- what every state keeps ----------------------------------------------------

  /** The pool was last given exactly what the host asked for, adjusted for the member's state now. */
  ghost predicate GivenIsProbed(k: Keys) {
    && k.given.Keys == k.host.Keys
    && forall key :: key in k.host ==> k.given[key] == Probe(key.1, k.host[key], Failing(k, key.0))
  }

  ghost predicate SinceIsFailing(k: Keys) {
    forall m :: m in k.since <==> Failing(k, m)
  }

  lemma FrameChangedGiven(k: Keys, m: MemberId, st: FrameState, now: Time, grace: nat)
    requires GivenIsProbed(k) && SinceIsFailing(k)
    ensures var k' := FrameChanged(k, m, st, now, grace); GivenIsProbed(k') && SinceIsFailing(k')
  {
    var k' := FrameChanged(k, m, st, now, grace);
    forall x ensures Failing(k', x) == if x == m then st.Failure() else Failing(k, x) {}
  }

  lemma SetConstraintsGiven(k: Keys, m: MemberId, kind: StreamKind, c: Constraints)
    requires GivenIsProbed(k) && SinceIsFailing(k)
    ensures var k' := SetConstraints(k, m, kind, c); GivenIsProbed(k') && SinceIsFailing(k')
  {
  }

  lemma ForgetGiven(k: Keys, gone: set<MemberId>)
    requires GivenIsProbed(k) && SinceIsFailing(k)
    ensures var k' := Forget(k, gone); GivenIsProbed(k') && SinceIsFailing(k')
  {
  }

  // ---- spells ----------------------------------------------------------------------

  predicate Concerns(s: Stamp, m: MemberId) {
    match s case Became(_, x, _) => x == m case Left(gone) => m in gone
  }

  predicate Fails(s: Stamp, m: MemberId) {
    s.Became? && s.member == m && s.state.Failure()
  }

  /** Event `i` is the latest that concerns `m`. */
  ghost predicate Latest(log: seq<Stamp>, m: MemberId, i: nat) {
    i < |log| && Concerns(log[i], m) && forall j :: i < j < |log| ==> !Concerns(log[j], m)
  }

  /** Event `i` begins an unbroken spell of failures of `m` that still lasts. */
  ghost predicate SpellStart(log: seq<Stamp>, m: MemberId, i: nat) {
    && i < |log|
    && Fails(log[i], m)
    && (forall j :: i < j < |log| && Concerns(log[j], m) ==> Fails(log[j], m))
    && (forall h: nat :: Latest(log[..i], m, h) ==> !Fails(log[h], m))
  }

  /** `since` is the start of `m`'s current spell, if they are in one. */
  ghost predicate SpellIs(log: seq<Stamp>, m: MemberId, since: Option<Time>) {
    && (forall i: nat :: SpellStart(log, m, i) ==> since == Some(log[i].at))
    && (since.Some? ==> exists i: nat :: SpellStart(log, m, i))
    && (forall i: nat :: Latest(log, m, i) ==> (Fails(log[i], m) <==> since.Some?))
    && (since.Some? ==> exists i: nat :: Latest(log, m, i))
  }

  function SinceOf(k: Keys, m: MemberId): Option<Time> {
    if m in k.since then Some(k.since[m]) else None
  }

  ghost predicate SinceIsSpell(k: Keys) {
    forall m :: SpellIs(k.log, m, SinceOf(k, m))
  }

  /** An event that does not concern `m` moves none of their spells. */
  lemma UnconcernedSpell(log: seq<Stamp>, s: Stamp, m: MemberId, i: nat)
    requires !Concerns(s, m)
    ensures SpellStart(log + [s], m, i) <==> SpellStart(log, m, i)
    ensures Latest(log + [s], m, i) <==> Latest(log, m, i)
  {
    if i < |log| {
      assert (log + [s])[..i] == log[..i];
      if SpellStart(log + [s], m, i) {
        forall j | i < j < |log| && Concerns(log[j], m) ensures Fails(log[j], m) {
          assert (log + [s])[j] == log[j];
        }
      }
      if Latest(log + [s], m, i) {
        forall j | i < j < |log| ensures !Concerns(log[j], m) {
          assert (log + [s])[j] == log[j];
        }
      }
    }
  }

  /** What an event about `m` does to their spell. */
  lemma ConcernedSpell(log: seq<Stamp>, s: Stamp, m: MemberId, i: nat)
    requires Concerns(s, m)
    ensures Latest(log + [s], m, i) <==> i == |log|
    ensures !Fails(s, m) ==> !SpellStart(log + [s], m, i)
    ensures Fails(s, m) && i < |log| ==> (SpellStart(log + [s], m, i) <==> SpellStart(log, m, i))
    ensures i == |log| ==> (SpellStart(log + [s], m, i) <==> Fails(s, m) && forall h: nat :: Latest(log, m, h) ==> !Fails(log[h], m))
  {
    var n := |log|;
    var log' := log + [s];
    assert log'[n] == s && log'[..n] == log;
    if i < n {
      assert log'[..i] == log[..i];
      assert forall j :: i < j < n ==> log'[j] == log[j];
      assert !Latest(log', m, i);
    }
  }

  lemma UnconcernedSpellIs(log: seq<Stamp>, s: Stamp, m: MemberId, since: Option<Time>)
    requires SpellIs(log, m, since) && !Concerns(s, m)
    ensures SpellIs(log + [s], m, since)
  {
    forall i: nat ensures SpellStart(log + [s], m, i) <==> SpellStart(log, m, i)
                  ensures Latest(log + [s], m, i) <==> Latest(log, m, i) {
      UnconcernedSpell(log, s, m, i);
    }
  }

  lemma ConcernedSpellIs(log: seq<Stamp>, s: Stamp, m: MemberId, since: Option<Time>)
    requires SpellIs(log, m, since) && Concerns(s, m)
    ensures SpellIs(log + [s], m, if !Fails(s, m) then None else if since.Some? then since else Some(s.at))
  {
    var n := |log|;
    ConcernedSpell(log, s, m, n);
    forall i: nat | SpellStart(log + [s], m, i) ensures Fails(s, m) && (i < n ==> SpellStart(log, m, i)) {
      ConcernedSpell(log, s, m, i);
    }
    forall i: nat | Latest(log + [s], m, i) ensures i == n {
      ConcernedSpell(log, s, m, i);
    }
    if Fails(s, m) && since.Some? {
      var i: nat :| SpellStart(log, m, i);
      ConcernedSpell(log, s, m, i);
      var l: nat :| Latest(log, m, l);
      assert !SpellStart(log + [s], m, n);
    }
  }

  lemma FrameChangedSpell(k: Keys, m: MemberId, st: FrameState, now: Time, grace: nat)
    requires SinceIsSpell(k)
    ensures SinceIsSpell(FrameChanged(k, m, st, now, grace))
  {
    var k' := FrameChanged(k, m, st, now, grace);
    forall x ensures SpellIs(k'.log, x, SinceOf(k', x)) {
      assert SpellIs(k.log, x, SinceOf(k, x));
      if x == m { ConcernedSpellIs(k.log, Became(now, m, st), x, SinceOf(k, x)); }
      else { UnconcernedSpellIs(k.log, Became(now, m, st), x, SinceOf(k, x)); }
    }
  }

  lemma ForgetSpell(k: Keys, gone: set<MemberId>)
    requires SinceIsSpell(k)
    ensures SinceIsSpell(Forget(k, gone))
  {
    var k' := Forget(k, gone);
    forall x ensures SpellIs(k'.log, x, SinceOf(k', x)) {
      assert SpellIs(k.log, x, SinceOf(k, x));
      if x in gone { ConcernedSpellIs(k.log, Left(gone), x, SinceOf(k, x)); }
      else { UnconcernedSpellIs(k.log, Left(gone), x, SinceOf(k, x)); }
    }
  }

  /**
   * What a remote member is shown as. Sent in clear is shown at once; a key failure exactly when they
   * publish something and their current spell is at least the grace old.
   */
  lemma ShownAfterGrace(k: Keys, m: MemberId, publishing: bool, now: Time, grace: nat)
    requires SinceIsSpell(k) && SinceIsFailing(k)
    ensures var shown := UnableOf(k, m, publishing, now, grace);
      && (shown == Some(NotEncrypted) <==> m in k.clear)
      && (shown in {Some(MissingKey), Some(BadKey)} <==>
            m !in k.clear && publishing && exists i: nat :: SpellStart(k.log, m, i) && k.log[i].at + grace <= now)
      && (shown == Some(MissingKey) ==> k.states[m] == FrameMissingKey)
      && (shown == Some(BadKey) ==> k.states[m].Failure() && k.states[m] != FrameMissingKey)
  {
    assert SpellIs(k.log, m, SinceOf(k, m));
    if m in k.since {
      var i: nat :| SpellStart(k.log, m, i);
      assert k.since[m] == k.log[i].at;
    }
  }

  lemma SameSpells(k: Keys, k': Keys)
    requires SinceIsSpell(k) && k'.log == k.log && k'.since == k.since
    ensures SinceIsSpell(k')
  {
    forall m ensures SpellIs(k'.log, m, SinceOf(k', m)) {
      assert SpellIs(k.log, m, SinceOf(k, m));
    }
  }

  lemma SameGiven(k: Keys, k': Keys)
    requires GivenIsProbed(k) && SinceIsFailing(k)
    requires k'.states == k.states && k'.since == k.since && k'.host == k.host && k'.given == k.given
    ensures GivenIsProbed(k') && SinceIsFailing(k')
  {
  }

  /** A turn is due when a running grace ends, unless one already came at or after that moment. */
  ghost predicate WokenInTime(k: Keys, grace: nat, lastTurn: Time) {
    forall m :: m in k.since ==> k.since[m] + grace in k.wakeups || k.since[m] + grace <= lastTurn
  }
}
