/** Our own publications, and the pause a lapsed membership puts on them. */
module Publications {
  import opened Ordering
  import opened Tiles

  /** `muted` is the user's mute; `applied` is what the transport was last told. */
  datatype Publication = Publication(track: nat, muted: bool, applied: bool)

  type Publications = map<StreamKind, Publication>

  function Published(pubs: Publications, kind: StreamKind, muted: bool, track: nat): Publications {
    pubs[kind := Publication(track, muted, muted)]
  }

  /** Retracts the publication that was retracted at the transport, not a later one of its kind. */
  function Unpublished(pubs: Publications, kind: StreamKind, track: nat): Publications {
    if Retracts(pubs, kind, track) then pubs - {kind} else pubs
  }

  predicate Retracts(pubs: Publications, kind: StreamKind, track: nat) {
    kind in pubs && pubs[kind].track == track
  }

  /** The user's mute; it takes when something of that kind is up and the transport accepts. */
  function Muted(pubs: Publications, kind: StreamKind, muted: bool, paused: bool, accepted: bool): Publications {
    if kind in pubs && accepted then pubs[kind := pubs[kind].(muted := muted, applied := muted || paused)] else pubs
  }

  /** `apply_pause`: `refused` are the kinds whose transport call fails now. */
  function Paused(pubs: Publications, paused: bool, refused: set<StreamKind>): Publications {
    map kind | kind in pubs ::
      if pubs[kind].applied == (pubs[kind].muted || paused) || kind in refused then pubs[kind]
      else pubs[kind].(applied := pubs[kind].muted || paused)
  }

  /** What the host did, with the pause taken out. */
  function UserView(pubs: Publications): map<StreamKind, (nat, bool)> {
    map kind | kind in pubs :: (pubs[kind].track, pubs[kind].muted)
  }

  ghost predicate Settled(pubs: Publications, paused: bool) {
    forall kind :: kind in pubs ==> pubs[kind].applied == (pubs[kind].muted || paused)
  }
}
