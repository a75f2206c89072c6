# A verified model of the call engine, the raised hand, the DM call and the room state

The repository keeps a Matrix call together in four places where several things move at once: the call engine's actor
and its tile ranking; our raised hand and everybody else's; a DM call's lifecycle, its status and its end; and, in the
core, a room's slot sessions and the client's one to-device subscription. This project models those places in Dafny and
proves what they keep over every run.

## How it is laid out

- `Ordering`: total orders, the stable sort, permutations and subsequences.
- `Tiles`, `Speakers`, `Reorder`, `Keys`, `Publications`, `Roster`: the parts of the engine's state, each with its own
  operations and laws.
- `Engine`: the actor as a state machine. One turn handles one message and ends with the media sync. `EngineRuns`,
  `EngineSafety` and `EnginePause` prove what every turn and every run keep; `ReorderTiming`, `Announcements`, `OwnMedia`
  and `Reports` read what it shows off the messages of a whole run.
- `RosterEdits`, `Actors`: the actor with its fields updated in place and its loops, each method proved to do what the
  state machine does, so the theorems about turns hold of it.
- `HandProtocol`, `HandServer`, `PeerHands`, `Reactions`: our hand as a desired-state protocol, the annotations it leaves
  at the server, the merging of a peer's annotations, and the object that holds both hands.
- `CallStatus`, `DirectCalls`, `CallLifecycle`: the status cell, the DM lifecycle and its ring, and their composition
  with the session's end under any interleaving. `CallStory` and `StatusStory` read every state and every end off what
  happened before it.
- `ToDevice`: opening and closing rooms around the shared subscription.
- `Slots`, `Rooms`, `DelayedLeaves`: slot resolution, a session's joined members, the room that feeds every session, and
  the holds on members whose delayed leave fired.

Time is an explicit value. A sleeping task is a message in a set of messages in flight, with the time from which it may
arrive; a run may deliver it at any later turn. Integers are unbounded. What the media pool, the server and the
scheduler do is an input, restricted only where a theorem says so: timers arrive when due, hand sets come in the order
`Reactions.ReactionsState.RaisedHands` is proved to produce, and the pool reports speakers only from connection events,
not from inside a snapshot.

## Where the code is not what one might expect

Each of these is stated as an exact condition or shown by a trace; the code is modelled as it is.

- A member who leaves and comes back restarts at speaker generation 0, so a timer of the first stay can promote them
  (`Speakers.Hysteresis`, `Speakers.ReturnInheritsTimer`).
- Publishing a kind that is already on our roster entry leaves the old mute flag there
  (`EngineSafety.PublishShowsMute`, `EngineSafety.RepublishKeepsMute`).
- The coalesce window opens for a departure as for a reorder, so a reorder that follows a departure can land sooner than
  the delay after it arose; what always holds is that it lands a whole delay after the window opened
  (`ReorderTiming.ReordersWaitForTheDelay`, `Reorder.SoonAfterADeparture`).
- A permanently refused re-annotation is tried again at once, without backoff (`HandProtocol.RefusalRepeats`,
  `HandProtocol.RefusedSendIsSentAgain`).
- Lowering a hand is documented as a no-op when it is not up; after a refused raise it returns that refusal
  (`HandProtocol.LowerAfterRefusedRaiseFails`).
- A peer's newest annotation is meant to be the one a redaction names; the code compares times with the running minimum
  (`PeerHands.NewestUnlessBetween`, `PeerHands.OutOfOrderKeepsAnOlder`).
- A decline that arrives while the ring is being sent is lost behind eight others (`DirectCalls.HonouredUnlessBehindEight`, `DirectCalls.NinthDeclineIsLost`).
- A join whose media keys fail to start has already taken on its identity and does not refresh the joined members
  (`Rooms.FailedJoinRightExactlyWhen`, `Rooms.FailedJoinLags`).
- A complete member state that shows a member's join and then their delayed leave counts them twice
  (`Slots.TwiceExactlyWhen`, `Slots.CountedTwice`).

## Model

| member | source | states |
|---|---|---|
| `Ordering.SortedUnique` | crates/matrix-rtc-call-sdk/src/tile.rs:193 | two strictly sorted permutations of one another are the same sequence; used for tile ranking |
| `Tiles.RankTotal` | crates/matrix-rtc-call-sdk/src/tile.rs:258-288 | rank keys are totally and strictly ordered: two different tiles never tie |
| `Tiles.RankTransitive` | crates/matrix-rtc-call-sdk/src/tile.rs:258-288 | the rank order is transitive |
| `Tiles.DeriveTiles` | crates/matrix-rtc-call-sdk/src/tile.rs:169-195 | the two loops and the sort give a permutation of the roster's remote tiles in rank order, and our own tile apart |
| `Tiles.DeriveFacts` | crates/matrix-rtc-call-sdk/src/tile.rs:169-195 | with unique members, one tile per id, strictly ranked, from the roster and nothing else |
| `Tiles.DerivedInRankOrder` | crates/matrix-rtc-call-sdk/src/tile.rs:258-294 | the derived order read off the tiles: above the threshold shares come first, then raised hands by time, then whoever counts as speaking, then video, then join time with none last, then the id; at or below it only shares, join times and ids matter |
| `Tiles.DerivedTiles` | crates/matrix-rtc-call-sdk/src/tile.rs:175-188 | a tile is in the list exactly when it is another member's person tile, or their share tile while a screen share of theirs is up, and says of them what the roster says |
| `Tiles.TileDepicts` | crates/matrix-rtc-call-sdk/src/tile.rs:222-246 | what a tile says: video and microphone are those of the first stream of their kind, up and unmuted; the rest is the entry's |
| `Tiles.OwnTileIsOurs` | crates/matrix-rtc-call-sdk/src/tile.rs:178-184 | our own tile is there exactly while we are on the roster, is never a share, and says of us what the roster says |
| `Tiles.OrderIgnoresTheRest` | crates/matrix-rtc-call-sdk/src/tile.rs:258-294 | however large the call, connections, decryptability, names and who is speaking right now move no tile |
| `Tiles.DeriveIgnoresRosterOrder` | crates/matrix-rtc-call-sdk/src/tile.rs:169-193 | every permutation of a roster with unique members derives the same remote sequence |
| `Tiles.SmallCallsDoNotShuffle` | crates/matrix-rtc-call-sdk/src/tile.rs:258-288 | at or below the threshold, two rosters that agree on ids, locality, join times and who shares a screen give the same id order, whatever hands, speaking and cameras say |
| `Tiles.Window` | crates/matrix-rtc-call-sdk/src/tile.rs:201-220 | the order is complete, with each tile's id, user and hero mark; the detail is the subsequence of exactly the tiles in range or asked for |
| `Tiles.DetailIsASlice` | crates/matrix-rtc-call-sdk/src/tile.rs:201-220 | without tiles asked for by id the detail is exactly the ranks from the offset on, as many as asked for and there are |
| `Speakers.EveryStateCovered` | crates/matrix-rtc-call-sdk/src/engine.rs:1891-1937 | over every run: wherever a raw state differs from the ranked set, a timer with the member's current generation is in flight |
| `Speakers.ApplyRawAdvances` | crates/matrix-rtc-call-sdk/src/engine.rs:1891-1937 | one speaking update arms timers with the delay of their own direction and never moves the ranked set |
| `Speakers.FireAdvances` | crates/matrix-rtc-call-sdk/src/engine.rs:1218-1235 | only the newest timer of its member moves them in or out of the ranked set |
| `Speakers.RemoveAdvances` | crates/matrix-rtc-call-sdk/src/engine.rs:1711-1730 | a departure drops the member's raw and ranked state and leaves timers in flight |
| `Speakers.Hysteresis` | crates/matrix-rtc-call-sdk/src/engine.rs:1218-1235 | over every run: a member moves in or out of the ranked set only a whole delay after the timer was armed, and their raw state held its value all that time if and only if they did not leave in between |
| `Speakers.ReturnInheritsTimer` | crates/matrix-rtc-call-sdk/src/engine.rs:1722-1723 | the edge that condition guards: a member who spoke, left and came back is promoted by the first stay's timer, having spoken for less than the delay |
| `Reorder.PublishFacts` | crates/matrix-rtc-call-sdk/src/engine.rs:1947-1987 | a publication shows the derived order at once when there is nothing to hold, and otherwise exactly the still derived tiles of the held one in their order, under a window with a timer |
| `Reorder.CloseFacts` | crates/matrix-rtc-call-sdk/src/engine.rs:1238-1244 | closing the open window publishes the derived order; a stale window's message changes nothing |
| `Reorder.PublishOnlyPublishes` | crates/matrix-rtc-call-sdk/src/engine.rs:1947-1987 | a publication opens at most one window, with a timer due the coalesce delay from now, and closes none |
| `Reorder.SoonAfterADeparture` | crates/matrix-rtc-call-sdk/src/engine.rs:1972-1983 | a departure opens a window too, so a reorder that follows it can land sooner than the delay after it arose |
| `Reorder.RecordsOfDerived` | crates/matrix-rtc-call-sdk/src/engine.rs:1980-1987 | the derived order's records are the derived list itself |
| `Keys.ShownAfterGrace` | crates/matrix-rtc-call-sdk/src/engine.rs:92-116 | a member not sending in clear is shown a key failure exactly when they publish something and their unbroken spell of failures, read off the log of states, has lasted the grace |
| `Keys.FrameChangedGiven` | crates/matrix-rtc-call-sdk/src/engine.rs:1435-1455 | re-asking the pool only when a member crosses between failing and not keeps every stream's constraints what a fresh probe would give |
| `Keys.FrameChangedSpell` | crates/matrix-rtc-call-sdk/src/engine.rs:1456-1466 | the failing-since map is defined exactly for members whose last state is a failure and holds the start of the current spell |
| `Keys.Probe` | crates/matrix-rtc-call-sdk/src/engine.rs:72-86 | the probe only ever makes enabled, hidden video of an undecryptable member visible, and always does |
| `Roster.SnapshotFacts` | crates/matrix-rtc-call-sdk/src/engine.rs:1262-1312 | a snapshot makes the roster exactly its members, each once, and leaves the entries of those who stay alone |
| `Roster.NewcomersAreSeeded` | crates/matrix-rtc-call-sdk/src/engine.rs:1504-1550 | after a snapshot everybody is as they were or seeded from a membership of theirs: name, device, join time, hand, connection, and for us exactly what we publish |
| `Roster.JoinersAreNamed` | crates/matrix-rtc-call-sdk/src/engine.rs:1299-1304 | whoever is announced to have joined is named as their membership names them |
| `Roster.SnapshotReplay` | crates/matrix-rtc-call-sdk/src/engine.rs:1276-1304 | an announced snapshot's events turn the old membership into the new one and each carries the new duplicate-free count |
| `Roster.Unannounced` | crates/matrix-rtc-call-sdk/src/engine.rs:1265 | an unannounced snapshot emits nothing |
| `Roster.RenumberedByTime` | crates/matrix-rtc-call-sdk/src/engine.rs:1634-1652 | numbering a queue sorted by time and member id gives every entry one more than the rostered hands raised earlier |
| `EngineRuns.TurnKeepsRoster` | crates/matrix-rtc-call-sdk/src/engine.rs:1574-1652 | every turn keeps members unique, hand times current and positions right, also where renumbering is skipped |
| `EngineRuns.TurnKeepsOutput` | crates/matrix-rtc-call-sdk/src/engine.rs:1866-1869 | every turn ends with consumers holding the current roster, the current records in the held order and our current local state |
| `EngineSafety.EveryTurnKept` | crates/matrix-rtc-call-sdk/src/engine.rs:944-953 | every invariant of the engine holds at the end of every turn of every run |
| `EngineSafety.RankedOnlyAfterTheDelay` | crates/matrix-rtc-call-sdk/src/engine.rs:1218-1235 | the hysteresis theorem for runs of the whole engine: up after the promote delay, down after the demote delay, with departures read off the snapshots |
| `EngineSafety.RankedInTime` | crates/matrix-rtc-call-sdk/src/engine.rs:1891-1937 | in every run: whenever a member's raw state differs from their rank, their current timer is in flight, due one promote or demote delay after the turn that set it |
| `EngineSafety.FailuresShownAfterTheGrace` | crates/matrix-rtc-call-sdk/src/engine.rs:968-999 | in every run, at every turn end, who is shown which decryption failure and why, and that a turn is due when a running grace ends |
| `EngineSafety.PoolAskedForWhatIsNeeded` | crates/matrix-rtc-call-sdk/src/engine.rs:1204-1217 | in every run the constraints last given to the pool are the host's, probed with the member's present failure state |
| `EngineSafety.OrderIsCoalesced` | crates/matrix-rtc-call-sdk/src/engine.rs:1947-2000 | in every run: each order published is the derived one if a window closed on it or there was nothing before it, and otherwise exactly the tiles of the one before that were still there, in the same order; it differs from the derived order only while its window's timer is in flight; its records are the current ones |
| `ReorderTiming.EveryFlushWaits` | crates/matrix-rtc-call-sdk/src/engine.rs:1971-1979 | in every run: every timer in flight was set by the turn that opened its window, before which consumers held the derived order, and is due the coalesce delay after it |
| `ReorderTiming.ReordersWaitForTheDelay` | crates/matrix-rtc-call-sdk/src/engine.rs:1971-1979 | in every run: a turn lets a new order through only for the timer of a window opened at least the delay earlier, before which consumers held the derived order and which stayed open since; after it they hold the derived order |
| `ReorderTiming.DivergenceIsBounded` | crates/matrix-rtc-call-sdk/src/engine.rs:1971-1979 | in every run: whenever consumers hold another order than the derived one, a timer is due one delay after the turn that opened the window, before which they held it |
| `ReorderTiming.SyncKeepsWindows` | crates/matrix-rtc-call-sdk/src/engine.rs:968-999 | the end of a turn neither opens a window nor moves the order |
| `EngineSafety.EventsRefineTheRoster` | crates/matrix-rtc-call-sdk/src/engine.rs:1262-1312 | in every run: from our arrival to the end, the joins and leaves emitted turn the members we arrived to into exactly the current ones; positions are what the queue says |
| `EngineSafety.EventsCountTheRoster` | crates/matrix-rtc-call-sdk/src/engine.rs:1262-1312 | in every run: whenever a turn announces a join or a leave it is not ours, they are on the roster exactly if they joined, and the count is the size of the duplicate-free roster after it |
| `EngineSafety.SnapshotAnnounces` | crates/matrix-rtc-call-sdk/src/engine.rs:1262-1304 | what one snapshot announces: nothing before our arrival or after the end, else joins and leaves of others with the new count |
| `Announcements.HandsAreAnnounced` | crates/matrix-rtc-call-sdk/src/engine.rs:1571-1612 | in every run: a turn announces a raised hand exactly when it takes a hand set that has the rostered member's hand up, not by backfill, where it was down, and a lowered one exactly when the set lost the hand that was up; only between our arrival and the end |
| `Announcements.HandEventsRefineTheRoster` | crates/matrix-rtc-call-sdk/src/engine.rs:1571-1622 | in every run: while a member stays and no backfill shows their hand, replaying the hand events of any stretch on the hand at its start gives the hand at its end |
| `Reports.TheLastWordIsHeld` | crates/matrix-rtc-call-sdk/src/engine.rs:1204-1217 | in every run, from the messages alone: who is in the call, who speaks, sends in clear or cannot be decrypted, the constraints asked for, and which streams are up and muted are the last word on each other member since they came |
| `Reports.OneStreamOfEachKind` | crates/matrix-rtc-call-sdk/src/engine.rs:1739-1832 | in every run nobody ever has two streams of a kind |
| `Reports.OwnPublishes` | crates/matrix-rtc-call-sdk/src/engine.rs:1746-1760 | what we publish shows on our own entry, unless a stream of its kind already does |
| `Reports.OwnUnpublishes` | crates/matrix-rtc-call-sdk/src/engine.rs:1790-1804 | a retraction takes the stream off our entry exactly if it is of the track that is up |
| `Reports.OwnMutes` | crates/matrix-rtc-call-sdk/src/engine.rs:1142-1170 | a mute shows on our entry where something of that kind is published and the transport accepted it |
| `EngineSafety.TurnShowsConnections` | crates/matrix-rtc-call-sdk/src/engine.rs:968-999 | after every turn each entry shows the connection the pool has with its member, or our own |
| `EngineSafety.TurnPauses` | crates/matrix-rtc-call-sdk/src/engine.rs:1038-1061 | after every turn each publication's transport mute is the user's mute or the lapse, unless the transport refused; without a lapse it is the user's mute again |
| `OwnMedia.LapsedExactlyWhen` | crates/matrix-rtc-call-sdk/src/engine.rs:960-962 | in every run, from the messages alone: we have lapsed exactly when the call has not ended and the last lapse report said so, or we had arrived and the last snapshot was without us |
| `OwnMedia.MutedExactlyWhen` | crates/matrix-rtc-call-sdk/src/engine.rs:1034-1061 | in every run: a publication whose transport call is not refused is sent muted exactly for the user's mute or that lapse |
| `OwnMedia.PublicationsAsTold` | crates/matrix-rtc-call-sdk/src/engine.rs:1100-1170 | in every run: what we publish of a kind is what the host last published and has not retracted since, muted as the host last said and the transport accepted |
| `OwnMedia.MuteKeepsThePause` | crates/matrix-rtc-call-sdk/src/engine.rs:1142-1157 | a user's mute leaves the pause in place: it never reaches the transport as an unmute while we have lapsed |
| `OwnMedia.LocalStateMeans` | crates/matrix-rtc-call-sdk/src/engine.rs:2002-2020 | our own state is there while we are on the roster, shows us, and says we share our screen exactly while an unmuted share of ours is up |
| `EnginePause.PauseIsInvisible` | crates/matrix-rtc-call-sdk/src/engine.rs:1034-1061 | two runs that differ only in the core's lapse inputs, every transport call accepted, publish the same participants, tiles, local state and events |
| `EngineSafety.PublishShowsMute` | crates/matrix-rtc-call-sdk/src/engine.rs:1755-1757 | after publishing, our entry shows the new mute flag if and only if no stream of that kind was up on it, or one was with the same flag; otherwise it keeps the old one |
| `EngineSafety.RepublishKeepsMute` | crates/matrix-rtc-call-sdk/src/engine.rs:1755-1757 | the failure as a run: published muted, then unmuted, and still shown muted |
| `Actors.Actor.constructor` | crates/matrix-rtc-call-sdk/src/engine.rs:359-391 | the actor starts as the state machine's initial state |
| `Actors.Actor.RunTurn` | crates/matrix-rtc-call-sdk/src/engine.rs:944-953 | one pass of the loop does exactly one turn of the state machine |
| `Actors.Actor.HandleMessage` | crates/matrix-rtc-call-sdk/src/engine.rs:1063-1256 | each message does what the state machine says |
| `Actors.Actor.SyncMediaState` | crates/matrix-rtc-call-sdk/src/engine.rs:968-999 | the read-back of connections and decryptability, and the pause, end every turn |
| `Actors.Actor.ApplyPause` | crates/matrix-rtc-call-sdk/src/engine.rs:1038-1061 | the loop over our publications reaches the paused state, kind by kind, leaving refused ones alone |
| `Actors.Actor.ApplySnapshot` | crates/matrix-rtc-call-sdk/src/engine.rs:1262-1312 | departures, arrivals, pool events, renumbering and publication, in the source's order |
| `Actors.Actor.RemoveDeparted` | crates/matrix-rtc-call-sdk/src/engine.rs:1287-1298 | the departures loop leaves exactly those who stay and forgets speakers and keys of exactly those who left |
| `Actors.Actor.AddJoined` | crates/matrix-rtc-call-sdk/src/engine.rs:1299-1304 | the arrivals loop appends the new members in snapshot order with their events |
| `Actors.Actor.RemoveMember` | crates/matrix-rtc-call-sdk/src/engine.rs:1711-1730 | one departure takes the entry and everything kept about the member |
| `Actors.Actor.AddMember` | crates/matrix-rtc-call-sdk/src/engine.rs:1504-1550 | one arrival, seeded with hand time and, for us, our publications |
| `Actors.Actor.ApplyRaisedHands` | crates/matrix-rtc-call-sdk/src/engine.rs:1574-1622 | a hand set changes times, positions and announcements as the state machine says, and nothing when no time moved |
| `Actors.Actor.RefreshHandPositions` | crates/matrix-rtc-call-sdk/src/engine.rs:1634-1652 | the index and the two loops number every rostered hand by its place in the queue |
| `Actors.Actor.ApplyRawSpeakers` | crates/matrix-rtc-call-sdk/src/engine.rs:1891-1940 | the loop over members, in any order, is one hysteresis update, published if the raw set changed |
| `Actors.Actor.FireSpeakerTimer` | crates/matrix-rtc-call-sdk/src/engine.rs:1218-1235 | a timer applies only if its generation is the member's current one |
| `Actors.Actor.EncryptionStateChanged` | crates/matrix-rtc-call-sdk/src/engine.rs:1435-1466 | the state change, the re-probe loop and the grace timer |
| `Actors.Actor.AddStream` | crates/matrix-rtc-call-sdk/src/engine.rs:1739-1786 | a stream that came up, remote or ours, joins the entry once |
| `Actors.Actor.RemoveStream` | crates/matrix-rtc-call-sdk/src/engine.rs:1790-1804 | a stream that went leaves the entry |
| `Actors.Actor.SetMemberMuted` | crates/matrix-rtc-call-sdk/src/engine.rs:1808-1832 | a mute change reaches the entry's stream, once |
| `Actors.Actor.MuteLocally` | crates/matrix-rtc-call-sdk/src/engine.rs:1142-1170 | a user's mute takes when the transport accepts it and is kept apart from the pause |
| `Actors.Actor.PublishTiles` | crates/matrix-rtc-call-sdk/src/engine.rs:1947-1987 | derivation, held order, window, its timer and records are the state machine's publication |
| `Actors.Actor.HoldOrder` | crates/matrix-rtc-call-sdk/src/engine.rs:1980-1986 | departed tiles leave the held order at once and the records are looked up by id |
| `Actors.Actor.CloseWindow` | crates/matrix-rtc-call-sdk/src/engine.rs:1238-1244 | a window's message publishes the derived order if it is the open one |
| `PeerHands.RememberedIsRecent` | crates/matrix-rtc-call/src/reactions.rs:646-672 | a member's bounded list is exactly the last 8 distinct ids of their whole history by most recent appearance, in that order |
| `Reactions.KnownIsRecent` | crates/matrix-rtc-call/src/reactions.rs:646-676 | over any run of rosters, a member's list is the last 8 distinct ids of their events since they were last absent, by most recent appearance, and there is none without such events |
| `PeerHands.RecencyOrder` | crates/matrix-rtc-call/src/reactions.rs:658-671 | the unbounded list that refines is ordered by latest appearance |
| `PeerHands.RecencyMembers` | crates/matrix-rtc-call/src/reactions.rs:658-671 | and holds exactly the ids of the history, each once |
| `PeerHands.MergedFacts` | crates/matrix-rtc-call/src/reactions.rs:793-836 | a hand's time is the earliest annotation's, its backfill mark the first one's, and the id to redact that of the latest not earlier than all before it |
| `PeerHands.InOrderKeepsTheLast` | crates/matrix-rtc-call/src/reactions.rs:809-836 | annotations that never go back in time leave the last one's id, so redacting it lowers the hand |
| `PeerHands.NewestUnlessBetween` | crates/matrix-rtc-call/src/reactions.rs:814-820 | after one more annotation, whatever came before, the kept one is the newest if and only if that one is not older than any, or the kept one was the newest and that one precedes them all |
| `PeerHands.OutOfOrderKeepsAnOlder` | crates/matrix-rtc-call/src/reactions.rs:814-820 | times 5, 3, 4 in that order keep the id of 4 |
| `Reactions.ReactionsState.RaisedHands` | crates/matrix-rtc-call/src/reactions.rs:626-634 | every hand once, in the queue order the engine's numbering rests on |
| `Reactions.ReactionsState.SyncRoster` | crates/matrix-rtc-call/src/reactions.rs:646-676 | members gone lose hand and history; each current event is remembered as the latest |
| `Reactions.ReactionsState.Ingest` | crates/matrix-rtc-call/src/reactions.rs:793-836 | an accepted annotation is merged into the member's hand |
| `Reactions.ReactionsState.OnEventRedacted` | crates/matrix-rtc-call/src/reactions.rs:843-866 | lowers the hands that event raised; our wish stays |
| `Reactions.ReactionsState.ShowOwnHand` | crates/matrix-rtc-call/src/reactions.rs:1027-1055 | our hand is shown where it was asked to be, keeping its time |
| `Reactions.ReactionsState.RequestHand` | crates/matrix-rtc-call/src/reactions.rs:936-948 | a request that changes the wish gets the next number; one that does not changes nothing and waits on the latest; peers' hands stay |
| `Reactions.ReactionsState.HandStep` | crates/matrix-rtc-call/src/reactions.rs:957-975 | the next send the hand needs, as the protocol has it; `HandServer.RestAtTheServer` is what such sends amount to at the server |
| `Reactions.ReactionsState.HandSent` | crates/matrix-rtc-call/src/room_state.rs:721-771 | one outcome's effect on the hand and on what is shown of us and nobody else, and what the sender does next, in the call and out of it |
| `Reactions.ReactionsState.ResetOwn` | crates/matrix-rtc-call/src/reactions.rs:1059-1065 | our own hand and every request for it end with the participation; peers' hands stay |
| `Reactions.DriveHand` | crates/matrix-rtc-call/src/room_state.rs:775-788 | the retry loop ends agreed on the membership event it last saw, or stopped; it sends nothing when agreed and at most once when everything lands; after each failure for now it waits a second doubled for every failure in a row before it, up to half a minute, or what the server asks if that is more, and after nothing else; and it touches nobody else's hand |
| `HandProtocol.SendsUnlessAgreed` | crates/matrix-rtc-call/src/reactions.rs:957-975 | a send is due if and only if the hand does not stand where asked on the current membership event |
| `HandProtocol.SendsAreBounded` | crates/matrix-rtc-call/src/client.rs:653-699 | over every run, sends plus the distance left never exceed two plus two for every request, move, redaction, refusal or failure |
| `HandProtocol.RestIsReached` | crates/matrix-rtc-call/src/client.rs:653-699 | every run with more looks than two plus two for each disturbance has one that finds the hand where it was asked to be and answers every request |
| `HandProtocol.RestMeansAgreed` | crates/matrix-rtc-call/src/room_state.rs:700-717 | a look that sends nothing leaves agreement and every request answered |
| `HandServer.RestAtTheServer` | crates/matrix-rtc-call/src/room_state.rs:188-241 | over every run, with the server's annotations beside it: when the sender finds nothing to send in the call, a wanted hand is exactly one tracked annotation, on our current membership event, unless it was taken off there without word to us, and for a hand not wanted there is none |
| `HandServer.StraysComeFrom` | crates/matrix-rtc-call/src/room_state.rs:211-239 | an annotation we do not track comes only of a send never answered, of a replaced one that could not be tidied and is on another membership event than its replacement, or of leaving; a tracked one is lost only to a redaction of others or one never answered |
| `HandServer.UndisturbedRest` | crates/matrix-rtc-call/src/room_state.rs:188-241 | with every send answered and every replaced annotation tidied, the server holds at rest what it held before and, for a wanted hand, exactly one annotation more |
| `HandProtocol.AnswersStand` | crates/matrix-rtc-call/src/reactions.rs:510-530 | over every run an answered request stays answered, and one fails only if a refusal came while it was the latest |
| `HandProtocol.ToldExactlyWhen` | crates/matrix-rtc-call/src/reactions.rs:510-530 | over every run a request is told nothing exactly while no later request, quiet look, refusal or leave has come since, and a refusal exactly if the last refusal since came while it was the latest |
| `HandProtocol.MetMeansDone` | crates/matrix-rtc-call/src/reactions.rs:954-985 | a request first answered by a look that finds nothing to send has been met: the hand is up or down as asked, on our current membership event |
| `HandProtocol.WantedOnlyInTheCall` | crates/matrix-rtc-call/src/room_state.rs:641-690 | over every run our hand is wanted, up or being sent only in the call |
| `HandProtocol.RunOrdered` | crates/matrix-rtc-call/src/reactions.rs:936-985 | over every run settled never passes latest, and both only grow |
| `HandProtocol.RefusalRepeats` | crates/matrix-rtc-call/src/reactions.rs:1010-1024 | a permanent refusal leaves the very send that was refused due again if and only if it re-annotates a hand still wanted after the membership event moved |
| `HandProtocol.RefusedSendIsSentAgain` | crates/matrix-rtc-call/src/reactions.rs:1010-1024 | the self-loop as a run: raised, moved, refused, and the same send again |
| `HandProtocol.ForeignRedactionIsUndone` | crates/matrix-rtc-call/src/reactions.rs:858-864 | a redaction from elsewhere is answered by raising the hand again |
| `HandProtocol.FailureFadesWithTheNextRefusal` | crates/matrix-rtc-call/src/reactions.rs:517-524 | a refusal read late turns into success exactly when a later request was refused too |
| `HandProtocol.NothingNewGetsTheLatestAnswer` | crates/matrix-rtc-call/src/reactions.rs:936-940 | asking for what is already asked for waits on the latest request and gets its verdict |
| `HandProtocol.LowerAfterRefusedRaiseFails` | crates/matrix-rtc-call/src/room_state.rs:641-647 | so lowering a hand whose raise was refused reports that refusal |
| `CallStatus.CallStatusCell.Publish` | crates/matrix-rtc-call/src/status.rs:163-196 | the status of the inputs; the connected time is set on first use |
| `CallStatus.CallStatusCell.Report` | crates/matrix-rtc-call/src/status.rs:200-292 | every report recomputes and publishes from the new inputs |
| `CallStatus.CallStatusCell.Lost` | crates/matrix-rtc-call/src/status.rs:341-349 | a media loss goes to the follower if there is one, and ends the call otherwise |
| `CallStatus.ReportedForward` | crates/matrix-rtc-call/src/status.rs:163-211 | one report never takes the phase back, and a connected time or an end once set stands |
| `CallStatus.ConnectedMeansInCall` | crates/matrix-rtc-call/src/status.rs:163-196 | in a DM, connected means the lifecycle has the callee in the call |
| `DirectCalls.CalleeOf` | crates/matrix-rtc-call/src/direct_call.rs:176-184 | somebody is the callee if and only if the members are known, they are one of them and not us, and every member is them or us |
| `DirectCalls.MovesForward` | crates/matrix-rtc-call/src/direct_call.rs:247-293 | every transition that changes the state takes it strictly further |
| `DirectCalls.BatchesAmountToOne` | crates/matrix-rtc-call/src/direct_call.rs:297-331 | however a host batches room events, they amount to one batch |
| `DirectCalls.HoldFacts` | crates/matrix-rtc-call/src/direct_call.rs:307-317 | what is held: distinct ids, at most 8, and every callee decline unless full |
| `DirectCalls.DeclinedExactlyWhen` | crates/matrix-rtc-call/src/direct_call.rs:333-354 | with no pickup between, the call is declined exactly when a held decline references the ring or a later one does |
| `DirectCalls.ResponseOrderDoesNotMatter` | crates/matrix-rtc-call/src/direct_call.rs:297-354 | with at most 8 distinct callee declines, wherever the send's response falls in the stream, the call is declined exactly when some callee decline references the ring |
| `DirectCalls.HonouredUnlessBehindEight` | crates/matrix-rtc-call/src/direct_call.rs:297-354 | over the stream itself: the call is declined if and only if a decline of the ring comes after the response, or one comes before it with fewer than eight distinct declines ahead |
| `DirectCalls.HeldExactly` | crates/matrix-rtc-call/src/direct_call.rs:307-317 | a decline is held if and only if it found fewer than eight distinct ones before it |
| `DirectCalls.NinthDeclineIsLost` | crates/matrix-rtc-call/src/direct_call.rs:47-49 | nine distinct declines of which only the last references the ring leave the call ringing |
| `DirectCalls.NineDeclines` | crates/matrix-rtc-call/src/direct_call.rs:47-49 | and there are such declines for every ring |
| `DirectCalls.LostOnlyBehindEight` | crates/matrix-rtc-call/src/direct_call.rs:47-49 | a decline that is not honoured came during the send behind eight others: the bound is the only way to lose one |
| `DirectCalls.DirectCall.constructor` | crates/matrix-rtc-call/src/direct_call.rs:211-235 | the lifecycle starts with whether anyone else was seen |
| `DirectCalls.DirectCall.Receive` | crates/matrix-rtc-call/src/direct_call.rs:247-379 | each source's move does the machine's transition and tells the status exactly when the state changed; `CallStory.AnsweredExactlyWhen` and `CallStory.EndedExactlyWhen` say what those amount to |
| `DirectCalls.DirectCall.HoldDeclines` | crates/matrix-rtc-call/src/direct_call.rs:307-317 | the loop keeps the callee's declines, each once, up to the bound |
| `DirectCalls.RunRing` | crates/matrix-rtc-call/src/direct_call.rs:415-490 | for every pattern of outcomes, durations and departures: one to four attempts before the deadline, at most one stored ring, and no exit leaves the call waiting; unanswered means the whole lifetime passed since the attempt that was accepted, after refusals with pauses of 1, 2 and 4 s, and nothing else ended it before; not sent means the deadline came first |
| `DirectCalls.TrySending` | crates/matrix-rtc-call/src/direct_call.rs:429-476 | one attempt: sent when its answer says so, to be tried again a pause after a refusal, or out by the deadline or another source |
| `DirectCalls.TimeRing` | crates/matrix-rtc-call/src/direct_call.rs:479-489 | once out, the ring ends by another source or when its whole lifetime has passed |
| `CallStory.AnsweredExactlyWhen` | crates/matrix-rtc-call/src/direct_call.rs:264-281 | over every interleaving: the call is or was answered exactly when a roster with the callee on it came while we were calling, and counts from the time of that roster |
| `CallStory.EndedExactlyWhen` | crates/matrix-rtc-call/src/direct_call.rs:264-379 | over every interleaving, for each reason: declined exactly when the callee declined our ring while it rang or, with fewer than eight distinct declines before it, while it was sent; unanswered exactly when its time ran out while it rang; not sent exactly when sending failed; others left exactly when a roster was of ours alone, in the call, after somebody had been there; left exactly when we left before any of that |
| `CallStory.RingsAsSent` | crates/matrix-rtc-call/src/direct_call.rs:333-354 | a call that rings was sent when it says, with that lifetime |
| `CallLifecycle.SessionEnd.ReportTo` | crates/matrix-rtc-call/src/client.rs:831-842 | an end that already happened is told at once |
| `CallLifecycle.SessionEnd.End` | crates/matrix-rtc-call/src/client.rs:857-871 | the first caller wins, and tells the status if it is there |
| `CallLifecycle.SessionEnd.EndQuietly` | crates/matrix-rtc-call/src/client.rs:848-854 | the first caller wins and leaves the status to the caller |
| `CallLifecycle.SessionEnd.Abandon` | crates/matrix-rtc-call/src/client.rs:873-875 | a dropped session ends without an end to report |
| `CallLifecycle.NothingGoesBack` | crates/matrix-rtc-call/src/client.rs:814-876 | over every interleaving of lifecycle, media, losses, ends and `report_to`: the lifecycle moves strictly forward, the status phase never back, the connected time, the reported end and the winner stand |
| `CallLifecycle.OneEnderWins` | crates/matrix-rtc-call/src/client.rs:848-871 | at most one caller ever ends the session |
| `CallLifecycle.FirstEndStands` | crates/matrix-rtc-call/src/status.rs:209-211 | the status shows the first end anyone reported, as soon as anyone has |
| `CallLifecycle.WinningEndToldOnce` | crates/matrix-rtc-call/src/client.rs:831-871 | a winning `end` reaches the status exactly once, whichever of it and `report_to` comes first |
| `CallLifecycle.QuietEndsStayQuiet` | crates/matrix-rtc-call/src/client.rs:846-854 | a quiet end whose status was already there is never told by the session |
| `StatusStory.TheEndShownIsTheFirstCause` | crates/matrix-rtc-call/src/status.rs:200-292 | over every interleaving: the status is ended exactly when something ended the call, and shows the first thing that did as what it was: a decline, no answer, a ring not sent, the others leaving, our leaving, a closed slot, or a connection given up |
| `StatusStory.StatusTellsHowFar` | crates/matrix-rtc-call/src/status.rs:163-196 | over every interleaving, before anything ended the call: calling exactly while the lifecycle is sending or ringing, otherwise connected exactly while our media is up, with the last word on its quality |
| `StatusStory.ConnectedSinceItFirstWas` | crates/matrix-rtc-call/src/status.rs:163-196 | a connected call counts from the first action after which its status was connected |
| `StatusStory.ConnectedOnlyWithTheCallee` | crates/matrix-rtc-call/src/status.rs:163-196 | over every interleaving a connected DM has the callee in the call, a call that had to be answered was answered by a roster with the callee on it, and an ended lifecycle has an ended status |
| `StatusStory.EmptyFromTheStart` | crates/matrix-rtc-call/src/room_state.rs:965-979 | a DM whose call was already over when we meant to answer or join it has ended from the start |
| `StatusStory.TheFirstToTakeItEndsIt` | crates/matrix-rtc-call/src/client.rs:814-876 | over every interleaving of ends, quiet ends and drops: the first to take the flag decides who won, with which reason, and when that is set |
| `ToDevice.ClientShared.Release` | crates/matrix-rtc-core/src/client.rs:81-91 | forgets a room and stops the subscription with the last one |
| `ToDevice.ClientShared.Register` | crates/matrix-rtc-core/src/feeder/mod.rs:75-96 | a room with a live entry is refused; otherwise whether the subscription has to be started |
| `ToDevice.RoomHandle.Detach` | crates/matrix-rtc-core/src/client.rs:350-363 | detaching releases the room, once |
| `ToDevice.RunKept` | crates/matrix-rtc-core/src/client.rs:160-231 | over every interleaving: registry, ids and subscription invariants |
| `ToDevice.SubscribedExactlyAsNeeded` | crates/matrix-rtc-core/src/client.rs:56-61 | in every interleaving of opens, cancellable at any await, and closes: running whenever a handle is open, stopped whenever nothing is registered, never started twice |
| `ToDevice.OneHandlePerRoom` | crates/matrix-rtc-core/src/feeder/mod.rs:73-96 | no room ever has two handles |
| `ToDevice.RefusedExactlyWhenOpen` | crates/matrix-rtc-core/src/client.rs:160-231 | in every interleaving an open that gets the lock is refused, changing nothing, exactly when a handle has the room, and otherwise goes on, starting the subscription first exactly when no handle is open |
| `ToDevice.OpenedUntilClosed` | crates/matrix-rtc-core/src/client.rs:160-231 | an open let through its awaits is a handle in the end, and closing it frees its room and no other; nothing else makes or takes a handle |
| `ToDevice.CancelledLeavesNothing` | crates/matrix-rtc-core/src/client.rs:165-171 | a failed or cancelled open frees its room, touches no other and leaves the subscription to the open handles alone |
| `ToDevice.ClosingSparesTheOpener` | crates/matrix-rtc-core/src/client.rs:58-60 | closing every other room while one is attaching does not take the subscription from it |
| `Slots.ResolvedByTheRoom` | crates/matrix-rtc-core/src/slot.rs:176-280 | a slot is open if and only if its status, application, state key and, in an encrypted room, mechanism say so, and is encrypted as the room demands |
| `Slots.CountingMeans` | crates/matrix-rtc-core/src/session.rs:1107-1200 | the joined members are exactly the candidates of a slot not known to be closed that do not send in clear in an encrypted room, are no earlier participation of our device, and whose sender is in the room as far as known |
| `Slots.RebuiltByMember` | crates/matrix-rtc-core/src/session.rs:795-906 | for any events: what a complete state leaves of a member depends on the events naming them alone |
| `Slots.HeldByMember` | crates/matrix-rtc-core/src/session.rs:795-906 | for any events: a hold after a complete state, and when it ends, depends on the events naming the member alone |
| `Slots.RebuiltInOrder` | crates/matrix-rtc-core/src/session.rs:795-906 | with one entry for each member the candidates are what the entries leave, in the state's order |
| `Slots.RebuiltMeans` | crates/matrix-rtc-core/src/session.rs:795-906 | with one entry for each member: a candidate, once, exactly when the entry joins or is a delayed leave, not our own, of somebody the last state had |
| `Slots.TwiceExactlyWhen` | crates/matrix-rtc-core/src/session.rs:822-837 | with several entries a member can count twice: exactly when a delayed leave of somebody the last state had comes while they stand in this one and nothing takes them out after |
| `Slots.CountedTwice` | crates/matrix-rtc-core/src/session.rs:822-837 | for instance a join and then a delayed leave |
| `Slots.CurrentExactlyWhen` | crates/matrix-rtc-core/src/session.rs:1107-1200 | a session's joined members satisfy the conditions if and only if none of them is an earlier participation of our device |
| `Slots.HoldIsNotExtended` | crates/matrix-rtc-core/src/session.rs:827-836 | a state that still shows a delayed leave does not extend the hold |
| `Slots.ExpiredMeans` | crates/matrix-rtc-core/src/session.rs:1073-1099 | ending holds takes out exactly the members whose time is up |
| `Rooms.BaseRtcRoom.OnSlotsReceived` | crates/matrix-rtc-core/src/base_rtc_room.rs:571-597 | the slots are replaced wholesale, foreign ones dropped, and every session told |
| `Rooms.BaseRtcRoom.ForgetSlots` | crates/matrix-rtc-core/src/base_rtc_room.rs:613-627 | the slot condition stops being enforced everywhere, once |
| `Rooms.BaseRtcRoom.OnEncryptionReceived` | crates/matrix-rtc-core/src/base_rtc_room.rs:634-651 | a changed encryption state re-resolves every slot and reaches every session |
| `Rooms.BaseRtcRoom.OnMembersReceived` | crates/matrix-rtc-core/src/base_rtc_room.rs:699-706 | the room's members reach every session |
| `Rooms.BaseRtcRoom.PushSlotState` | crates/matrix-rtc-core/src/base_rtc_room.rs:655-688 | every session gets its slot resolved, and a slot with no event is closed |
| `Rooms.BaseRtcRoom.SetCurrentStickyState` | crates/matrix-rtc-core/src/base_rtc_room.rs:271-321 | the complete sticky state reaches every session, named or not; an unreadable entry of this room applies nothing; `DelayedLeaves.KeptWhileHeld` and `DelayedLeaves.HoldEnds` say what the holds it starts amount to |
| `Rooms.BaseRtcRoom.ExpireHolds` | crates/matrix-rtc-core/src/base_rtc_room.rs:340-346 | every hold that is over ends, in every slot |
| `Rooms.BaseRtcRoom.SessionForSlot` | crates/matrix-rtc-core/src/base_rtc_room.rs:809-843 | a new session is seeded with what the room holds |
| `Rooms.BaseRtcRoom.JoinWithin` | crates/matrix-rtc-core/src/base_rtc_room.rs:157-204 | a join is refused for a closed slot or a second join, and otherwise made through the slot's session |
| `Rooms.BaseRtcRoom.BeginLeave` | crates/matrix-rtc-core/src/session.rs:639-676 | leaving ends our part in the slot's session and keeps the session |
| `Rooms.EverySessionSeesTheRoom` | crates/matrix-rtc-core/src/base_rtc_room.rs:571-706 | for every order of calls and whenever each session was made: its view is what the host last said; whoever is not an earlier participation of our device is joined if and only if they satisfy the conditions against it; and the joined members are exactly right if and only if no such participation is among them |
| `Rooms.StickyStateReplaces` | crates/matrix-rtc-core/src/base_rtc_room.rs:228-321 | with one entry for each member: afterwards a session's candidates are exactly those whose entry joins, and those it had whose entry is a delayed leave not our own |
| `Rooms.HoldsEndOnTime` | crates/matrix-rtc-core/src/session.rs:795-906 | over every run a held member is a candidate, on the same hold after any state that keeps it, and gone exactly when it ends; `DelayedLeaves.EveryHoldBegan` says when it began |
| `DelayedLeaves.KeptWhileHeld` | crates/matrix-rtc-core/src/session.rs:822-837 | over every order of calls: a member whose delayed leave first shows in a state at some time is on a hold that ends ten seconds later, and a candidate with what they had, through every later state that shows the leave and every ending of holds before that |
| `DelayedLeaves.HoldEnds` | crates/matrix-rtc-core/src/session.rs:1073-1099 | the first call under which that does not go on ends the hold: the member is back with their new entry if the state has them joined, and gone otherwise |
| `DelayedLeaves.EveryHoldBegan` | crates/matrix-rtc-core/src/session.rs:822-837 | and nobody is on hold otherwise |
| `Rooms.SlotMapMeans` | crates/matrix-rtc-core/src/base_rtc_room.rs:571-590 | the room's slots are those with an event for this room, each with its last one |
| `Rooms.OwnIdentity` | crates/matrix-rtc-core/src/base_rtc_room.rs:157-204 | for every order of calls, who we are in a slot: nobody while it is known to be closed and from a leave on, otherwise whoever the first join since that was sent was made as |
| `Rooms.RefusedExactlyWhen` | crates/matrix-rtc-core/src/base_rtc_room.rs:157-204 | for every order of calls a join is refused as closed exactly when the host's slots say so, and otherwise as a second join exactly while we are in the slot |
| `Rooms.FailedJoinRightExactlyWhen` | crates/matrix-rtc-core/src/session.rs:483-553 | a join whose media keys fail to start leaves the joined members right if and only if no earlier participation of the device counted before it; any other join leaves them right |
| `Rooms.NeverInAClosedSlot` | crates/matrix-rtc-core/src/session.rs:1259-1277 | we are never joined to a slot the room knows to be closed |
| `Rooms.FailedJoinLags` | crates/matrix-rtc-core/src/session.rs:483-535 | that failure as a run: the device's previous participation stays counted |

## Left out

- The media pool, the transports, the membership machine, the encryption manager and the outbox: their reports and
  outcomes are inputs.
- Receive statistics, frame streams, logging and debug snapshots: diagnostics.
- JSON content, grapheme segmentation, the emoji and sound catalogue, and the checks that accept a reaction
  (`resolve_target`, cooldown, enabled): a peer annotation is modelled once accepted.
- Real clocks, tasks and channels: replaced by explicit times, messages in flight and actions in any order.
- The library's sort: a stable insertion sort stands for it; hash maps are maps, iterated in any order.
- The 32-bit saturation of the detail window's bound, which only matters past four billion tiles.
- What a join or leave of a slot sends, and single member events applied outside a complete state.
- A room registration whose room state was dropped without unregistering: no open or handle leaves one.
- Actors.Actor.HandleMessage: does not take the messages that only hand a connection, a publish, a retraction or a key
  to the pool or the transport; what they lead to arrives as pool events and publications.
- Actors.Actor.SyncMediaState: does not build the interruptions record, a summary of the roster and the lapse nothing
  reads back.
- Actors.Actor.RemoveMember: does not keep the list of installed key indices, which only labels diagnostics.
- Actors.Actor.AddMember: does not emit the stream events of our own publications; the roster entry has the streams.
- Actors.Actor.EncryptionStateChanged: does not emit the state with its diagnostic; the log of states is kept instead.
- Actors.Actor.AddStream: does not emit the stream events; the event stream modelled is who is in the call and whose
  hand is up.
- Actors.Actor.RemoveStream: does not emit the stream event, as above.
- Actors.Actor.SetMemberMuted: does not emit the mute event, as above.
- HandProtocol.SendsAreBounded: a refusal counts as a disturbance, because of the self-loop `HandProtocol.RefusalRepeats`
  pins down.
- Reactions.DriveHand: from some attempt on the server accepts or is over and our membership event stands, without which
  the loop need not end.
- DirectCalls.RunRing: a pickup or our leaving takes the call out of sending, and those or a decline out of ringing, each
  at a time of its own; declines that came during the send are whatever the lifecycle holds.
- DirectCalls.ResponseOrderDoesNotMatter: only for at most 8 distinct callee declines; for any number
  `DirectCalls.HonouredUnlessBehindEight` says when the call is declined.
- Speakers.Hysteresis: assumes that a turn which removes a member does not also report speakers, which the engine's
  runs are shown to satisfy.
- HandServer.RestAtTheServer: what leaves of a participation at the server once it is over is not followed further.
- Announcements.HandEventsRefineTheRoster: leaves out stretches in which a backfill shows the member's hand, which is
  not announced; `Announcements.HandsAreAnnounced` says of each turn what is.
- CallStory.EndedExactlyWhen: takes room events with distinct ids, as the server gives them out.
- DelayedLeaves.KeptWhileHeld: takes one entry for each member and slot, as a sticky map has; `Slots.HeldByMember` says
  what other states give.
- Slots.RebuiltMeans: takes one entry for each member, as a sticky map has; `Slots.RebuiltByMember` and
  `Slots.TwiceExactlyWhen` say what other states give.
- Attaching to a call, transports, notification and intent content: wiring with nothing hard behind it.
