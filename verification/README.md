# Curtilage: a verified model of its core

Curtilage watches a house through Frigate. A policy engine turns broker messages
into events; a store serves those events to clients; a media layer cuts clips and
caches the cuts; small codecs guard the links and the passkeys. This project
models that logic in Dafny and proves what it is meant to guarantee.

Each component is modelled in the form the program has it: objects whose methods
update fields are classes, loops are loops with invariants, pure code is
functions. A method is tied by its `ensures` to a specification (a function, or a
predicate where the program iterates over a map in no particular order), and the
theorems are proved about that specification: for every message sequence, every
interleaving, every byte string.

| files | component |
|---|---|
| `Policy`, `Lifecycle` | events, the passthrough engine, the Started/Updated/Ended grammar |
| `Headcount`, `Adjacency`, `BoxTrail`, `Incidents`, `IncidentRuns`, `IncidentStory`, `IncidentFacts`, `IncidentLife` | the incident engine and all its runs, and what its incidents owe to the messages |
| `Occupancy`, `OccupancyRuns`, `OccupancyEvidence` | the parking ledgers, all their runs, and the messages they rest on |
| `States` | the classifier debouncer and its traces |
| `Edl` | the edit decision list |
| `EventStore`, `StorePaging`, `StoreWatching`, `StoreReplay`, `CursorText`, `TokenPaging`, `Decimal` | the store, paging sessions, watches and histories, tokens |
| `MediaCache`, `CacheProtocol`, `CacheCare`, `CacheOutcomes`, `CacheProgress`, `NamedDisk` | the cache as an LRU, under concurrency, what care that takes, what calls return, that they can, and on a disk keyed by name |
| `BigEndian`, `Cbor`, `CborWire`, `Cose` | the CBOR reader, its wire format, passkey registration |
| `CapToken` | capability tokens |

Conventions. An instant is a whole number of nanoseconds since Go's zero time, and
the zero time means unset, as in the program. Map iteration is an arbitrary order:
loops over maps pick any remaining key, so what is proved holds for every order.
Floating point numbers are reals. Minted ids are constructors, hence injective;
SHA-256, HMAC, the P-256 curve equation and base64 are parameters. Go's `int`
arithmetic on lengths and counts is unbounded here; `int64` wrap-around is written
out where a value crosses a wire.

## Model

| member | source | states |
|---|---|---|
| `Policy.Passthrough.Observe` | internal/policy/policy.go:242-293 | the live table and the changes said are those of the step function, for every message type, known or not, false positives and undecodable payloads included |
| `Lifecycle.PassStepFollows` | internal/policy/policy.go:242-293 | a reader of the changes can always follow them, and what it believes running is exactly the passthrough's live table |
| `Lifecycle.UpdateToldIffNoticeable` | internal/policy/policy.go:242-343 | an update of a running detection is told exactly when sub-label, plate, snapshot, clip, kind or zones differ from what is now reported, a repeated new message never; what is kept then shows the report |
| `Lifecycle.EndTellsWhen` | internal/policy/policy.go:242-330 | an end is always told, after the start if that never was, with the reported end or else now and with a final clip or none |
| `Lifecycle.FollowedOps` | internal/policy/policy.go:187-208 | a stream that can be followed has, per event id, a prefix of (Started Updated* Ended)* as its ops, and the event is running exactly when the last op is not Ended |
| `Lifecycle.FollowedGrowth` | internal/policy/incidents.go:225-258 | while an event runs every later change extends the path and source ids of every earlier one |
| `Headcount.CountConcurrent` | internal/policy/incidents.go:381-396 | the loop counts the members anchored at start + overlap, at least one |
| `Headcount.CountsIsMaximum` | internal/policy/incidents.go:336-346 | the count of a label is attained by, and bounds, the anchored count of each of its members |
| `Headcount.TogetherIsAnchored` | internal/policy/incidents.go:375-396 | any set of same-camera, same-label members pairwise live together for the overlap fits the anchor set of its last arrival (Helly on a line) |
| `Headcount.AnchoredIsTogether` | internal/policy/incidents.go:375-396 | each anchored count is the size of such a set |
| `Headcount.CountIsLargestTogether` | internal/policy/incidents.go:375-403 | the published count is exactly the size of the largest set on one camera any two of which were live together for the overlap |
| `BoxTrail.Boxes.Compact` | internal/policy/incidents.go:101-110 | compacting the full buffer in place leaves every second sample, the first included, in order |
| `BoxTrail.Boxes.AddBox` | internal/policy/incidents.go:95-113 | a full buffer is thinned once, then the new sample is last |
| `BoxTrail.KeptLength` | internal/policy/incidents.go:95-113 | how many samples n reports leave, never more than the cap |
| `BoxTrail.KeptCovers` | internal/policy/incidents.go:95-113 | kept positions climb from the first report to the latest in steps of at most 2^k after k thinnings |
| `BoxTrail.TrailCoversTimeline` | internal/policy/incidents.go:95-113 | for every sequence of reports the kept samples are an order-preserving selection with the first and the latest, at most the cap, gaps at most 2^k |
| `Adjacency.Closure` | internal/policy/incidents.go:134-148 | the graph is exactly the symmetric closure of the configured edges; a camera is known iff it has an edge; no configuration means no graph |
| `Adjacency.Reaches` | internal/policy/incidents.go:152-172 | the loop answers whether some member is on the same camera, adjacent, or joined by a camera the graph does not know |
| `Adjacency.OneComponent` | internal/policy/incidents.go:152-172 | cameras that grew by linking, all known, lie in one connected component |
| `Incidents.IncidentEngine.constructor` | internal/policy/incidents.go:116-150 | defaults for zero settings, an empty engine, the symmetric graph |
| `Incidents.IncidentEngine.Observe` | internal/policy/incidents.go:179-258 | one message is one step: quiet incidents end first, then the message passes through, is ignored as closed or as the end of something never seen, or lands in its home incident |
| `Incidents.IncidentEngine.EndStale` | internal/policy/incidents.go:182-192 | the in-place filter keeps exactly the incidents within the gap, in order, retires the rest and says their endings |
| `Incidents.IncidentEngine.FindHome` | internal/policy/incidents.go:201-224 | the home is the incident holding the object, else the oldest reachable one, else a new one |
| `Incidents.EmitChange` | internal/policy/incidents.go:261-275 | nothing without a named zone, Started once, Updated only when something worth it changed |
| `Incidents.Retire` | internal/policy/incidents.go:280-293 | closing remembers exactly the members, forgets exactly what closed more than an hour ago |
| `Incidents.BuildEvent` | internal/policy/incidents.go:301-373 | the loops build the specified event |
| `IncidentRuns.BuildCountsTogether` | internal/policy/incidents.go:336-373 | every count in a built event is positive and is that of the largest set together; a label is listed iff a member has it |
| `IncidentRuns.ZonedMembersAnchor` | internal/policy/incidents.go:295-373 | zoned members decide start, leading camera and picture; the cameras are exactly the members', each once |
| `IncidentRuns.EventTellsEnd` | internal/policy/incidents.go:301-373 | an event is dated to the latest end of its members only once ended, those still there ending now; its clip grows until then, if any member has one; its path is the incident's, its sources the members', its boxes given only at the end |
| `IncidentRuns.SameActivityIsEquality` | internal/policy/incidents.go:428-439 | comparing counts label by label after lengths is equality of the maps, so an update is withheld exactly when nothing a reader sees differs |
| `IncidentStory.BoxesAreTrail` | internal/policy/incidents.go:95-113 | whatever messages made an incident, its boxes are the thinned trail of all box reports among them |
| `IncidentStory.EveryIncidentHasStory` | internal/policy/incidents.go:179-258 | every incident of a reachable state is what the messages it heard made of it: messages of the run, in order, about exactly its objects, none missed from the first about an object on |
| `IncidentStory.EveryTrailIsReported` | internal/policy/incidents.go:95-113 | so the boxes of every incident of every reachable state are the thinned trail of all boxes reported to it |
| `IncidentStory.EveryTimelineOrdered` | internal/policy/incidents.go:95-113 | under a clock that never runs backwards the boxes of every incident of every reachable state are in time order |
| `IncidentStory.EveryPublishedTimelineOrdered` | internal/policy/incidents.go:280-293 | so are the boxes of every event a run publishes, as the edit decision list's rule needs |
| `IncidentFacts.EveryIncidentTold` | internal/policy/incidents.go:201-275 | every incident of every reachable state, read off the messages it heard: its path is the zones they name, in the order first named; one member per object, in order, with camera, label and start from its first message, zones those its messages name, end from its last end message, snapshot and clip if any had one; and it has been said iff some message named a zone |
| `IncidentFacts.LivedTold` | internal/policy/incidents.go:225-258 | the same of any messages put into one incident |
| `IncidentLife.LivesWithinGap` | internal/policy/incidents.go:182-192 | over every run an incident that heard something within the gap lives on with all its members |
| `IncidentLife.EndsAtGap` | internal/policy/incidents.go:182-192 | one that did not ends at the next message of any kind: its objects are remembered as closed then, and its end is told iff owed |
| `IncidentLife.RememberedAnHour` | internal/policy/incidents.go:280-293 | a closed incident's objects are remembered for an hour at least and forgotten when another closes after that |
| `IncidentLife.HeardIsHeld` | internal/policy/incidents.go:196-258 | after a message about an object of interest some incident holds it and is as recent as the message, unless the object is remembered as closed or ended unseen |
| `IncidentRuns.EmitIsCurrent` | internal/policy/incidents.go:261-275 | after an emit what was last said agrees with what is known, under an id that never changes |
| `IncidentRuns.SweepFollows` | internal/policy/incidents.go:182-192 | ending the quiet incidents removes exactly their events from what a reader believes running |
| `IncidentRuns.StepKeeps` | internal/policy/incidents.go:179-258 | every message keeps objects in one incident, never open and closed, keeps the reader in step, and leaves no incident past its gap |
| `IncidentRuns.EveryRunObeysGrammar` | internal/policy/incidents.go:179-293 | over every run the ops about any event id are a prefix of (Started Updated* Ended)* |
| `IncidentRuns.RunningIsOpen` | internal/policy/incidents.go:179-293 | an event is running by its ops exactly when the engine holds it: a said incident or a live object |
| `IncidentRuns.EveryRunOnlyExtends` | internal/policy/incidents.go:179-293 | over every run successive paths and source ids of one event are extensions |
| `IncidentRuns.EveryStateTidy` | internal/policy/incidents.go:179-293 | in every reachable state objects are in at most one open incident and not in a closed one, a zoned incident has been said under its first member's id, and no open incident is past its gap |
| `IncidentRuns.EveryMemberWalkedIn` | internal/policy/incidents.go:152-224 | in every reachable state each later member of an incident is on an earlier member's camera, on an adjacent one, or joined by a camera the graph does not know |
| `IncidentRuns.EveryIncidentInOneComponent` | internal/policy/incidents.go:152-224 | in every reachable state an incident on known cameras stays in one connected component |
| `IncidentRuns.JoinsOldestReachable` | internal/policy/incidents.go:201-224 | an unheld object opens an incident iff none is reachable, else joins a reachable one before which none is; no other incident changes |
| `Occupancy.OccupancyEngine.constructor` | internal/policy/occupancy.go:100-119 | one empty ledger per watched zone and label, with defaults |
| `Occupancy.OccupancyEngine.Observe` | internal/policy/occupancy.go:140-149 | one message is absorbed into the tracks and then every ledger ticks once |
| `Occupancy.OccupancyEngine.Absorb` | internal/policy/occupancy.go:152-223 | the tracks after a message: ended ones gone, zones claimed keep their clock, others restart, dead identities superseded |
| `Occupancy.OccupancyEngine.Claim` | internal/policy/occupancy.go:182-203 | the zones held are exactly the watched ones the message reports, current or, for a parked object, last entered; each keeps its clock if it had one and else starts it |
| `Occupancy.OccupancyEngine.Supersede` | internal/policy/occupancy.go:205-222 | exactly the same-camera, same-label tracks overlapping enough go |
| `Occupancy.Counts` | internal/policy/occupancy.go:248-271 | in any order the loop finds the largest per-camera counts, seen and dwelt, and some track in the zone if any |
| `Occupancy.TickLedger` | internal/policy/occupancy.go:274-300 | one ledger's tick: note the sightings, then arrive, depart or stay, saying at most one thing |
| `Occupancy.OccupancyEngine.Tick` | internal/policy/occupancy.go:274-300 | whatever the order of ledgers each ticks once against the same tracks |
| `OccupancyRuns.AbsorbedEvolves` | internal/policy/occupancy.go:152-223 | a message never backdates a zone clock: each is carried over unchanged or starts now |
| `OccupancyRuns.EveryLedgerRuns` | internal/policy/occupancy.go:140-149 | every run of the engine is, ledger by ledger, a ledger run |
| `OccupancyRuns.TransitionsSpaced` | internal/policy/occupancy.go:184-203 | a departure comes at least departAfter after the ledger's previous transition, an arrival after a departure at least arriveAfter after it |
| `OccupancyRuns.FirstIsArrival` | internal/policy/occupancy.go:274-300 | a departure always has an earlier transition |
| `OccupancyRuns.TransitionTimesDistinct` | internal/policy/occupancy.go:305-312 | a ledger never makes two transitions at one instant |
| `OccupancyRuns.TransitionIdsUnique` | internal/policy/occupancy.go:305-312 | no two transitions of a run share zone, label and instant, so ids minted from them are unique |
| `OccupancyRuns.HeldSince` | internal/policy/occupancy.go:182-203 | a zone clock read now was started at some tick, and the same track held the zone under it, on the same camera, at every tick from that one on |
| `OccupancyRuns.ArrivalEvidence` | internal/policy/occupancy.go:248-300 | an arrival strictly raises the count and rests on that many tracks of one camera, each in the zone, its clock unbroken, at every tick from one at least arriveAfter earlier on |
| `OccupancyRuns.DepartureEvidence` | internal/policy/occupancy.go:284-329 | a departure strictly lowers the count, rests on a shortfall at every tick across a departAfter window, and is anchored at the last tick before that window that saw the whole count |
| `OccupancyRuns.DweltWithinSeen` | internal/policy/occupancy.go:248-271 | the qualified count never exceeds the raw one |
| `OccupancyRuns.PresenceIsLastAnnounced` | internal/policy/occupancy.go:122-136 | presence is the count of the ledger's last event, zero before any |
| `OccupancyRuns.IoUBounds` | internal/policy/occupancy.go:227-242 | intersection over union is symmetric, within 0 and 1, and positive only for proper boxes |
| `OccupancyRuns.IoUOfItself` | internal/policy/occupancy.go:227-242 | a proper box overlaps itself wholly |
| `OccupancyRuns.ParkedOwnsItsSpot` | internal/policy/occupancy.go:205-222 | after a parked object's message, with a box or with one remembered, no other track of its camera and label overlaps it enough, and only such tracks went; without any box none goes |
| `OccupancyRuns.MoverSweepsNothing` | internal/policy/occupancy.go:205-222 | a moving object's message removes no other track |
| `OccupancyEvidence.MessageSetsZones` | internal/policy/occupancy.go:177-203 | after a message about a running object its track holds z iff z is watched and either is current or the object is parked and entered z last; clocks are kept or start now |
| `OccupancyEvidence.MessageSetsTrack` | internal/policy/occupancy.go:166-206 | a track's camera and label are its first message's; plate, sub-label and box the latest given; a snapshot if any had one |
| `OccupancyEvidence.TrackFollowsLastMessage` | internal/policy/occupancy.go:152-223 | over every run a track is there iff the last message about its object was not its end and no parked object has superseded it since, and it holds exactly what that message reports |
| `OccupancyEvidence.ClockIsFirstReport` | internal/policy/occupancy.go:177-203 | a zone clock shows the message from which on the track was never lost and every message reported the zone, the one before it not |
| `OccupancyEvidence.ParkedHoldsLastZone` | internal/policy/occupancy.go:177-203 | a parked object holds the zone it entered last, on one clock, at every step until it moves, ends or is superseded |
| `OccupancyEvidence.SeenIffReported` | internal/policy/occupancy.go:248-271 | a ledger's sightings on a camera are exactly the objects so reported |
| `OccupancyEvidence.ArrivalRestsOnMessages` | internal/policy/occupancy.go:248-350 | every arrival a run announces counts that many objects of one camera, reported in the zone at every step for at least arriveAfter, and names one in the zone |
| `OccupancyEvidence.DepartureRestsOnMessages` | internal/policy/occupancy.go:274-350 | every departure rests on at least departAfter of steps with fewer reported than believed, is dated to a step before them, and names an object then reported in the zone |
| `OccupancyEvidence.ReportedLongIsCounted` | internal/policy/occupancy.go:284-290 | no arrival is missed: objects of one camera reported in the zone at every step for arriveAfter are counted |
| `OccupancyEvidence.ShortLongIsToldOf` | internal/policy/occupancy.go:292-296 | no departure is missed: with fewer reported than believed at every step the ledger does not stay silent for departAfter |
| `States.StatesEngine.constructor` | internal/policy/states.go:60-69 | one blank model per name, with the default hold |
| `States.StatesEngine.Observe` | internal/policy/states.go:85-104 | every message notes its verdict, if any, and ticks every model |
| `States.TickModel` | internal/policy/states.go:106-121 | belief then alarm, and what is announced of each |
| `States.HeldIsDebounced` | internal/policy/states.go:85-121 | the held class is the debounce of the whole trace: the class of the latest constant run some message saw last for the hold, else the first |
| `States.DebouncedIsUnique` | internal/policy/states.go:85-121 | that debounce is a function of the trace |
| `States.RawIsCurrentRun` | internal/policy/states.go:85-104 | the raw class and its clock are the current run of verdicts and its start |
| `States.HeldAtIsBeliefSince` | internal/policy/states.go:85-121 | the instant a belief is held since is that of the message where the run of verdicts that changed it began, or of the first verdict |
| `States.NewsIffBeliefChanges` | internal/policy/states.go:106-121 | news is told once per change of belief, and names the new one |
| `States.AlarmOncePerBelief` | internal/policy/states.go:106-121 | each belief episode alarms at most once, and iff some message comes alarmAfter or more after the message the alarm class is believed since |
| `States.AnnouncementNames` | internal/policy/states.go:106-137 | what is announced names the model, the class believed, the camera of the last verdict and the instant since when; news is of that instant, an alarm of the alarm class from it to now |
| `States.EveryModelRuns` | internal/policy/states.go:85-121 | in every run of the engine each model is, and announces, the fold of its own trace of the messages |
| `Edl.Score` | internal/edl/edl.go:57-81 | for time-ordered samples the cursor passes exactly those at or before t, and the score is the share of the frame the last of them fills if it is at most five seconds old with an inside, and else -1 |
| `Edl.ScoreIsShare` | internal/edl/edl.go:57-81 | a camera's score is nonnegative iff its last sample at or before t is fresh and proper, and is then the share of the frame that fills |
| `Edl.FindBest` | internal/edl/edl.go:98-106 | in any camera order a camera of maximal score, or none when all are stale |
| `Edl.Step` | internal/edl/edl.go:98-116 | a switch only after the least shot, to a best camera with the advantage |
| `Edl.Build` | internal/edl/edl.go:44-120 | nothing, or segments tiling [0, clipEnd - clipStart) exactly: contiguous, neighbours differ, each but the last at least the least shot, showing a cut that follows the rule told by the samples: without a fresh sample nothing changes; else some camera whose last sample fills the largest share opens, or takes over from one shown at least 2.5 s that has no fresh sample or at most its share over 1.3 |
| `Edl.StitchedTimeIsClipTime` | internal/server/stitch.go:163-174 | concatenated shots keep stitched time equal to clip time |
| `Edl.TilesCover` | internal/edl/edl.go:83-119 | every instant of the window lies in exactly one segment |
| `EventStore.OlderTransitive` | internal/store/store.go:272-284 | the (start, id) order is transitive |
| `EventStore.OlderTotal` | internal/store/store.go:272-284 | and total, with newer its converse |
| `EventStore.Insert` | internal/store/store.go:243-249 | binary search keeps the index strictly descending and adds exactly the entry |
| `EventStore.Remove` | internal/store/store.go:252-258 | binary search always finds the entry and removes exactly it |
| `EventStore.Store.Apply` | internal/store/store.go:70-93 | a map upsert, touched now, that keeps index and map in agreement and offers the change to every subscriber |
| `EventStore.HistoryIsFirstAndLatest` | internal/store/store.go:70-93 | revisions pushed one by one leave all of them up to 64, then the first and the latest 63 |
| `StoreWatching.HistoryIsSinceAbsent` | internal/store/store.go:70-93 | over every run of Apply and Prune an event's history is that of all that was applied about it since it was last absent |
| `EventStore.Store.List` | internal/store/store.go:143-172 | a page is the first matching events past the token, and the next token the last of them |
| `EventStore.Store.Prune` | internal/store/store.go:209-221 | deletes exactly the events that started before the cutoff |
| `EventStore.Store.Watch` | internal/store/store.go:179-205 | a new subscription, offered the replay since the given time |
| `EventStore.Store.Drop` | internal/store/store.go:260-268 | unregisters and closes, once |
| `EventStore.Subscriber.Offer` | internal/store/store.go:337-347 | a wanted change is queued, or the subscriber is cut off when its buffer is full; never sent after closing |
| `StorePaging.MatchingMeans` | internal/store/store.go:143-172 | what pages are cut from: exactly the wanted events past the token |
| `StorePaging.FilterKeepsNamed` | internal/store/store.go:143-172 | with cameras named, exactly their events; with none, all |
| `StorePaging.SessionDescends` | internal/store/store.go:143-172 | while Apply and Prune run between pages, all that is delivered is strictly descending |
| `StorePaging.StableDeliveredOnce` | internal/store/store.go:143-172 | an event present and wanted throughout is delivered exactly once |
| `StorePaging.FixedStorePages` | internal/store/store.go:143-172 | on a fixed store the pages are exactly the matches, in order, and end |
| `StoreWatching.EveryWatchInStep` | internal/store/store.go:179-205 | over every run what a watcher got is a prefix of what was offered and wanted, all of it until cut-off; its channel closes at most once |
| `StoreWatching.OfferedIsReplayThenChanges` | internal/store/store.go:179-205 | what is offered is the replay and then every later change, in order |
| `StoreWatching.ReplayIsTouched` | internal/store/store.go:179-205 | the replay is exactly the events touched since, each once, oldest first, as Ended if the event has ended and Started if not |
| `StoreWatching.WatcherMirrorsStore` | internal/store/store.go:70-93 | a client of any cameras, right about wanted events not touched since, that upserts what it receives, has every held event whose camera is now wanted as the store does, until cut off, pruning aside; an unfiltered one has them all |
| `StoreWatching.RightExactlyIfStillWanted` | internal/store/store.go:337-347 | when an event it was right about changes, a drained client is right about it again exactly when the new camera is wanted; otherwise it keeps the version it had |
| `StoreReplay.StoreIsLastApplied` | internal/store/store.go:70-93 | over every run from an empty store an event is held iff its last applied version has not been pruned since, and is that version, touched when that was applied |
| `StoreReplay.ReplayIsLastApplied` | internal/store/store.go:179-205 | so the replay is exactly the held events whose last change was applied at or after since, each once, oldest first, as Ended if ended and Started if not |
| `StoreReplay.WatcherHasLastApplied` | internal/store/store.go:174-205 | a client right about the wanted events last changed before since, that upserts what it receives, has every held event whose last change, before or after it joined, was about a wanted camera, once it has taken all and unless cut off |
| `StoreReplay.CutOffIffBehind` | internal/store/store.go:335-350 | a watcher is cut off iff at some point more wanted changes had been offered than it had taken and 256 more |
| `Decimal.IntRoundTrip` | internal/store/store.go:293-311 | every int64 parses back from its decimal print |
| `CursorText.TokenRoundTrip` | internal/store/store.go:293-311 | a token parses back to its cursor iff the id is not empty and the instant is an int64 of nanoseconds, whatever bars the id contains |
| `CursorText.TokensDistinct` | internal/store/store.go:293-311 | distinct positions never share a token |
| `TokenPaging.TokensArePositions` | internal/store/store.go:143-172 | a session that hands back printed tokens is never refused and is a session by positions, for stores whose ids are not empty and whose instants are int64 nanoseconds |
| `TokenPaging.TokenSessionDelivers` | internal/store/store.go:143-172 | so a client paging by tokens to the end, while Apply and Prune run, gets strictly descending events and each one that stayed exactly once |
| `MediaCache.NamesInjective` | internal/mediacache/mediacache.go:36-42 | file names, final and partial, tell apart keys with dash-free media and variant, no dot in the variant, variant not "orig", nonnegative start |
| `MediaCache.NamesCollide` | internal/mediacache/mediacache.go:36-42 | dropping any one of those conditions, two files share a name |
| `MediaCache.FillBalances` | internal/mediacache/mediacache.go:180-187 | entering a filled cut keeps the size right iff the key was absent or empty |
| `MediaCache.Cache.Get` | internal/mediacache/mediacache.go:97-107 | a hit makes the entry the most recently used and changes nothing else |
| `MediaCache.Cache.Enter` | internal/mediacache/mediacache.go:180-187 | what survives is what a list LRU keeps of the budget less the drift, the new entry always among it; replacing an entry adds its size to the drift, for the code does not take it off |
| `MediaCache.Cache.Put` | internal/mediacache/mediacache.go:220-239 | the same, with no drift added: the replaced entry's size is taken off |
| `MediaCache.Cache.Evict` | internal/mediacache/mediacache.go:258-272 | exactly that entry goes and its size with it |
| `MediaCache.ShedFrom` | internal/mediacache/mediacache.go:244-255 | the eviction loop ends at the longest most-recently-used run that fits by the size kept, or the newest alone |
| `MediaCache.ShedUnique` | internal/mediacache/mediacache.go:244-255 | that outcome is unique |
| `CacheProtocol.StepKeeps` | internal/mediacache/mediacache.go:122-272 | every atomic step of Fill, Get, Put and Evict keeps the invariant, when a Put starts only while its key is absent and neither put nor filled by another call, and a fill leads only while no Put of its key runs |
| `CacheCare.CareIsExact` | internal/mediacache/mediacache.go:122-272 | that care is exact: from every state the invariant holds in, a step leaves size and files right in every careful continuation if and only if it is careful |
| `CacheCare.InvIsSafe` | internal/mediacache/mediacache.go:122-272 | from any state the invariant holds in, careful steps only lead to states whose size is the sum and whose entries have their complete files |
| `CacheCare.PutOverPresentLosesFile` | internal/mediacache/mediacache.go:220-239 | an instance from an empty cache: a Put over a present key |
| `CacheCare.TwoPutsLoseFile` | internal/mediacache/mediacache.go:220-239 | an instance: two Puts of one key at once |
| `CacheCare.PutDuringFillLosesFile` | internal/mediacache/mediacache.go:122-239 | an instance: a Put of a key being filled |
| `CacheCare.PutDuringFillUnbalances` | internal/mediacache/mediacache.go:180-187 | a fill that enters over an entry leaves the size above the sum by exactly that entry's size |
| `CacheProtocol.FetchesBounded` | internal/mediacache/mediacache.go:122-187 | under every careful interleaving at most one fetch per key and maxFills in all, and a key awaiting insertion is not cached |
| `CacheProtocol.EntriesComplete` | internal/mediacache/mediacache.go:122-187 | under every careful interleaving the size is the sum of the entries and each entry's file is that key's complete cut |
| `CacheProtocol.WaiterGetsLeaderResult` | internal/mediacache/mediacache.go:122-149 | a waiter that is not cancelled returns its leader's result, and the leader's call was about the waiter's own key |
| `CacheProtocol.CallsReturnTheirOwn` | internal/mediacache/mediacache.go:122-187 | whatever a call about a key returns, from a hit, as leader or as waiter, is an error or that key's own file |
| `CacheOutcomes.LeaderReturnsWhatItDid` | internal/mediacache/mediacache.go:122-187 | a leader that has returned got its key's file iff it entered its cut, and an error iff it gave up waiting for a token or its fetch failed |
| `CacheOutcomes.WokenGetsWhatLeaderDid` | internal/mediacache/mediacache.go:128-149 | a woken waiter got the file iff the leader it waited for entered its cut, and an error iff that leader gave up or failed |
| `CacheOutcomes.CallsReturnForAReason` | internal/mediacache/mediacache.go:122-239 | every call returns its own file, from a hit, a put, its own entered cut or its leader's, or an error, because it or its leader gave up or failed or because it left |
| `CacheOutcomes.ReasonsDecide` | internal/mediacache/mediacache.go:122-239 | a hit, a put and an entered cut never return an error; giving up, failing and leaving never return a file |
| `CacheProgress.EveryCallCanReturn` | internal/mediacache/mediacache.go:122-239 | in every state of a careful run every call can still return, whatever the others are doing, and with its file unless it or its leader has already failed: no deadlock |
| `CacheProtocol.InsertedIsKept` | internal/mediacache/mediacache.go:180-187 | the entry just inserted is never the one evicted |
| `NamedDisk.StepsOnDisk` | internal/mediacache/mediacache.go:151-239 | every step does to a directory keyed by file name what the program's file operations do, under any naming that tells the files of the keys in play apart |
| `NamedDisk.EntriesCompleteOnDisk` | internal/mediacache/mediacache.go:36-42 | so, under the program's naming and for nameable keys, a careful run leads through such directories, in which the path of every cached key leads to that key's complete cut |
| `BigEndian.ReadNumber` | internal/webauthn/cbor.go:37-45 | the shifting loop reads the number the bytes spell |
| `BigEndian.NumberOfBytes` | internal/webauthn/cbor.go:37-45 | a number that fits a width reads back from its bytes |
| `Cbor.CborReader.Head` | internal/webauthn/cbor.go:26-49 | reads one header within bounds or reports it malformed |
| `Cbor.CborReader.ReadValue` | internal/webauthn/cbor.go:54-118 | the recursive reader is total and computes the specified value and position |
| `Cbor.DecodeCbor` | internal/webauthn/cbor.go:130-140 | one item and nothing after it |
| `CborWire.ReadsItem` | internal/webauthn/cbor.go:54-118 | every supported encoding, wherever it stands, is read to its own value and exactly its length |
| `CborWire.ItemWasWritten` | internal/webauthn/cbor.go:54-118 | whatever is read was such an encoding |
| `CborWire.PrefixReadIffWritten` | internal/webauthn/cbor.go:142-152 | a prefix decodes to a value and a length iff those bytes are an encoding of the value |
| `CborWire.ReadIffWritten` | internal/webauthn/cbor.go:130-140 | the whole decodes iff it is an encoding |
| `CborWire.OnlyConsumedBytesMatter` | internal/webauthn/cbor.go:142-152 | the consumed bytes alone, or followed by anything, decode to the same |
| `CborWire.EncodingsArePrefixFree` | internal/webauthn/cbor.go:142-152 | no encoding begins another and each means one value |
| `CborWire.DecodableIffExpressible` | internal/webauthn/cbor.go:54-118 | the decodable values are exactly those nested at most eight deep, with at most 64 items a level, integers of magnitude at most 2^63 - 1 |
| `Cose.ParseCoseKey` | internal/webauthn/webauthn.go:200-241 | computes the specified key or fault |
| `Cose.ParsesIffCoseKey` | internal/webauthn/webauthn.go:200-241 | a key is parsed iff the bytes begin with a map describing it, and its span is that map |
| `Cose.DataRegistersIff` | internal/webauthn/webauthn.go:95-156 | authenticator data registers a credential iff it is laid out around it |
| `Cose.RegistersIff` | internal/webauthn/webauthn.go:121-156 | an attestation object registers a credential iff it is one encoded map with such authenticator data |
| `Cose.StoredKeyReparses` | internal/webauthn/webauthn.go:149-163 | the stored key bytes parse back to the registered algorithm and key, alone or with a suffix |
| `CapToken.New` | internal/captoken/captoken.go:80-96 | exactly which key pairs make a ring, and what the ring holds |
| `CapToken.Mint` | internal/captoken/captoken.go:132-144 | the appended buffer is the layout of the claims, camera and expiry normalised |
| `CapToken.MintedVerifies` | internal/captoken/captoken.go:132-187 | every ring holding the minting key, current or prior, gives a minted token exactly this verdict |
| `CapToken.ExactlyTheClaimsIff` | internal/captoken/captoken.go:132-187 | a token comes back as its claims iff they have an event, a camera of at most 255 bytes, a whole-second expiry and time left |
| `CapToken.RetiredKeyIsUnknown` | internal/captoken/captoken.go:179-187 | once the key is dropped from the ring its tokens are unknown |
| `CapToken.AcceptedIffMinted` | internal/captoken/captoken.go:149-187 | an accepted body is byte for byte the Mint layout of the returned claims under a key of the ring, and all such bodies are accepted |
| `CapToken.AcceptedIffSpelled` | internal/captoken/captoken.go:149-187 | the same byte by byte: four of key id, eight of expiry, media, camera length, camera, event, and sixteen of tag over every byte before them |
| `CapToken.MintSpells` | internal/captoken/captoken.go:132-144 | a minted body is so spelt, under the current key |

## Left out

- MQTT, MCAP recording, HTTP and gRPC handlers, templates, ffmpeg, Frigate's HTTP API, configuration, protobuf: I/O and plumbing. Messages arrive decoded.
- Locks, goroutines and contexts outside the cache: the engines and the store are modelled as the sequence of their locked operations.
- Rebuilding the store from recordings, warming, clip cutting and stitching: timers and processes around the modelled core.
- Event fields that are only text for people: an activity's label, description and spans, an occupancy event's snapshot flag, plate, sub-label, cameras and source ids.
- The device registry, admin sessions, client data checks, and signature verification of assertions.
- Cryptographic strength, timing, and the rounding of floating point (box coordinates are also narrowed to 32 bits by the program).
- Aliasing inside the incident engine: an incident and its members are values owned by the open list, and the lookup by object id is a search of the members.
- Ledgers are keyed by the pair of zone and label; the program joins them with a bar, so zones and labels are assumed not to collide through it. Watches are assumed to name distinct zones and the observation clock to be nonzero and never to run backwards.
- Edl.Build: boxes are assumed to name a camera, because the program uses the empty name for no camera yet; segment times are real seconds, so the millisecond rounding of the ffmpeg call is not captured.
- CacheProtocol.StepKeeps: promises the invariant only for careful use, and `CacheCare.CareIsExact` says that nothing less would do; a failing disk removal or another process in the directory is not modelled.
- StoreWatching.WatcherMirrorsStore: says nothing of events whose camera is not wanted, nor of pruned ones, which stay with the client; `RightExactlyIfStillWanted` says when an event leaves its reach.
- States.StatesEngine.Observe: a verdict is never empty, which the program's parser ensures.
