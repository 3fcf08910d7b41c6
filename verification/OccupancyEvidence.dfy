/** What the occupancy ledgers rest on: the messages themselves. */
module OccupancyEvidence {
  import opened Common
  import opened Policy
  import opened Occupancy
  import opened OccupancyRuns

  // ----- one message -----

  /** A message the engine takes to be about this object. */
  predicate Heeds(watches: map<string, Watch>, msg: Message, id: string) {
    msg.Tracked? && !msg.obj.falsePositive && msg.obj.id == id && Watched(watches, msg.obj.labelName)
  }

  /** After a message about a running object its track holds exactly the watched
      zones the message reports; a zone held before keeps its clock, another
      starts its clock now. */
  lemma MessageSetsZones(watches: map<string, Watch>, tracks: Tracks, at: Time, typ: MessageType, obj: Object)
    requires Watched(watches, obj.labelName) && !typ.End?
    ensures var after := Absorbed(watches, tracks, at, typ, obj);
            && obj.id in after
            && (forall z :: z in after[obj.id].entered <==> z in watches && Reports(obj, z))
            && (forall z :: z in after[obj.id].entered ==>
                  after[obj.id].entered[z] ==
                  if obj.id in tracks && z in tracks[obj.id].entered then tracks[obj.id].entered[z] else at)
  {
    var after := Absorbed(watches, tracks, at, typ, obj);
    var tr := if obj.id in tracks then tracks[obj.id] else Fresh(obj);
    assert after[obj.id] == Refreshed(watches, tr, at, obj);
    ClaimsAreReports(watches, obj);
  }

  /** What else a track says of its object: who it is from its first message,
      what it looks like from the latest that said. */
  lemma MessageSetsTrack(watches: map<string, Watch>, tracks: Tracks, at: Time, typ: MessageType, obj: Object)
    requires Watched(watches, obj.labelName) && !typ.End?
    ensures var after := Absorbed(watches, tracks, at, typ, obj);
            && obj.id in after
            && (obj.id in tracks ==>
                  var was, now := tracks[obj.id], after[obj.id];
                  && now.source == was.source && now.camera == was.camera && now.labelName == was.labelName
                  && (now.snapshot <==> was.snapshot || obj.hasSnapshot)
                  && now.plate == (if obj.plate == "" then was.plate else obj.plate)
                  && now.subLabel == (if obj.subLabel == "" then was.subLabel else obj.subLabel)
                  && now.box == (if |obj.box| == 4 then obj.box else was.box))
            && (obj.id !in tracks ==>
                  var now := after[obj.id];
                  && now.source == obj.id && now.camera == obj.camera && now.labelName == obj.labelName
                  && now.snapshot == obj.hasSnapshot && now.plate == obj.plate && now.subLabel == obj.subLabel
                  && now.box == if |obj.box| == 4 then obj.box else [])
  {
  }

  // ----- one step of a run -----

  /** Step i takes id's track for a dead identity of the parked object that speaks. */
  ghost predicate SupersededAt(watches: map<string, Watch>, obs: seq<Observation>, states: seq<State>, id: string,
                               i: nat)
    requires i < |obs| && |states| == |obs| + 1
  {
    && obs[i].msg.Tracked? && !obs[i].msg.typ.End? && obs[i].msg.obj.stationary
    && var owner := obs[i].msg.obj.id;
    && owner != id && Heeds(watches, obs[i].msg, owner)
    && owner in states[i + 1].tracks && |states[i + 1].tracks[owner].box| == 4
    && id in states[i].tracks && Superseded(states[i + 1].tracks[owner], states[i].tracks[id])
  }

  /** A message about the object sets its track, and ends it with the object. */
  lemma HeededStep(watches: map<string, Watch>, obs: seq<Observation>, states: seq<State>,
                   said: seq<seq<Transition>>, id: string, i: nat)
    requires IsRun(watches, obs, states, said) && i < |obs| && Heeds(watches, obs[i].msg, id)
    ensures var was, now, msg := states[i].tracks, states[i + 1].tracks, obs[i].msg;
            && (id in now <==> !msg.typ.End?)
            && (id in now ==>
                  && (forall z :: z in now[id].entered <==> z in watches && Reports(msg.obj, z))
                  && (forall z :: z in now[id].entered ==>
                        now[id].entered[z] ==
                        if id in was && z in was[id].entered then was[id].entered[z] else obs[i].at)
                  && now[id].source == (if id in was then was[id].source else id)
                  && now[id].camera == (if id in was then was[id].camera else msg.obj.camera)
                  && now[id].labelName == if id in was then was[id].labelName else msg.obj.labelName)
  {
    hide Reports, LedgerStep;
    assert ObservedAt(watches, obs, states, said, i);
    var msg := obs[i].msg;
    if !msg.typ.End? {
      MessageSetsZones(watches, states[i].tracks, obs[i].at, msg.typ, msg.obj);
      MessageSetsTrack(watches, states[i].tracks, obs[i].at, msg.typ, msg.obj);
    }
  }

  /** Any other message leaves the track as it is, unless it supersedes it. */
  lemma OtherStep(watches: map<string, Watch>, obs: seq<Observation>, states: seq<State>,
                  said: seq<seq<Transition>>, id: string, i: nat)
    requires IsRun(watches, obs, states, said) && i < |obs| && !Heeds(watches, obs[i].msg, id)
    ensures id in states[i + 1].tracks <==> id in states[i].tracks && !SupersededAt(watches, obs, states, id, i)
    ensures id in states[i + 1].tracks ==> states[i + 1].tracks[id] == states[i].tracks[id]
  {
    hide LedgerStep, Claims, IoU;
    assert ObservedAt(watches, obs, states, said, i);
  }

  // ----- tracks over whole runs -----

  /** Message i is the last about the object before the n-th. */
  ghost predicate LastWord(watches: map<string, Watch>, obs: seq<Observation>, id: string, n: nat, i: nat)
    requires n <= |obs|
  {
    i < n && Heeds(watches, obs[i].msg, id) && forall k :: i < k < n ==> !Heeds(watches, obs[k].msg, id)
  }

  /** A track is there exactly when the last message about its object was not its
      end and no parked object has superseded it since, and holds exactly the
      watched zones which that message reports. */
  lemma {:induction false} TrackFollowsLastMessage(watches: map<string, Watch>, obs: seq<Observation>,
                                                   states: seq<State>, said: seq<seq<Transition>>, id: string, n: nat)
    requires IsRun(watches, obs, states, said) && n <= |obs|
    ensures id in states[n].tracks <==>
              exists i: nat :: LastWord(watches, obs, id, n, i) && !obs[i].msg.typ.End?
                               && forall k :: i < k < n ==> !SupersededAt(watches, obs, states, id, k)
    ensures id in states[n].tracks ==>
              forall i: nat :: LastWord(watches, obs, id, n, i) ==>
                forall z :: z in states[n].tracks[id].entered <==> z in watches && Reports(obs[i].msg.obj, z)
    decreases n
  {
    hide Heeds, Reports, SupersededAt, ObservedAt;
    if n > 0 {
      var p := n - 1;
      TrackFollowsLastMessage(watches, obs, states, said, id, p);
      if Heeds(watches, obs[p].msg, id) {
        HeededStep(watches, obs, states, said, id, p);
        assert LastWord(watches, obs, id, n, p);
      } else {
        OtherStep(watches, obs, states, said, id, p);
        forall i: nat ensures LastWord(watches, obs, id, n, i) <==> LastWord(watches, obs, id, p, i) {
        }
      }
    }
  }

  /** The track is there after message k, which, if about the object, reports the zone. */
  ghost predicate StillReported(watches: map<string, Watch>, obs: seq<Observation>, states: seq<State>,
                                id: string, z: string, k: nat)
    requires k < |obs| && |states| == |obs| + 1
  {
    && id in states[k + 1].tracks
    && (Heeds(watches, obs[k].msg, id) ==> !obs[k].msg.typ.End? && Reports(obs[k].msg.obj, z))
  }

  /** The object's track holds the zone, on a clock that shows this instant. */
  ghost predicate HoldsSince(s: State, id: string, z: string, since: Time) {
    id in s.tracks && z in s.tracks[id].entered && s.tracks[id].entered[z] == since
  }

  /** A zone's clock shows the instant of a message about the object, from which
      on its track was never lost and every message about it reported the zone;
      and if it had a track before, that message's predecessor did not. */
  lemma {:induction false} ClockIsFirstReport(watches: map<string, Watch>, obs: seq<Observation>, states: seq<State>,
                                              said: seq<seq<Transition>>, id: string, z: string, n: nat)
    returns (c: nat)
    requires IsRun(watches, obs, states, said) && n <= |obs|
    requires id in states[n].tracks && z in states[n].tracks[id].entered
    ensures c < n && Heeds(watches, obs[c].msg, id) && states[n].tracks[id].entered[z] == obs[c].at
    ensures forall k :: c <= k < n ==> StillReported(watches, obs, states, id, z, k)
    ensures id in states[c].tracks ==>
              exists p: nat :: LastWord(watches, obs, id, c, p) && !Reports(obs[p].msg.obj, z)
    decreases n
  {
    hide Heeds, Reports, SupersededAt, ObservedAt;
    c := n - 1;
    var was := states[c].tracks;
    if Heeds(watches, obs[c].msg, id) {
      HeededStep(watches, obs, states, said, id, c);
      if id in was && z in was[id].entered {
        c := ClockIsFirstReport(watches, obs, states, said, id, z, c);
      } else {
        TrackFollowsLastMessage(watches, obs, states, said, id, c);
      }
    } else {
      OtherStep(watches, obs, states, said, id, c);
      c := ClockIsFirstReport(watches, obs, states, said, id, z, c);
    }
  }

  /** While every message about an object reports a watched zone and no parked
      object supersedes it, its track holds that zone on one clock, no later than
      the first of those messages. */
  lemma {:induction false} ReportedHolds(watches: map<string, Watch>, obs: seq<Observation>, states: seq<State>,
                                         said: seq<seq<Transition>>, id: string, z: string, i: nat, n: nat)
    returns (since: Time)
    requires IsRun(watches, obs, states, said) && i < n <= |obs| && z in watches && Heeds(watches, obs[i].msg, id)
    requires forall k :: i <= k < n && Heeds(watches, obs[k].msg, id) ==>
               !obs[k].msg.typ.End? && Reports(obs[k].msg.obj, z)
    requires forall k :: i < k < n ==> !SupersededAt(watches, obs, states, id, k)
    ensures forall k :: i < k <= n ==> HoldsSince(states[k], id, z, since)
    ensures since <= obs[i].at
    decreases n
  {
    hide Heeds, Reports, SupersededAt, ObservedAt;
    var p := n - 1;
    if p == i {
      HeededStep(watches, obs, states, said, id, i);
      since := states[n].tracks[id].entered[z];
      var c := ClockIsFirstReport(watches, obs, states, said, id, z, n);
    } else {
      since := ReportedHolds(watches, obs, states, said, id, z, i, p);
      assert HoldsSince(states[p], id, z, since);
      if Heeds(watches, obs[p].msg, id) {
        HeededStep(watches, obs, states, said, id, p);
      } else {
        OtherStep(watches, obs, states, said, id, p);
      }
    }
  }

  /** The message parks its object where it last entered. */
  ghost predicate ParkedIn(obj: Object, z: string) {
    obj.stationary && exists front :: obj.enteredZones == front + [z]
  }

  /** So a parked object holds the zone it entered last, whatever zones the
      messages say it is in, on one clock, until it moves, ends or is superseded. */
  lemma ParkedHoldsLastZone(watches: map<string, Watch>, obs: seq<Observation>, states: seq<State>,
                            said: seq<seq<Transition>>, id: string, z: string, i: nat, n: nat)
    returns (since: Time)
    requires IsRun(watches, obs, states, said) && i < n <= |obs| && z in watches && Heeds(watches, obs[i].msg, id)
    requires forall k :: i <= k < n && Heeds(watches, obs[k].msg, id) ==>
               !obs[k].msg.typ.End? && ParkedIn(obs[k].msg.obj, z)
    requires forall k :: i < k < n ==> !SupersededAt(watches, obs, states, id, k)
    ensures forall k :: i < k <= n ==> HoldsSince(states[k], id, z, since)
    ensures since <= obs[i].at
  {
    hide Heeds, SupersededAt, IsRun, HoldsSince;
    since := ReportedHolds(watches, obs, states, said, id, z, i, n);
  }

  /** A track's camera and label are those of the message that opened it, since
      which it was never lost. */
  ghost predicate OpenedBy(watches: map<string, Watch>, obs: seq<Observation>, states: seq<State>, id: string,
                           n: nat, f: nat)
    requires n <= |obs| && |states| == |obs| + 1
  {
    && f < n && Heeds(watches, obs[f].msg, id) && !obs[f].msg.typ.End? && id !in states[f].tracks
    && (forall k :: f < k <= n ==> id in states[k].tracks)
    && states[n].tracks[id].source == id
    && states[n].tracks[id].camera == obs[f].msg.obj.camera
    && states[n].tracks[id].labelName == obs[f].msg.obj.labelName
  }

  lemma {:induction false} TrackWasOpened(watches: map<string, Watch>, obs: seq<Observation>, states: seq<State>,
                                          said: seq<seq<Transition>>, id: string, n: nat) returns (f: nat)
    requires IsRun(watches, obs, states, said) && n <= |obs| && id in states[n].tracks
    ensures OpenedBy(watches, obs, states, id, n, f)
    decreases n
  {
    hide Heeds, Reports, SupersededAt, ObservedAt;
    f := n - 1;
    if Heeds(watches, obs[f].msg, id) {
      HeededStep(watches, obs, states, said, id, f);
    } else {
      OtherStep(watches, obs, states, said, id, f);
    }
    if id in states[f].tracks {
      f := TrackWasOpened(watches, obs, states, said, id, f);
    }
  }

  // ----- sightings and transitions, told by messages -----

  /** As of the n-th message an object of this label, first met on this camera, is
      reported in the zone: by the last message about it, since which nothing has
      superseded it. */
  ghost predicate ReportedIn(watches: map<string, Watch>, obs: seq<Observation>, states: seq<State>, id: string,
                             n: nat, zone: string, what: string, cam: string)
    requires n <= |obs| && |states| == |obs| + 1
  {
    && (exists i: nat :: LastWord(watches, obs, id, n, i) && !obs[i].msg.typ.End? && Reports(obs[i].msg.obj, zone)
                         && forall k :: i < k < n ==> !SupersededAt(watches, obs, states, id, k))
    && (exists f: nat :: OpenedBy(watches, obs, states, id, n, f)
                         && obs[f].msg.obj.labelName == what && obs[f].msg.obj.camera == cam)
  }

  lemma InZoneIsReported(watches: map<string, Watch>, obs: seq<Observation>, states: seq<State>,
                         said: seq<seq<Transition>>, l: Ledger, id: string, n: nat)
    requires IsRun(watches, obs, states, said) && n <= |obs|
    requires id in states[n].tracks && InZone(states[n].tracks[id], l)
    ensures states[n].tracks[id].source == id
    ensures ReportedIn(watches, obs, states, id, n, l.watch.zone, l.labelName, states[n].tracks[id].camera)
  {
    hide Heeds, Reports, SupersededAt, ObservedAt;
    TrackFollowsLastMessage(watches, obs, states, said, id, n);
    var f := TrackWasOpened(watches, obs, states, said, id, n);
  }

  /** A ledger's sightings are exactly the objects so reported. */
  lemma SeenIffReported(watches: map<string, Watch>, obs: seq<Observation>, states: seq<State>,
                        said: seq<seq<Transition>>, l: Ledger, cam: string, id: string, n: nat)
    requires IsRun(watches, obs, states, said) && n <= |obs| && l.watch.zone in watches
    ensures id in Seen(states[n].tracks, l, cam) <==>
              ReportedIn(watches, obs, states, id, n, l.watch.zone, l.labelName, cam)
  {
    hide Heeds, Reports, SupersededAt, ObservedAt;
    if id in Seen(states[n].tracks, l, cam) {
      InZoneIsReported(watches, obs, states, said, l, id, n);
    } else {
      TrackFollowsLastMessage(watches, obs, states, said, id, n);
    }
  }

  /** The transition names this track as the one seen. */
  predicate Names(c: Transition, tr: Track) {
    c.camera == tr.camera && c.sourceId == tr.source
  }

  /** A transition is about its own ledger, and an arrival, which happens when it
      is announced, names an object then in the zone. */
  lemma WhatIsAnnounced(l: Ledger, at: Time, tracks: Tracks, l': Ledger, said: seq<Transition>)
    requires LedgerStep(l, at, tracks, l', said) && said != []
    ensures said[0].zone == l.watch.zone && said[0].labelName == l.labelName && said[0].quiet == l.watch.quiet
    ensures said[0].turn.Arrival? ==>
              && said[0].startedAt == at
              && exists id :: id in tracks && InZone(tracks[id], l) && Names(said[0], tracks[id])
  {
    hide IsRaw, IsQualified;
    var q: nat, raw: nat, cover: Option<Track>, seenBy: Option<Track>
      :| LedgerStepBy(l, at, tracks, l', said, q, raw, cover, seenBy);
    if said[0].turn.Arrival? {
      DweltWithinSeen(tracks, l, at, q, raw);
      assert raw > 0;
      assert exists id :: id in tracks && InZone(tracks[id], l) by {
        SomeSeen(tracks, l, raw);
      }
    }
  }

  lemma SomeSeen(tracks: Tracks, l: Ledger, raw: nat)
    requires IsRaw(tracks, l, raw) && raw > 0
    ensures exists id :: id in tracks && InZone(tracks[id], l)
  {
    var cam :| |Seen(tracks, l, cam)| == raw;
    var id :| id in Seen(tracks, l, cam);
  }

  lemma TransitionSpeaks(watches: map<string, Watch>, obs: seq<Observation>, states: seq<State>,
                         said: seq<seq<Transition>>, key: LedgerKey, j: nat)
    requires IsRun(watches, obs, states, said) && j < |obs| && key in states[0].ledgers
    requires SaidOf(said[j], key) != []
    ensures var c, l, after := SaidOf(said[j], key)[0], states[0].ledgers[key], states[j + 1].tracks;
            && c.zone == l.watch.zone && c.labelName == l.labelName && c.at == obs[j].at
            && (c.turn.Arrival? ==>
                  && c.startedAt == obs[j].at
                  && exists id :: id in after && InZone(after[id], l) && Names(c, after[id]))
  {
    hide IsRun, IsLedgerRun, LedgerStep;
    EveryLedgerRuns(watches, obs, states, said, key);
    var ticks, ls, out := TicksOf(obs, states), LedgersOf(states, key), SaidTo(said, key);
    var _, _ := FactsAt(ticks, ls, out, j);
    assert LedgerStep(ls[j], obs[j].at, states[j + 1].tracks, ls[j + 1], out[j]) by {
      StepOfRun(watches, obs, states, said, key, j);
    }
    WhatIsAnnounced(ls[j], obs[j].at, states[j + 1].tracks, ls[j + 1], out[j]);
  }

  /** Every arrival a run announces rests on messages: at every step from some
      step m, arriveAfter or more before, as many objects of its label and of one
      camera as it counts were reported in its zone.  The object it names, with
      that object's camera, is reported there too, and it happens as it is said. */
  lemma ArrivalRestsOnMessages(watches: map<string, Watch>, obs: seq<Observation>, states: seq<State>,
                               said: seq<seq<Transition>>, j: nat, p: nat)
    returns (ids: set<string>, cam: string, m: nat)
    requires IsRun(watches, obs, states, said) && j < |obs| && p < |said[j]| && said[j][p].turn.Arrival?
    ensures var c := said[j][p];
            && (c.zone, c.labelName) in states[0].ledgers
            && |ids| == c.count > 0
            && m < j && obs[j].at - obs[m].at >= states[0].ledgers[(c.zone, c.labelName)].watch.arriveAfter
            && (forall n, id :: m < n <= j + 1 && id in ids ==>
                  ReportedIn(watches, obs, states, id, n, c.zone, c.labelName, cam))
            && ReportedIn(watches, obs, states, c.sourceId, j + 1, c.zone, c.labelName, c.camera)
            && c.startedAt == c.at == obs[j].at
  {
    hide ObservedAt, IsLedgerRun, ReportedIn;
    var c := said[j][p];
    var key := (c.zone, c.labelName);
    TransitionOfLedger(watches, obs, states, said, j, p);
    EveryLedgerRuns(watches, obs, states, said, key);
    var ticks, ls, out := TicksOf(obs, states), LedgersOf(states, key), SaidTo(said, key);
    ids, cam, m := ArrivalEvidence(ticks, ls, out, j);
    TransitionSpeaks(watches, obs, states, said, key, j);
    var one :| one in states[j + 1].tracks && InZone(states[j + 1].tracks[one], ls[0])
               && Names(c, states[j + 1].tracks[one]);
    InZoneIsReported(watches, obs, states, said, ls[0], one, j + 1);
    forall n, id | m < n <= j + 1 && id in ids
      ensures ReportedIn(watches, obs, states, id, n, c.zone, c.labelName, cam)
    {
      assert AllInZone(ticks[n - 1], ls[0], ids, cam);
      InZoneIsReported(watches, obs, states, said, ls[0], id, n);
    }
  }

  // ----- departures -----

  /** Whom the ledger remembers: one of the tracks it last saw it whole by. */
  lemma WhoIsRemembered(l: Ledger, at: Time, tracks: Tracks, l': Ledger, said: seq<Transition>)
    requires LedgerStep(l, at, tracks, l', said)
    ensures SawAll(Tick(at, tracks), l, l.present) ==>
              exists id :: id in tracks && InZone(tracks[id], l) && Remembered(l', tracks[id])
    ensures !SawAll(Tick(at, tracks), l, l.present) ==> l'.seenCamera == l.seenCamera && l'.seenSource == l.seenSource
    ensures said != [] && said[0].turn.Departure? && l'.lastSeen != UNSET && l'.seenCamera != "" ==>
              said[0].camera == l'.seenCamera && said[0].sourceId == l'.seenSource
  {
    hide IsRaw, IsQualified;
    var q: nat, raw: nat, cover: Option<Track>, seenBy: Option<Track>
      :| LedgerStepBy(l, at, tracks, l', said, q, raw, cover, seenBy);
    OneRaw(tracks, l, raw);
  }

  lemma OneRaw(tracks: Tracks, l: Ledger, raw: nat)
    requires IsRaw(tracks, l, raw)
    ensures forall a: nat :: IsRaw(tracks, l, a) ==> a == raw
  {
  }

  predicate Remembered(l: Ledger, tr: Track) {
    l.seenCamera == tr.camera && l.seenSource == tr.source
  }

  /** What a ledger remembers, once it has seen anything, is one of the tracks of
      the last tick that saw the whole count. */
  lemma {:induction false} RemembersWho(ticks: seq<Tick>, ls: seq<Ledger>, said: seq<seq<Transition>>, n: nat, s: nat)
    returns (id: string)
    requires IsLedgerRun(ticks, ls, said) && n <= |ticks| && LastSighting(ticks, ls, n, s)
    ensures id in ticks[s].tracks && InZone(ticks[s].tracks[id], ls[0]) && Remembered(ls[n], ticks[s].tracks[id])
    decreases n
  {
    hide SawAll, LedgerStep;
    var p := n - 1;
    var _, _ := FactsAt(ticks, ls, said, p);
    assert StepsAt(ticks, ls, said, p);
    WhoIsRemembered(ls[p], ticks[p].at, ticks[p].tracks, ls[n], said[p]);
    SawAllAlike(ticks[p], ls[0], ls[p], ls[p].present);
    if s == p {
      id :| id in ticks[p].tracks && InZone(ticks[p].tracks[id], ls[p]) && Remembered(ls[n], ticks[p].tracks[id]);
    } else {
      SightingBefore(ticks, ls, said, n, s);
      id := RemembersWho(ticks, ls, said, p, s);
    }
  }

  lemma SawAllAlike(tick: Tick, a: Ledger, b: Ledger, present: nat)
    requires SameQuestion(a, b)
    ensures SawAll(tick, a, present) <==> SawAll(tick, b, present)
  {
    hide IsRaw;
    SameCounts(a, b, tick.tracks, tick.at);
  }

  lemma SightingBefore(ticks: seq<Tick>, ls: seq<Ledger>, said: seq<seq<Transition>>, n: nat, s: nat)
    requires IsLedgerRun(ticks, ls, said) && n <= |ticks| && LastSighting(ticks, ls, n, s) && s < n - 1
    ensures LastSighting(ticks, ls, n - 1, s)
  {
    hide IsRaw, IsQualified, LedgerStep;
    var q, raw := FactsAt(ticks, ls, said, n - 1);
    assert !SawAll(ticks[n - 1], ls[0], ls[n - 1].present);
    assert ls[n].lastSeen == ls[n - 1].lastSeen;
  }

  /** However many objects of this label one camera has reported in the zone, they
      are fewer than this. */
  ghost predicate FewerReported(watches: map<string, Watch>, obs: seq<Observation>, states: seq<State>, n: nat,
                                zone: string, what: string, count: nat)
    requires n <= |obs| && |states| == |obs| + 1
  {
    forall ids: set<string>, cam :: AllReported(watches, obs, states, n, zone, what, ids, cam) ==> |ids| < count
  }

  ghost predicate AllReported(watches: map<string, Watch>, obs: seq<Observation>, states: seq<State>, n: nat,
                              zone: string, what: string, ids: set<string>, cam: string)
    requires n <= |obs| && |states| == |obs| + 1
  {
    forall id :: id in ids ==> ReportedIn(watches, obs, states, id, n, zone, what, cam)
  }

  ghost predicate Short(tracks: Tracks, l: Ledger, count: nat) {
    exists raw: nat :: IsRaw(tracks, l, raw) && raw < count
  }

  lemma BelowIsShort(tick: Tick, l: Ledger, count: nat)
    requires RawBelow(tick, l, count)
    ensures Short(tick.tracks, l, count)
  {
  }

  lemma ShortIsFewer(watches: map<string, Watch>, obs: seq<Observation>, states: seq<State>,
                     said: seq<seq<Transition>>, l: Ledger, n: nat, count: nat)
    requires IsRun(watches, obs, states, said) && n <= |obs| && l.watch.zone in watches
    requires Short(states[n].tracks, l, count)
    ensures FewerReported(watches, obs, states, n, l.watch.zone, l.labelName, count)
  {
    hide ReportedIn, ObservedAt;
    var raw: nat :| IsRaw(states[n].tracks, l, raw) && raw < count;
    forall ids: set<string>, cam | AllReported(watches, obs, states, n, l.watch.zone, l.labelName, ids, cam)
      ensures |ids| < count
    {
      var seen := Seen(states[n].tracks, l, cam);
      forall id | id in ids ensures id in seen {
        SeenIffReported(watches, obs, states, said, l, cam, id, n);
      }
      SubsetSize(ids, seen);
    }
  }

  lemma DepartureRestsOnTicks(ticks: seq<Tick>, ls: seq<Ledger>, said: seq<seq<Transition>>, j: nat)
    returns (s: nat, m: nat, who: string)
    requires IsLedgerRun(ticks, ls, said) && j < |ticks| && said[j] != [] && said[j][0].turn.Departure?
    ensures said[j][0].count < ls[j].present
    ensures s < m < j && ticks[j].at - ticks[m].at >= ls[0].watch.departAfter
    ensures forall k :: m <= k <= j ==> Short(ticks[k].tracks, ls[0], ls[j].present)
    ensures said[j][0].startedAt == ticks[s].at
    ensures who in ticks[s].tracks && InZone(ticks[s].tracks[who], ls[0])
    ensures ticks[s].tracks[who].camera != "" ==> Names(said[j][0], ticks[s].tracks[who])
  {
    hide StepsAt, EvolvesAt, SawAll, RawBelow, InZone, Short;
    s, m := DepartureEvidence(ticks, ls, said, j);
    who := DepartureNames(ticks, ls, said, j, s);
    forall k | m <= k <= j ensures Short(ticks[k].tracks, ls[0], ls[j].present) {
      assert RawBelow(ticks[k], ls[0], ls[j].present);
      BelowIsShort(ticks[k], ls[0], ls[j].present);
    }
  }

  lemma RunShape(watches: map<string, Watch>, obs: seq<Observation>, states: seq<State>, said: seq<seq<Transition>>)
    requires IsRun(watches, obs, states, said)
    ensures |said| == |obs| && |states| == |obs| + 1
  {
  }

  /** What a departure rests on, told by the tracks of its run. */
  lemma DepartureRestsOnTracks(watches: map<string, Watch>, obs: seq<Observation>, states: seq<State>,
                               said: seq<seq<Transition>>, key: LedgerKey, j: nat)
    returns (s: nat, m: nat, who: string)
    requires IsRun(watches, obs, states, said) && j < |obs| && key in states[0].ledgers
    requires SaidOf(said[j], key) != [] && SaidOf(said[j], key)[0].turn.Departure?
    ensures key in states[j].ledgers
    ensures var c, l, present := SaidOf(said[j], key)[0], states[0].ledgers[key], states[j].ledgers[key].present;
            && c.count < present
            && s < m < j && obs[j].at - obs[m].at >= l.watch.departAfter
            && (forall n :: m < n <= j + 1 ==> Short(states[n].tracks, l, present))
            && c.startedAt == obs[s].at
            && who in states[s + 1].tracks && InZone(states[s + 1].tracks[who], l)
            && (states[s + 1].tracks[who].camera != "" ==> Names(c, states[s + 1].tracks[who]))
  {
    hide IsRun, IsLedgerRun, InZone, Short;
    RunShape(watches, obs, states, said);
    EveryLedgerRuns(watches, obs, states, said, key);
    var ticks, ls, out := TicksOf(obs, states), LedgersOf(states, key), SaidTo(said, key);
    s, m, who := DepartureRestsOnTicks(ticks, ls, out, j);
    forall n | m < n <= j + 1 ensures Short(states[n].tracks, ls[0], ls[j].present) {
      assert Short(ticks[n - 1].tracks, ls[0], ls[j].present);
    }
  }

  /** Every departure a run announces rests on messages: through a window of at
      least departAfter every step had fewer objects reported on any one camera than
      the count believed; it is dated back to a step before that window, and the
      object it names, with that object's camera, was then reported in the zone. */
  lemma DepartureRestsOnMessages(watches: map<string, Watch>, obs: seq<Observation>, states: seq<State>,
                                 said: seq<seq<Transition>>, j: nat, p: nat)
    returns (s: nat, m: nat, who: string, cam: string)
    requires IsRun(watches, obs, states, said) && j < |obs| && p < |said[j]| && said[j][p].turn.Departure?
    ensures var c := said[j][p];
            var key := (c.zone, c.labelName);
            && key in states[0].ledgers && key in states[j].ledgers
            && c.count < states[j].ledgers[key].present
            && s < m < j && obs[j].at - obs[m].at >= states[0].ledgers[key].watch.departAfter
            && (forall n :: m < n <= j + 1 ==>
                  FewerReported(watches, obs, states, n, c.zone, c.labelName, states[j].ledgers[key].present))
            && c.at == obs[j].at && c.startedAt == obs[s].at
            && ReportedIn(watches, obs, states, who, s + 1, c.zone, c.labelName, cam)
            && (cam != "" ==> c.sourceId == who && c.camera == cam)
  {
    hide ObservedAt, ReportedIn, FewerReported, Short;
    var c := said[j][p];
    var key := (c.zone, c.labelName);
    TransitionOfLedger(watches, obs, states, said, j, p);
    assert SaidTo(said, key)[j] == SaidOf(said[j], key) == [c];
    TransitionSpeaks(watches, obs, states, said, key, j);
    s, m, who := DepartureRestsOnTracks(watches, obs, states, said, key, j);
    var l := states[0].ledgers[key];
    cam := states[s + 1].tracks[who].camera;
    InZoneIsReported(watches, obs, states, said, l, who, s + 1);
    TrackFollowsLastMessage(watches, obs, states, said, who, s + 1);
    var present := states[j].ledgers[key].present;
    forall n | m < n <= j + 1 ensures FewerReported(watches, obs, states, n, c.zone, c.labelName, present) {
      assert Short(states[n].tracks, l, present);
      ShortIsFewer(watches, obs, states, said, l, n, present);
    }
  }

  /** A departure names whom the ledger saw at its last whole sighting. */
  lemma DepartureNames(ticks: seq<Tick>, ls: seq<Ledger>, said: seq<seq<Transition>>, j: nat, s: nat)
    returns (id: string)
    requires IsLedgerRun(ticks, ls, said) && j < |ticks| && said[j] != [] && said[j][0].turn.Departure? && s < j
    requires SawAll(ticks[s], ls[0], ls[s].present) && said[j][0].startedAt == ticks[s].at != UNSET
    requires forall k :: s < k <= j ==> !SawAll(ticks[k], ls[0], ls[k].present)
    ensures id in ticks[s].tracks && InZone(ticks[s].tracks[id], ls[0])
    ensures ticks[s].tracks[id].camera != "" ==> Names(said[j][0], ticks[s].tracks[id])
  {
    hide SawAll, LedgerStep, IsRaw, IsQualified;
    var q, raw := FactsAt(ticks, ls, said, j);
    assert StepsAt(ticks, ls, said, j);
    WhoIsRemembered(ls[j], ticks[j].at, ticks[j].tracks, ls[j + 1], said[j]);
    Remembers(ticks, ls, said, j + 1);
    Remembers(ticks, ls, said, j);
    var s': nat :| LastSighting(ticks, ls, j + 1, s');
    assert s' == s;
    id := RemembersWho(ticks, ls, said, j + 1, s);
  }

  // ----- nothing owed is missed -----

  /** After every tick the ledger believes in at least the tracks that have dwelt. */
  lemma DwellersCounted(ticks: seq<Tick>, ls: seq<Ledger>, said: seq<seq<Transition>>, j: nat, cam: string)
    requires IsLedgerRun(ticks, ls, said) && j < |ticks|
    ensures |Dwelt(ticks[j].tracks, ls[0], ticks[j].at, cam)| <= ls[j + 1].present
  {
    var q, raw := FactsAt(ticks, ls, said, j);
    assert |Dwelt(ticks[j].tracks, ls[0], ticks[j].at, cam)| <= q;
  }

  /** A zone held before and after a step is held on the same clock. */
  lemma SameClock(watches: map<string, Watch>, obs: seq<Observation>, states: seq<State>,
                  said: seq<seq<Transition>>, id: string, z: string, n: nat)
    requires IsRun(watches, obs, states, said) && n < |obs|
    requires id in states[n].tracks && z in states[n].tracks[id].entered
    requires id in states[n + 1].tracks && z in states[n + 1].tracks[id].entered
    ensures states[n + 1].tracks[id].entered[z] == states[n].tracks[id].entered[z]
  {
    hide Heeds, Reports, SupersededAt, ObservedAt;
    if Heeds(watches, obs[n].msg, id) {
      HeededStep(watches, obs, states, said, id, n);
    } else {
      OtherStep(watches, obs, states, said, id, n);
    }
  }

  /** An object reported in a zone at every step since m has held it since then. */
  lemma {:induction false} ReportedSince(watches: map<string, Watch>, obs: seq<Observation>, states: seq<State>,
                                         said: seq<seq<Transition>>, l: Ledger, cam: string, id: string, m: nat, n: nat)
    requires IsRun(watches, obs, states, said) && m < n <= |obs| && l.watch.zone in watches
    requires forall k :: m < k <= n ==> ReportedIn(watches, obs, states, id, k, l.watch.zone, l.labelName, cam)
    ensures id in Seen(states[n].tracks, l, cam)
    ensures states[n].tracks[id].entered[l.watch.zone] <= obs[m].at
    decreases n
  {
    hide ReportedIn, ObservedAt;
    SeenIffReported(watches, obs, states, said, l, cam, id, n);
    if n == m + 1 {
      var c := ClockIsFirstReport(watches, obs, states, said, id, l.watch.zone, n);
    } else {
      ReportedSince(watches, obs, states, said, l, cam, id, m, n - 1);
      SameClock(watches, obs, states, said, id, l.watch.zone, n - 1);
    }
  }

  /** So no arrival is missed: objects of its label, of one camera, that were
      reported in its zone at every step for arriveAfter are counted at the end of it. */
  lemma ReportedLongIsCounted(watches: map<string, Watch>, obs: seq<Observation>, states: seq<State>,
                              said: seq<seq<Transition>>, key: LedgerKey, ids: set<string>, cam: string, m: nat, j: nat)
    requires IsRun(watches, obs, states, said) && m <= j < |obs| && key in states[0].ledgers
    requires var l := states[0].ledgers[key];
             && l.watch.zone in watches && obs[j].at - obs[m].at >= l.watch.arriveAfter
             && forall n :: m < n <= j + 1 ==> AllReported(watches, obs, states, n, l.watch.zone, l.labelName, ids, cam)
    ensures key in states[j + 1].ledgers && |ids| <= states[j + 1].ledgers[key].present
  {
    hide ObservedAt, ReportedIn, IsLedgerRun;
    var l := states[0].ledgers[key];
    EveryLedgerRuns(watches, obs, states, said, key);
    var ticks, ls, out := TicksOf(obs, states), LedgersOf(states, key), SaidTo(said, key);
    DwellersCounted(ticks, ls, out, j, cam);
    var dwelt := Dwelt(states[j + 1].tracks, l, obs[j].at, cam);
    forall id | id in ids ensures id in dwelt {
      forall n | m < n <= j + 1 ensures ReportedIn(watches, obs, states, id, n, l.watch.zone, l.labelName, cam) {
        assert AllReported(watches, obs, states, n, l.watch.zone, l.labelName, ids, cam);
      }
      ReportedSince(watches, obs, states, said, l, cam, id, m, j + 1);
    }
    SubsetSize(ids, dwelt);
  }

  /** A ledger that says nothing has not been short for departAfter. */
  lemma NotYetDeparted(l: Ledger, at: Time, tracks: Tracks, l': Ledger)
    requires LedgerStep(l, at, tracks, l', []) && l'.present > 0 && l'.belowSince != UNSET
    ensures at - l'.belowSince < l.watch.departAfter
  {
    hide IsRaw, IsQualified, IsWitness;
  }

  /** While it falls short from tick m on and says nothing its shortfall clock runs,
      from tick m or before. */
  lemma {:induction false} ShortClockRuns(ticks: seq<Tick>, ls: seq<Ledger>, said: seq<seq<Transition>>, m: nat, j: nat)
    requires IsLedgerRun(ticks, ls, said) && m <= j < |ticks|
    requires forall k :: m <= k <= j ==> said[k] == [] && RawBelow(ticks[k], ls[0], ls[m].present)
    ensures ls[j + 1].present == ls[m].present
    ensures ls[j + 1].belowSince != UNSET && ls[j + 1].belowSince <= ticks[m].at
    decreases j
  {
    hide IsRaw, IsQualified, StepsAt, EvolvesAt;
    var q, raw := FactsAt(ticks, ls, said, j);
    assert raw < ls[m].present by {
      assert RawBelow(ticks[j], ls[0], ls[m].present);
      OneRaw(ticks[j].tracks, ls[0], raw);
    }
    if j > m {
      ShortClockRuns(ticks, ls, said, m, j - 1);
    } else if ls[m].belowSince != UNSET {
      var s := Shortfall(ticks, ls, said, m);
    }
  }

  lemma ShortfallEnds(ticks: seq<Tick>, ls: seq<Ledger>, said: seq<seq<Transition>>, m: nat, j: nat)
    requires IsLedgerRun(ticks, ls, said) && m <= j < |ticks|
    requires forall k :: m <= k <= j ==> said[k] == [] && RawBelow(ticks[k], ls[0], ls[m].present)
    ensures ticks[j].at - ticks[m].at < ls[0].watch.departAfter
  {
    hide LedgerStep;
    ShortClockRuns(ticks, ls, said, m, j);
    var q, raw := FactsAt(ticks, ls, said, j);
    assert RawBelow(ticks[m], ls[0], ls[m].present);
    assert StepsAt(ticks, ls, said, j) && said[j] == [];
    NotYetDeparted(ls[j], ticks[j].at, ticks[j].tracks, ls[j + 1]);
  }

  lemma FewerIsBelow(watches: map<string, Watch>, obs: seq<Observation>, states: seq<State>,
                     said: seq<seq<Transition>>, l: Ledger, n: nat, raw: nat, count: nat)
    requires IsRun(watches, obs, states, said) && n <= |obs| && l.watch.zone in watches
    requires FewerReported(watches, obs, states, n, l.watch.zone, l.labelName, count)
    requires IsRaw(states[n].tracks, l, raw)
    ensures raw < count
  {
    hide ReportedIn, ObservedAt;
    assert AllReported(watches, obs, states, n, l.watch.zone, l.labelName, {}, "");
    if raw > 0 {
      var cam :| |Seen(states[n].tracks, l, cam)| == raw;
      var ids := Seen(states[n].tracks, l, cam);
      forall id | id in ids ensures ReportedIn(watches, obs, states, id, n, l.watch.zone, l.labelName, cam) {
        SeenIffReported(watches, obs, states, said, l, cam, id, n);
      }
      assert AllReported(watches, obs, states, n, l.watch.zone, l.labelName, ids, cam);
    }
  }

  /** And no departure is: a ledger about which nothing is said, while at every step
      fewer objects than it believes in are reported on any one camera, has not been
      so for departAfter. */
  lemma ShortLongIsToldOf(watches: map<string, Watch>, obs: seq<Observation>, states: seq<State>,
                          said: seq<seq<Transition>>, key: LedgerKey, m: nat, j: nat)
    requires IsRun(watches, obs, states, said) && m <= j < |obs| && key in states[0].ledgers && key in states[m].ledgers
    requires forall k :: m <= k <= j ==> SaidOf(said[k], key) == []
    requires var l, present := states[0].ledgers[key], states[m].ledgers[key].present;
             && l.watch.zone in watches
             && forall n :: m < n <= j + 1 ==>
                  FewerReported(watches, obs, states, n, l.watch.zone, l.labelName, present)
    ensures obs[j].at - obs[m].at < states[0].ledgers[key].watch.departAfter
  {
    hide ObservedAt, FewerReported, StepsAt, EvolvesAt;
    EveryLedgerRuns(watches, obs, states, said, key);
    var ticks, ls, out := TicksOf(obs, states), LedgersOf(states, key), SaidTo(said, key);
    forall k | m <= k <= j ensures RawBelow(ticks[k], ls[0], ls[m].present) {
      var q, raw := FactsAt(ticks, ls, out, k);
      FewerIsBelow(watches, obs, states, said, ls[0], k + 1, raw, ls[m].present);
    }
    ShortfallEnds(ticks, ls, out, m, j);
  }
}
