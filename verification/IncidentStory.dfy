/** What an incident of a reachable state is made of: the messages it heard. */
module IncidentStory {
  import opened Common
  import opened Policy
  import opened Lifecycle
  import opened BoxTrail
  import opened Incidents
  import opened IncidentRuns
  import Edl

  /** One message an incident heard. */
  datatype Hearing = Hearing(at: Time, typ: MessageType, obj: Object)

  /** The boxes reported to it, in order. */
  function Reports(hs: seq<Hearing>): seq<BoxSample> {
    if hs == [] then []
    else
      var h := hs[|hs| - 1];
      var before, box := Reports(hs[..|hs| - 1]), h.obj.box;
      if |box| != 4 then before else before + [BoxSample(h.obj.camera, h.at, box[0], box[1], box[2], box[3])]
  }

  /** The incident those messages made. */
  ghost function Lived(cfg: Config, hs: seq<Hearing>): Incident {
    if hs == [] then BLANK
    else
      var h := hs[|hs| - 1];
      Emit(cfg, Touched(Lived(cfg, hs[..|hs| - 1]), h.at, h.typ, h.obj), h.at).0
  }

  /** Whatever an incident heard, the timeline it publishes when it ends covers all
      the boxes reported to it, from the first to the latest. */
  lemma {:induction false} BoxesAreTrail(cfg: Config, hs: seq<Hearing>)
    ensures Lived(cfg, hs).boxes == Trail(Reports(hs))
    decreases |hs|
  {
    hide Emit, Touched;
    if hs != [] {
      var init, h := hs[..|hs| - 1], hs[|hs| - 1];
      BoxesAreTrail(cfg, init);
      BoxKept(cfg, Lived(cfg, init), h);
      if |h.obj.box| == 4 {
        var all := Reports(hs);
        assert all[..|all| - 1] == Reports(init);
      }
    }
  }

  lemma BoxKept(cfg: Config, inc: Incident, h: Hearing)
    ensures Emit(cfg, Touched(inc, h.at, h.typ, h.obj), h.at).0.boxes ==
            if |h.obj.box| != 4 then inc.boxes
            else Kept(inc.boxes, BoxSample(h.obj.camera, h.at, h.obj.box[0], h.obj.box[1], h.obj.box[2], h.obj.box[3]))
  {
    hide Emit, AddNew, Kept, Told, IndexOf;
    EmitKeepsBoxes(cfg, Touched(inc, h.at, h.typ, h.obj), h.at);
  }

  lemma EmitKeepsBoxes(cfg: Config, inc: Incident, at: Time)
    requires inc.members != []
    ensures Emit(cfg, inc, at).0.boxes == inc.boxes
  {
    hide Build, SameActivity;
  }

  // ----- the messages of a run that an incident heard -----

  /** The messages at these places of a run. */
  function HearingsAt(obs: seq<Observation>, places: seq<nat>): (hs: seq<Hearing>)
    requires forall p :: 0 <= p < |places| ==> places[p] < |obs| && obs[places[p]].msg.Tracked?
    ensures |hs| == |places|
  {
    if places == [] then []
    else
      var o := obs[places[|places| - 1]];
      HearingsAt(obs, places[..|places| - 1]) + [Hearing(o.at, o.msg.typ, o.msg.obj)]
  }

  ghost predicate HeardPlaces(cfg: Config, obs: seq<Observation>, n: nat, places: seq<nat>)
    requires n <= |obs|
  {
    && (forall p, q :: 0 <= p < q < |places| ==> places[p] < places[q])
    && (forall p :: 0 <= p < |places| ==> places[p] < n && IsActivity(cfg, obs[places[p]].msg))
  }

  predicate SameObject(cfg: Config, obs: seq<Observation>, i: nat, j: nat)
    requires i < |obs| && j < |obs| && IsActivity(cfg, obs[i].msg)
  {
    IsActivity(cfg, obs[j].msg) && obs[j].msg.obj.id == obs[i].msg.obj.id
  }

  /** From the first message heard about an object on, all about it were heard. */
  ghost predicate NoneMissed(cfg: Config, obs: seq<Observation>, n: nat, places: seq<nat>)
    requires n <= |obs| && HeardPlaces(cfg, obs, n, places)
  {
    forall p, i :: 0 <= p < |places| && places[p] < i < n && SameObject(cfg, obs, places[p], i) ==> i in places
  }

  /** The incident's objects are those it heard about. */
  ghost predicate MembersHeard(cfg: Config, obs: seq<Observation>, n: nat, inc: Incident, places: seq<nat>)
    requires n <= |obs| && HeardPlaces(cfg, obs, n, places)
  {
    forall id :: id in Ids(inc.members) <==> exists p :: 0 <= p < |places| && obs[places[p]].msg.obj.id == id
  }

  /** The incident before message n is what these messages of the run made. */
  ghost predicate IsStory(cfg: Config, obs: seq<Observation>, n: nat, inc: Incident, places: seq<nat>)
    requires n <= |obs|
  {
    && HeardPlaces(cfg, obs, n, places)
    && Lived(cfg, HearingsAt(obs, places)) == inc
    && MembersHeard(cfg, obs, n, inc, places)
    && NoneMissed(cfg, obs, n, places)
  }

  /** An incident after a message was there before and is not concerned, or is
      where the message landed. */
  ghost predicate Untouched(cfg: Config, s: Engine, msg: Message, inc: Incident) {
    inc in s.open && (IsActivity(cfg, msg) ==> msg.obj.id !in Ids(inc.members))
  }

  ghost predicate LandedIn(cfg: Config, s: Engine, at: Time, msg: Message, before: Incident, inc: Incident) {
    && IsActivity(cfg, msg) && (before == BLANK || before in s.open)
    && inc == Emit(cfg, Touched(before, at, msg.typ, msg.obj), at).0
  }

  lemma LandedHolds(cfg: Config, s: Engine, at: Time, msg: Message, before: Incident, inc: Incident)
    requires LandedIn(cfg, s, at, msg, before, inc)
    ensures Ids(inc.members) == Ids(before.members) + {msg.obj.id}
  {
    hide Emit, Touched;
    TouchedGrows(before, at, msg.typ, msg.obj);
  }

  lemma Origin(cfg: Config, s: Engine, at: Time, msg: Message, s': Engine, said: seq<Change>,
               running: map<EventId, Event>, running': map<EventId, Event>, inc: Incident)
    requires Good(cfg, s, running) && Good(cfg, s', running') && Peopled(s.open) && inc in s'.open
    requires Step(cfg, s, at, msg, s', said)
    ensures Untouched(cfg, s, msg, inc) || exists before :: LandedIn(cfg, s, at, msg, before, inc)
  {
    var open, closed := StillOpen(cfg, s.open, at), ClosedAfter(cfg, s.open, s.closed, at);
    SweepKeeps(cfg, s.open, at);
    SweepTidy(cfg, s.open, s.closed, at);
    if !IsActivity(cfg, msg) {
      assert inc in open;
    } else if msg.obj.id in closed || (msg.typ.End? && !Held(open, msg.obj.id)) {
    } else {
      LandsOrStays(cfg, s, open, at, msg, s'.open, said[|Endings(cfg, s.open, at)|..], s'.closed, inc);
    }
  }

  lemma LandsOrStays(cfg: Config, s: Engine, open: seq<Incident>, at: Time, msg: Message, open': seq<Incident>,
                     said: seq<Change>, closed: map<string, Time>, inc: Incident)
    requires IsActivity(cfg, msg) && Heard(cfg, open, at, msg.typ, msg.obj, open', said)
    requires (forall o :: o in open ==> o in s.open) && Tidy(cfg, open', closed) && inc in open'
    ensures Untouched(cfg, s, msg, inc) || exists before :: LandedIn(cfg, s, at, msg, before, inc)
  {
    hide Emit, Touched, Ids;
    var k: nat :| && IsHome(cfg, open, msg.obj, k)
                  && var emit := Emit(cfg, Touched(if k < |open| then open[k] else BLANK, at, msg.typ, msg.obj), at);
                     open' == Place(open, k, emit.0) && said == emit.1;
    var before := if k < |open| then open[k] else BLANK;
    assert LandedIn(cfg, s, at, msg, before, open'[k]);
    if inc != open'[k] {
      LandedHolds(cfg, s, at, msg, before, open'[k]);
      OthersStay(open, k, open'[k], closed, inc, msg.obj.id);
    }
  }

  lemma OthersStay(open: seq<Incident>, k: nat, out: Incident, closed: map<string, Time>, inc: Incident, id: string)
    requires k <= |open| && Apart(Place(open, k, out), closed) && inc in Place(open, k, out) && inc != out
    requires id in Ids(out.members)
    ensures inc in open && id !in Ids(inc.members)
  {
    hide Ids;
    var open' := Place(open, k, out);
    var x :| 0 <= x < |open'| && open'[x] == inc;
    assert open'[k] == out && open'[x] == open[x];
    assert Ids(open'[x].members) !! Ids(open'[k].members);
  }

  lemma StoryGoesOn(cfg: Config, obs: seq<Observation>, n: nat, inc: Incident, places: seq<nat>)
    requires n < |obs| && IsStory(cfg, obs, n, inc, places)
    requires IsActivity(cfg, obs[n].msg) ==> obs[n].msg.obj.id !in Ids(inc.members)
    ensures IsStory(cfg, obs, n + 1, inc, places)
  {
    hide Lived, Ids;
  }

  lemma StoryGrows(cfg: Config, obs: seq<Observation>, n: nat, s: Engine, before: Incident, inc: Incident,
                   places: seq<nat>)
    requires n < |obs| && IsStory(cfg, obs, n, before, places)
    requires LandedIn(cfg, s, obs[n].at, obs[n].msg, before, inc)
    ensures IsStory(cfg, obs, n + 1, inc, places + [n])
  {
    LandedHolds(cfg, s, obs[n].at, obs[n].msg, before, inc);
    LivedOn(cfg, obs, places, n, s, before, inc);
    GrownMembers(cfg, obs, n, before, inc, places);
    StillNoneMissed(cfg, obs, n, places);
    hide Lived, LandedIn, HeardPlaces, MembersHeard, NoneMissed;
  }

  lemma StillNoneMissed(cfg: Config, obs: seq<Observation>, n: nat, places: seq<nat>)
    requires n < |obs| && HeardPlaces(cfg, obs, n, places) && HeardPlaces(cfg, obs, n + 1, places + [n])
    requires NoneMissed(cfg, obs, n, places)
    ensures NoneMissed(cfg, obs, n + 1, places + [n])
  {
    var places' := places + [n];
    assert places'[|places|] == n;
    forall p, i | 0 <= p < |places'| && places'[p] < i < n + 1 && SameObject(cfg, obs, places'[p], i)
      ensures i in places'
    {
      if i < n {
        assert places'[p] == places[p];
      }
    }
  }

  lemma LivedOn(cfg: Config, obs: seq<Observation>, places: seq<nat>, n: nat, s: Engine, before: Incident,
                inc: Incident)
    requires n < |obs| && HeardPlaces(cfg, obs, n, places) && Lived(cfg, HearingsAt(obs, places)) == before
    requires LandedIn(cfg, s, obs[n].at, obs[n].msg, before, inc)
    ensures HeardPlaces(cfg, obs, n + 1, places + [n]) && Lived(cfg, HearingsAt(obs, places + [n])) == inc
  {
    hide Emit, Touched;
    assert (places + [n])[..|places|] == places;
    var hs := HearingsAt(obs, places + [n]);
    assert hs[..|hs| - 1] == HearingsAt(obs, places);
  }

  lemma GrownMembers(cfg: Config, obs: seq<Observation>, n: nat, before: Incident, inc: Incident, places: seq<nat>)
    requires n < |obs| && IsActivity(cfg, obs[n].msg)
    requires HeardPlaces(cfg, obs, n, places) && HeardPlaces(cfg, obs, n + 1, places + [n])
    requires MembersHeard(cfg, obs, n, before, places) && Ids(inc.members) == Ids(before.members) + {obs[n].msg.obj.id}
    ensures MembersHeard(cfg, obs, n + 1, inc, places + [n])
  {
    hide Ids;
    var places' := places + [n];
    forall id ensures id in Ids(inc.members) <==> exists p :: 0 <= p < |places'| && obs[places'[p]].msg.obj.id == id {
      if id == obs[n].msg.obj.id {
        assert obs[places'[|places|]].msg.obj.id == id;
      } else if id in Ids(before.members) {
        var p :| 0 <= p < |places| && obs[places[p]].msg.obj.id == id;
        assert obs[places'[p]].msg.obj.id == id;
      }
    }
  }

  lemma NoStory(cfg: Config, obs: seq<Observation>, n: nat)
    requires n <= |obs|
    ensures IsStory(cfg, obs, n, BLANK, [])
  {
    assert Sources(BLANK.members) == [];
  }

  /** Every incident of every reachable state is what the messages it heard made
      of it: these are messages of the run, in order, each about one of its
      objects, and from the first about an object on it missed none. */
  lemma {:induction false} EveryIncidentHasStory(cfg: Config, obs: seq<Observation>, states: seq<Engine>,
                                                 said: seq<seq<Change>>,
                                                 n: nat, inc: Incident) returns (places: seq<nat>)
    requires Configured(cfg) && IsRun(cfg, obs, states, said) && n <= |obs| && inc in states[n].open
    ensures IsStory(cfg, obs, n, inc, places)
    decreases n
  {
    hide Good, Step, IsStory, Emit, Touched;
    assert n > 0;
    var m := n - 1;
    RunGood(cfg, obs, states, said, m);
    RunGood(cfg, obs, states, said, n);
    assert said[..n][..m] == said[..m];
    var running, running' := FollowAll(map[], Log(said[..m])).value, FollowAll(map[], Log(said[..n])).value;
    Origin(cfg, states[m], obs[m].at, obs[m].msg, states[n], said[m], running, running', inc);
    if Untouched(cfg, states[m], obs[m].msg, inc) {
      places := EveryIncidentHasStory(cfg, obs, states, said, m, inc);
      StoryGoesOn(cfg, obs, m, inc, places);
    } else {
      var before :| LandedIn(cfg, states[m], obs[m].at, obs[m].msg, before, inc);
      if before == BLANK {
        NoStory(cfg, obs, m);
        places := [];
      } else {
        places := EveryIncidentHasStory(cfg, obs, states, said, m, before);
      }
      StoryGrows(cfg, obs, m, states[m], before, inc, places);
      places := places + [m];
    }
  }

  /** So the boxes of every incident of every reachable state are the thinned
      trail of all boxes reported to it. */
  lemma EveryTrailIsReported(cfg: Config, obs: seq<Observation>, states: seq<Engine>, said: seq<seq<Change>>,
                             n: nat, inc: Incident) returns (places: seq<nat>)
    requires Configured(cfg) && IsRun(cfg, obs, states, said) && n <= |obs| && inc in states[n].open
    ensures IsStory(cfg, obs, n, inc, places) && inc.boxes == Trail(Reports(HearingsAt(obs, places)))
  {
    places := EveryIncidentHasStory(cfg, obs, states, said, n, inc);
    BoxesAreTrail(cfg, HearingsAt(obs, places));
  }

  // ----- the timeline is in time order -----

  ghost predicate Clocked(obs: seq<Observation>) {
    forall i, j :: 0 <= i < j < |obs| ==> obs[i].at <= obs[j].at
  }

  /** In order, and none after an instant. */
  ghost predicate OrderedBy(bs: seq<BoxSample>, at: Time) {
    Edl.TimeOrdered(bs) && forall i :: 0 <= i < |bs| ==> bs[i].at <= at
  }

  lemma {:induction false} ReportsOrdered(obs: seq<Observation>, places: seq<nat>)
    requires forall p :: 0 <= p < |places| ==> places[p] < |obs| && obs[places[p]].msg.Tracked?
    requires Clocked(obs) && forall p, q :: 0 <= p < q < |places| ==> places[p] < places[q]
    ensures if places == [] then Reports(HearingsAt(obs, places)) == []
            else OrderedBy(Reports(HearingsAt(obs, places)), obs[places[|places| - 1]].at)
    decreases |places|
  {
    hide OrderedBy, Reports;
    if places == [] {
      NoReports(HearingsAt(obs, places));
    } else {
      var init, now := places[..|places| - 1], obs[places[|places| - 1]].at;
      ReportsOrdered(obs, init);
      var hs := HearingsAt(obs, places);
      assert hs[..|hs| - 1] == HearingsAt(obs, init);
      ReportedNow(hs, if init == [] then now else obs[init[|init| - 1]].at);
    }
  }

  lemma NoReports(hs: seq<Hearing>)
    requires hs == []
    ensures Reports(hs) == [] && forall at: Time :: OrderedBy([], at)
  {
  }

  lemma ReportedNow(hs: seq<Hearing>, before: Time)
    requires hs != [] && before <= hs[|hs| - 1].at
    requires Reports(hs[..|hs| - 1]) == [] || OrderedBy(Reports(hs[..|hs| - 1]), before)
    ensures OrderedBy(Reports(hs), hs[|hs| - 1].at)
  {
    var init, all := Reports(hs[..|hs| - 1]), Reports(hs);
    assert init <= all;
  }

  lemma OrderedIsTimeOrdered()
    ensures Edl.TimeOrdered([]) && forall bs, at :: OrderedBy(bs, at) ==> Edl.TimeOrdered(bs)
  {
  }

  lemma TrailOrdered(reports: seq<BoxSample>)
    requires Edl.TimeOrdered(reports)
    ensures Edl.TimeOrdered(Trail(reports))
  {
    TrailIsSelection(reports);
    KeptCovers(|reports|);
    KeptClimbs(KeptIndices(|reports|));
  }

  lemma {:induction false} KeptClimbs(kept: seq<nat>)
    requires forall i, j :: 0 <= i && j == i + 1 && j < |kept| ==> kept[i] < kept[j]
    ensures forall i, j :: 0 <= i < j < |kept| ==> kept[i] < kept[j]
    decreases |kept|
  {
    if |kept| > 1 {
      var init := kept[..|kept| - 1];
      KeptClimbs(init);
      assert kept[|kept| - 2] < kept[|kept| - 1];
      assert forall i :: 0 <= i < |init| ==> init[i] == kept[i];
    }
  }

  /** Under a clock that never runs backwards the boxes of every incident of every
      reachable state are in time order. */
  lemma EveryTimelineOrdered(cfg: Config, obs: seq<Observation>, states: seq<Engine>, said: seq<seq<Change>>,
                             n: nat, inc: Incident)
    requires Configured(cfg) && IsRun(cfg, obs, states, said) && Clocked(obs)
    requires n <= |obs| && inc in states[n].open
    ensures Edl.TimeOrdered(inc.boxes)
  {
    hide IsRun, Lived, MembersHeard, NoneMissed, Edl.TimeOrdered;
    var places := EveryTrailIsReported(cfg, obs, states, said, n, inc);
    ReportsOrdered(obs, places);
    OrderedIsTimeOrdered();
    TrailOrdered(Reports(HearingsAt(obs, places)));
  }

  /** The boxes an event carries: none, or those of an incident that has ended. */
  ghost predicate CarriesBoxes(open: seq<Incident>, c: Change) {
    c.event.boxes == [] || exists inc :: inc in open && c.event.boxes == inc.boxes
  }

  lemma {:induction false} EndingsCarry(cfg: Config, open: seq<Incident>, at: Time)
    requires Peopled(open)
    ensures forall c :: c in Endings(cfg, open, at) ==> CarriesBoxes(open, c)
    decreases |open|
  {
    if open != [] {
      var init, inc := open[..|open| - 1], open[|open| - 1];
      EndingsCarry(cfg, init, at);
      assert inc in open && forall x :: x in init ==> x in open;
      forall c | c in Endings(cfg, open, at) ensures CarriesBoxes(open, c) {
        if c in Endings(cfg, init, at) {
          assert CarriesBoxes(init, c);
        } else {
          assert c.event.boxes == inc.boxes;
        }
      }
    }
  }

  lemma EmitCarries(cfg: Config, inc: Incident, at: Time)
    requires inc.members != []
    ensures forall c :: c in Emit(cfg, inc, at).1 ==> c.event.boxes == []
  {
    hide SameActivity;
  }

  lemma QuietCarries(open: seq<Incident>)
    ensures forall c: Change :: c.event.boxes == [] ==> CarriesBoxes(open, c)
  {
  }

  lemma PassCarries(cfg: Config, s: Engine, at: Time, msg: Message)
    ensures forall c :: c in PassStep(cfg.notable, s.live, at, msg).1 ==> c.event.boxes == []
  {
  }

  lemma StepCarries(cfg: Config, s: Engine, at: Time, msg: Message, s': Engine, said: seq<Change>)
    requires Peopled(s.open) && Step(cfg, s, at, msg, s', said)
    ensures forall c :: c in said ==> CarriesBoxes(s.open, c)
  {
    hide Emit, Touched, Held, Retire, IsHome, PassStep, CarriesBoxes, Heard;
    QuietCarries(s.open);
    var open, endings := StillOpen(cfg, s.open, at), Endings(cfg, s.open, at);
    EndingsCarry(cfg, s.open, at);
    if !IsActivity(cfg, msg) {
      PassCarries(cfg, s, at, msg);
    } else if !(msg.obj.id in ClosedAfter(cfg, s.open, s.closed, at) || (msg.typ.End? && !Held(open, msg.obj.id))) {
      var more := said[|endings|..];
      HeardCarries(cfg, open, at, msg.typ, msg.obj, s'.open, more);
      assert said == endings + more;
    }
  }

  lemma HeardCarries(cfg: Config, open: seq<Incident>, at: Time, typ: MessageType, obj: Object,
                     open': seq<Incident>, said: seq<Change>)
    requires Heard(cfg, open, at, typ, obj, open', said)
    ensures forall c :: c in said ==> c.event.boxes == []
  {
    hide Emit, Touched;
    var k: nat :| && IsHome(cfg, open, obj, k)
                  && var emit := Emit(cfg, Touched(if k < |open| then open[k] else BLANK, at, typ, obj), at);
                     open' == Place(open, k, emit.0) && said == emit.1;
    EmitCarries(cfg, Touched(if k < |open| then open[k] else BLANK, at, typ, obj), at);
  }

  /** So every event a run publishes carries boxes the edit decision list can take. */
  lemma EveryPublishedTimelineOrdered(cfg: Config, obs: seq<Observation>, states: seq<Engine>,
                                      said: seq<seq<Change>>, i: nat)
    requires Configured(cfg) && IsRun(cfg, obs, states, said) && Clocked(obs) && i < |obs|
    ensures forall c :: c in said[i] ==> Edl.TimeOrdered(c.event.boxes)
  {
    hide Step;
    assert Step(cfg, states[i], obs[i].at, obs[i].msg, states[i + 1], said[i]);
    StepCarries(cfg, states[i], obs[i].at, obs[i].msg, states[i + 1], said[i]);
    forall c | c in said[i] ensures Edl.TimeOrdered(c.event.boxes) {
      assert CarriesBoxes(states[i].open, c);
      if c.event.boxes != [] {
        var inc :| inc in states[i].open && c.event.boxes == inc.boxes;
        EveryTimelineOrdered(cfg, obs, states, said, i, inc);
      }
    }
  }
}
