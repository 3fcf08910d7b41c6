/** What holds of the incident engine over every run. */
module IncidentRuns {
  import opened Common
  import opened Policy
  import opened Lifecycle
  import opened Headcount
  import opened BoxTrail
  import opened Adjacency
  import opened Incidents

  // ----- what one incident keeps -----

  /** An incident as the engine leaves it: its objects distinct, its cameras
      grown by walking, its last word still true of it, and nothing in a named
      zone left unsaid. */
  ghost predicate Sound(cfg: Config, inc: Incident) {
    Whole(cfg, inc) && (inc.path != [] ==> inc.said.Some?)
  }

  ghost predicate SaidIsTrue(inc: Incident) {
    inc.said.Some? ==>
      && inc.members != []
      && inc.said.value.id == ActivityId(inc.members[0].source)
      && inc.said.value.path <= inc.path
      && inc.said.value.sourceIds <= Sources(inc.members)
  }

  /** Hearing about an object adds at most that object, at the end; all the rest
      only grows. */
  ghost predicate Grown(inc: Incident, inc': Incident, obj: Object) {
    && inc.path <= inc'.path
    && (Distinct(inc.path) ==> Distinct(inc'.path))
    && inc'.said == inc.said
    && (if Holds(inc, obj.id)
        then Sources(inc'.members) == Sources(inc.members) && Cams(inc'.members) == Cams(inc.members)
        else && Sources(inc'.members) == Sources(inc.members) + [obj.id]
             && Cams(inc'.members) == Cams(inc.members) + [obj.camera])
  }

  lemma TouchedGrows(inc: Incident, at: Time, typ: MessageType, obj: Object)
    ensures Grown(inc, Touched(inc, at, typ, obj), obj)
    ensures Touched(inc, at, typ, obj).last == at
  {
    hide AddNew, Kept, IndexOf, Joined;
    JoinedGrows(inc, obj, at);
    var j, inc' := Joined(inc, obj, at), Touched(inc, at, typ, obj);
    SameNames(j.members, inc'.members);
  }

  /** Joining adds the object at the end, if it is new, and changes no one else. */
  lemma JoinedGrows(inc: Incident, obj: Object, at: Time)
    ensures var j := Joined(inc, obj, at);
            && j.path == inc.path && j.said == inc.said
            && (if Holds(inc, obj.id) then j == inc
                else && Sources(j.members) == Sources(inc.members) + [obj.id]
                     && Cams(j.members) == Cams(inc.members) + [obj.camera])
  {
    hide Holds;
    var j := Joined(inc, obj, at);
    assert !Holds(inc, obj.id) ==> j.members[..|j.members| - 1] == inc.members;
  }

  lemma SameNames(a: seq<Member>, b: seq<Member>)
    requires |a| == |b| && forall i :: 0 <= i < |a| ==> a[i].source == b[i].source && a[i].camera == b[i].camera
    ensures Sources(a) == Sources(b) && Cams(a) == Cams(b)
  {
  }

  /** All of Sound but the promise that a named zone has been spoken of. */
  ghost predicate Whole(cfg: Config, inc: Incident) {
    && inc.members != []
    && Distinct(Sources(inc.members))
    && Distinct(inc.path)
    && Chained(cfg.graph, Cams(inc.members))
    && SaidIsTrue(inc)
  }

  lemma GrownWhole(cfg: Config, inc: Incident, inc': Incident, obj: Object)
    requires Grown(inc, inc', obj)
    requires inc == BLANK || Whole(cfg, inc)
    requires inc == BLANK || Holds(inc, obj.id) || Reachable(cfg.graph, Cams(inc.members), obj.camera)
    ensures Whole(cfg, inc')
    ensures Ids(inc'.members) == Ids(inc.members) + {obj.id}
  {
    if !Holds(inc, obj.id) {
      assert obj.id !in Sources(inc.members);
      ChainGrows(cfg.graph, Cams(inc.members), obj.camera);
    }
    assert |Sources(inc'.members)| > 0;
    if inc.members != [] {
      assert Sources(inc'.members)[0] == Sources(inc.members)[0];
    }
  }

  /** After an emit the incident is sound, and what was last said agrees with
      the incident as it stands; silence means it already did. */
  lemma EmitIsCurrent(cfg: Config, inc: Incident, at: Time)
    requires inc.members != []
    ensures var (inc', cs) := Emit(cfg, inc, at);
            && inc' == inc.(said := inc'.said)
            && (SaidIsTrue(inc) ==> SaidIsTrue(inc'))
            && (inc.path != [] ==> inc'.said.Some? && SameActivity(inc'.said.value, Build(cfg, inc, at, false)))
            && (cs == [] <==>
                  inc.path == [] || (inc.said.Some? && SameActivity(inc.said.value, Build(cfg, inc, at, false))))
            && (cs == [] ==> inc' == inc)
            && (cs != [] ==>
                  && inc'.said.Some?
                  && cs == [Change(if inc.said.None? then Started else Updated, inc'.said.value)]
                  && inc'.said.value == Build(cfg, inc, at, false))
  {
  }

  // ----- what the open incidents keep -----

  /** No object is in two open incidents, or in an open and a closed one. */
  ghost predicate Apart(open: seq<Incident>, closed: map<string, Time>) {
    && (forall i, j :: 0 <= i < j < |open| ==> Ids(open[i].members) !! Ids(open[j].members))
    && (forall i :: 0 <= i < |open| ==> Ids(open[i].members) !! closed.Keys)
  }

  ghost predicate Tidy(cfg: Config, open: seq<Incident>, closed: map<string, Time>) {
    (forall i :: 0 <= i < |open| ==> Sound(cfg, open[i])) && Apart(open, closed)
  }

  /** Ending the quiet incidents leaves exactly the others. */
  lemma {:induction false} SweepKeeps(cfg: Config, open: seq<Incident>, at: Time)
    ensures var kept := StillOpen(cfg, open, at);
            forall inc :: inc in kept <==> inc in open && !Stale(cfg, inc, at)
    decreases |open|
  {
    if open != [] {
      SweepKeeps(cfg, open[..|open| - 1], at);
      assert forall inc :: inc in open <==> inc in open[..|open| - 1] || inc == open[|open| - 1];
    }
  }

  lemma {:induction false} SweepCloses(cfg: Config, open: seq<Incident>, closed: map<string, Time>, at: Time,
                                       id: string)
    requires id in ClosedAfter(cfg, open, closed, at)
    ensures id in closed || Held(open, id)
    decreases |open|
  {
    if open != [] {
      var init, inc := open[..|open| - 1], open[|open| - 1];
      if id in ClosedAfter(cfg, init, closed, at) {
        SweepCloses(cfg, init, closed, at, id);
        if id !in closed {
          var i :| 0 <= i < |init| && Holds(init[i], id);
          assert Holds(open[i], id);
        }
      } else {
        assert Holds(inc, id);
      }
    }
  }

  lemma {:induction false} SweepApart(cfg: Config, open: seq<Incident>, closed: map<string, Time>, at: Time)
    requires Apart(open, closed)
    ensures Apart(StillOpen(cfg, open, at), ClosedAfter(cfg, open, closed, at))
    decreases |open|
  {
    hide Stale, Ids, Retire, Holds;
    if open != [] {
      var init, inc := open[..|open| - 1], open[|open| - 1];
      SweepApart(cfg, init, closed, at);
      var kept, closed' := StillOpen(cfg, init, at), ClosedAfter(cfg, init, closed, at);
      SweepKeeps(cfg, init, at);
      forall j | 0 <= j < |kept| ensures Ids(kept[j].members) !! Ids(inc.members) {
        assert kept[j] in kept;
        var i :| 0 <= i < |init| && init[i] == kept[j];
        assert open[i] == kept[j];
      }
      forall id | id in closed' ensures id !in Ids(inc.members) {
        SweepCloses(cfg, init, closed, at, id);
        if id !in closed {
          var i :| 0 <= i < |init| && Holds(init[i], id);
          assert open[i] == init[i];
        }
      }
      assert kept + [] == kept;
    }
  }

  lemma SweepTidy(cfg: Config, open: seq<Incident>, closed: map<string, Time>, at: Time)
    requires Tidy(cfg, open, closed)
    ensures Tidy(cfg, StillOpen(cfg, open, at), ClosedAfter(cfg, open, closed, at))
  {
    SweepApart(cfg, open, closed, at);
    SweepKeeps(cfg, open, at);
    var kept := StillOpen(cfg, open, at);
    forall j | 0 <= j < |kept| ensures Sound(cfg, kept[j]) {
      assert kept[j] in kept;
      var i :| 0 <= i < |open| && open[i] == kept[j];
    }
  }

  // ----- what a reader of the changes believes -----

  predicate SaidAs(inc: Incident, id: EventId) {
    inc.said.Some? && inc.said.value.id == id
  }

  ghost predicate SomeSaidAs(open: seq<Incident>, id: EventId) {
    exists i :: 0 <= i < |open| && SaidAs(open[i], id)
  }

  /** The reader holds the last word of every said incident. */
  ghost predicate Knows(running: map<EventId, Event>, open: seq<Incident>) {
    forall i :: 0 <= i < |open| && open[i].said.Some? ==>
      open[i].said.value.id in running && running[open[i].said.value.id] == open[i].said.value
  }

  /** The activities the reader believes running are exactly the said incidents. */
  ghost predicate MirrorsOpen(running: map<EventId, Event>, open: seq<Incident>) {
    && Knows(running, open)
    && (forall id: EventId :: id in running && id.ActivityId? ==> SomeSaidAs(open, id))
  }

  /** No two incidents are said under one id. */
  ghost predicate SaidApart(open: seq<Incident>) {
    forall i, j :: 0 <= i < j < |open| && open[i].said.Some? && open[j].said.Some? ==>
      open[i].said.value.id != open[j].said.value.id
  }

  /** Incidents that share no object never share an event id. */
  lemma IdsApart(cfg: Config, open: seq<Incident>, closed: map<string, Time>)
    requires Tidy(cfg, open, closed)
    ensures SaidApart(open)
  {
    forall i, j | 0 <= i < j < |open| && open[i].said.Some? && open[j].said.Some?
      ensures open[i].said.value.id != open[j].said.value.id
    {
      assert SaidIsTrue(open[i]) && SaidIsTrue(open[j]);
      assert Sources(open[i].members)[0] in Ids(open[i].members);
      assert Sources(open[j].members)[0] in Ids(open[j].members);
    }
  }

  lemma EndingFollows(cfg: Config, inc: Incident, at: Time, running: map<EventId, Event>)
    requires inc.members != [] && SaidIsTrue(inc) && Knows(running, [inc])
    ensures FollowAll(running, Ending(cfg, inc, at)) ==
            Some(if inc.said.Some? then running - {inc.said.value.id} else running)
  {
    if inc.said.Some? {
      assert [inc][0] == inc;
      FollowOne(running, Change(Ended, Build(cfg, inc, at, true)));
    }
  }

  /** A sweep ends an incident said as id. */
  ghost predicate EndsSaidAs(cfg: Config, open: seq<Incident>, at: Time, id: EventId) {
    exists i :: 0 <= i < |open| && Stale(cfg, open[i], at) && SaidAs(open[i], id)
  }

  /** Ending the quiet incidents removes exactly their events. */
  ghost predicate Swept(cfg: Config, open: seq<Incident>, at: Time,
                        running: map<EventId, Event>, after: map<EventId, Event>)
  {
    && (forall id :: id in after <==> id in running && !EndsSaidAs(cfg, open, at, id))
    && (forall id :: id in after ==> after[id] == running[id])
  }

  ghost predicate AllTrue(open: seq<Incident>) {
    forall i :: 0 <= i < |open| ==> open[i].members != [] && SaidIsTrue(open[i])
  }

  lemma SweepFollowsLast(cfg: Config, open: seq<Incident>, at: Time,
                         running: map<EventId, Event>, before: map<EventId, Event>)
    requires open != [] && SaidApart(open) && Knows(running, open)
    requires Swept(cfg, open[..|open| - 1], at, running, before)
    ensures Knows(before, [open[|open| - 1]])
    ensures var inc := open[|open| - 1];
            Swept(cfg, open, at, running,
                  if Stale(cfg, inc, at) && inc.said.Some? then before - {inc.said.value.id} else before)
  {
    var init, inc := open[..|open| - 1], open[|open| - 1];
    if inc.said.Some? {
      forall j | 0 <= j < |init| ensures !SaidAs(init[j], inc.said.value.id) {
        assert init[j] == open[j];
      }
    }
    forall id ensures EndsSaidAs(cfg, open, at, id) <==>
                      EndsSaidAs(cfg, init, at, id) || (Stale(cfg, inc, at) && SaidAs(inc, id)) {
    }
  }

  lemma {:induction false} SweepFollows(cfg: Config, open: seq<Incident>, at: Time, running: map<EventId, Event>)
    requires AllTrue(open) && SaidApart(open) && Knows(running, open)
    ensures var after := FollowAll(running, Endings(cfg, open, at));
            after.Some? && Swept(cfg, open, at, running, after.value)
    decreases |open|
  {
    if open != [] {
      var init, inc := open[..|open| - 1], open[|open| - 1];
      SweepFollows(cfg, init, at, running);
      var said := Endings(cfg, init, at);
      var before := FollowAll(running, said).value;
      SweepFollowsLast(cfg, open, at, running, before);
      if Stale(cfg, inc, at) {
        FollowAllConcat(running, said, Ending(cfg, inc, at));
        EndingFollows(cfg, inc, at, before);
      } else {
        assert said + [] == said;
      }
    }
  }

  /** After the sweep the reader's activities are those of the survivors. */
  lemma SweepMirrors(cfg: Config, open: seq<Incident>, at: Time,
                     running: map<EventId, Event>, after: map<EventId, Event>)
    requires SaidApart(open) && MirrorsOpen(running, open) && Swept(cfg, open, at, running, after)
    ensures MirrorsOpen(after, StillOpen(cfg, open, at))
  {
    var kept := StillOpen(cfg, open, at);
    SweepKeeps(cfg, open, at);
    forall j | 0 <= j < |kept| && kept[j].said.Some?
      ensures kept[j].said.value.id in after && after[kept[j].said.value.id] == kept[j].said.value
    {
      var id := kept[j].said.value.id;
      assert kept[j] in kept;
      var i :| 0 <= i < |open| && open[i] == kept[j];
      forall k | 0 <= k < |open| && Stale(cfg, open[k], at) ensures !SaidAs(open[k], id) {
        assert k != i;
      }
    }
    forall id: EventId | id in after && id.ActivityId? ensures SomeSaidAs(kept, id) {
      assert SomeSaidAs(open, id);
      var i :| 0 <= i < |open| && SaidAs(open[i], id);
      assert open[i] in open;
      assert open[i] in kept;
      var j :| 0 <= j < |kept| && kept[j] == open[i];
      assert SaidAs(kept[j], id);
    }
  }

  ghost predicate SameDetections(a: map<EventId, Event>, b: map<EventId, Event>) {
    forall id: EventId :: id.DetectionId? ==> (id in a <==> id in b) && (id in a ==> a[id] == b[id])
  }

  // ----- one message keeps it all -----

  /** Landing a message in its home keeps the engine tidy and the reader in step. */
  lemma HeardKeeps(cfg: Config, open: seq<Incident>, closed: map<string, Time>, at: Time,
                   typ: MessageType, obj: Object, open': seq<Incident>, said: seq<Change>,
                   running: map<EventId, Event>)
    requires Tidy(cfg, open, closed) && MirrorsOpen(running, open)
    requires obj.id !in closed
    requires Heard(cfg, open, at, typ, obj, open', said)
    ensures Tidy(cfg, open', closed)
    ensures FollowAll(running, said).Some? && MirrorsOpen(FollowAll(running, said).value, open')
    ensures SameDetections(running, FollowAll(running, said).value)
    ensures cfg.gap > 0 && AllFresh(cfg, open, at) ==> AllFresh(cfg, open', at)
  {
    hide Emit, Touched, Whole, MirrorsOpen, SameDetections;
    var k: nat :| && IsHome(cfg, open, obj, k)
                  && var emit := Emit(cfg, Touched(if k < |open| then open[k] else BLANK, at, typ, obj), at);
                     open' == Place(open, k, emit.0) && said == emit.1;
    var inc := if k < |open| then open[k] else BLANK;
    var mid := Touched(inc, at, typ, obj);
    TouchedGrows(inc, at, typ, obj);
    assert inc == BLANK || Sound(cfg, inc);
    GrownWhole(cfg, inc, mid, obj);
    EmitSound(cfg, mid, at);
    PlaceKeeps(cfg, open, closed, k, mid, Emit(cfg, mid, at).0, said, obj, running);
    PlaceFresh(cfg, open, k, Emit(cfg, mid, at).0, at);
  }

  lemma PlaceFresh(cfg: Config, open: seq<Incident>, k: nat, out: Incident, at: Time)
    requires k <= |open| && out.last == at
    ensures cfg.gap > 0 && AllFresh(cfg, open, at) ==> AllFresh(cfg, Place(open, k, out), at)
  {
  }

  ghost predicate AllFresh(cfg: Config, open: seq<Incident>, at: Time) {
    forall i :: 0 <= i < |open| ==> !Stale(cfg, open[i], at)
  }

  /** What an emit does to an incident, and how its change fits the last word. */
  ghost predicate Spoke(mid: Incident, out: Incident, said: seq<Change>) {
    && Ids(out.members) == Ids(mid.members)
    && (said == [] ==> out.said == mid.said)
    && (said != [] ==>
          && |said| == 1 && out.said == Some(said[0].event)
          && said[0].op == (if mid.said.None? then Started else Updated)
          && said[0].event.id.ActivityId?
          && (mid.said.Some? ==> Extends(mid.said.value, said[0].event) && mid.said.value.id == said[0].event.id))
  }

  lemma EmitSound(cfg: Config, mid: Incident, at: Time)
    requires Whole(cfg, mid)
    ensures Sound(cfg, Emit(cfg, mid, at).0)
    ensures Spoke(mid, Emit(cfg, mid, at).0, Emit(cfg, mid, at).1)
    ensures Emit(cfg, mid, at).0.last == mid.last
  {
    EmitIsCurrent(cfg, mid, at);
  }

  lemma PlaceKeeps(cfg: Config, open: seq<Incident>, closed: map<string, Time>, k: nat,
                   mid: Incident, out: Incident, said: seq<Change>, obj: Object, running: map<EventId, Event>)
    requires Tidy(cfg, open, closed) && MirrorsOpen(running, open)
    requires IsHome(cfg, open, obj, k) && obj.id !in closed
    requires var inc := if k < |open| then open[k] else BLANK;
             mid.said == inc.said && Ids(mid.members) == Ids(inc.members) + {obj.id}
    requires Sound(cfg, out) && Spoke(mid, out, said)
    ensures Tidy(cfg, Place(open, k, out), closed)
    ensures FollowAll(running, said).Some? && MirrorsOpen(FollowAll(running, said).value, Place(open, k, out))
    ensures SameDetections(running, FollowAll(running, said).value)
  {
    var inc := if k < |open| then open[k] else BLANK;
    PlaceTidy(cfg, open, closed, k, inc, out, obj);
    IdsApart(cfg, Place(open, k, out), closed);
    if said == [] {
      KeepMirrors(open, k, inc, out, running);
    } else {
      assert said == [said[0]];
      FollowOne(running, said[0]);
      PlaceMirrors(open, k, inc, out, running, said[0]);
    }
  }

  lemma KeepMirrors(open: seq<Incident>, k: nat, inc: Incident, out: Incident, running: map<EventId, Event>)
    requires MirrorsOpen(running, open) && k <= |open|
    requires inc == (if k < |open| then open[k] else BLANK) && out.said == inc.said
    ensures MirrorsOpen(running, Place(open, k, out))
  {
    var open' := Place(open, k, out);
    forall x: EventId | x in running && x.ActivityId? ensures SomeSaidAs(open', x) {
      var i :| 0 <= i < |open| && SaidAs(open[i], x);
      assert SaidAs(open'[i], x);
    }
  }

  lemma PlaceTidy(cfg: Config, open: seq<Incident>, closed: map<string, Time>, k: nat,
                  inc: Incident, out: Incident, obj: Object)
    requires Tidy(cfg, open, closed) && IsHome(cfg, open, obj, k) && obj.id !in closed
    requires inc == (if k < |open| then open[k] else BLANK)
    requires Sound(cfg, out) && Ids(out.members) == Ids(inc.members) + {obj.id}
    ensures Tidy(cfg, Place(open, k, out), closed)
  {
    hide Ids, Sound, Reachable, Apart;
    PlaceApart(open, closed, cfg, k, inc, out, obj);
  }

  lemma NoIds()
    ensures Ids([]) == {}
  {
    assert Sources([]) == [];
  }

  lemma PlaceApart(open: seq<Incident>, closed: map<string, Time>, cfg: Config, k: nat, inc: Incident, out: Incident,
                   obj: Object)
    requires Apart(open, closed) && IsHome(cfg, open, obj, k) && obj.id !in closed
    requires inc == (if k < |open| then open[k] else BLANK)
    requires Ids(out.members) == Ids(inc.members) + {obj.id}
    ensures Apart(Place(open, k, out), closed)
  {
    hide Ids, Reachable;
    NoIds();
    forall i | 0 <= i < |open| && i != k ensures Ids(open[i].members) !! Ids(out.members) {
      if k < |open| && Holds(open[k], obj.id) {
        assert Ids(open[i].members) !! Ids(open[k].members);
      }
      assert !Holds(open[i], obj.id);
    }
  }

  lemma PlaceMirrors(open: seq<Incident>, k: nat, inc: Incident, out: Incident,
                     running: map<EventId, Event>, c: Change)
    requires MirrorsOpen(running, open) && k <= |open|
    requires inc == (if k < |open| then open[k] else BLANK)
    requires SaidApart(Place(open, k, out))
    requires out.said == Some(c.event) && c.op == (if inc.said.None? then Started else Updated)
    requires c.event.id.ActivityId?
    requires inc.said.Some? ==> Extends(inc.said.value, c.event) && inc.said.value.id == c.event.id
    ensures Follow(running, c).Some? && MirrorsOpen(Follow(running, c).value, Place(open, k, out))
  {
    var open' := Place(open, k, out);
    var id := c.event.id;
    assert open'[k] == out;
    forall i | 0 <= i < |open| && i != k ensures !SaidAs(open[i], id) {
      assert open'[i] == open[i];
    }
    var running' := running[id := c.event];
    assert Follow(running, c) == Some(running');
    forall x: EventId | x in running' && x.ActivityId? ensures SomeSaidAs(open', x) {
      if x == id {
        assert SaidAs(open'[k], x);
      } else {
        assert SomeSaidAs(open, x);
        var i :| 0 <= i < |open| && SaidAs(open[i], x);
        assert i != k && open'[i] == open[i];
      }
    }
    forall i | 0 <= i < |open'| && open'[i].said.Some?
      ensures open'[i].said.value.id in running' && running'[open'[i].said.value.id] == open'[i].said.value
    {
      if i != k {
        assert open'[i] == open[i];
      }
    }
  }

  /** What holds between messages: open incidents sound and apart, and the
      reader's running events exactly the said incidents and the live
      detections. */
  ghost predicate Good(cfg: Config, s: Engine, running: map<EventId, Event>) {
    Tidy(cfg, s.open, s.closed) && MirrorsOpen(running, s.open) && MirrorsLive(running, s.live)
  }

  function SweptEngine(cfg: Config, s: Engine, at: Time): Engine {
    Engine(StillOpen(cfg, s.open, at), ClosedAfter(cfg, s.open, s.closed, at), s.live)
  }

  lemma SweepGood(cfg: Config, s: Engine, at: Time, running: map<EventId, Event>)
    requires Good(cfg, s, running) && Peopled(s.open)
    ensures Reaches(cfg, running, Endings(cfg, s.open, at), SweptEngine(cfg, s, at), at)
  {
    var open := StillOpen(cfg, s.open, at);
    SweepTidy(cfg, s.open, s.closed, at);
    IdsApart(cfg, s.open, s.closed);
    SweepFollows(cfg, s.open, at, running);
    var after := FollowAll(running, Endings(cfg, s.open, at)).value;
    SweepMirrors(cfg, s.open, at, running, after);
    SweepKeeps(cfg, s.open, at);
    forall i | 0 <= i < |open| ensures !Stale(cfg, open[i], at) {
      assert open[i] in open;
    }
  }

  /** Saying said brings a reader of running in step with s, none of whose
      incidents is past its gap. */
  ghost predicate Reaches(cfg: Config, running: map<EventId, Event>, said: seq<Change>, s: Engine, at: Time) {
    var after := FollowAll(running, said);
    after.Some? && Good(cfg, s, after.value) && AllFresh(cfg, s.open, at)
  }

  lemma ReachesOn(cfg: Config, running: map<EventId, Event>, first: seq<Change>, more: seq<Change>, s: Engine, at: Time)
    requires FollowAll(running, first).Some?
    requires Reaches(cfg, FollowAll(running, first).value, more, s, at)
    ensures Reaches(cfg, running, first + more, s, at)
  {
    FollowAllConcat(running, first, more);
  }

  lemma PassKeeps(cfg: Config, s: Engine, at: Time, msg: Message, running: map<EventId, Event>)
    requires Good(cfg, s, running) && AllFresh(cfg, s.open, at)
    ensures var pass := PassStep(cfg.notable, s.live, at, msg);
            Reaches(cfg, running, pass.1, s.(live := pass.0), at)
  {
    PassStepFollows(cfg.notable, s.live, at, msg, running);
  }

  lemma HeardGood(cfg: Config, s: Engine, at: Time, typ: MessageType, obj: Object,
                  open': seq<Incident>, said: seq<Change>, running: map<EventId, Event>)
    requires Configured(cfg) && Good(cfg, s, running) && AllFresh(cfg, s.open, at) && obj.id !in s.closed
    requires Heard(cfg, s.open, at, typ, obj, open', said)
    ensures Reaches(cfg, running, said, s.(open := open'), at)
  {
    HeardKeeps(cfg, s.open, s.closed, at, typ, obj, open', said, running);
  }

  lemma StepPass(cfg: Config, s: Engine, at: Time, msg: Message, running: map<EventId, Event>)
    requires Good(cfg, s, running) && Peopled(s.open)
    ensures var pass := PassStep(cfg.notable, s.live, at, msg);
            Reaches(cfg, running, Endings(cfg, s.open, at) + pass.1, SweptEngine(cfg, s, at).(live := pass.0), at)
  {
    var endings, pass := Endings(cfg, s.open, at), PassStep(cfg.notable, s.live, at, msg);
    var swept := SweptEngine(cfg, s, at);
    SweepGood(cfg, s, at, running);
    PassKeeps(cfg, swept, at, msg, FollowAll(running, endings).value);
    ReachesOn(cfg, running, endings, pass.1, swept.(live := pass.0), at);
  }

  lemma StepHeard(cfg: Config, s: Engine, at: Time, typ: MessageType, obj: Object,
                  open': seq<Incident>, said: seq<Change>, running: map<EventId, Event>)
    requires Configured(cfg) && Good(cfg, s, running) && Peopled(s.open)
    requires obj.id !in SweptEngine(cfg, s, at).closed
    requires Heard(cfg, SweptEngine(cfg, s, at).open, at, typ, obj, open', said)
    ensures Reaches(cfg, running, Endings(cfg, s.open, at) + said, SweptEngine(cfg, s, at).(open := open'), at)
  {
    var endings, swept := Endings(cfg, s.open, at), SweptEngine(cfg, s, at);
    SweepGood(cfg, s, at, running);
    HeardGood(cfg, swept, at, typ, obj, open', said, FollowAll(running, endings).value);
    ReachesOn(cfg, running, endings, said, swept.(open := open'), at);
  }

  /** Every message keeps the engine good, leaves no incident past its gap, and
      says only what a reader can follow. */
  lemma StepKeeps(cfg: Config, s: Engine, at: Time, msg: Message, s': Engine, changes: seq<Change>,
                  running: map<EventId, Event>)
    requires Configured(cfg) && Good(cfg, s, running) && Peopled(s.open)
    requires Step(cfg, s, at, msg, s', changes)
    ensures Reaches(cfg, running, changes, s', at)
  {
    hide Good, Reaches, Peopled, Heard, Endings, PassStep, Held;
    var swept := SweptEngine(cfg, s, at);
    if !IsActivity(cfg, msg) {
      StepPass(cfg, s, at, msg, running);
    } else if msg.obj.id in swept.closed || (msg.typ.End? && !Held(swept.open, msg.obj.id)) {
      SweepGood(cfg, s, at, running);
    } else {
      var said := changes[|Endings(cfg, s.open, at)|..];
      StepHeard(cfg, s, at, msg.typ, msg.obj, s'.open, said, running);
      assert s' == swept.(open := s'.open);
      assert changes == Endings(cfg, s.open, at) + said;
    }
  }

  // ----- whole runs -----

  datatype Observation = Observation(at: Time, msg: Message)

  /** A run from an empty engine: the states between messages and what each
      message made it say. */
  ghost predicate IsRun(cfg: Config, obs: seq<Observation>, states: seq<Engine>, said: seq<seq<Change>>) {
    && |said| == |obs| && |states| == |obs| + 1
    && states[0] == Engine([], map[], map[])
    && forall i, j :: 0 <= i < |obs| && j == i + 1 ==>
         Peopled(states[i].open) && Step(cfg, states[i], obs[i].at, obs[i].msg, states[j], said[i])
  }

  function Log(said: seq<seq<Change>>): seq<Change> {
    if said == [] then [] else Log(said[..|said| - 1]) + said[|said| - 1]
  }

  lemma StartGood(cfg: Config)
    ensures FollowAll(map[], []) == Some(map[]) && Good(cfg, Engine([], map[], map[]), map[])
  {
  }

  lemma {:induction false} RunGood(cfg: Config, obs: seq<Observation>, states: seq<Engine>, said: seq<seq<Change>>,
                                   n: nat)
    requires Configured(cfg) && IsRun(cfg, obs, states, said) && n <= |obs|
    ensures FollowAll(map[], Log(said[..n])).Some?
    ensures Good(cfg, states[n], FollowAll(map[], Log(said[..n])).value)
    ensures n > 0 ==> AllFresh(cfg, states[n].open, obs[n - 1].at)
    decreases n
  {
    hide Good, Step, AllFresh, FollowAll, Configured;
    if n == 0 {
      StartGood(cfg);
    } else {
      var m := n - 1;
      RunGood(cfg, obs, states, said, m);
      var running := FollowAll(map[], Log(said[..m])).value;
      assert Step(cfg, states[m], obs[m].at, obs[m].msg, states[n], said[m]);
      StepKeeps(cfg, states[m], obs[m].at, obs[m].msg, states[n], said[m], running);
      assert said[..n][..m] == said[..m];
      FollowAllConcat(map[], Log(said[..m]), said[m]);
    }
  }

  /** Over every run, what is said about any event, activity or detection, is a
      prefix of (Started Updated* Ended)*. */
  lemma EveryRunObeysGrammar(cfg: Config, obs: seq<Observation>, states: seq<Engine>, said: seq<seq<Change>>,
                             id: EventId)
    requires Configured(cfg) && IsRun(cfg, obs, states, said)
    ensures LifecycleOps(OpsOf(Log(said), id))
  {
    RunGood(cfg, obs, states, said, |obs|);
    assert said[..|obs|] == said;
    FollowedOps(Log(said), id);
  }

  /** An event is running, by its ops, exactly when the engine holds it open:
      for an activity a said incident, for a detection a live object. */
  lemma RunningIsOpen(cfg: Config, obs: seq<Observation>, states: seq<Engine>, said: seq<seq<Change>>, id: EventId)
    requires Configured(cfg) && IsRun(cfg, obs, states, said)
    ensures var last := states[|obs|];
            Open(OpsOf(Log(said), id)) <==>
            match id case DetectionId(s) => s in last.live case ActivityId(_) => SomeSaidAs(last.open, id)
  {
    RunGood(cfg, obs, states, said, |obs|);
    assert said[..|obs|] == said;
    FollowedOps(Log(said), id);
  }

  /** Over every run, each change extends the path and the objects of every
      earlier change about the same event since it started. */
  lemma EveryRunOnlyExtends(cfg: Config, obs: seq<Observation>, states: seq<Engine>, said: seq<seq<Change>>,
                            i: nat, j: nat)
    requires Configured(cfg) && IsRun(cfg, obs, states, said)
    requires var log := Log(said);
             && i <= j < |log| && log[i].event.id == log[j].event.id
             && forall k :: i <= k < j && log[k].event.id == log[i].event.id ==> !log[k].op.Ended?
    ensures var a, b := Log(said)[i].event, Log(said)[j].event;
            a.path <= b.path && a.sourceIds <= b.sourceIds
  {
    RunGood(cfg, obs, states, said, |obs|);
    assert said[..|obs|] == said;
    FollowedGrowth(Log(said), i, j);
  }

  /** In every reachable state no object is in two open incidents, nor in an
      open and a closed one; every named zone reached has been told; and right
      after a message no open incident is past its gap. */
  lemma EveryStateTidy(cfg: Config, obs: seq<Observation>, states: seq<Engine>, said: seq<seq<Change>>, n: nat)
    requires Configured(cfg) && IsRun(cfg, obs, states, said) && n <= |obs|
    ensures forall i, j :: 0 <= i < j < |states[n].open| ==>
              Ids(states[n].open[i].members) !! Ids(states[n].open[j].members)
    ensures forall i :: 0 <= i < |states[n].open| ==> Ids(states[n].open[i].members) !! states[n].closed.Keys
    ensures forall i :: 0 <= i < |states[n].open| && states[n].open[i].path != [] ==>
              && states[n].open[i].said.Some? && states[n].open[i].members != []
              && states[n].open[i].said.value.id == ActivityId(states[n].open[i].members[0].source)
    ensures n > 0 ==> forall i :: 0 <= i < |states[n].open| ==> obs[n - 1].at - states[n].open[i].last < cfg.gap
  {
    RunGood(cfg, obs, states, said, n);
    forall i | 0 <= i < |states[n].open| && states[n].open[i].path != []
      ensures && states[n].open[i].said.Some? && states[n].open[i].members != []
              && states[n].open[i].said.value.id == ActivityId(states[n].open[i].members[0].source)
    {
      assert Sound(cfg, states[n].open[i]);
    }
    if n > 0 {
      forall i | 0 <= i < |states[n].open| ensures obs[n - 1].at - states[n].open[i].last < cfg.gap {
        assert !Stale(cfg, states[n].open[i], obs[n - 1].at);
      }
    }
  }

  /** In every reachable state each member of an incident after its first is on
      the camera of an earlier member, on one adjacent to it, or joined to it by a
      camera the graph does not know. */
  lemma EveryMemberWalkedIn(cfg: Config, obs: seq<Observation>, states: seq<Engine>, said: seq<seq<Change>>,
                            n: nat, inc: Incident, k: nat)
    requires Configured(cfg) && IsRun(cfg, obs, states, said) && n <= |obs|
    requires inc in states[n].open && 0 < k < |inc.members|
    ensures exists i :: 0 <= i < k && Linked(cfg.graph, inc.members[i].camera, inc.members[k].camera)
  {
    RunGood(cfg, obs, states, said, n);
    var x :| 0 <= x < |states[n].open| && states[n].open[x] == inc;
    assert Sound(cfg, states[n].open[x]);
    var cams := Cams(inc.members);
    assert LinkedBefore(cfg.graph, cams, k);
    var i :| 0 <= i < k && Linked(cfg.graph, cams[i], cams[k]);
    assert cams[i] == inc.members[i].camera;
  }

  /** In every reachable state an incident whose cameras the graph knows stays
      within one connected component of it: any two of its members could have
      walked to each other. */
  lemma EveryIncidentInOneComponent(cfg: Config, obs: seq<Observation>, states: seq<Engine>, said: seq<seq<Change>>,
                                    n: nat, inc: Incident, i: nat, j: nat)
    requires Configured(cfg) && IsRun(cfg, obs, states, said) && n <= |obs|
    requires inc in states[n].open && cfg.graph.Some?
    requires forall m :: m in inc.members ==> m.camera in cfg.graph.value
    requires i < |inc.members| && j < |inc.members|
    ensures Connected(cfg.graph.value, inc.members[i].camera, inc.members[j].camera)
  {
    RunGood(cfg, obs, states, said, n);
    var x :| 0 <= x < |states[n].open| && states[n].open[x] == inc;
    assert Sound(cfg, states[n].open[x]);
    var cams := Cams(inc.members);
    forall k | 0 <= k < |cams| ensures cams[k] in cfg.graph.value {
      assert inc.members[k] in inc.members;
    }
    OneComponent(cfg.graph, cams, i, j);
  }

  ghost predicate JoinsFirst(cfg: Config, open: seq<Incident>, obj: Object, open': seq<Incident>) {
    && (|open'| == |open| + 1 <==>
          forall i :: 0 <= i < |open| ==> !Reachable(cfg.graph, Cams(open[i].members), obj.camera))
    && exists k ::
         && 0 <= k < |open'| <= |open| + 1
         && Holds(open'[k], obj.id)
         && (k < |open| ==> Reachable(cfg.graph, Cams(open[k].members), obj.camera))
         && (forall i :: 0 <= i < |open| && i != k ==> i < |open'| && open'[i] == open[i])
         && (forall i :: 0 <= i < k && i < |open| ==> !Reachable(cfg.graph, Cams(open[i].members), obj.camera))
  }

  /** A message about an unheld object opens an incident only if the object
      could have walked out of none of those open, and otherwise joins the
      oldest of those it could; no other incident changes. */
  lemma JoinsOldestReachable(cfg: Config, open: seq<Incident>, at: Time, typ: MessageType, obj: Object,
                             open': seq<Incident>, said: seq<Change>)
    requires Heard(cfg, open, at, typ, obj, open', said) && !Held(open, obj.id)
    ensures JoinsFirst(cfg, open, obj, open')
  {
    var k: nat :| && IsHome(cfg, open, obj, k)
                  && var emit := Emit(cfg, Touched(if k < |open| then open[k] else BLANK, at, typ, obj), at);
                     open' == Place(open, k, emit.0) && said == emit.1;
    var mid := Touched(if k < |open| then open[k] else BLANK, at, typ, obj);
    TouchedHolds(if k < |open| then open[k] else BLANK, at, typ, obj);
    JoinedAt(cfg, open, obj, k, Emit(cfg, mid, at).0);
  }

  lemma TouchedHolds(inc: Incident, at: Time, typ: MessageType, obj: Object)
    ensures obj.id in Ids(Touched(inc, at, typ, obj).members)
  {
    TouchedGrows(inc, at, typ, obj);
    var ids := Sources(Touched(inc, at, typ, obj).members);
    if !Holds(inc, obj.id) {
      assert ids[|ids| - 1] == obj.id;
    }
  }

  lemma JoinedAt(cfg: Config, open: seq<Incident>, obj: Object, k: nat, out: Incident)
    requires IsHome(cfg, open, obj, k) && !Held(open, obj.id) && obj.id in Ids(out.members)
    ensures JoinsFirst(cfg, open, obj, Place(open, k, out))
  {
    var open' := Place(open, k, out);
    assert Holds(open'[k], obj.id);
  }

  // ----- what an activity says -----

  /** Two activities are the same exactly when nothing a reader sees differs:
      comparing the counts label by label is comparing the maps. */
  lemma SameActivityIsEquality(a: Event, b: Event)
    requires forall l :: l in a.objects ==> a.objects[l] > 0
    ensures SameActivity(a, b) <==>
              && a.objects == b.objects && a.path == b.path && a.cameras == b.cameras
              && a.hasSnapshot == b.hasSnapshot && a.clip == b.clip && a.endedAt == b.endedAt
  {
    var x, y := a.objects, b.objects;
    if |x| == |y| && forall l :: l in x ==> (if l in y then y[l] else 0) == x[l] {
      assert x.Keys <= y.Keys;
      assert |x.Keys| == |x| && |y.Keys| == |y|;
      if x.Keys < y.Keys {
        ProperSubsetSize(x.Keys, y.Keys);
      }
      assert x == y;
    }
  }

  /** Every count an activity publishes is positive and is the size of the
      largest set of its members on one camera any two of which were live
      together for the overlap. */
  lemma BuildCountsTogether(cfg: Config, inc: Incident, at: Time, ended: bool, what: string)
    requires inc.members != []
    ensures var objects := Build(cfg, inc, at, ended).objects;
            && (what in objects <==> exists i :: 0 <= i < |inc.members| && inc.members[i].labelName == what)
            && (what in objects ==>
                  && objects[what] > 0
                  && (exists S: set<nat> :: Together(inc.members, S, what, at, cfg.overlap) && |S| == objects[what])
                  && (forall S: set<nat> :: Together(inc.members, S, what, at, cfg.overlap) ==> |S| <= objects[what]))
  {
    CountIsLargestTogether(inc.members, what, at, cfg.overlap);
    var objects := Counts(inc.members, |inc.members|, at, cfg.overlap);
    if what in objects {
      CountsIsMaximum(inc.members, |inc.members|, at, cfg.overlap);
    }
  }

  predicate ZonedOn(ms: seq<Member>, c: string, zoned: bool) {
    exists i :: 0 <= i < |ms| && ms[i].camera == c && (ms[i].zones != []) == zoned
  }

  predicate PictureOf(ms: seq<Member>, s: string, zonedOnly: bool) {
    exists i :: 0 <= i < |ms| && ms[i].source == s && ms[i].snapshot && (zonedOnly ==> ms[i].zones != [])
  }

  /** The cameras a pass over the members gathers. */
  lemma {:induction false} TallyCameras(ms: seq<Member>, at: Time)
    ensures var t := TallyOf(ms, at);
            && Distinct(t.cameras) && Distinct(t.unzoned)
            && (forall c :: c in t.cameras <==> ZonedOn(ms, c, true))
            && (forall c :: c in t.unzoned <==> ZonedOn(ms, c, false))
    decreases |ms|
  {
    if ms != [] {
      var init, m := ms[..|ms| - 1], ms[|ms| - 1];
      TallyCameras(init, at);
      forall c, z ensures ZonedOn(ms, c, z) <==> ZonedOn(init, c, z) || (m.camera == c && (m.zones != []) == z) {
        if ZonedOn(init, c, z) {
          var i :| 0 <= i < |init| && init[i].camera == c && (init[i].zones != []) == z;
          assert ms[i] == init[i];
        }
      }
    }
  }

  /** The start and the picture it gathers. */
  lemma {:induction false} TallyAnchor(ms: seq<Member>, at: Time)
    requires forall i :: 0 <= i < |ms| ==> ms[i].start != UNSET && ms[i].source != ""
    ensures var t := TallyOf(ms, at);
            && (forall i :: 0 <= i < |ms| && ms[i].zones != [] ==> t.startedAt != UNSET && t.startedAt <= ms[i].start)
            && (t.startedAt != UNSET ==> exists i :: 0 <= i < |ms| && ms[i].zones != [] && ms[i].start == t.startedAt)
            && (t.picture != "" ==> PictureOf(ms, t.picture, true))
            && (t.anyPicture != "" ==> PictureOf(ms, t.anyPicture, false))
            && (forall i :: 0 <= i < |ms| && ms[i].snapshot ==>
                  t.anyPicture != "" && (ms[i].zones != [] ==> t.picture != ""))
    decreases |ms|
  {
    hide Append, LiveEnd;
    if ms != [] {
      var init, m := ms[..|ms| - 1], ms[|ms| - 1];
      TallyAnchor(init, at);
      var t := TallyOf(init, at);
      forall s, z | PictureOf(init, s, z) ensures PictureOf(ms, s, z) {
        var i :| 0 <= i < |init| && init[i].source == s && init[i].snapshot && (z ==> init[i].zones != []);
        assert ms[i] == init[i];
      }
      if t.startedAt != UNSET {
        var i :| 0 <= i < |init| && init[i].zones != [] && init[i].start == t.startedAt;
        assert ms[i] == init[i];
      }
      assert ms[|ms| - 1] == m;
      assert forall i :: 0 <= i < |init| ==> ms[i] == init[i];
    }
  }

  /** Members that never touched a named zone count but do not anchor: once any
      member is zoned, the event starts when the first of the zoned ones did,
      leads with one of their cameras, and takes its picture from one of them if
      any of them has one.  Its cameras are exactly its members', each once. */
  lemma ZonedMembersAnchor(cfg: Config, inc: Incident, at: Time, ended: bool, z: nat)
    requires forall i :: 0 <= i < |inc.members| ==> inc.members[i].start != UNSET && inc.members[i].source != ""
    requires z < |inc.members| && inc.members[z].zones != []
    ensures var ms, ev := inc.members, Build(cfg, inc, at, ended);
            && (exists i :: 0 <= i < |ms| && ms[i].zones != [] && ms[i].start == ev.startedAt)
            && (forall i :: 0 <= i < |ms| && ms[i].zones != [] ==> ev.startedAt <= ms[i].start)
            && ZonedOn(ms, ev.camera, true)
            && (ev.hasSnapshot <==> exists i :: 0 <= i < |ms| && ms[i].snapshot)
            && (ev.hasSnapshot ==>
                  PictureOf(ms, ev.sourceId, exists i :: 0 <= i < |ms| && ms[i].snapshot && ms[i].zones != []))
            && Distinct(ev.cameras)
            && (forall c :: c in ev.cameras <==> exists i :: 0 <= i < |ms| && ms[i].camera == c)
  {
    var ms, t := inc.members, TallyOf(inc.members, at);
    TallyCameras(ms, at);
    TallyAnchor(ms, at);
    assert ZonedOn(ms, ms[z].camera, true);
    var cameras := Merge(t.cameras, t.unzoned);
    assert cameras[0] == t.cameras[0];
    assert t.cameras[0] in t.cameras;
    forall c ensures c in cameras <==> exists i :: 0 <= i < |ms| && ms[i].camera == c {
      if i :| 0 <= i < |ms| && ms[i].camera == c {
        assert ZonedOn(ms, c, ms[i].zones != []);
      }
    }
  }

  /** When a member ended, or the present instant while it has not. */
  predicate EndsAt(m: Member, at: Time, end: Time) {
    end == if m.end == UNSET then at else m.end
  }

  lemma {:induction false} TallyEnds(ms: seq<Member>, at: Time)
    ensures var t := TallyOf(ms, at);
            && (forall i, e :: 0 <= i < |ms| && EndsAt(ms[i], at, e) ==> e <= t.last)
            && (t.last == UNSET || exists i :: 0 <= i < |ms| && EndsAt(ms[i], at, t.last))
            && (t.anyClip <==> exists i :: 0 <= i < |ms| && ms[i].clip)
    decreases |ms|
  {
    hide Append;
    if ms != [] {
      var init, m := ms[..|ms| - 1], ms[|ms| - 1];
      TallyEnds(init, at);
      assert ms[|ms| - 1] == m && forall i :: 0 <= i < |init| ==> ms[i] == init[i];
      var t := TallyOf(init, at);
      if t.last != UNSET {
        var i :| 0 <= i < |init| && EndsAt(init[i], at, t.last);
        assert EndsAt(ms[i], at, t.last);
      }
      if i :| 0 <= i < |init| && init[i].clip {
        assert ms[i].clip;
      }
      assert EndsAt(m, at, LiveEnd(m, at));
    }
  }

  /** An event is named after its incident's first member and lists them all; it runs
      until its incident ends, and is then dated to the latest end among them, those
      still there ending now, and carries the boxes; its clip, if any of them has one,
      grows until then.  Its path is the incident's. */
  lemma EventTellsEnd(cfg: Config, inc: Incident, at: Time, ended: bool)
    requires inc.members != []
    ensures var ms, ev := inc.members, Build(cfg, inc, at, ended);
            && ev.id == ActivityId(ms[0].source) && ev.kind == KindActivity
            && |ev.sourceIds| == |ms| && (forall i :: 0 <= i < |ms| ==> ev.sourceIds[i] == ms[i].source)
            && ev.path == inc.path && ev.zones == inc.path
            && (if ended then
                  && (forall i, e :: 0 <= i < |ms| && EndsAt(ms[i], at, e) ==> e <= ev.endedAt)
                  && (ev.endedAt == UNSET || exists i :: 0 <= i < |ms| && EndsAt(ms[i], at, ev.endedAt))
                  && ev.boxes == inc.boxes
                else ev.endedAt == UNSET && ev.boxes == [])
            && (ev.clip.ClipNone? <==> forall i :: 0 <= i < |ms| ==> !ms[i].clip)
            && (ev.clip.ClipFinal? ==> ended) && (ev.clip.ClipGrowing? ==> !ended)
  {
    hide TallyOf, Counts, Merge;
    TallyEnds(inc.members, at);
  }
}
