/** The incident engine: Observe, emit, close and build of
    internal/policy/incidents.go. */
module Incidents {
  import opened Common
  import opened Policy
  import opened Headcount
  import opened BoxTrail
  import opened Adjacency

  datatype Config = Config(labels: set<string>, gap: int, overlap: int, notable: set<string>, graph: Graph)

  ghost predicate Configured(cfg: Config) {
    cfg.gap > 0 && cfg.overlap > 0 && Symmetric(cfg.graph)
  }

  /** said is the event as last emitted, if it ever was. */
  datatype Incident = Incident(
    first: Time,
    last: Time,
    members: seq<Member>,
    path: seq<string>,
    said: Option<Event>,
    boxes: seq<BoxSample>)

  const BLANK := Incident(UNSET, UNSET, [], [], None, [])

  function Sources(ms: seq<Member>): (r: seq<string>)
    ensures |r| == |ms| && forall i :: 0 <= i < |ms| ==> r[i] == ms[i].source
  {
    if ms == [] then [] else Sources(ms[..|ms| - 1]) + [ms[|ms| - 1].source]
  }

  function Cams(ms: seq<Member>): (r: seq<string>)
    ensures |r| == |ms| && forall i :: 0 <= i < |ms| ==> r[i] == ms[i].camera
  {
    if ms == [] then [] else Cams(ms[..|ms| - 1]) + [ms[|ms| - 1].camera]
  }

  /** Where the member with this id sits, or |ms|: the byID lookup. */
  function IndexOf(ms: seq<Member>, id: string): (k: nat)
    ensures k <= |ms|
    ensures k < |ms| ==> ms[k].source == id
    ensures forall i :: 0 <= i < k ==> ms[i].source != id
  {
    if ms == [] then 0
    else
      var k := IndexOf(ms[..|ms| - 1], id);
      if k < |ms| - 1 || ms[k].source == id then k else |ms|
  }

  function Ids(ms: seq<Member>): set<string> {
    set s | s in Sources(ms)
  }

  predicate Holds(inc: Incident, id: string)
    ensures Holds(inc, id) <==> id in Ids(inc.members)
  {
    var ids := Sources(inc.members);
    assert id in ids ==> exists i :: 0 <= i < |ids| && ids[i] == id;
    IndexOf(inc.members, id) < |inc.members|
  }

  // ----- what an incident looks like from outside -----

  function Append(seen: seq<string>, s: string): (r: seq<string>)
    ensures forall x :: x in r <==> x in seen || x == s
    ensures Distinct(seen) ==> Distinct(r)
    ensures seen <= r
  {
    if s in seen then seen else seen + [s]
  }

  /** seen, then whatever of more is new. */
  function Merge(seen: seq<string>, more: seq<string>): (r: seq<string>)
    ensures forall x :: x in r <==> x in seen || x in more
    ensures Distinct(seen) ==> Distinct(r)
    ensures seen <= r
  {
    if more == [] then seen
    else
      assert more == more[..|more| - 1] + [more[|more| - 1]];
      Append(Merge(seen, more[..|more| - 1]), more[|more| - 1])
  }

  /** What one pass over the members gathers. */
  datatype Tally = Tally(
    startedAt: Time,
    last: Time,
    cameras: seq<string>,
    unzoned: seq<string>,
    picture: string,
    anyPicture: string,
    anyClip: bool)

  function TallyStep(t: Tally, m: Member, at: Time): Tally {
    var zoned := m.zones != [];
    Tally(
      startedAt := if zoned && (t.startedAt == UNSET || m.start < t.startedAt) then m.start else t.startedAt,
      last := Max(t.last, LiveEnd(m, at)),
      cameras := if zoned then Append(t.cameras, m.camera) else t.cameras,
      unzoned := if zoned then t.unzoned else Append(t.unzoned, m.camera),
      picture := if zoned && m.snapshot && t.picture == "" then m.source else t.picture,
      anyPicture := if m.snapshot && t.anyPicture == "" then m.source else t.anyPicture,
      anyClip := t.anyClip || m.clip)
  }

  function TallyOf(ms: seq<Member>, at: Time): Tally {
    if ms == [] then Tally(UNSET, UNSET, [], [], "", "", false)
    else TallyStep(TallyOf(ms[..|ms| - 1], at), ms[|ms| - 1], at)
  }

  /** The event as the incident stands. */
  ghost function Build(cfg: Config, inc: Incident, at: Time, ended: bool): Event
    requires inc.members != []
  {
    var ms := inc.members;
    var t := TallyOf(ms, at);
    var cameras := Merge(t.cameras, t.unzoned);
    var picture := if t.picture != "" then t.picture else t.anyPicture;
    Event(
      id := ActivityId(ms[0].source),
      kind := KindActivity,
      camera := if cameras == [] then "" else cameras[0],
      labelName := "",
      subLabel := "",
      plate := "",
      zones := inc.path,
      startedAt := if t.startedAt == UNSET then inc.first else t.startedAt,
      endedAt := if ended then t.last else UNSET,
      hasSnapshot := picture != "",
      clip := if !t.anyClip then ClipNone else if ended then ClipFinal else ClipGrowing,
      sourceId := if picture != "" then picture else ms[0].source,
      objects := Counts(ms, |ms|, at, cfg.overlap),
      path := inc.path,
      cameras := cameras,
      sourceIds := Sources(ms),
      boxes := if ended then inc.boxes else [])
  }

  method BuildEvent(cfg: Config, inc: Incident, at: Time, ended: bool) returns (ev: Event)
    requires inc.members != []
    ensures ev == Build(cfg, inc, at, ended)
  {
    var ms := inc.members;
    var t, objects := Gather(cfg, ms, at);
    var cameras := t.cameras;
    for i := 0 to |t.unzoned|
      invariant cameras == Merge(t.cameras, t.unzoned[..i])
    {
      assert t.unzoned[..i + 1][..i] == t.unzoned[..i];
      if t.unzoned[i] !in cameras {
        cameras := cameras + [t.unzoned[i]];
      }
    }
    assert t.unzoned[..|t.unzoned|] == t.unzoned;
    var startedAt := if t.startedAt == UNSET then inc.first else t.startedAt;
    var picture := t.picture;
    if picture == "" && t.anyPicture != "" {
      picture := t.anyPicture;
    }
    ev := Event(
      id := ActivityId(ms[0].source), kind := KindActivity,
      camera := if cameras == [] then "" else cameras[0],
      labelName := "", subLabel := "", plate := "", zones := inc.path,
      startedAt := startedAt, endedAt := if ended then t.last else UNSET,
      hasSnapshot := picture != "",
      clip := if !t.anyClip then ClipNone else if ended then ClipFinal else ClipGrowing,
      sourceId := if picture == "" then ms[0].source else picture,
      objects := objects, path := inc.path, cameras := cameras, sourceIds := Sources(ms),
      boxes := if ended then inc.boxes else []);
  }

  /** The pass over the members. */
  method Gather(cfg: Config, ms: seq<Member>, at: Time) returns (t: Tally, objects: map<string, nat>)
    ensures t == TallyOf(ms, at)
    ensures objects == Counts(ms, |ms|, at, cfg.overlap)
  {
    t, objects := Tally(UNSET, UNSET, [], [], "", "", false), map[];
    for i := 0 to |ms|
      invariant t == TallyOf(ms[..i], at)
      invariant objects == Counts(ms, i, at, cfg.overlap)
    {
      var m := ms[i];
      assert ms[..i + 1][..i] == ms[..i];
      t := GatherOne(t, m, at);
      var n := CountConcurrent(ms, m, at, cfg.overlap);
      objects := objects[m.labelName := if m.labelName in objects then Max(objects[m.labelName], n) else n];
    }
    assert ms[..|ms|] == ms;
  }

  method GatherOne(before: Tally, m: Member, at: Time) returns (t: Tally)
    ensures t == TallyStep(before, m, at)
  {
    t := before;
    if m.zones != [] {
      if t.startedAt == UNSET || m.start < t.startedAt {
        t := t.(startedAt := m.start);
      }
      if m.camera !in t.cameras {
        t := t.(cameras := t.cameras + [m.camera]);
      }
      if m.snapshot && t.picture == "" {
        t := t.(picture := m.source);
      }
    } else if m.camera !in t.unzoned {
      t := t.(unzoned := t.unzoned + [m.camera]);
    }
    if m.snapshot && t.anyPicture == "" {
      t := t.(anyPicture := m.source);
    }
    t := t.(anyClip := t.anyClip || m.clip);
    var end := if m.end == UNSET then at else m.end;
    if end > t.last {
      t := t.(last := end);
    }
  }

  /** Nothing worth an update changed; a label missing from b counts zero. */
  predicate SameActivity(a: Event, b: Event) {
    && |a.objects| == |b.objects|
    && (forall l :: l in a.objects ==> (if l in b.objects then b.objects[l] else 0) == a.objects[l])
    && a.path == b.path
    && a.cameras == b.cameras
    && a.hasSnapshot == b.hasSnapshot
    && a.clip == b.clip
    && a.endedAt == b.endedAt
  }

  // ----- one message -----

  function NewMember(obj: Object, at: Time): Member {
    Member(obj.id, obj.camera, obj.labelName, if obj.startTime == UNSET then at else obj.startTime,
           UNSET, [], false, false)
  }

  function Joined(inc: Incident, obj: Object, at: Time): (r: Incident)
    ensures Holds(r, obj.id)
  {
    if Holds(inc, obj.id) then inc
    else
      var m := NewMember(obj, at);
      var r := inc.(members := inc.members + [m],
                    first := if inc.first == UNSET || m.start < inc.first then m.start else inc.first);
      assert r.members[..|r.members| - 1] == inc.members;
      r
  }

  function Told(m: Member, at: Time, typ: MessageType, obj: Object): Member {
    m.(snapshot := m.snapshot || obj.hasSnapshot,
       clip := m.clip || obj.hasClip,
       zones := AddNew(m.zones, obj.enteredZones + obj.currentZones),
       end := if !typ.End? then m.end else if obj.endTime == UNSET then at else obj.endTime)
  }

  /** The incident once it has heard a message about one of its members, old or
      new. */
  function Touched(inc: Incident, at: Time, typ: MessageType, obj: Object): (r: Incident)
    ensures r.members != []
  {
    var j := Joined(inc, obj, at);
    var k := IndexOf(j.members, obj.id);
    j.(last := at,
       members := j.members[k := Told(j.members[k], at, typ, obj)],
       path := AddNew(j.path, obj.enteredZones + obj.currentZones),
       boxes := if |obj.box| != 4 then j.boxes
                else Kept(j.boxes, BoxSample(obj.camera, at, obj.box[0], obj.box[1], obj.box[2], obj.box[3])))
  }

  /** Compare what is now known with what was last said. */
  ghost function Emit(cfg: Config, inc: Incident, at: Time): (r: (Incident, seq<Change>))
    requires inc.members != []
    ensures r.0.members == inc.members
  {
    if inc.path == [] then (inc, [])
    else
      var next := Build(cfg, inc, at, false);
      if inc.said.None? then (inc.(said := Some(next)), [Change(Started, next)])
      else if SameActivity(inc.said.value, next) then (inc, [])
      else (inc.(said := Some(next)), [Change(Updated, next)])
  }

  ghost function Ending(cfg: Config, inc: Incident, at: Time): seq<Change>
    requires inc.members != []
  {
    if inc.said.None? then [] else [Change(Ended, Build(cfg, inc, at, true))]
  }

  /** Remember a closed incident's objects, and forget after an hour. */
  function Retire(closed: map<string, Time>, inc: Incident, at: Time): (r: map<string, Time>)
    ensures Ids(inc.members) <= r.Keys <= closed.Keys + Ids(inc.members)
    ensures forall id :: id in r ==> r[id] == if id in Ids(inc.members) then at else closed[id]
    ensures forall id :: id in closed && at - closed[id] <= HOUR ==> id in r
    ensures forall id :: id in r ==> at - r[id] <= HOUR
  {
    var ids := Ids(inc.members);
    var all := map id | id in closed.Keys + ids :: if id in ids then at else closed[id];
    map id | id in all && at - all[id] <= HOUR :: all[id]
  }

  predicate Stale(cfg: Config, inc: Incident, at: Time) {
    at - inc.last >= cfg.gap
  }

  /** Every message first ends whatever has been quiet for the gap: what stays
      open, what is then closed, and what is said. */
  function StillOpen(cfg: Config, open: seq<Incident>, at: Time): seq<Incident> {
    if open == [] then []
    else
      var inc := open[|open| - 1];
      StillOpen(cfg, open[..|open| - 1], at) + (if Stale(cfg, inc, at) then [] else [inc])
  }

  function ClosedAfter(cfg: Config, open: seq<Incident>, closed: map<string, Time>, at: Time): map<string, Time> {
    if open == [] then closed
    else
      var inc := open[|open| - 1];
      var before := ClosedAfter(cfg, open[..|open| - 1], closed, at);
      if Stale(cfg, inc, at) then Retire(before, inc, at) else before
  }

  ghost function Endings(cfg: Config, open: seq<Incident>, at: Time): seq<Change>
    requires Peopled(open)
  {
    if open == [] then []
    else
      var inc := open[|open| - 1];
      Endings(cfg, open[..|open| - 1], at) + (if Stale(cfg, inc, at) then Ending(cfg, inc, at) else [])
  }

  ghost predicate Peopled(open: seq<Incident>) {
    forall i :: 0 <= i < |open| ==> open[i].members != []
  }

  /** The incident that holds the object; else the oldest it could have walked
      out of; else none, |open|. */
  ghost predicate IsHome(cfg: Config, open: seq<Incident>, obj: Object, k: nat) {
    && k <= |open|
    && (k < |open| ==>
          || (Holds(open[k], obj.id) && forall i :: 0 <= i < k ==> !Holds(open[i], obj.id))
          || (&& (forall i :: 0 <= i < |open| ==> !Holds(open[i], obj.id))
              && Reachable(cfg.graph, Cams(open[k].members), obj.camera)
              && forall i :: 0 <= i < k ==> !Reachable(cfg.graph, Cams(open[i].members), obj.camera)))
    && (k == |open| ==>
          forall i :: 0 <= i < |open| ==>
            !Holds(open[i], obj.id) && !Reachable(cfg.graph, Cams(open[i].members), obj.camera))
  }

  ghost predicate Held(open: seq<Incident>, id: string) {
    exists i :: 0 <= i < |open| && Holds(open[i], id)
  }

  datatype Engine = Engine(open: seq<Incident>, closed: map<string, Time>, live: map<string, Event>)

  predicate IsActivity(cfg: Config, msg: Message) {
    msg.Tracked? && !msg.obj.falsePositive && msg.obj.labelName in cfg.labels
  }

  /** Put an incident back at its place, or at the end. */
  function Place(open: seq<Incident>, k: nat, inc: Incident): seq<Incident>
    requires k <= |open|
  {
    if k < |open| then open[k := inc] else open + [inc]
  }

  /** A message about an object lands in its home incident, which says what
      became worth saying. */
  ghost predicate Heard(cfg: Config, open: seq<Incident>, at: Time, typ: MessageType, obj: Object,
                        open': seq<Incident>, said: seq<Change>)
  {
    exists k: nat ::
      && IsHome(cfg, open, obj, k)
      && var emit := Emit(cfg, Touched(if k < |open| then open[k] else BLANK, at, typ, obj), at);
         open' == Place(open, k, emit.0) && said == emit.1
  }

  lemma HeardAtHome(cfg: Config, open: seq<Incident>, at: Time, typ: MessageType, obj: Object, k: nat, inc: Incident)
    requires Peopled(open) && IsHome(cfg, open, obj, k)
    requires inc == Touched(if k < |open| then open[k] else BLANK, at, typ, obj)
    ensures var emit := Emit(cfg, inc, at);
            && Heard(cfg, open, at, typ, obj, Place(open, k, emit.0), emit.1)
            && Peopled(Place(open, k, emit.0))
  {
    hide Emit, Touched;
  }

  /** One message: the engine before, the engine after, and what was said. */
  ghost predicate Step(cfg: Config, s: Engine, at: Time, msg: Message, s': Engine, changes: seq<Change>)
    requires Peopled(s.open)
  {
    var open, closed, endings := StillOpen(cfg, s.open, at), ClosedAfter(cfg, s.open, s.closed, at),
        Endings(cfg, s.open, at);
    if !IsActivity(cfg, msg) then
      var pass := PassStep(cfg.notable, s.live, at, msg);
      s' == Engine(open, closed, pass.0) && changes == endings + pass.1
    else if msg.obj.id in closed || (msg.typ.End? && !Held(open, msg.obj.id)) then
      s' == Engine(open, closed, s.live) && changes == endings
    else
      && s'.closed == closed && s'.live == s.live
      && endings <= changes
      && Heard(cfg, open, at, msg.typ, msg.obj, s'.open, changes[|endings|..])
  }

  class IncidentEngine {
    const cfg: Config
    const rest: Passthrough
    var open: seq<Incident>
    var closed: map<string, Time>

    ghost predicate Valid()
      reads this
    {
      Peopled(open) && Configured(cfg) && rest.notable == cfg.notable
    }

    ghost function Value(): Engine
      reads this, rest
    {
      Engine(open, closed, rest.live)
    }

    /** Zero settings take the defaults; edges are made symmetric. */
    constructor (labels: seq<string>, gap: int, overlap: int, notable: seq<string>, edges: map<string, seq<string>>)
      ensures Valid() && fresh(rest)
      ensures Value() == Engine([], map[], map[])
      ensures cfg.labels == if labels == [] then {"person", "dog"} else set l | l in labels
      ensures cfg.gap == if gap <= 0 then 60 * SECOND else gap
      ensures cfg.overlap == if overlap <= 0 then 3 * SECOND else overlap
      ensures cfg.notable == set l | l in notable
      ensures cfg.graph.None? <==> edges == map[]
      ensures cfg.graph.Some? ==>
                forall a, b :: Edge(cfg.graph.value, a, b) <==> Listed(edges, a, b) || Listed(edges, b, a)
    {
      var g := Closure(edges);
      var watched := set l | l in labels;
      var news := set l | l in notable;
      cfg := Config(if labels == [] then {"person", "dog"} else watched,
                    if gap <= 0 then 60 * SECOND else gap,
                    if overlap <= 0 then 3 * SECOND else overlap,
                    news, g);
      rest := new Passthrough(news);
      open, closed := [], map[];
    }

    method Observe(at: Time, msg: Message) returns (changes: seq<Change>)
      requires Valid()
      modifies this, rest
      ensures Valid()
      ensures Step(cfg, old(Value()), at, msg, Value(), changes)
    {
      changes := EndStale(at);
      if !IsActivity(cfg, msg) {
        var more := rest.Observe(at, msg);
        changes := changes + more;
        return;
      }
      var obj := msg.obj;
      if obj.id in closed {
        return;
      }
      var more := Hear(at, msg.typ, obj);
      ghost var swept := changes;
      changes := changes + more;
      assert changes[|swept|..] == more;
    }

    /** A message about an object that is not of a closed incident. */
    method Hear(at: Time, typ: MessageType, obj: Object) returns (said: seq<Change>)
      requires Valid()
      modifies this`open
      ensures Valid()
      ensures if typ.End? && !Held(old(open), obj.id)
              then open == old(open) && said == []
              else Heard(cfg, old(open), at, typ, obj, open, said)
    {
      var k, held := FindHome(typ, obj);
      if typ.End? && !held {
        return [];
      }
      var inc := Touched(if k < |open| then open[k] else BLANK, at, typ, obj);
      var inc', more := EmitChange(cfg, inc, at);
      HeardAtHome(cfg, open, at, typ, obj, k, inc);
      open := Place(open, k, inc');
      return more;
    }

    /** The in-place filter of the open incidents. */
    method EndStale(at: Time) returns (changes: seq<Change>)
      requires Valid()
      modifies this
      ensures Valid()
      ensures open == StillOpen(cfg, old(open), at)
      ensures closed == ClosedAfter(cfg, old(open), old(closed), at)
      ensures changes == Endings(cfg, old(open), at)
    {
      hide Retire, Build;
      changes := [];
      var kept: seq<Incident> := [];
      for i := 0 to |open|
        invariant open == old(open)
        invariant kept == StillOpen(cfg, open[..i], at) && Peopled(kept)
        invariant closed == ClosedAfter(cfg, open[..i], old(closed), at)
        invariant changes == Endings(cfg, open[..i], at)
      {
        var inc := open[i];
        assert open[..i + 1][..i] == open[..i];
        if Stale(cfg, inc, at) {
          closed := Retire(closed, inc, at);
          if inc.said.Some? {
            var ev := BuildEvent(cfg, inc, at, true);
            changes := changes + [Change(Ended, ev)];
          } else {
            assert changes == changes + [];
          }
        } else {
          kept := kept + [inc];
        }
      }
      assert open[..|open|] == open;
      open := kept;
    }

    /** Where the object belongs; for an end of something never seen only
        whether it is held matters. */
    method FindHome(typ: MessageType, obj: Object) returns (k: nat, held: bool)
      ensures held <==> Held(open, obj.id)
      ensures k <= |open| && (held || !typ.End? ==> IsHome(cfg, open, obj, k))
    {
      for i := 0 to |open|
        invariant forall j :: 0 <= j < i ==> !Holds(open[j], obj.id)
      {
        if Holds(open[i], obj.id) {
          return i, true;
        }
      }
      if typ.End? {
        return 0, false;
      }
      for i := 0 to |open|
        invariant forall j :: 0 <= j < i ==> !Reachable(cfg.graph, Cams(open[j].members), obj.camera)
      {
        var r := Reaches(cfg.graph, Cams(open[i].members), obj.camera);
        if r {
          return i, false;
        }
      }
      return |open|, false;
    }
  }

  method EmitChange(cfg: Config, inc: Incident, at: Time) returns (inc': Incident, changes: seq<Change>)
    requires inc.members != []
    ensures (inc', changes) == Emit(cfg, inc, at)
  {
    if inc.path == [] {
      return inc, [];
    }
    var next := BuildEvent(cfg, inc, at, false);
    if inc.said.None? {
      return inc.(said := Some(next)), [Change(Started, next)];
    }
    if SameActivity(inc.said.value, next) {
      return inc, [];
    }
    return inc.(said := Some(next)), [Change(Updated, next)];
  }
}
