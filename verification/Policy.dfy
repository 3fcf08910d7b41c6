/** Events, their changes, and the engine without opinions
    (internal/policy/policy.go). */
module Policy {
  import opened Common

  /** A minted event id: opaque, injective in what it was minted from. */
  datatype EventId = DetectionId(source: string) | ActivityId(source: string)

  datatype Kind = KindDetection | KindSighting | KindActivity

  datatype ClipState = ClipNone | ClipGrowing | ClipFinal

  datatype BoxSample = BoxSample(camera: string, at: Time, x1: real, y1: real, x2: real, y2: real)

  datatype Event = Event(
    id: EventId,
    kind: Kind,
    camera: string,
    labelName: string,
    subLabel: string,
    plate: string,
    zones: seq<string>,
    startedAt: Time,
    endedAt: Time,
    hasSnapshot: bool,
    clip: ClipState,
    sourceId: string,
    // Activities only.
    objects: map<string, nat>,
    path: seq<string>,
    cameras: seq<string>,
    sourceIds: seq<string>,
    boxes: seq<BoxSample>)

  datatype Op = Started | Updated | Ended

  datatype Change = Change(op: Op, event: Event)

  /** A tracked object as Frigate describes it, already decoded. */
  datatype Object = Object(
    id: string,
    camera: string,
    labelName: string,
    subLabel: string,
    plate: string,
    falsePositive: bool,
    startTime: Time,
    endTime: Time,
    stationary: bool,
    currentZones: seq<string>,
    enteredZones: seq<string>,
    box: seq<real>,
    hasClip: bool,
    hasSnapshot: bool)

  datatype MessageType = New | Update | End

  /** One broker message: something on another topic, an event message that
      does not decode, or a decoded one. */
  datatype Message = Other | Undecodable | Tracked(typ: MessageType, obj: Object)

  function ClipOf(o: Object, running: bool): ClipState {
    if !o.hasClip then ClipNone else if running then ClipGrowing else ClipFinal
  }

  function FromObject(o: Object, at: Time): Event {
    Event(
      id := DetectionId(o.id),
      kind := KindDetection,
      camera := o.camera,
      labelName := o.labelName,
      subLabel := o.subLabel,
      plate := o.plate,
      zones := if o.enteredZones == [] then o.currentZones else o.enteredZones,
      startedAt := if o.startTime == UNSET then at else o.startTime,
      endedAt := o.endTime,
      hasSnapshot := o.hasSnapshot,
      clip := ClipOf(o, o.endTime == UNSET),
      sourceId := o.id,
      objects := map[],
      path := [],
      cameras := [],
      sourceIds := [],
      boxes := [])
  }

  /** Nothing a viewer would notice changed. */
  predicate Same(a: Event, b: Event) {
    && a.subLabel == b.subLabel
    && a.plate == b.plate
    && a.hasSnapshot == b.hasSnapshot
    && a.clip == b.clip
    && a.kind == b.kind
    && a.zones == b.zones
  }

  /** What one message makes of the running detections, and what is said. */
  function PassStep(notable: set<string>, live: map<string, Event>, at: Time, msg: Message)
    : (map<string, Event>, seq<Change>)
  {
    if !msg.Tracked? || msg.obj.falsePositive then (live, [])
    else
      var o := msg.obj;
      var seen := FromObject(o, at);
      var next := if o.labelName in notable then seen.(kind := KindSighting) else seen;
      match msg.typ
      case New =>
        if o.id in live then (live, []) else (live[o.id := next], [Change(Started, next)])
      case Update =>
        if o.id !in live then (live[o.id := next], [Change(Started, next)])
        else if Same(live[o.id], next) then (live, [])
        else (live[o.id := next], [Change(Updated, next)])
      case End =>
        var opening := if o.id in live then []
                       else [Change(Started, next.(endedAt := UNSET, clip := ClipOf(o, true)))];
        var last := next.(endedAt := if next.endedAt == UNSET then at else next.endedAt,
                          clip := ClipOf(o, false));
        (live - {o.id}, opening + [Change(Ended, last)])
  }

  /** The passthrough engine: every tracked object is a detection. */
  class Passthrough {
    var live: map<string, Event>
    const notable: set<string>
    var undecodable: nat

    constructor (notable: set<string>)
      ensures live == map[] && this.notable == notable && undecodable == 0
    {
      live, this.notable, undecodable := map[], notable, 0;
    }

    method Observe(at: Time, msg: Message) returns (changes: seq<Change>)
      modifies this
      ensures (live, changes) == PassStep(notable, old(live), at, msg)
      ensures undecodable == old(undecodable) + if msg.Undecodable? then 1 else 0
    {
      changes := [];
      if msg.Undecodable? {
        undecodable := undecodable + 1;
      }
      if !msg.Tracked? || msg.obj.falsePositive {
        return;
      }
      var obj := msg.obj;
      var next := FromObject(obj, at);
      if obj.labelName in notable {
        next := next.(kind := KindSighting);
      }
      var known := obj.id in live;
      match msg.typ {
        case New =>
          if !known {
            live := live[obj.id := next];
            changes := [Change(Started, next)];
          }
        case Update =>
          if !known {
            live := live[obj.id := next];
            changes := [Change(Started, next)];
          } else if !Same(live[obj.id], next) {
            live := live[obj.id := next];
            changes := [Change(Updated, next)];
          }
        case End =>
          if !known {
            var started := next.(endedAt := UNSET, clip := ClipOf(obj, true));
            changes := [Change(Started, started)];
          }
          live := live - {obj.id};
          if next.endedAt == UNSET {
            next := next.(endedAt := at);
          }
          next := next.(clip := ClipOf(obj, false));
          changes := changes + [Change(Ended, next)];
      }
    }
  }
}
