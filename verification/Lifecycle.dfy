/** The grammar every engine's output obeys: what a reader who only sees the
    changes can rely on. */
module Lifecycle {
  import opened Common
  import opened Policy

  /** Nothing already told about an event is taken back. */
  predicate Extends(before: Event, after: Event) {
    before.path <= after.path && before.sourceIds <= after.sourceIds
  }

  /** A reader of the stream: the events it believes are running.  None is a
      change the reader could not make sense of. */
  function Follow(running: map<EventId, Event>, c: Change): Option<map<EventId, Event>> {
    var id := c.event.id;
    match c.op
    case Started => if id in running then None else Some(running[id := c.event])
    case Updated => if id in running && Extends(running[id], c.event) then Some(running[id := c.event]) else None
    case Ended => if id in running && Extends(running[id], c.event) then Some(running - {id}) else None
  }

  function FollowAll(running: map<EventId, Event>, cs: seq<Change>): Option<map<EventId, Event>> {
    if cs == [] then Some(running)
    else
      var before := FollowAll(running, cs[..|cs| - 1]);
      if before.None? then None else Follow(before.value, cs[|cs| - 1])
  }

  lemma {:induction false} FollowAllConcat(running: map<EventId, Event>, a: seq<Change>, b: seq<Change>)
    requires FollowAll(running, a).Some?
    ensures FollowAll(running, a + b) == FollowAll(FollowAll(running, a).value, b)
    decreases |b|
  {
    if b == [] {
      assert a + b == a;
    } else {
      var b' := b[..|b| - 1];
      assert (a + b)[..|a + b| - 1] == a + b';
      FollowAllConcat(running, a, b');
    }
  }

  /** The ops said about one event, in order. */
  function OpsOf(cs: seq<Change>, id: EventId): seq<Op> {
    if cs == [] then []
    else
      var last := cs[|cs| - 1];
      OpsOf(cs[..|cs| - 1], id) + (if last.event.id == id then [last.op] else [])
  }

  /** A prefix of (Started Updated* Ended)*: Started comes first and after each
      Ended, and nowhere else. */
  ghost predicate LifecycleOps(ops: seq<Op>) {
    && (ops != [] ==> ops[0].Started?)
    && forall i, j :: 0 <= i && j == i + 1 && j < |ops| ==> (ops[i].Ended? <==> ops[j].Started?)
  }

  predicate Open(ops: seq<Op>) {
    ops != [] && !ops[|ops| - 1].Ended?
  }

  /** A stream a reader can follow obeys the grammar for every event, and the
      reader's running events are those whose last op is not Ended. */
  lemma {:induction false} FollowedOps(cs: seq<Change>, id: EventId)
    requires FollowAll(map[], cs).Some?
    ensures LifecycleOps(OpsOf(cs, id))
    ensures id in FollowAll(map[], cs).value <==> Open(OpsOf(cs, id))
    decreases |cs|
  {
    if cs != [] {
      FollowedOps(cs[..|cs| - 1], id);
      var before, ops := OpsOf(cs[..|cs| - 1], id), OpsOf(cs, id);
      assert forall i :: 0 <= i < |before| ==> ops[i] == before[i];
    }
  }

  /** While an event runs, every later word about it extends every earlier one. */
  lemma {:induction false} FollowedGrowth(cs: seq<Change>, i: nat, j: nat)
    requires FollowAll(map[], cs).Some?
    requires i <= j < |cs|
    requires cs[i].event.id == cs[j].event.id
    requires forall k :: i <= k < j && cs[k].event.id == cs[i].event.id ==> !cs[k].op.Ended?
    ensures Extends(cs[i].event, cs[j].event)
    decreases |cs|, j
  {
    var cs' := cs[..|cs| - 1];
    if j < |cs| - 1 {
      FollowedGrowth(cs', i, j);
    } else if i < j {
      Remembered(cs', i);
    }
  }

  /** The last word about an event that has not ended is what the reader holds,
      and it extends every earlier word since the event started. */
  lemma {:induction false} Remembered(cs: seq<Change>, i: nat)
    requires FollowAll(map[], cs).Some?
    requires i < |cs|
    requires forall k :: i <= k < |cs| && cs[k].event.id == cs[i].event.id ==> !cs[k].op.Ended?
    ensures var running := FollowAll(map[], cs).value;
            var id := cs[i].event.id;
            id in running && Extends(cs[i].event, running[id])
    decreases |cs|
  {
    if i < |cs| - 1 {
      Remembered(cs[..|cs| - 1], i);
    }
  }

  /** The reader's running events are exactly the passthrough's live ones. */
  ghost predicate MirrorsLive(running: map<EventId, Event>, live: map<string, Event>) {
    && (forall s :: s in live ==> DetectionId(s) in running && running[DetectionId(s)] == live[s])
    && (forall id :: id in running && id.DetectionId? ==> id.source in live)
    && (forall s :: s in live ==> live[s].id == DetectionId(s) && live[s].path == [] && live[s].sourceIds == [])
  }

  lemma FollowOne(running: map<EventId, Event>, c: Change)
    ensures FollowAll(running, [c]) == Follow(running, c)
  {
    assert [c][..0] == [];
  }

  ghost predicate SameActivities(a: map<EventId, Event>, b: map<EventId, Event>) {
    forall id: EventId :: id.ActivityId? ==> (id in a <==> id in b) && (id in a ==> a[id] == b[id])
  }

  predicate AboutDetection(c: Change, s: string) {
    c.event.id == DetectionId(s) && c.event.path == [] && c.event.sourceIds == []
  }

  function LiveAfter(live: map<string, Event>, s: string, c: Change): map<string, Event> {
    if c.op.Ended? then live - {s} else live[s := c.event]
  }

  /** Reading one change about a detection keeps the reader in step. */
  lemma FollowDetection(running: map<EventId, Event>, live: map<string, Event>, c: Change, s: string)
    requires MirrorsLive(running, live)
    requires AboutDetection(c, s)
    requires c.op.Started? <==> s !in live
    ensures FollowAll(running, [c]) == Follow(running, c)
    ensures Follow(running, c).Some?
    ensures MirrorsLive(Follow(running, c).value, LiveAfter(live, s, c))
    ensures SameActivities(running, Follow(running, c).value)
  {
    hide MirrorsLive, SameActivities, Follow;
    FollowOne(running, c);
    FollowMirrors(running, live, c, s);
    FollowSameActivities(running, c, s);
  }

  lemma FollowMirrors(running: map<EventId, Event>, live: map<string, Event>, c: Change, s: string)
    requires MirrorsLive(running, live) && AboutDetection(c, s) && (c.op.Started? <==> s !in live)
    ensures Follow(running, c).Some?
    ensures MirrorsLive(Follow(running, c).value, LiveAfter(live, s, c))
  {
    assert s in live <==> DetectionId(s) in running;
  }

  lemma FollowSameActivities(running: map<EventId, Event>, c: Change, s: string)
    requires AboutDetection(c, s) && Follow(running, c).Some?
    ensures SameActivities(running, Follow(running, c).value)
  {
    hide Extends;
  }

  /** A message says nothing and changes nothing, says one thing, or reports an
      object that was never seen starting as started and ended. */
  lemma PassStepShape(notable: set<string>, live: map<string, Event>, at: Time, msg: Message)
    ensures var (live', cs) := PassStep(notable, live, at, msg);
            || (cs == [] && live' == live)
            || (&& msg.Tracked?
                && var s := msg.obj.id;
                && |cs| == 1
                && AboutDetection(cs[0], s)
                && (cs[0].op.Started? <==> s !in live)
                && live' == LiveAfter(live, s, cs[0]))
            || (&& msg.Tracked?
                && var s := msg.obj.id;
                && |cs| == 2 && s !in live
                && AboutDetection(cs[0], s) && cs[0].op.Started?
                && AboutDetection(cs[1], s) && cs[1].op.Ended?
                && live' == LiveAfter(LiveAfter(live, s, cs[0]), s, cs[1]))
  {
  }

  /** What a viewer would notice of the event is as the object was last reported. */
  ghost predicate Shows(notable: set<string>, e: Event, o: Object) {
    && e.subLabel == o.subLabel && e.plate == o.plate && e.hasSnapshot == o.hasSnapshot
    && e.clip == (if !o.hasClip then ClipNone else if o.endTime == UNSET then ClipGrowing else ClipFinal)
    && e.kind == (if o.labelName in notable then KindSighting else KindDetection)
    && e.zones == if o.enteredZones == [] then o.currentZones else o.enteredZones
  }

  /** An update of a running detection is told exactly when it does not show what is
      reported; a new message about one never is.  Either way a first or updating
      message leaves it shown. */
  lemma UpdateToldIffNoticeable(notable: set<string>, live: map<string, Event>, at: Time, typ: MessageType, o: Object)
    requires !o.falsePositive && !typ.End?
    ensures var (live', said) := PassStep(notable, live, at, Tracked(typ, o));
            && o.id in live' && |said| <= 1
            && (said == [] <==> o.id in live && (typ.New? || Shows(notable, live[o.id], o)))
            && (said == [] ==> live' == live)
            && (said != [] ==> said[0] == Change(if o.id in live then Updated else Started, live'[o.id]))
            && (o.id !in live || typ.Update? ==> Shows(notable, live'[o.id], o))
  {
  }

  /** An end is told of every detection, after its start if that was never told, with
      the reported end or else the present one, and with its clip, if any, final. */
  lemma EndTellsWhen(notable: set<string>, live: map<string, Event>, at: Time, o: Object)
    requires !o.falsePositive
    ensures var (live', said) := PassStep(notable, live, at, Tracked(End, o));
            var n := |said| - 1;
            && live' == live - {o.id} && n == (if o.id in live then 0 else 1)
            && said[n].op.Ended? && said[n].event.endedAt == (if o.endTime == UNSET then at else o.endTime)
            && said[n].event.clip == (if o.hasClip then ClipFinal else ClipNone)
            && Shows(notable, said[n].event.(clip := ClipOf(o, o.endTime == UNSET)), o)
            && (n == 1 ==>
                  && said[0].op.Started? && said[0].event.endedAt == UNSET
                  && said[0].event.clip == (if o.hasClip then ClipGrowing else ClipNone))
  {
  }

  /** The passthrough obeys the grammar, and its live table is exactly what has
      started and not ended. */
  lemma PassStepFollows(notable: set<string>, live: map<string, Event>, at: Time, msg: Message,
                        running: map<EventId, Event>)
    requires MirrorsLive(running, live)
    ensures var (live', cs) := PassStep(notable, live, at, msg);
            var running' := FollowAll(running, cs);
            running'.Some? && MirrorsLive(running'.value, live') && SameActivities(running, running'.value)
  {
    var step := PassStep(notable, live, at, msg);
    var cs := step.1;
    PassStepShape(notable, live, at, msg);
    if |cs| == 1 {
      assert cs == [cs[0]];
      FollowDetection(running, live, cs[0], msg.obj.id);
    } else if |cs| == 2 {
      var s := msg.obj.id;
      assert cs == [cs[0]] + [cs[1]];
      FollowDetection(running, live, cs[0], s);
      FollowAllConcat(running, [cs[0]], [cs[1]]);
      FollowDetection(Follow(running, cs[0]).value, LiveAfter(live, s, cs[0]), cs[1], s);
    }
  }
}
