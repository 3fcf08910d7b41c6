/** The ledger of what is parked where: internal/policy/occupancy.go. */
module Occupancy {
  import opened Common
  import opened Policy

  datatype Watch = Watch(zone: string, labels: set<string>, arriveAfter: int, departAfter: int, quiet: bool)

  /** entered says since when each watched zone has been held without a break. */
  datatype Track = Track(
    source: string,
    camera: string,
    labelName: string,
    plate: string,
    subLabel: string,
    snapshot: bool,
    entered: map<string, Time>,
    box: seq<real>)

  datatype Ledger = Ledger(
    watch: Watch,
    labelName: string,
    present: nat,
    since: Time,
    lastSeen: Time,
    belowSince: Time,
    seenCamera: string,
    seenSource: string,
    seenSnapshot: bool)

  datatype Turn = Arrival | Departure

  /** An arrival or departure event; its id is minted from zone, label and at. */
  datatype Transition = Transition(
    zone: string,
    labelName: string,
    at: Time,
    turn: Turn,
    count: nat,
    startedAt: Time,
    camera: string,
    sourceId: string,
    quiet: bool)

  type Tracks = map<string, Track>
  type LedgerKey = (string, string)

  // ----- the track table -----

  const SUPERSEDE_IOU := 0.7

  function MinR(a: real, b: real): real { if a < b then a else b }
  function MaxR(a: real, b: real): real { if a < b then b else a }

  /** Intersection over union; zero when either box is absent or degenerate. */
  function IoU(a: seq<real>, b: seq<real>): real {
    if |a| != 4 || |b| != 4 then 0.0
    else
      var ix := MinR(a[2], b[2]) - MaxR(a[0], b[0]);
      var iy := MinR(a[3], b[3]) - MaxR(a[1], b[1]);
      if ix <= 0.0 || iy <= 0.0 then 0.0
      else
        var inter := ix * iy;
        var union := (a[2] - a[0]) * (a[3] - a[1]) + (b[2] - b[0]) * (b[3] - b[1]) - inter;
        if union <= 0.0 then 0.0 else inter / union
  }

  predicate Watched(watches: map<string, Watch>, what: string) {
    exists z :: z in watches && what in watches[z].labels
  }

  /** The watched zones an object is in: its current ones, and for a parked
      object the last it entered. */
  function Claims(watches: map<string, Watch>, obj: Object): set<string> {
    (set z | z in obj.currentZones && z in watches) +
    (if obj.stationary && obj.enteredZones != [] && obj.enteredZones[|obj.enteredZones| - 1] in watches
     then {obj.enteredZones[|obj.enteredZones| - 1]} else {})
  }

  /** The message puts its object in the zone: it is there now, or it is parked
      and entered that zone last. */
  ghost predicate Reports(obj: Object, z: string) {
    z in obj.currentZones || (obj.stationary && exists front :: obj.enteredZones == front + [z])
  }

  lemma ClaimsAreReports(watches: map<string, Watch>, obj: Object)
    ensures forall z :: z in Claims(watches, obj) <==> z in watches && Reports(obj, z)
  {
    var named, n := obj.enteredZones, |obj.enteredZones|;
    if named != [] {
      assert named == named[..n - 1] + [named[n - 1]];
    }
  }

  function Refreshed(watches: map<string, Watch>, tr: Track, at: Time, obj: Object): Track {
    tr.(snapshot := tr.snapshot || obj.hasSnapshot,
        plate := if obj.plate != "" then obj.plate else tr.plate,
        subLabel := if obj.subLabel != "" then obj.subLabel else tr.subLabel,
        entered := map z | z in Claims(watches, obj) :: if z in tr.entered then tr.entered[z] else at,
        box := if |obj.box| == 4 then obj.box else tr.box)
  }

  /** other is a dead identity of the parked object tr. */
  predicate Superseded(tr: Track, other: Track) {
    other.camera == tr.camera && other.labelName == tr.labelName && IoU(tr.box, other.box) >= SUPERSEDE_IOU
  }

  function Fresh(obj: Object): Track {
    Track(obj.id, obj.camera, obj.labelName, "", "", false, map[], [])
  }

  /** The track table after one event message. */
  function Absorbed(watches: map<string, Watch>, tracks: Tracks, at: Time, typ: MessageType, obj: Object): Tracks {
    if !Watched(watches, obj.labelName) then tracks
    else if typ.End? then tracks - {obj.id}
    else
      var tr := Refreshed(watches, if obj.id in tracks then tracks[obj.id] else Fresh(obj), at, obj);
      var all := tracks[obj.id := tr];
      if obj.stationary && |tr.box| == 4
      then map id | id in all && (id == obj.id || !Superseded(tr, all[id])) :: all[id]
      else all
  }

  // ----- counting -----

  predicate InZone(tr: Track, l: Ledger) {
    tr.labelName == l.labelName && l.watch.zone in tr.entered
  }

  predicate HasDwelt(tr: Track, l: Ledger, at: Time) {
    InZone(tr, l) && at - tr.entered[l.watch.zone] >= l.watch.arriveAfter
  }

  ghost function Seen(tracks: Tracks, l: Ledger, cam: string): set<string> {
    set id | id in tracks && InZone(tracks[id], l) && tracks[id].camera == cam
  }

  ghost function Dwelt(tracks: Tracks, l: Ledger, at: Time, cam: string): set<string> {
    set id | id in tracks && HasDwelt(tracks[id], l, at) && tracks[id].camera == cam
  }

  /** raw is the most sightings any one camera has: never a sum over cameras. */
  ghost predicate IsRaw(tracks: Tracks, l: Ledger, raw: nat) {
    (forall cam :: |Seen(tracks, l, cam)| <= raw) && (raw > 0 ==> exists cam :: |Seen(tracks, l, cam)| == raw)
  }

  ghost predicate IsQualified(tracks: Tracks, l: Ledger, at: Time, q: nat) {
    (forall cam :: |Dwelt(tracks, l, at, cam)| <= q) && (q > 0 ==> exists cam :: |Dwelt(tracks, l, at, cam)| == q)
  }

  // ----- one ledger's tick -----

  /** The ledger once a tick's sightings have been noted. */
  function Noted(l: Ledger, at: Time, raw: nat, cover: Track): Ledger {
    if raw >= l.present then
      if raw > 0
      then l.(belowSince := UNSET, lastSeen := at,
              seenCamera := cover.camera, seenSource := cover.source, seenSnapshot := cover.snapshot)
      else l.(belowSince := UNSET)
    else if l.belowSince == UNSET then l.(belowSince := at)
    else l
  }

  predicate Arrives(l: Ledger, q: nat) {
    q > l.present
  }

  predicate Departs(l: Ledger, at: Time) {
    l.present > 0 && l.belowSince != UNSET && at - l.belowSince >= l.watch.departAfter
  }

  function Settled(l: Ledger, at: Time, q: nat, raw: nat): Ledger {
    if Arrives(l, q) then l.(present := q, since := at, belowSince := UNSET)
    else if Departs(l, at) then l.(present := Max(q, raw), belowSince := UNSET)
    else l
  }

  /** The event of a transition to l; seenBy is any track in the zone. */
  function Announce(l: Ledger, at: Time, turn: Turn, seenBy: Option<Track>): Transition {
    var anchored := turn.Departure? && l.lastSeen != UNSET;
    var remembered := anchored && l.seenCamera != "";
    Transition(
      l.watch.zone, l.labelName, at, turn, l.present,
      if anchored then l.lastSeen else at,
      if remembered then l.seenCamera else if seenBy.Some? then seenBy.value.camera else "",
      if remembered then l.seenSource else if seenBy.Some? then seenBy.value.source else "",
      l.watch.quiet)
  }

  ghost predicate IsWitness(tracks: Tracks, l: Ledger, w: Option<Track>) {
    match w
    case Some(tr) => (exists id :: id in tracks && tracks[id] == tr) && InZone(tr, l)
    case None => forall id :: id in tracks ==> !InZone(tracks[id], l)
  }

  /** One ledger, one tick: the ledger after it and what it says. */
  ghost predicate LedgerStep(l: Ledger, at: Time, tracks: Tracks, l': Ledger, said: seq<Transition>) {
    exists q: nat, raw: nat, cover: Option<Track>, seenBy: Option<Track> ::
      LedgerStepBy(l, at, tracks, l', said, q, raw, cover, seenBy)
  }

  ghost predicate LedgerStepBy(l: Ledger, at: Time, tracks: Tracks, l': Ledger, said: seq<Transition>,
                               q: nat, raw: nat, cover: Option<Track>, seenBy: Option<Track>)
  {
    && IsQualified(tracks, l, at, q) && IsRaw(tracks, l, raw)
    && IsWitness(tracks, l, cover) && IsWitness(tracks, l, seenBy)
    && (raw > 0 ==> cover.Some?)
    && var noted := Noted(l, at, raw, if cover.Some? then cover.value else NOBODY);
    && l' == Settled(noted, at, q, raw)
    && said == (if Arrives(noted, q) then [Announce(l', at, Arrival, seenBy)]
                else if Departs(noted, at) then [Announce(l', at, Departure, seenBy)]
                else [])
  }

  const NOBODY := Track("", "", "", "", "", false, map[], [])

  /** What was said about one ledger. */
  function SaidOf(changes: seq<Transition>, key: LedgerKey): seq<Transition> {
    if changes == [] then []
    else
      var c := changes[|changes| - 1];
      SaidOf(changes[..|changes| - 1], key) + (if (c.zone, c.labelName) == key then [c] else [])
  }

  datatype State = State(tracks: Tracks, ledgers: map<LedgerKey, Ledger>)

  /** One message: absorb it into the track table, then tick every ledger. */
  ghost predicate Observed(watches: map<string, Watch>, s: State, at: Time, msg: Message, s': State,
                           changes: seq<Transition>)
  {
    && s'.tracks == (if msg.Tracked? && !msg.obj.falsePositive
                     then Absorbed(watches, s.tracks, at, msg.typ, msg.obj) else s.tracks)
    && s'.ledgers.Keys == s.ledgers.Keys
    && (forall k :: k in s.ledgers ==> LedgerStep(s.ledgers[k], at, s'.tracks, s'.ledgers[k], SaidOf(changes, k)))
    && (forall c :: c in changes ==> (c.zone, c.labelName) in s.ledgers)
  }

  function Defaulted(w: Watch): Watch {
    w.(labels := if w.labels == {} then {"car"} else w.labels,
       arriveAfter := if w.arriveAfter <= 0 then MINUTE else w.arriveAfter,
       departAfter := if w.departAfter <= 0 then 5 * MINUTE else w.departAfter)
  }

  function Blank(w: Watch, what: string): Ledger {
    Ledger(w, what, 0, UNSET, UNSET, UNSET, "", "", false)
  }

  lemma SaidGrows(changes: seq<Transition>, said: seq<Transition>, key: LedgerKey)
    requires |said| <= 1 && forall c :: c in said ==> (c.zone, c.labelName) == key
    ensures SaidOf(changes + said, key) == SaidOf(changes, key) + said
    ensures forall k :: k != key ==> SaidOf(changes + said, k) == SaidOf(changes, k)
  {
    if said == [] {
      assert changes + said == changes;
    } else {
      assert (changes + said)[..|changes + said| - 1] == changes;
      assert said == [said[0]];
    }
  }

  /** One blank ledger per zone and label; a zone watched twice keeps the later. */
  method LayOut(ws: seq<Watch>) returns (zones: map<string, Watch>, blanks: map<LedgerKey, Ledger>)
    ensures zones.Keys == set j | 0 <= j < |ws| :: ws[j].zone
    ensures forall z :: z in zones ==> exists j :: 0 <= j < |ws| && ws[j].zone == z && zones[z] == Defaulted(ws[j])
    ensures forall j, l :: 0 <= j < |ws| && l in Defaulted(ws[j]).labels ==> (ws[j].zone, l) in blanks
    ensures forall k :: k in blanks ==>
              exists j :: 0 <= j < |ws| && k.0 == ws[j].zone && k.1 in Defaulted(ws[j]).labels
                          && blanks[k] == Blank(Defaulted(ws[j]), k.1)
  {
    hide Blank, Defaulted;
    zones, blanks := map[], map[];
    for i := 0 to |ws|
      invariant zones.Keys == set j | 0 <= j < i :: ws[j].zone
      invariant forall z :: z in zones ==> exists j :: 0 <= j < i && ws[j].zone == z && zones[z] == Defaulted(ws[j])
      invariant forall j, l :: 0 <= j < i && l in Defaulted(ws[j]).labels ==> (ws[j].zone, l) in blanks
      invariant forall k :: k in blanks ==>
                  exists j :: 0 <= j < i && k.0 == ws[j].zone && k.1 in Defaulted(ws[j]).labels
                              && blanks[k] == Blank(Defaulted(ws[j]), k.1)
    {
      var w := Defaulted(ws[i]);
      zones := zones[ws[i].zone := w];
      blanks := map k | k in blanks.Keys + (set l | l in w.labels :: (ws[i].zone, l)) ::
                  if k.0 == ws[i].zone && k.1 in w.labels then Blank(w, k.1) else blanks[k];
    }
  }

  /** Zones held or claimed, a zone held before keeping its clock. */
  ghost predicate Clocked(entered: map<string, Time>, before: map<string, Time>, at: Time, in_: set<string>) {
    && entered.Keys == before.Keys + in_
    && forall z :: z in entered ==> entered[z] == if z in before then before[z] else at
  }

  /** Claim each watched zone of a list. */
  method ClaimAll(watches: map<string, Watch>, before: map<string, Time>, at: Time, zones: seq<string>)
    returns (entered: map<string, Time>, in_: set<string>)
    ensures in_ == set z | z in zones && z in watches
    ensures Clocked(entered, before, at, in_)
  {
    entered, in_ := before, {};
    for i := 0 to |zones|
      invariant in_ == set z | z in zones[..i] && z in watches
      invariant Clocked(entered, before, at, in_)
    {
      var z := zones[i];
      assert zones[..i + 1] == zones[..i] + [z];
      if z in watches {
        in_ := in_ + {z};
        if z !in entered {
          entered := entered[z := at];
        }
      }
    }
    assert zones[..|zones|] == zones;
  }

  /** Let go of every zone not claimed. */
  method DropUnclaimed(before: map<string, Time>, in_: set<string>) returns (entered: map<string, Time>)
    requires in_ <= before.Keys
    ensures entered == map z | z in in_ :: before[z]
  {
    entered := before;
    var held := before.Keys;
    while held != {}
      invariant entered.Keys == in_ + held && held <= before.Keys
      invariant forall z :: z in entered ==> entered[z] == before[z]
    {
      var z :| z in held;
      held := held - {z};
      if z !in in_ {
        entered := entered - {z};
      }
    }
  }

  class OccupancyEngine {
    const watches: map<string, Watch>
    var tracks: Tracks
    var ledgers: map<LedgerKey, Ledger>

    ghost predicate Valid()
      reads this
    {
      && (forall k :: k in ledgers ==> (ledgers[k].watch.zone, ledgers[k].labelName) == k)
      && (forall k :: k in ledgers ==> ledgers[k].watch.arriveAfter > 0 && ledgers[k].watch.departAfter > 0)
    }

    /** Settings left at zero take the defaults; every ledger starts empty. */
    constructor (ws: seq<Watch>)
      ensures Valid() && tracks == map[]
      ensures watches.Keys == set i | 0 <= i < |ws| :: ws[i].zone
      ensures forall z :: z in watches ==>
                exists i :: 0 <= i < |ws| && ws[i].zone == z && watches[z] == Defaulted(ws[i])
      ensures forall i, l :: 0 <= i < |ws| && l in Defaulted(ws[i]).labels ==> (ws[i].zone, l) in ledgers
      ensures forall k :: k in ledgers ==>
                exists i :: 0 <= i < |ws| && k.0 == ws[i].zone && k.1 in Defaulted(ws[i]).labels
                            && ledgers[k] == Blank(Defaulted(ws[i]), k.1)
    {
      var zones, blanks := LayOut(ws);
      watches, tracks, ledgers := zones, map[], blanks;
    }

    method Observe(at: Time, msg: Message) returns (changes: seq<Transition>)
      requires Valid()
      modifies this
      ensures Valid()
      ensures Observed(watches, State(old(tracks), old(ledgers)), at, msg, State(tracks, ledgers), changes)
    {
      if msg.Tracked? && !msg.obj.falsePositive {
        Absorb(at, msg.typ, msg.obj);
      }
      changes := Tick(at);
    }

    method Absorb(at: Time, typ: MessageType, obj: Object)
      modifies this`tracks
      ensures tracks == Absorbed(watches, old(tracks), at, typ, obj)
    {
      if !Watched(watches, obj.labelName) {
        return;
      }
      if typ.End? {
        tracks := tracks - {obj.id};
        return;
      }
      var tr := if obj.id in tracks then tracks[obj.id] else Fresh(obj);
      var entered := Claim(tr.entered, at, obj);
      tr := tr.(snapshot := tr.snapshot || obj.hasSnapshot,
                plate := if obj.plate != "" then obj.plate else tr.plate,
                subLabel := if obj.subLabel != "" then obj.subLabel else tr.subLabel,
                entered := entered,
                box := if |obj.box| == 4 then obj.box else tr.box);
      assert tr == Refreshed(watches, if obj.id in tracks then tracks[obj.id] else Fresh(obj), at, obj);
      tracks := tracks[obj.id := tr];
      if obj.stationary && |tr.box| == 4 {
        Supersede(obj.id);
      }
    }

    /** The zones held after the message: those claimed, a zone held before
        keeping its clock and a zone left losing it. */
    method Claim(before: map<string, Time>, at: Time, obj: Object) returns (entered: map<string, Time>)
      ensures entered == map z | z in Claims(watches, obj) :: if z in before then before[z] else at
      ensures forall z :: z in entered <==> z in watches && Reports(obj, z)
    {
      ClaimsAreReports(watches, obj);
      var in_;
      entered, in_ := ClaimAll(watches, before, at, obj.currentZones);
      if obj.stationary && obj.enteredZones != [] {
        var z := obj.enteredZones[|obj.enteredZones| - 1];
        if z in watches {
          in_ := in_ + {z};
          if z !in entered {
            entered := entered[z := at];
          }
        }
      }
      assert in_ == Claims(watches, obj);
      entered := DropUnclaimed(entered, in_);
    }

    /** A parked object owns its spot. */
    method Supersede(owner: string)
      requires owner in tracks
      modifies this`tracks
      ensures tracks == map id | id in old(tracks) &&
              (id == owner || !Superseded(old(tracks)[owner], old(tracks)[id])) :: old(tracks)[id]
    {
      var tr := tracks[owner];
      var todo := tracks.Keys;
      while todo != {}
        invariant todo <= old(tracks).Keys
        invariant tracks == map id | id in old(tracks) &&
                  (id in todo || id == owner || !Superseded(tr, old(tracks)[id])) :: old(tracks)[id]
      {
        var id :| id in todo;
        todo := todo - {id};
        var other := tracks[id];
        if id != owner && other.camera == tr.camera && other.labelName == tr.labelName
           && IoU(tr.box, other.box) >= SUPERSEDE_IOU {
          tracks := tracks - {id};
        }
      }
    }

    method Tick(at: Time) returns (changes: seq<Transition>)
      requires Valid()
      modifies this`ledgers
      ensures Valid()
      ensures ledgers.Keys == old(ledgers).Keys
      ensures forall k :: k in ledgers ==> LedgerStep(old(ledgers)[k], at, tracks, ledgers[k], SaidOf(changes, k))
      ensures forall c :: c in changes ==> (c.zone, c.labelName) in ledgers
    {
      changes := [];
      var next := ledgers;
      var todo := ledgers.Keys;
      while todo != {}
        invariant todo <= ledgers.Keys
        invariant Ticked(ledgers, next, tracks, at, changes, ledgers.Keys - todo)
        invariant ledgers == old(ledgers)
      {
        var key :| key in todo;
        var l', said := TickLedger(tracks, next[key], at);
        TickedOne(ledgers, next, tracks, at, changes, ledgers.Keys - todo, key, l', said);
        assert ledgers.Keys - (todo - {key}) == (ledgers.Keys - todo) + {key};
        todo := todo - {key};
        next := next[key := l'];
        changes := changes + said;
      }
      ledgers := next;
    }
  }

  /** These ledgers have had their tick. */
  ghost predicate Stepped(before: map<LedgerKey, Ledger>, after: map<LedgerKey, Ledger>, tracks: Tracks, at: Time,
                          changes: seq<Transition>, done: set<LedgerKey>)
    requires done <= before.Keys == after.Keys
  {
    forall k :: k in done ==> LedgerStep(before[k], at, tracks, after[k], SaidOf(changes, k))
  }

  /** And the others not. */
  ghost predicate Waiting(before: map<LedgerKey, Ledger>, after: map<LedgerKey, Ledger>,
                          changes: seq<Transition>, done: set<LedgerKey>)
    requires done <= before.Keys == after.Keys
  {
    && (forall k :: k in before && k !in done ==> after[k] == before[k] && SaidOf(changes, k) == [])
    && (forall k :: k in before ==> after[k].watch == before[k].watch && after[k].labelName == before[k].labelName)
    && (forall c :: c in changes ==> (c.zone, c.labelName) in before)
  }

  ghost predicate Ticked(before: map<LedgerKey, Ledger>, after: map<LedgerKey, Ledger>, tracks: Tracks, at: Time,
                         changes: seq<Transition>, done: set<LedgerKey>)
  {
    && done <= before.Keys == after.Keys
    && Stepped(before, after, tracks, at, changes, done)
    && Waiting(before, after, changes, done)
  }

  lemma WaitingOne(before: map<LedgerKey, Ledger>, after: map<LedgerKey, Ledger>,
                   changes: seq<Transition>, done: set<LedgerKey>, key: LedgerKey, l': Ledger, said: seq<Transition>)
    requires done <= before.Keys == after.Keys && Waiting(before, after, changes, done)
    requires key in before && l'.watch == before[key].watch && l'.labelName == before[key].labelName
    requires |said| <= 1 && forall c :: c in said ==> (c.zone, c.labelName) == key
    ensures Waiting(before, after[key := l'], changes + said, done + {key})
  {
    SaidGrows(changes, said, key);
  }

  lemma TickedOne(before: map<LedgerKey, Ledger>, after: map<LedgerKey, Ledger>, tracks: Tracks, at: Time,
                  changes: seq<Transition>, done: set<LedgerKey>, key: LedgerKey, l': Ledger, said: seq<Transition>)
    requires Ticked(before, after, tracks, at, changes, done)
    requires key in before && key !in done && LedgerStep(before[key], at, tracks, l', said)
    requires l'.watch == before[key].watch && l'.labelName == before[key].labelName
    requires |said| <= 1 && forall c :: c in said ==> (c.zone, c.labelName) == key
    ensures Ticked(before, after[key := l'], tracks, at, changes + said, done + {key})
  {
    hide LedgerStep, SaidOf;
    var after', changes' := after[key := l'], changes + said;
    assert Waiting(before, after', changes', done + {key}) by {
      WaitingOne(before, after, changes, done, key, l', said);
    }
    SaidGrows(changes, said, key);
    assert SaidOf(changes', key) == said && after'[key] == l';
    forall k | k in done + {key} ensures LedgerStep(before[k], at, tracks, after'[k], SaidOf(changes', k)) {
      if k != key {
        assert SaidOf(changes', k) == SaidOf(changes, k) && after'[k] == after[k];
      }
    }
  }

  method TickLedger(tracks: Tracks, before: Ledger, at: Time) returns (l: Ledger, said: seq<Transition>)
    ensures LedgerStep(before, at, tracks, l, said)
    ensures l.watch == before.watch && l.labelName == before.labelName
    ensures |said| <= 1 && forall c :: c in said ==> c.zone == l.watch.zone && c.labelName == l.labelName
  {
    l, said := before, [];
    var q, raw, cover := Counts(tracks, l, at);
    if raw >= l.present {
      l := l.(belowSince := UNSET);
      if raw > 0 {
        l := l.(lastSeen := at, seenCamera := cover.value.camera, seenSource := cover.value.source,
                seenSnapshot := cover.value.snapshot);
      }
    } else if l.belowSince == UNSET {
      l := l.(belowSince := at);
    }
    assert l == Noted(before, at, raw, if cover.Some? then cover.value else NOBODY);
    if q > l.present {
      l := l.(present := q, since := at, belowSince := UNSET);
      said := [Announce(l, at, Arrival, cover)];
    } else if l.present > 0 && l.belowSince != UNSET && at - l.belowSince >= l.watch.departAfter {
      l := l.(present := Max(q, raw), belowSince := UNSET);
      said := [Announce(l, at, Departure, cover)];
    }
    assert LedgerStepBy(before, at, tracks, l, said, q, raw, cover, cover);
  }

  // ----- counts -----

  /** Among the tracks looked at so far, one camera's. */
  ghost function SeenAmong(ids: set<string>, tracks: Tracks, l: Ledger, cam: string): set<string> {
    set id | id in ids && id in tracks && InZone(tracks[id], l) && tracks[id].camera == cam
  }

  ghost function DweltAmong(ids: set<string>, tracks: Tracks, l: Ledger, at: Time, cam: string): set<string> {
    set id | id in ids && id in tracks && HasDwelt(tracks[id], l, at) && tracks[id].camera == cam
  }

  function Bump(m: map<string, nat>, k: string): (r: map<string, nat>)
    ensures forall x :: At(r, x) == At(m, x) + if x == k then 1 else 0
  {
    m[k := At(m, k) + 1]
  }

  function At(m: map<string, nat>, k: string): nat {
    if k in m then m[k] else 0
  }

  method Counts(tracks: Tracks, l: Ledger, at: Time) returns (qualified: nat, raw: nat, covering: Option<Track>)
    ensures IsQualified(tracks, l, at, qualified)
    ensures IsRaw(tracks, l, raw)
    ensures IsWitness(tracks, l, covering)
    ensures raw > 0 ==> covering.Some?
  {
    hide Tallied, IsRaw, IsQualified, IsLargest;
    TalliedNone(tracks, l, at);
    var perCamQ: map<string, nat>, perCamR: map<string, nat> := map[], map[];
    covering := None;
    var todo := tracks.Keys;
    ghost var done: set<string> := {};
    while todo != {}
      invariant done + todo == tracks.Keys && done !! todo
      invariant match covering
                case Some(tr) => (exists id :: id in tracks && tracks[id] == tr) && InZone(tr, l)
                case None => forall id :: id in done ==> !InZone(tracks[id], l)
      invariant Tallied(done, tracks, l, at, perCamR, perCamQ)
    {
      var id :| id in todo;
      var tr := tracks[id];
      TallyOne(done, id, tracks, l, at, perCamR, perCamQ);
      todo := todo - {id};
      done := done + {id};
      if InZone(tr, l) {
        covering := Some(tr);
        perCamR := Bump(perCamR, tr.camera);
        if at - tr.entered[l.watch.zone] >= l.watch.arriveAfter {
          perCamQ := Bump(perCamQ, tr.camera);
        }
      }
    }
    qualified := Largest(perCamQ);
    raw := Largest(perCamR);
    TalliedAll(done, tracks, l, at, perCamR, perCamQ, raw, qualified);
  }

  lemma TalliedNone(tracks: Tracks, l: Ledger, at: Time)
    ensures Tallied({}, tracks, l, at, map[], map[])
  {
  }

  /** One more track adds one to its camera's sightings, if it is one. */
  lemma SeenOne(done: set<string>, id: string, tracks: Tracks, l: Ledger, cam: string)
    requires id in tracks && id !in done
    ensures |SeenAmong(done + {id}, tracks, l, cam)| ==
              |SeenAmong(done, tracks, l, cam)| + (if InZone(tracks[id], l) && tracks[id].camera == cam then 1 else 0)
  {
    if InZone(tracks[id], l) && tracks[id].camera == cam {
      assert SeenAmong(done + {id}, tracks, l, cam) == SeenAmong(done, tracks, l, cam) + {id};
    } else {
      assert SeenAmong(done + {id}, tracks, l, cam) == SeenAmong(done, tracks, l, cam);
    }
  }

  lemma DweltOne(done: set<string>, id: string, tracks: Tracks, l: Ledger, at: Time, cam: string)
    requires id in tracks && id !in done
    ensures |DweltAmong(done + {id}, tracks, l, at, cam)| ==
              |DweltAmong(done, tracks, l, at, cam)| +
              (if HasDwelt(tracks[id], l, at) && tracks[id].camera == cam then 1 else 0)
  {
    if HasDwelt(tracks[id], l, at) && tracks[id].camera == cam {
      assert DweltAmong(done + {id}, tracks, l, at, cam) == DweltAmong(done, tracks, l, at, cam) + {id};
    } else {
      assert DweltAmong(done + {id}, tracks, l, at, cam) == DweltAmong(done, tracks, l, at, cam);
    }
  }

  ghost predicate Tallied(done: set<string>, tracks: Tracks, l: Ledger, at: Time,
                          perCamR: map<string, nat>, perCamQ: map<string, nat>)
  {
    && (forall cam :: At(perCamR, cam) == |SeenAmong(done, tracks, l, cam)|)
    && (forall cam :: At(perCamQ, cam) == |DweltAmong(done, tracks, l, at, cam)|)
  }

  lemma TallyOne(done: set<string>, id: string, tracks: Tracks, l: Ledger, at: Time,
                 perCamR: map<string, nat>, perCamQ: map<string, nat>)
    requires id in tracks && id !in done && Tallied(done, tracks, l, at, perCamR, perCamQ)
    ensures var cam := tracks[id].camera;
            Tallied(done + {id}, tracks, l, at,
                    if InZone(tracks[id], l) then Bump(perCamR, cam) else perCamR,
                    if HasDwelt(tracks[id], l, at) then Bump(perCamQ, cam) else perCamQ)
  {
    var r := if InZone(tracks[id], l) then Bump(perCamR, tracks[id].camera) else perCamR;
    var q := if HasDwelt(tracks[id], l, at) then Bump(perCamQ, tracks[id].camera) else perCamQ;
    forall cam ensures At(r, cam) == |SeenAmong(done + {id}, tracks, l, cam)| {
      SeenOne(done, id, tracks, l, cam);
    }
    forall cam ensures At(q, cam) == |DweltAmong(done + {id}, tracks, l, at, cam)| {
      DweltOne(done, id, tracks, l, at, cam);
    }
  }

  /** Once every track is tallied the largest tallies are the counts. */
  lemma TalliedAll(done: set<string>, tracks: Tracks, l: Ledger, at: Time,
                   perCamR: map<string, nat>, perCamQ: map<string, nat>, raw: nat, q: nat)
    requires done == tracks.Keys && Tallied(done, tracks, l, at, perCamR, perCamQ)
    requires IsLargest(perCamR, raw) && IsLargest(perCamQ, q)
    ensures IsRaw(tracks, l, raw) && IsQualified(tracks, l, at, q)
    ensures raw > 0 ==> exists id :: id in tracks && InZone(tracks[id], l)
  {
    forall cam ensures SeenAmong(done, tracks, l, cam) == Seen(tracks, l, cam) {
    }
    forall cam ensures DweltAmong(done, tracks, l, at, cam) == Dwelt(tracks, l, at, cam) {
    }
    if raw > 0 {
      var cam :| At(perCamR, cam) == raw;
      assert |Seen(tracks, l, cam)| == raw;
      var id :| id in Seen(tracks, l, cam);
      assert InZone(tracks[id], l);
    }
    if q > 0 {
      var cam :| At(perCamQ, cam) == q;
      assert |Dwelt(tracks, l, at, cam)| == q;
    }
    forall cam ensures |Seen(tracks, l, cam)| <= raw && |Dwelt(tracks, l, at, cam)| <= q {
      assert At(perCamR, cam) <= raw && At(perCamQ, cam) <= q;
    }
  }

  ghost predicate IsLargest(m: map<string, nat>, n: nat) {
    (forall k :: At(m, k) <= n) && (n > 0 ==> exists k :: At(m, k) == n)
  }

  method Largest(m: map<string, nat>) returns (n: nat)
    ensures IsLargest(m, n)
  {
    n := 0;
    var todo := m.Keys;
    while todo != {}
      invariant todo <= m.Keys
      invariant forall k :: k in m && k !in todo ==> m[k] <= n
      invariant n > 0 ==> exists k :: At(m, k) == n
    {
      var k :| k in todo;
      todo := todo - {k};
      if m[k] > n {
        n := m[k];
        assert At(m, k) == n;
      }
    }
  }
}
