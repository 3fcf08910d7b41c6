/** What an incident of a reachable state is, read off the messages it heard: its
    path, its members, and whether it has been said. */
module IncidentFacts {
  import opened Common
  import opened Policy
  import opened Headcount
  import opened Incidents
  import opened IncidentRuns
  import opened IncidentStory

  // ----- firsts -----

  /** Every string of all but those skipped, once, in the order first met. */
  ghost predicate Firsts(kept: seq<string>, all: seq<string>, skip: set<string>) {
    && Distinct(kept)
    && (forall s :: s in kept <==> s in all && s !in skip)
    && forall i, j :: 0 <= i < j < |kept| ==> MetBefore(all, kept[i], kept[j])
  }

  ghost predicate MetBefore(all: seq<string>, a: string, b: string) {
    exists k :: 0 <= k < |all| && all[k] == a && b !in all[..k + 1]
  }

  lemma MetStill(all: seq<string>, more: seq<string>, a: string, b: string)
    requires MetBefore(all, a, b)
    ensures MetBefore(all + more, a, b)
  {
    var k :| 0 <= k < |all| && all[k] == a && b !in all[..k + 1];
    assert (all + more)[k] == a && (all + more)[..k + 1] == all[..k + 1];
  }

  lemma OneMore(kept: seq<string>, all: seq<string>, s: string, skip: set<string>)
    requires Firsts(kept, all, skip)
    ensures Firsts(if s !in skip && s !in kept then kept + [s] else kept, all + [s], skip)
  {
    hide MetBefore;
    var kept' := if s !in skip && s !in kept then kept + [s] else kept;
    forall i, j | 0 <= i < j < |kept'| ensures MetBefore(all + [s], kept'[i], kept'[j]) {
      if j < |kept| {
        MetStill(all, [s], kept[i], kept[j]);
      } else {
        assert kept[i] in kept && s !in all;
        MetOnly(all, kept[i], s);
      }
    }
  }

  lemma MetOnly(all: seq<string>, a: string, b: string)
    requires a in all && b !in all
    ensures MetBefore(all + [b], a, b)
  {
    var k :| 0 <= k < |all| && all[k] == a;
    assert (all + [b])[..k + 1] == all[..k + 1];
  }

  lemma {:induction false} AddNewFirsts(kept: seq<string>, all: seq<string>, more: seq<string>)
    requires Firsts(kept, all, {""})
    ensures Firsts(AddNew(kept, more), all + more, {""})
    decreases |more|
  {
    hide Firsts;
    if more == [] {
      assert all + more == all;
    } else {
      OneMore(kept, all, more[0], {""});
      AddNewFirsts(if more[0] != "" && more[0] !in kept then kept + [more[0]] else kept, all + [more[0]], more[1..]);
      MoveOne(all, more);
    }
  }

  lemma MoveOne(all: seq<string>, more: seq<string>)
    requires more != []
    ensures all + [more[0]] + more[1..] == all + more
  {
  }

  // ----- what messages say -----

  /** The zones a message names, entered before current. */
  function ZonesOf(h: Hearing): seq<string> {
    h.obj.enteredZones + h.obj.currentZones
  }

  function ZonesNamed(hs: seq<Hearing>): seq<string> {
    if hs == [] then [] else ZonesNamed(hs[..|hs| - 1]) + ZonesOf(hs[|hs| - 1])
  }

  /** The messages about one object. */
  function About(hs: seq<Hearing>, id: string): seq<Hearing> {
    if hs == [] then []
    else About(hs[..|hs| - 1], id) + (if hs[|hs| - 1].obj.id == id then [hs[|hs| - 1]] else [])
  }

  function IdsHeard(hs: seq<Hearing>): seq<string> {
    if hs == [] then [] else IdsHeard(hs[..|hs| - 1]) + [hs[|hs| - 1].obj.id]
  }

  /** When an object ended, by the last End message about it; unset without one. */
  ghost predicate EndTold(about: seq<Hearing>, end: Time) {
    || (end == UNSET && forall i :: 0 <= i < |about| ==> !about[i].typ.End?)
    || exists i :: IsLastEnd(about, i, end)
  }

  ghost predicate IsLastEnd(about: seq<Hearing>, i: int, end: Time) {
    && 0 <= i < |about| && about[i].typ.End? && (forall j :: i < j < |about| ==> !about[j].typ.End?)
    && end == if about[i].obj.endTime == UNSET then about[i].at else about[i].obj.endTime
  }

  /** A member is what the messages about its object say of it. */
  ghost predicate MemberTold(about: seq<Hearing>, m: Member) {
    && about != []
    && m.camera == about[0].obj.camera && m.labelName == about[0].obj.labelName
    && m.start == (if about[0].obj.startTime == UNSET then about[0].at else about[0].obj.startTime)
    && EndTold(about, m.end)
    && Firsts(m.zones, ZonesNamed(about), {""})
    && (m.snapshot <==> exists i :: 0 <= i < |about| && about[i].obj.hasSnapshot)
    && (m.clip <==> exists i :: 0 <= i < |about| && about[i].obj.hasClip)
  }

  ghost predicate MembersTold(hs: seq<Hearing>, ms: seq<Member>) {
    forall i :: 0 <= i < |ms| ==> MemberTold(About(hs, ms[i].source), ms[i])
  }

  /** One member per object, in the order first heard of. */
  ghost predicate SourcesTold(hs: seq<Hearing>, ms: seq<Member>) {
    Firsts(Sources(ms), IdsHeard(hs), {})
  }

  /** The earliest start, when all are set. */
  ghost predicate FirstTold(ms: seq<Member>, first: Time) {
    (forall i :: 0 <= i < |ms| ==> ms[i].start != UNSET) && ms != [] ==>
      && first != UNSET && (exists i :: 0 <= i < |ms| && ms[i].start == first)
      && forall i :: 0 <= i < |ms| ==> first <= ms[i].start
  }

  ghost predicate IncidentTold(hs: seq<Hearing>, inc: Incident) {
    && Firsts(inc.path, ZonesNamed(hs), {""})
    && MembersTold(hs, inc.members)
    && SourcesTold(hs, inc.members)
    && FirstTold(inc.members, inc.first)
    && (hs != [] ==> inc.last == hs[|hs| - 1].at)
    && (inc.said.Some? <==> inc.path != [])
  }

  // ----- one message more -----

  lemma Named(about: seq<Hearing>, h: Hearing)
    ensures ZonesNamed(about + [h]) == ZonesNamed(about) + ZonesOf(h)
  {
    assert (about + [h])[..|about|] == about;
  }

  lemma EndMoves(about: seq<Hearing>, end: Time, h: Hearing)
    requires EndTold(about, end)
    ensures EndTold(about + [h], if !h.typ.End? then end else if h.obj.endTime == UNSET then h.at else h.obj.endTime)
  {
    var all := about + [h];
    assert all[|about|] == h;
    if h.typ.End? {
      assert IsLastEnd(all, |about|, if h.obj.endTime == UNSET then h.at else h.obj.endTime);
    } else if i :| IsLastEnd(about, i, end) {
      assert IsLastEnd(all, i, end);
    }
  }

  /** A member told of one message more about its object. */
  lemma MemberGrows(about: seq<Hearing>, m: Member, h: Hearing)
    requires MemberTold(about, m)
    ensures MemberTold(about + [h], Told(m, h.at, h.typ, h.obj))
  {
    hide EndTold, Firsts, ZonesNamed;
    assert (about + [h])[0] == about[0];
    EndMoves(about, m.end, h);
    Named(about, h);
    AddNewFirsts(m.zones, ZonesNamed(about), ZonesOf(h));
    Pictured(about, h);
  }

  lemma Pictured(about: seq<Hearing>, h: Hearing)
    ensures var all := about + [h];
            && ((exists i :: 0 <= i < |all| && all[i].obj.hasSnapshot) <==>
                h.obj.hasSnapshot || exists i :: 0 <= i < |about| && about[i].obj.hasSnapshot)
            && ((exists i :: 0 <= i < |all| && all[i].obj.hasClip) <==>
                h.obj.hasClip || exists i :: 0 <= i < |about| && about[i].obj.hasClip)
  {
    var all := about + [h];
    assert all[|about|] == h && forall i :: 0 <= i < |about| ==> all[i] == about[i];
  }

  /** A member at its first message. */
  lemma MemberBegins(h: Hearing)
    ensures MemberTold([h], Told(NewMember(h.obj, h.at), h.at, h.typ, h.obj))
  {
    var m := NewMember(h.obj, h.at);
    EndMoves([], m.end, h);
    Named([], h);
    AddNewFirsts([], [], ZonesOf(h));
    assert [] + [h] == [h] && [h][0] == h;
  }

  /** What a message does to the members: the one it is about, kept or new, is told;
      the others stay as they are. */
  ghost predicate MembersMoved(ms: seq<Member>, ms': seq<Member>, h: Hearing) {
    || (exists k :: 0 <= k < |ms| && ms[k].source == h.obj.id && ms' == ms[k := Told(ms[k], h.at, h.typ, h.obj)])
    || ((forall k :: 0 <= k < |ms| ==> ms[k].source != h.obj.id)
        && ms' == ms + [Told(NewMember(h.obj, h.at), h.at, h.typ, h.obj)])
  }

  lemma TouchedMembers(inc: Incident, h: Hearing)
    ensures MembersMoved(inc.members, Touched(inc, h.at, h.typ, h.obj).members, h)
  {
    hide AddNew, Told;
    var j := Joined(inc, h.obj, h.at);
    if !Holds(inc, h.obj.id) {
      assert forall k :: 0 <= k < |inc.members| ==> inc.members[k].source == j.members[k].source;
      HeldMember(inc, h.obj.id);
    }
  }

  lemma HeldMember(inc: Incident, id: string)
    ensures Holds(inc, id) <==> exists k :: 0 <= k < |inc.members| && inc.members[k].source == id
  {
  }

  lemma MembersGrow(hs: seq<Hearing>, ms: seq<Member>, ms': seq<Member>)
    requires hs != []
    requires MembersTold(hs[..|hs| - 1], ms) && SourcesTold(hs[..|hs| - 1], ms) && MembersMoved(ms, ms', hs[|hs| - 1])
    ensures MembersTold(hs, ms')
  {
    hide MembersTold, SourcesTold, Told, NewMember;
    var init, h := hs[..|hs| - 1], hs[|hs| - 1];
    OncePerObject(init, ms);
    if k :| 0 <= k < |ms| && ms[k].source == h.obj.id && ms' == ms[k := Told(ms[k], h.at, h.typ, h.obj)] {
      OneTold(hs, ms, k);
    } else {
      OneJoined(hs, ms);
    }
  }

  lemma AboutStays(hs: seq<Hearing>, id: string)
    requires hs != [] && hs[|hs| - 1].obj.id != id
    ensures About(hs, id) == About(hs[..|hs| - 1], id)
  {
  }

  lemma OneTold(hs: seq<Hearing>, ms: seq<Member>, k: nat)
    requires hs != [] && MembersTold(hs[..|hs| - 1], ms) && k < |ms| && ms[k].source == hs[|hs| - 1].obj.id
    requires forall i, j :: 0 <= i < j < |ms| ==> ms[i].source != ms[j].source
    ensures var h := hs[|hs| - 1]; MembersTold(hs, ms[k := Told(ms[k], h.at, h.typ, h.obj)])
  {
    hide MemberTold, About;
    var init, h := hs[..|hs| - 1], hs[|hs| - 1];
    var ms' := ms[k := Told(ms[k], h.at, h.typ, h.obj)];
    forall i | 0 <= i < |ms'| ensures MemberTold(About(hs, ms'[i].source), ms'[i]) {
      if i == k {
        MemberGrows(About(init, h.obj.id), ms[k], h);
        AboutGrows(hs, h.obj.id);
      } else {
        AboutStays(hs, ms[i].source);
      }
    }
  }

  lemma AboutGrows(hs: seq<Hearing>, id: string)
    requires hs != [] && hs[|hs| - 1].obj.id == id
    ensures About(hs, id) == About(hs[..|hs| - 1], id) + [hs[|hs| - 1]]
  {
  }

  lemma OneJoined(hs: seq<Hearing>, ms: seq<Member>)
    requires hs != [] && MembersTold(hs[..|hs| - 1], ms) && hs[|hs| - 1].obj.id !in IdsHeard(hs[..|hs| - 1])
    requires forall i :: 0 <= i < |ms| ==> ms[i].source != hs[|hs| - 1].obj.id
    ensures var h := hs[|hs| - 1]; MembersTold(hs, ms + [Told(NewMember(h.obj, h.at), h.at, h.typ, h.obj)])
  {
    hide MemberTold, About;
    var init, h := hs[..|hs| - 1], hs[|hs| - 1];
    var ms' := ms + [Told(NewMember(h.obj, h.at), h.at, h.typ, h.obj)];
    forall i | 0 <= i < |ms'| ensures MemberTold(About(hs, ms'[i].source), ms'[i]) {
      if i == |ms| {
        NoneAbout(init, h.obj.id);
        AboutGrows(hs, h.obj.id);
        assert [] + [h] == [h];
        MemberBegins(h);
      } else {
        AboutStays(hs, ms[i].source);
      }
    }
  }

  lemma OncePerObject(hs: seq<Hearing>, ms: seq<Member>)
    requires SourcesTold(hs, ms)
    ensures forall i, j :: 0 <= i < j < |ms| ==> ms[i].source != ms[j].source
    ensures forall id :: (forall i :: 0 <= i < |ms| ==> ms[i].source != id) ==> id !in IdsHeard(hs)
  {
    var ids := Sources(ms);
    assert forall i :: 0 <= i < |ms| ==> ids[i] == ms[i].source;
  }

  lemma {:induction false} NoneAbout(hs: seq<Hearing>, id: string)
    requires id !in IdsHeard(hs)
    ensures About(hs, id) == []
    decreases |hs|
  {
    if hs != [] {
      NoneAbout(hs[..|hs| - 1], id);
    }
  }

  lemma SourcesGrow(hs: seq<Hearing>, ms: seq<Member>, ms': seq<Member>)
    requires hs != [] && SourcesTold(hs[..|hs| - 1], ms) && MembersMoved(ms, ms', hs[|hs| - 1])
    ensures SourcesTold(hs, ms')
  {
    hide Firsts;
    var h := hs[|hs| - 1];
    OneMore(Sources(ms), IdsHeard(hs[..|hs| - 1]), h.obj.id, {});
    SourcesMoved(ms, ms', h);
  }

  lemma SourcesMoved(ms: seq<Member>, ms': seq<Member>, h: Hearing)
    requires MembersMoved(ms, ms', h)
    ensures Sources(ms') == if h.obj.id in Sources(ms) then Sources(ms) else Sources(ms) + [h.obj.id]
  {
    hide AddNew;
    if k :| 0 <= k < |ms| && ms[k].source == h.obj.id && ms' == ms[k := Told(ms[k], h.at, h.typ, h.obj)] {
      assert Sources(ms)[k] == h.obj.id;
    } else {
      assert ms'[..|ms|] == ms;
    }
  }

  lemma TouchedFirst(inc: Incident, h: Hearing)
    ensures var s := if h.obj.startTime == UNSET then h.at else h.obj.startTime;
            Touched(inc, h.at, h.typ, h.obj).first ==
            if Holds(inc, h.obj.id) || (inc.first != UNSET && inc.first <= s) then inc.first else s
  {
    hide AddNew, Holds, IndexOf, Told;
  }

  lemma FirstGrows(ms: seq<Member>, ms': seq<Member>, first: Time, first': Time, h: Hearing)
    requires FirstTold(ms, first) && (ms == [] ==> first == UNSET) && MembersMoved(ms, ms', h)
    requires var s := if h.obj.startTime == UNSET then h.at else h.obj.startTime;
             first' == if (exists k :: 0 <= k < |ms| && ms[k].source == h.obj.id) || (first != UNSET && first <= s)
                       then first else s
    ensures FirstTold(ms', first')
  {
    hide AddNew;
    if |ms'| == |ms| {
      assert forall i :: 0 <= i < |ms| ==> ms'[i].start == ms[i].start;
    } else {
      assert forall i :: 0 <= i < |ms| ==> ms'[i] == ms[i];
      assert ms'[|ms|].start == if h.obj.startTime == UNSET then h.at else h.obj.startTime;
    }
  }

  lemma EmitSays(cfg: Config, inc: Incident, at: Time)
    requires inc.members != [] && (inc.said.Some? ==> inc.path != [])
    ensures var r := Emit(cfg, inc, at).0;
            && r == inc.(said := r.said) && (r.said.Some? <==> inc.path != [])
  {
    hide Build, SameActivity;
  }

  /** Whatever messages made an incident, it is what they say. */
  lemma {:induction false} LivedTold(cfg: Config, hs: seq<Hearing>)
    ensures IncidentTold(hs, Lived(cfg, hs))
    ensures Lived(cfg, hs).members == [] <==> hs == []
    ensures hs == [] ==> Lived(cfg, hs) == BLANK
    decreases |hs|
  {
    hide Emit, Touched, MembersTold, SourcesTold, FirstTold, Firsts;
    if hs == [] {
      NothingTold();
    } else {
      var init, h := hs[..|hs| - 1], hs[|hs| - 1];
      var inc := Lived(cfg, init);
      LivedTold(cfg, init);
      var mid := Touched(inc, h.at, h.typ, h.obj);
      TouchedMembers(inc, h);
      MembersGrow(hs, inc.members, mid.members);
      SourcesGrow(hs, inc.members, mid.members);
      TouchedFirst(inc, h);
      HeldMember(inc, h.obj.id);
      FirstGrows(inc.members, mid.members, inc.first, mid.first, h);
      TouchedPath(inc, h, ZonesNamed(init));
      EmitSays(cfg, mid, h.at);
    }
  }

  lemma NothingTold()
    ensures Firsts([], [], {""}) && MembersTold([], []) && SourcesTold([], []) && FirstTold([], UNSET)
  {
  }

  lemma TouchedPath(inc: Incident, h: Hearing, all: seq<string>)
    requires Firsts(inc.path, all, {""})
    ensures var inc' := Touched(inc, h.at, h.typ, h.obj);
            && Firsts(inc'.path, all + ZonesOf(h), {""}) && inc.path <= inc'.path
            && inc'.said == inc.said && inc'.last == h.at
  {
    hide Told, Firsts;
    AddNewFirsts(inc.path, all, ZonesOf(h));
  }

  /** A message names a zone, as entered or as current. */
  predicate Names(msg: Message, z: string) {
    msg.Tracked? && (z in msg.obj.enteredZones || z in msg.obj.currentZones)
  }

  ghost predicate SomeNames(obs: seq<Observation>, places: seq<nat>, z: string) {
    exists p :: 0 <= p < |places| && places[p] < |obs| && Names(obs[places[p]].msg, z)
  }

  /** Every incident of every reachable state is what the messages of the run about
      its objects say: its path the zones they name, in the order first named; one
      member per object, in the order first heard of, its camera, label and start
      from its first message, its zones those its messages name, its end from its
      last End message, a snapshot or clip if some message had one; its last instant
      that of the latest message.  And it has been said exactly when some message
      named a zone. */
  lemma EveryIncidentTold(cfg: Config, obs: seq<Observation>, states: seq<Engine>, said: seq<seq<Change>>,
                          n: nat, inc: Incident) returns (places: seq<nat>)
    requires Configured(cfg) && IsRun(cfg, obs, states, said) && n <= |obs| && inc in states[n].open
    ensures IsStory(cfg, obs, n, inc, places) && places != []
    ensures IncidentTold(HearingsAt(obs, places), inc)
    ensures forall z :: z in inc.path <==> z != "" && SomeNames(obs, places, z)
    ensures inc.said.Some? <==> exists z :: z != "" && SomeNames(obs, places, z)
  {
    hide IncidentTold, SomeNames, IsRun, IsStory, Configured;
    places := EveryIncidentHasStory(cfg, obs, states, said, n, inc);
    StoryTold(cfg, obs, n, inc, places);
    RunPeopled(cfg, obs, states, said, n, inc);
    StoryNamed(cfg, obs, n, inc, places);
  }

  lemma StoryNamed(cfg: Config, obs: seq<Observation>, n: nat, inc: Incident, places: seq<nat>)
    requires n <= |obs| && IsStory(cfg, obs, n, inc, places) && IncidentTold(HearingsAt(obs, places), inc)
    ensures forall z :: z in inc.path <==> z != "" && SomeNames(obs, places, z)
    ensures inc.said.Some? <==> exists z :: z != "" && SomeNames(obs, places, z)
  {
    hide IncidentTold, SomeNames, IsStory, Names;
    PlacesHeard(cfg, obs, n, inc, places);
    ToldPath(HearingsAt(obs, places), inc);
    forall z ensures z in ZonesNamed(HearingsAt(obs, places)) <==> SomeNames(obs, places, z) {
      NamedAt(obs, places, z);
    }
    if z :| z != "" && SomeNames(obs, places, z) {
      assert z in ZonesNamed(HearingsAt(obs, places));
    }
  }

  lemma PlacesHeard(cfg: Config, obs: seq<Observation>, n: nat, inc: Incident, places: seq<nat>)
    requires n <= |obs| && IsStory(cfg, obs, n, inc, places)
    ensures forall p :: 0 <= p < |places| ==> places[p] < |obs| && obs[places[p]].msg.Tracked?
  {
    hide Lived, MembersHeard, NoneMissed;
  }

  lemma StoryTold(cfg: Config, obs: seq<Observation>, n: nat, inc: Incident, places: seq<nat>)
    requires n <= |obs| && IsStory(cfg, obs, n, inc, places)
    ensures IncidentTold(HearingsAt(obs, places), inc) && (places == [] ==> inc.members == [])
  {
    hide IncidentTold;
    LivedTold(cfg, HearingsAt(obs, places));
  }

  lemma ToldPath(hs: seq<Hearing>, inc: Incident)
    requires IncidentTold(hs, inc)
    ensures forall z :: z in inc.path <==> z in ZonesNamed(hs) && z != ""
    ensures inc.said.Some? <==> exists z :: z in ZonesNamed(hs) && z != ""
  {
    if inc.path != [] {
      assert inc.path[0] in inc.path;
    }
  }

  lemma RunPeopled(cfg: Config, obs: seq<Observation>, states: seq<Engine>, said: seq<seq<Change>>, n: nat,
                   inc: Incident)
    requires Configured(cfg) && IsRun(cfg, obs, states, said) && n <= |obs| && inc in states[n].open
    ensures inc.members != []
  {
    RunGood(cfg, obs, states, said, n);
    var i :| 0 <= i < |states[n].open| && states[n].open[i] == inc;
    assert Sound(cfg, states[n].open[i]);
  }

  lemma {:induction false} NamedAt(obs: seq<Observation>, places: seq<nat>, z: string)
    requires forall p :: 0 <= p < |places| ==> places[p] < |obs| && obs[places[p]].msg.Tracked?
    ensures z in ZonesNamed(HearingsAt(obs, places)) <==> SomeNames(obs, places, z)
    decreases |places|
  {
    if places != [] {
      var init := places[..|places| - 1];
      NamedAt(obs, init, z);
      var hs := HearingsAt(obs, places);
      assert hs[..|hs| - 1] == HearingsAt(obs, init);
      var o := obs[places[|places| - 1]];
      assert ZonesOf(hs[|hs| - 1]) == o.msg.obj.enteredZones + o.msg.obj.currentZones;
      if p :| 0 <= p < |init| && init[p] < |obs| && Names(obs[init[p]].msg, z) {
        assert places[p] == init[p];
      }
      if Names(o.msg, z) {
        assert places[|places| - 1] < |obs|;
      }
    }
  }
}
