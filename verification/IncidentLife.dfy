/** How long an incident lives, and what happens to the objects of a closed one. */
module IncidentLife {
  import opened Common
  import opened Policy
  import opened Incidents
  import opened IncidentRuns

  // ----- the sweep -----

  /** The objects of an incident that ends are remembered as of now. */
  lemma {:induction false} SweepRemembers(cfg: Config, open: seq<Incident>, closed: map<string, Time>, at: Time)
    requires Peopled(open)
    ensures var closed' := ClosedAfter(cfg, open, closed, at);
            && (forall inc, id :: inc in open && at - inc.last >= cfg.gap && id in Ids(inc.members) ==>
                  id in closed' && closed'[id] == at)
            && (forall id :: id in closed && at - closed[id] <= 3_600_000_000_000 ==> id in closed')
            && (forall id :: id in closed' && closed'[id] != at ==> id in closed && closed'[id] == closed[id])
            && ((exists inc :: inc in open && at - inc.last >= cfg.gap) ==>
                  forall id :: id in closed' ==> at - closed'[id] <= 3_600_000_000_000)
            && ((forall inc :: inc in open ==> at - inc.last < cfg.gap) ==> closed' == closed)
    decreases |open|
  {
    hide Ids, Retire;
    if open != [] {
      var init, inc := open[..|open| - 1], open[|open| - 1];
      assert forall x :: x in open <==> x in init || x == inc;
      SweepRemembers(cfg, init, closed, at);
    }
  }

  /** And its ending is told if it was ever started. */
  lemma {:induction false} SweepTells(cfg: Config, open: seq<Incident>, at: Time, inc: Incident)
    requires Peopled(open) && inc in open && at - inc.last >= cfg.gap && inc.said.Some? && inc.members != []
    ensures Change(Ended, Build(cfg, inc, at, true)) in Endings(cfg, open, at)
    decreases |open|
  {
    hide Build;
    var init, last := open[..|open| - 1], open[|open| - 1];
    if inc != last {
      assert inc in init;
      SweepTells(cfg, init, at, inc);
    }
  }

  // ----- one message -----

  /** The incident lives on, with all its members and perhaps one more. */
  ghost predicate LivesOn(open: seq<Incident>, inc: Incident) {
    exists i :: 0 <= i < |open| && Sources(inc.members) <= Sources(open[i].members)
  }

  lemma StepLives(cfg: Config, s: Engine, at: Time, msg: Message, s': Engine, changes: seq<Change>, inc: Incident)
    requires Peopled(s.open) && Step(cfg, s, at, msg, s', changes)
    requires inc in s.open && at - inc.last < cfg.gap
    ensures LivesOn(s'.open, inc)
  {
    hide Emit, ClosedAfter, Endings, StillOpen, Heard, LivesOn;
    var open := StillOpen(cfg, s.open, at);
    SweepKeeps(cfg, s.open, at);
    if s'.open == open {
      StillThere(open, inc);
    } else {
      HeardLives(cfg, open, at, msg.typ, msg.obj, s'.open, changes[|Endings(cfg, s.open, at)|..], inc);
    }
  }

  lemma StillThere(open: seq<Incident>, inc: Incident)
    requires inc in open
    ensures LivesOn(open, inc)
  {
    var i :| 0 <= i < |open| && open[i] == inc;
    assert Sources(inc.members) <= Sources(open[i].members);
  }

  lemma HeardLives(cfg: Config, open: seq<Incident>, at: Time, typ: MessageType, obj: Object, open': seq<Incident>,
                   said: seq<Change>, inc: Incident)
    requires Heard(cfg, open, at, typ, obj, open', said) && inc in open
    ensures LivesOn(open', inc)
  {
    hide Touched, Emit;
    var k: nat :| IsHome(cfg, open, obj, k) &&
                  open' == Place(open, k, Emit(cfg, Touched(if k < |open| then open[k] else BLANK,
                                                            at, typ, obj), at).0);
    TouchedGrows(if k < |open| then open[k] else BLANK, at, typ, obj);
    var i :| 0 <= i < |open| && open[i] == inc;
    assert Sources(inc.members) <= Sources(open'[i].members);
  }

  lemma StepCloses(cfg: Config, s: Engine, at: Time, msg: Message, s': Engine, changes: seq<Change>)
    requires Peopled(s.open) && Step(cfg, s, at, msg, s', changes)
    ensures s'.closed == ClosedAfter(cfg, s.open, s.closed, at)
  {
    hide Heard, ClosedAfter, Endings, PassStep, StillOpen, Peopled;
  }

  lemma StepEnds(cfg: Config, s: Engine, at: Time, msg: Message, s': Engine, changes: seq<Change>, inc: Incident)
    requires Peopled(s.open) && Step(cfg, s, at, msg, s', changes)
    requires inc in s.open && inc.members != [] && at - inc.last >= cfg.gap
    ensures forall id :: id in Sources(inc.members) ==> id in s'.closed && s'.closed[id] == at
    ensures inc.said.Some? ==> Change(Ended, Build(cfg, inc, at, true)) in changes
  {
    hide Touched, Emit, Build, Heard, ClosedAfter, Endings, PassStep, StillOpen;
    SweepRemembers(cfg, s.open, s.closed, at);
    assert forall id :: id in Sources(inc.members) ==> id in Ids(inc.members);
    if inc.said.Some? {
      SweepTells(cfg, s.open, at, inc);
      var endings := Endings(cfg, s.open, at);
      assert endings <= changes;
      var i :| 0 <= i < |endings| && endings[i] == Change(Ended, Build(cfg, inc, at, true));
      assert changes[i] == endings[i];
    }
  }

  /** Whatever is heard of an object of interest, that it is not remembered as closed
      and is not the end of one never seen, an incident then holds it, and is as
      recent as the message. */
  lemma StepHolds(cfg: Config, s: Engine, at: Time, typ: MessageType, obj: Object, s': Engine, changes: seq<Change>)
    requires Peopled(s.open) && Step(cfg, s, at, Tracked(typ, obj), s', changes)
    requires !obj.falsePositive && obj.labelName in cfg.labels
    requires obj.id !in s'.closed && (typ.End? ==> Held(s'.open, obj.id))
    ensures exists i :: 0 <= i < |s'.open| && obj.id in Sources(s'.open[i].members) && s'.open[i].last == at
  {
    hide Touched, Emit, ClosedAfter, Endings;
    var open := StillOpen(cfg, s.open, at);
    var k: nat :| IsHome(cfg, open, obj, k) &&
                  s'.open == Place(open, k, Emit(cfg, Touched(if k < |open| then open[k] else BLANK,
                                                              at, typ, obj), at).0);
    var mid := Touched(if k < |open| then open[k] else BLANK, at, typ, obj);
    TouchedHolds(if k < |open| then open[k] else BLANK, at, typ, obj);
    TouchedGrows(if k < |open| then open[k] else BLANK, at, typ, obj);
    EmitKeeps(cfg, mid, at);
    assert s'.open[k] == Emit(cfg, mid, at).0;
  }

  lemma EmitKeeps(cfg: Config, inc: Incident, at: Time)
    requires inc.members != []
    ensures var r := Emit(cfg, inc, at).0; r.members == inc.members && r.last == inc.last
  {
    hide Build, SameActivity;
  }

  // ----- every run -----

  /** Over every run: an incident that has heard something within the gap lives on,
      with all its members. */
  lemma LivesWithinGap(cfg: Config, obs: seq<Observation>, states: seq<Engine>, said: seq<seq<Change>>, n: nat,
                       inc: Incident)
    requires Configured(cfg) && IsRun(cfg, obs, states, said) && n < |obs|
    requires inc in states[n].open && obs[n].at - inc.last < cfg.gap
    ensures LivesOn(states[n + 1].open, inc)
  {
    hide Step, Configured;
    assert Step(cfg, states[n], obs[n].at, obs[n].msg, states[n + 1], said[n]);
    StepLives(cfg, states[n], obs[n].at, obs[n].msg, states[n + 1], said[n], inc);
  }

  /** One that has not ends at the next message, whatever it is about: its objects
      are remembered as closed then, and its end is told if its start was. */
  lemma EndsAtGap(cfg: Config, obs: seq<Observation>, states: seq<Engine>, said: seq<seq<Change>>, n: nat,
                  inc: Incident)
    requires Configured(cfg) && IsRun(cfg, obs, states, said) && n < |obs|
    requires inc in states[n].open && inc.members != [] && obs[n].at - inc.last >= cfg.gap
    ensures forall id :: id in Sources(inc.members) ==>
              id in states[n + 1].closed && states[n + 1].closed[id] == obs[n].at
    ensures inc.said.Some? ==> Change(Ended, Build(cfg, inc, obs[n].at, true)) in said[n]
  {
    hide Step, Configured, Build;
    assert Step(cfg, states[n], obs[n].at, obs[n].msg, states[n + 1], said[n]);
    StepEnds(cfg, states[n], obs[n].at, obs[n].msg, states[n + 1], said[n], inc);
  }

  /** A closed incident's object is remembered for an hour at least, and forgotten
      when another incident closes later than that. */
  lemma RememberedAnHour(cfg: Config, obs: seq<Observation>, states: seq<Engine>, said: seq<seq<Change>>, n: nat)
    requires Configured(cfg) && IsRun(cfg, obs, states, said) && n < |obs|
    ensures forall id :: id in states[n].closed && obs[n].at - states[n].closed[id] <= 3_600_000_000_000 ==>
              id in states[n + 1].closed
    ensures var after := states[n + 1].closed;
            (exists inc :: inc in states[n].open && obs[n].at - inc.last >= cfg.gap) ==>
              forall id :: id in after ==> obs[n].at - after[id] <= 3_600_000_000_000
  {
    hide Step, Configured, ClosedAfter;
    assert Step(cfg, states[n], obs[n].at, obs[n].msg, states[n + 1], said[n]);
    StepCloses(cfg, states[n], obs[n].at, obs[n].msg, states[n + 1], said[n]);
    SweepRemembers(cfg, states[n].open, states[n].closed, obs[n].at);
  }

  /** After a message about an object of interest some incident holds the object and is
      as recent as the message, unless it is remembered as closed or the message is
      its end and no incident holds it. */
  lemma HeardIsHeld(cfg: Config, obs: seq<Observation>, states: seq<Engine>, said: seq<seq<Change>>, n: nat)
    requires Configured(cfg) && IsRun(cfg, obs, states, said) && n < |obs|
    requires obs[n].msg.Tracked? && !obs[n].msg.obj.falsePositive && obs[n].msg.obj.labelName in cfg.labels
    ensures var id, open := obs[n].msg.obj.id, states[n + 1].open;
            || id in states[n + 1].closed
            || (obs[n].msg.typ.End? && !Held(open, id))
            || exists i :: 0 <= i < |open| && id in Sources(open[i].members) && open[i].last == obs[n].at
  {
    hide Step, Configured, Held;
    assert Step(cfg, states[n], obs[n].at, obs[n].msg, states[n + 1], said[n]);
    var id := obs[n].msg.obj.id;
    if id !in states[n + 1].closed && !(obs[n].msg.typ.End? && !Held(states[n + 1].open, id)) {
      StepHolds(cfg, states[n], obs[n].at, obs[n].msg.typ, obs[n].msg.obj, states[n + 1], said[n]);
    }
  }
}
