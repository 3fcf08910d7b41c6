/** Believing classifier verdicts slowly: internal/policy/states.go. */
module States {
  import opened Common

  datatype ModelConfig = ModelConfig(model: string, hold: int, news: bool, alarmClass: string, alarmAfter: int)

  /** rawAt is when raw last changed, heldAt since when held is believed to have
      been so; alarmed says this belief has already alarmed. */
  datatype Model = Model(
    cfg: ModelConfig,
    camera: string,
    raw: string,
    rawAt: Time,
    held: string,
    heldAt: Time,
    alarmed: bool)

  /** A believed change (startedAt == endedAt) or an alarm about one enduring. */
  datatype Announcement = News(model: string, class_: string, camera: string, startedAt: Time, endedAt: Time)
                        | Alarm(model: string, class_: string, camera: string, startedAt: Time, endedAt: Time)

  /** One broker message: a classifier's verdict, never the empty class, or
      anything else. */
  datatype Reading = Other | Verdict(model: string, camera: string, class_: string)

  function Blank(cfg: ModelConfig): Model {
    Model(cfg.(hold := if cfg.hold <= 0 then 10 * MINUTE else cfg.hold), "", "", UNSET, "", UNSET, false)
  }

  /** The model once a verdict about it has been noted. */
  function Noted(m: Model, at: Time, camera: string, class_: string): Model {
    var seen := m.(camera := camera,
                   raw := class_,
                   rawAt := if class_ != m.raw then at else m.rawAt);
    if m.held == "" then seen.(held := class_, heldAt := at) else seen
  }

  function Believed(m: Model, at: Time): Model {
    if m.raw != "" && m.raw != m.held && at - m.rawAt >= m.cfg.hold
    then m.(held := m.raw, heldAt := m.rawAt, alarmed := false)
    else m
  }

  predicate Alarms(m: Model, at: Time) {
    !m.alarmed && m.cfg.alarmClass != "" && m.held == m.cfg.alarmClass && at - m.heldAt >= m.cfg.alarmAfter
  }

  function Ticked(m: Model, at: Time): Model {
    var b := Believed(m, at);
    if Alarms(b, at) then b.(alarmed := true) else b
  }

  function Announced(m: Model, at: Time): seq<Announcement> {
    var b := Believed(m, at);
    (if b.held != m.held && m.cfg.news then [News(m.cfg.model, b.held, b.camera, b.heldAt, b.heldAt)] else []) +
    (if Alarms(b, at) then [Alarm(m.cfg.model, b.held, b.camera, b.heldAt, at)] else [])
  }

  /** What was announced about one model. */
  function AnnouncedOf(changes: seq<Announcement>, model: string): seq<Announcement> {
    if changes == [] then []
    else
      var c := changes[|changes| - 1];
      AnnouncedOf(changes[..|changes| - 1], model) + (if c.model == model then [c] else [])
  }

  lemma AnnouncedGrows(changes: seq<Announcement>, more: seq<Announcement>, model: string)
    requires forall c :: c in more ==> c.model == model
    ensures AnnouncedOf(changes + more, model) == AnnouncedOf(changes, model) + more
    ensures forall k :: k != model ==> AnnouncedOf(changes + more, k) == AnnouncedOf(changes, k)
  {
    forall k ensures AnnouncedOf(changes + more, k) == AnnouncedOf(changes, k) + if k == model then more else [] {
      AnnouncedTo(changes, more, model, k);
    }
  }

  lemma {:induction false} AnnouncedTo(changes: seq<Announcement>, more: seq<Announcement>, model: string, k: string)
    requires forall c :: c in more ==> c.model == model
    ensures AnnouncedOf(changes + more, k) == AnnouncedOf(changes, k) + if k == model then more else []
    decreases |more|
  {
    hide AnnouncedOf;
    if more == [] {
      assert changes + more == changes;
    } else {
      var most, c := more[..|more| - 1], more[|more| - 1];
      AnnouncedTo(changes, most, model, k);
      AnnouncedLast(changes + most, c, k);
      assert changes + more == changes + most + [c];
      assert more == most + [c];
    }
  }

  lemma AnnouncedLast(changes: seq<Announcement>, c: Announcement, k: string)
    ensures AnnouncedOf(changes + [c], k) == AnnouncedOf(changes, k) + if c.model == k then [c] else []
  {
    assert (changes + [c])[..|changes|] == changes;
  }

  /** A message as one model sees it: class_ is "" when it is not about it. */
  datatype Entry = Entry(at: Time, camera: string, class_: string)

  function EntryFor(model: string, at: Time, r: Reading): Entry {
    if r.Verdict? && r.model == model then Entry(at, r.camera, r.class_) else Entry(at, "", "")
  }

  function HeardOne(m: Model, e: Entry): Model {
    if e.class_ != "" then Noted(m, e.at, e.camera, e.class_) else m
  }

  function AfterReading(m: Model, at: Time, r: Reading): Model {
    HeardOne(m, EntryFor(m.cfg.model, at, r))
  }

  class StatesEngine {
    var models: map<string, Model>

    ghost predicate Valid()
      reads this
    {
      forall k :: k in models ==> models[k].cfg.model == k && models[k].cfg.hold > 0
    }

    constructor (cfgs: seq<ModelConfig>)
      ensures Valid()
      ensures models.Keys == set i | 0 <= i < |cfgs| :: cfgs[i].model
      ensures forall k :: k in models ==> exists i :: 0 <= i < |cfgs| && models[k] == Blank(cfgs[i])
    {
      var ms: map<string, Model> := map[];
      for i := 0 to |cfgs|
        invariant ms.Keys == set j | 0 <= j < i :: cfgs[j].model
        invariant forall k :: k in ms ==> ms[k].cfg.model == k && exists j :: 0 <= j < i && ms[k] == Blank(cfgs[j])
      {
        ms := ms[cfgs[i].model := Blank(cfgs[i])];
      }
      models := ms;
    }

    /** Every message is a clock tick for every model. */
    method Observe(at: Time, r: Reading) returns (changes: seq<Announcement>)
      requires Valid() && (r.Verdict? ==> r.class_ != "")
      modifies this
      ensures Valid() && models.Keys == old(models).Keys
      ensures forall k :: k in models ==>
                && models[k] == Ticked(AfterReading(old(models)[k], at, r), at)
                && AnnouncedOf(changes, k) == Announced(AfterReading(old(models)[k], at, r), at)
    {
      Note(at, r);
      changes := Tick(at);
    }

    method Note(at: Time, r: Reading)
      requires Valid() && (r.Verdict? ==> r.class_ != "")
      modifies this
      ensures Valid() && models.Keys == old(models).Keys
      ensures forall k :: k in models ==> models[k] == AfterReading(old(models)[k], at, r)
    {
      if r.Verdict? && r.model in models {
        var m := models[r.model];
        m := m.(camera := r.camera);
        if r.class_ != m.raw {
          m := m.(raw := r.class_, rawAt := at);
        }
        if m.held == "" {
          m := m.(held := r.class_, heldAt := at);
        }
        models := models[r.model := m];
      }
    }

    method Tick(at: Time) returns (changes: seq<Announcement>)
      requires Valid()
      modifies this
      ensures Valid() && models.Keys == old(models).Keys
      ensures forall k :: k in models ==>
                models[k] == Ticked(old(models)[k], at) && AnnouncedOf(changes, k) == Announced(old(models)[k], at)
    {
      changes := [];
      var next := models;
      var todo := models.Keys;
      while todo != {}
        invariant todo <= models.Keys == next.Keys
        invariant models == old(models)
        invariant HalfTicked(models, next, at, changes, todo)
      {
        var key :| key in todo;
        var m, said := TickModel(next[key], at);
        HalfTickedOne(models, next, at, changes, todo, key, said);
        todo := todo - {key};
        next := next[key := m];
        changes := changes + said;
      }
      models := next;
    }
  }

  /** Midway through a tick: these models are still to have theirs. */
  ghost predicate HalfTicked(models: map<string, Model>, next: map<string, Model>, at: Time,
                             changes: seq<Announcement>, todo: set<string>)
    requires todo <= models.Keys == next.Keys
  {
    forall k :: k in models ==>
      if k in todo then next[k] == models[k] && AnnouncedOf(changes, k) == []
      else next[k] == Ticked(models[k], at) && AnnouncedOf(changes, k) == Announced(models[k], at)
  }

  lemma HalfTickedOne(models: map<string, Model>, next: map<string, Model>, at: Time,
                      changes: seq<Announcement>, todo: set<string>, key: string, said: seq<Announcement>)
    requires key in todo && todo <= models.Keys == next.Keys && HalfTicked(models, next, at, changes, todo)
    requires said == Announced(models[key], at) && forall c :: c in said ==> c.model == key
    ensures HalfTicked(models, next[key := Ticked(models[key], at)], at, changes + said, todo - {key})
  {
    AnnouncedGrows(changes, said, key);
    var next' := next[key := Ticked(models[key], at)];
    forall k | k in models
      ensures if k in todo - {key} then next'[k] == models[k] && AnnouncedOf(changes + said, k) == []
              else next'[k] == Ticked(models[k], at) && AnnouncedOf(changes + said, k) == Announced(models[k], at)
    {
      if k != key {
        assert next'[k] == next[k] && AnnouncedOf(changes + said, k) == AnnouncedOf(changes, k);
      }
    }
  }

  method TickModel(before: Model, at: Time) returns (m: Model, said: seq<Announcement>)
    ensures m == Ticked(before, at) && said == Announced(before, at)
    ensures forall c :: c in said ==> c.model == before.cfg.model
  {
    m, said := before, [];
    if m.raw != "" && m.raw != m.held && at - m.rawAt >= m.cfg.hold {
      m := m.(held := m.raw, heldAt := m.rawAt, alarmed := false);
      if m.cfg.news {
        said := said + [News(m.cfg.model, m.held, m.camera, m.rawAt, m.rawAt)];
      }
    }
    if !m.alarmed && m.cfg.alarmClass != "" && m.held == m.cfg.alarmClass && at - m.heldAt >= m.cfg.alarmAfter {
      m := m.(alarmed := true);
      said := said + [Alarm(m.cfg.model, m.held, m.camera, m.heldAt, at)];
    }
  }

  // ----- one model over a whole trace -----

  type Trace = seq<Entry>

  ghost predicate Clocked(tr: Trace) {
    forall i, j :: 0 <= i < j < |tr| ==> tr[i].at <= tr[j].at
  }

  function Run(cfg: ModelConfig, tr: Trace): Model {
    if tr == [] then Blank(cfg)
    else Ticked(HeardOne(Run(cfg, tr[..|tr| - 1]), tr[|tr| - 1]), tr[|tr| - 1].at)
  }

  /** From message j to message i the verdicts say nothing but c, and did so for
      at least hold by message i's clock. */
  ghost predicate Endured(tr: Trace, hold: int, j: nat, i: nat, c: string) {
    && j <= i < |tr| && c != "" && tr[j].class_ == c
    && (forall k :: j <= k <= i ==> tr[k].class_ == "" || tr[k].class_ == c)
    && tr[i].at - tr[j].at >= hold
  }

  /** Message i shows some verdict having endured. */
  ghost predicate Proves(tr: Trace, hold: int, i: nat, c: string) {
    exists j: nat :: Endured(tr, hold, j, i, c)
  }

  /** c is what the latest message with a proof proves, or first for want of
      any. */
  ghost predicate IsLatest(proves: (nat, string) -> bool, first: string, c: string) {
    || (exists i: nat :: proves(i, c) && forall k: nat, d :: k > i ==> !proves(k, d))
    || ((forall i: nat, d :: !proves(i, d)) && c == first)
  }

  /** The debounced verdict of a trace: the one the latest proof is of, or for
      want of any proof the first. */
  ghost predicate IsDebounced(tr: Trace, hold: int, c: string) {
    IsLatest(ProofsOf(tr, hold), FirstClass(tr), c)
  }

  ghost function ProofsOf(tr: Trace, hold: int): (nat, string) -> bool {
    (i: nat, c: string) => Proves(tr, hold, i, c)
  }

  function FirstClass(tr: Trace): string {
    if tr == [] then ""
    else
      var c := FirstClass(tr[..|tr| - 1]);
      if c != "" then c else tr[|tr| - 1].class_
  }

  /** Where the current unbroken run of verdicts began. */
  function RunStart(tr: Trace): (s: nat)
    ensures s <= |tr|
  {
    if tr == [] then 0
    else
      var n := |tr| - 1;
      if tr[n].class_ == "" || tr[n].class_ == LastClass(tr[..n]) then RunStart(tr[..n]) else n
  }

  function LastClass(tr: Trace): string {
    if tr == [] then ""
    else if tr[|tr| - 1].class_ != "" then tr[|tr| - 1].class_
    else LastClass(tr[..|tr| - 1])
  }

  /** raw and rawAt are the last verdict and when its run began. */
  /** What one message does to the verdict last seen. */
  lemma RawStep(before: Model, e: Entry)
    requires before.held == "" <==> before.raw == ""
    ensures var m := Ticked(HeardOne(before, e), e.at);
            && m.cfg == before.cfg
            && m.raw == (if e.class_ != "" then e.class_ else before.raw)
            && m.rawAt == (if e.class_ != "" && e.class_ != before.raw then e.at else before.rawAt)
            && (m.held == "" <==> before.held == "" && e.class_ == "")
  {
  }

  lemma {:induction false} RawIsCurrentRun(cfg: ModelConfig, tr: Trace)
    ensures var m := Run(cfg, tr);
            && m.raw == LastClass(tr)
            && m.cfg == Blank(cfg).cfg
            && (m.held == "" <==> m.raw == "")
            && (m.raw != "" ==> RunStart(tr) < |tr| && m.rawAt == tr[RunStart(tr)].at
                                && tr[RunStart(tr)].class_ == m.raw)
            && forall k :: RunStart(tr) <= k < |tr| ==> tr[k].class_ == "" || tr[k].class_ == m.raw
    decreases |tr|
  {
    hide Ticked, HeardOne;
    if tr != [] {
      RawIsCurrentRun(cfg, tr[..|tr| - 1]);
      RawStep(Run(cfg, tr[..|tr| - 1]), tr[|tr| - 1]);
    }
  }

  /** No longer unbroken run reaches the present. */
  lemma {:induction false} RunStartIsLeast(tr: Trace, j: nat)
    requires j < |tr| && tr[j].class_ == LastClass(tr) != ""
    requires forall k :: j <= k < |tr| ==> tr[k].class_ == "" || tr[k].class_ == LastClass(tr)
    ensures RunStart(tr) <= j
    decreases |tr|
  {
    var n := |tr| - 1;
    if j < n {
      var init := tr[..n];
      LastClassSince(init, j);
      RunStartIsLeast(init, j);
    }
  }

  /** If nothing but c has been said since j, c was said last. */
  lemma {:induction false} LastClassSince(tr: Trace, j: nat)
    requires j < |tr| && tr[j].class_ != ""
    requires forall k :: j <= k < |tr| ==> tr[k].class_ == "" || tr[k].class_ == tr[j].class_
    ensures LastClass(tr) == tr[j].class_
    decreases |tr|
  {
    if j < |tr| - 1 {
      LastClassSince(tr[..|tr| - 1], j);
    }
  }

  /** A message proves the current verdict, and no other, exactly when its run
      has lasted hold. */
  lemma ProvesNow(cfg: ModelConfig, tr: Trace, c: string)
    requires tr != [] && Clocked(tr)
    ensures var m := Run(cfg, tr);
            Proves(tr, m.cfg.hold, |tr| - 1, c) <==>
              c == m.raw && m.raw != "" && tr[|tr| - 1].at - m.rawAt >= m.cfg.hold
  {
    var m, n := Run(cfg, tr), |tr| - 1;
    RawIsCurrentRun(cfg, tr);
    if Proves(tr, m.cfg.hold, n, c) {
      var j: nat :| Endured(tr, m.cfg.hold, j, n, c);
      LastClassSince(tr, j);
      RunStartIsLeast(tr, j);
    }
    if c == m.raw && m.raw != "" && tr[n].at - m.rawAt >= m.cfg.hold {
      assert Endured(tr, m.cfg.hold, RunStart(tr), n, c);
    }
  }

  /** Earlier messages prove the same of a longer trace. */
  lemma ProvesPrefix(tr: Trace, hold: int, i: nat, c: string)
    requires tr != []
    ensures i < |tr| - 1 ==> (Proves(tr, hold, i, c) <==> Proves(tr[..|tr| - 1], hold, i, c))
    ensures i >= |tr| - 1 ==> !Proves(tr[..|tr| - 1], hold, i, c)
    ensures i >= |tr| ==> !Proves(tr, hold, i, c)
  {
    var init := tr[..|tr| - 1];
    if i < |tr| - 1 {
      forall j: nat ensures Endured(tr, hold, j, i, c) <==> Endured(init, hold, j, i, c) {
        assert forall k :: 0 <= k < |init| ==> init[k] == tr[k];
      }
    }
  }

  /** The belief after any trace is the debounced verdict of that trace. */
  lemma {:induction false} HeldIsDebounced(cfg: ModelConfig, tr: Trace)
    requires Clocked(tr)
    ensures IsDebounced(tr, Blank(cfg).cfg.hold, Run(cfg, tr).held)
    decreases |tr|
  {
    var hold := Blank(cfg).cfg.hold;
    if tr == [] {
      assert forall i: nat, c :: !Proves(tr, hold, i, c);
    } else {
      var init, n := tr[..|tr| - 1], |tr| - 1;
      HeldIsDebounced(cfg, init);
      var before, after := ProofsOf(init, hold), ProofsOf(tr, hold);
      forall i: nat, c
        ensures (i < n ==> after(i, c) == before(i, c)) && (i >= n ==> !before(i, c)) && (i > n ==> !after(i, c))
      {
        ProvesPrefix(tr, hold, i, c);
      }
      var m := Run(cfg, tr);
      var proven := m.raw != "" && tr[n].at - m.rawAt >= hold;
      forall c ensures after(n, c) <==> proven && c == m.raw {
        RawIsCurrentRun(cfg, tr);
        ProvesNow(cfg, tr, c);
      }
      HeldStep(cfg, tr);
      LatestStep(before, after, n, FirstClass(init), tr[n].class_, Run(cfg, init).held,
                 if proven then Some(m.raw) else None);
    }
  }

  /** One more message, proving one verdict or none. */
  lemma LatestStep(before: (nat, string) -> bool, after: (nat, string) -> bool, n: nat,
                   first: string, class_: string, held: string, proven: Option<string>)
    requires IsLatest(before, first, held)
    requires held == "" <==> first == ""
    requires forall i: nat, c :: i < n ==> after(i, c) == before(i, c)
    requires forall i: nat, c :: (i >= n ==> !before(i, c)) && (i > n ==> !after(i, c))
    requires forall c :: after(n, c) <==> proven == Some(c)
    requires forall i: nat :: !before(i, "")
    ensures IsLatest(after, if first != "" then first else class_,
                     match proven case Some(c) => c case None => if held != "" then held else class_)
  {
    if proven.Some? {
      assert after(n, proven.value);
    } else if i: nat :| before(i, held) && forall k: nat, d :: k > i ==> !before(k, d) {
      assert after(i, held);
    }
  }

  /** How one message moves the belief. */
  lemma HeldStep(cfg: ModelConfig, tr: Trace)
    requires tr != []
    ensures var n := |tr| - 1;
            var before, m := Run(cfg, tr[..n]), Run(cfg, tr);
            && (m.held == if m.raw != "" && tr[n].at - m.rawAt >= Blank(cfg).cfg.hold then m.raw
                          else if before.held != "" then before.held
                          else tr[n].class_)
            && (before.held == "" <==> FirstClass(tr[..n]) == "")
  {
    RawIsCurrentRun(cfg, tr[..|tr| - 1]);
    FirstOrNone(tr[..|tr| - 1]);
  }

  lemma {:induction false} FirstOrNone(tr: Trace)
    ensures FirstClass(tr) == "" <==> LastClass(tr) == ""
    ensures LastClass(tr) == "" ==> forall i :: 0 <= i < |tr| ==> tr[i].class_ == ""
    decreases |tr|
  {
    if tr != [] {
      FirstOrNone(tr[..|tr| - 1]);
    }
  }

  /** A trace has one debounced verdict. */
  lemma DebouncedIsUnique(tr: Trace, hold: int, a: string, b: string)
    requires IsDebounced(tr, hold, a) && IsDebounced(tr, hold, b)
    ensures a == b
  {
    forall i: nat, c, d | Proves(tr, hold, i, c) && Proves(tr, hold, i, d) ensures c == d {
      var x: nat :| Endured(tr, hold, x, i, c);
      var y: nat :| Endured(tr, hold, y, i, d);
    }
  }

  // ----- news and alarms over a trace -----

  /** What message i makes a model announce. */
  function SaidAt(cfg: ModelConfig, tr: Trace, i: nat): seq<Announcement>
    requires i < |tr|
  {
    Announced(HeardOne(Run(cfg, tr[..i]), tr[i]), tr[i].at)
  }

  /** Message i changes the belief; adopting the first verdict is no change. */
  predicate ChangesBelief(cfg: ModelConfig, tr: Trace, i: nat)
    requires i < |tr|
  {
    Run(cfg, tr[..i]).held != "" && Run(cfg, tr[..i + 1]).held != Run(cfg, tr[..i]).held
  }

  predicate SaysNews(said: seq<Announcement>) {
    exists k :: 0 <= k < |said| && said[k].News?
  }

  predicate SaysAlarm(said: seq<Announcement>) {
    exists k :: 0 <= k < |said| && said[k].Alarm?
  }

  /** News is told once for each change of belief, and names the new one. */
  lemma NewsIffBeliefChanges(cfg: ModelConfig, tr: Trace, i: nat)
    requires i < |tr|
    ensures var said := SaidAt(cfg, tr, i);
            && (SaysNews(said) <==> cfg.news && ChangesBelief(cfg, tr, i))
            && (forall k :: 0 <= k < |said| && said[k].News? ==> k == 0 && said[k].class_ == Run(cfg, tr[..i + 1]).held)
  {
    assert tr[..i + 1][..i] == tr[..i];
    RawIsCurrentRun(cfg, tr[..i]);
    var b, m := HeardOne(Run(cfg, tr[..i]), tr[i]), Run(cfg, tr[..i + 1]);
    var said := SaidAt(cfg, tr, i);
    assert m == Ticked(b, tr[i].at);
    if b.held != m.held && cfg.news {
      assert said[0].News?;
    }
  }

  /** Where the present belief began: the last message to change it. */
  function EpisodeStart(cfg: ModelConfig, tr: Trace): (a: nat)
    ensures a <= |tr|
  {
    if tr == [] then 0
    else if ChangesBelief(cfg, tr, |tr| - 1) then |tr| - 1
    else EpisodeStart(cfg, tr[..|tr| - 1])
  }

  /** The message with the first verdict, or the length. */
  function FirstVerdict(tr: Trace): (i: nat)
    ensures i <= |tr| && (i < |tr| ==> tr[i].class_ != "") && forall k :: 0 <= k < i ==> tr[k].class_ == ""
  {
    if tr == [] then 0
    else
      var i := FirstVerdict(tr[..|tr| - 1]);
      if i == |tr| - 1 && tr[i].class_ == "" then |tr| else i
  }

  /** The message since which the present belief is held to have been true: where the
      run of verdicts that changed it began, or for the first belief its verdict. */
  function BeliefSince(cfg: ModelConfig, tr: Trace): (i: nat)
    ensures i <= |tr|
  {
    var a := EpisodeStart(cfg, tr);
    if 0 < a < |tr| then RunStart(tr[..a + 1]) else FirstVerdict(tr)
  }

  /** One message more leaves that message as it is, changes it to where the run of
      verdicts now proved began, or is itself the first verdict. */
  lemma BeliefSinceStep(cfg: ModelConfig, tr: Trace)
    requires tr != []
    ensures var n, init := |tr| - 1, tr[..|tr| - 1];
            BeliefSince(cfg, tr) ==
            if ChangesBelief(cfg, tr, n) then RunStart(tr)
            else if EpisodeStart(cfg, init) == 0 && FirstVerdict(init) == n && tr[n].class_ == "" then n + 1
            else BeliefSince(cfg, init)
    ensures EpisodeStart(cfg, tr) < |tr|
  {
    var n, init := |tr| - 1, tr[..|tr| - 1];
    assert tr[..n + 1] == tr;
    assert n == 0 ==> !ChangesBelief(cfg, tr, n);
    var a := EpisodeStart(cfg, init);
    EpisodeInRange(cfg, init);
    assert a < n ==> init[..a + 1] == tr[..a + 1];
  }

  lemma {:induction false} EpisodeInRange(cfg: ModelConfig, tr: Trace)
    ensures tr != [] ==> EpisodeStart(cfg, tr) < |tr|
    decreases |tr|
  {
    if tr != [] {
      EpisodeInRange(cfg, tr[..|tr| - 1]);
    }
  }

  /** heldAt is read off the messages alone. */
  lemma {:induction false} HeldAtIsBeliefSince(cfg: ModelConfig, tr: Trace)
    ensures var m, i := Run(cfg, tr), BeliefSince(cfg, tr);
            if m.held == "" then i == |tr| && EpisodeStart(cfg, tr) == 0
            else i < |tr| && m.heldAt == tr[i].at
    decreases |tr|
  {
    hide BeliefSince, RunStart, FirstVerdict;
    if tr != [] {
      var init, n := tr[..|tr| - 1], |tr| - 1;
      HeldAtIsBeliefSince(cfg, init);
      BeliefSinceStep(cfg, tr);
      RawIsCurrentRun(cfg, init);
      RawIsCurrentRun(cfg, tr);
      assert tr[..n + 1] == tr;
      if EpisodeStart(cfg, init) == 0 {
        FirstIsSince(cfg, init);
      }
    } else {
      FirstIsSince(cfg, tr);
    }
  }

  lemma FirstIsSince(cfg: ModelConfig, tr: Trace)
    requires EpisodeStart(cfg, tr) == 0
    ensures BeliefSince(cfg, tr) == FirstVerdict(tr)
  {
  }

  /** Message i sees the alarm class believed true for alarmAfter. */
  predicate SeesAlarming(cfg: ModelConfig, tr: Trace, i: nat)
    requires i < |tr|
  {
    && cfg.alarmClass != "" && Run(cfg, tr[..i + 1]).held == cfg.alarmClass
    && BeliefSince(cfg, tr[..i + 1]) <= i && tr[i].at - tr[BeliefSince(cfg, tr[..i + 1])].at >= cfg.alarmAfter
  }

  /** Alarms told by messages from to n - 1. */
  function AlarmCount(cfg: ModelConfig, tr: Trace, from: nat, n: nat): nat
    requires from <= n <= |tr|
  {
    if n == from then 0
    else AlarmCount(cfg, tr, from, n - 1) + (if SaysAlarm(SaidAt(cfg, tr, n - 1)) then 1 else 0)
  }

  lemma {:induction false} AlarmCountPrefix(cfg: ModelConfig, tr: Trace, from: nat, n: nat)
    requires from <= n < |tr|
    ensures AlarmCount(cfg, tr, from, n) == AlarmCount(cfg, tr[..|tr| - 1], from, n)
    decreases n
  {
    if from < n {
      AlarmCountPrefix(cfg, tr, from, n - 1);
      assert tr[..|tr| - 1][..n - 1] == tr[..n - 1];
    }
  }

  /** What one message does to the alarm: it starts afresh with a changed
      belief, and then sounds if the message sees the alarm class endure and it
      has not sounded yet. */
  lemma AlarmStep(cfg: ModelConfig, tr: Trace)
    requires tr != []
    ensures var n := |tr| - 1;
            var before := !ChangesBelief(cfg, tr, n) && Run(cfg, tr[..n]).alarmed;
            && Run(cfg, tr).alarmed == (before || SeesAlarming(cfg, tr, n))
            && (SaysAlarm(SaidAt(cfg, tr, n)) <==> !before && SeesAlarming(cfg, tr, n))
  {
    var n := |tr| - 1;
    assert tr[..n + 1] == tr;
    RawIsCurrentRun(cfg, tr[..n]);
    NoAlarmUnheld(cfg, tr[..n]);
    HeldAtIsBeliefSince(cfg, tr);
    var b := Believed(HeardOne(Run(cfg, tr[..n]), tr[n]), tr[n].at);
    var said := SaidAt(cfg, tr, n);
    if Alarms(b, tr[n].at) {
      assert said[|said| - 1].Alarm?;
    }
  }

  lemma {:induction false} NoAlarmUnheld(cfg: ModelConfig, tr: Trace)
    ensures Run(cfg, tr).held == "" ==> !Run(cfg, tr).alarmed
    decreases |tr|
  {
    if tr != [] {
      NoAlarmUnheld(cfg, tr[..|tr| - 1]);
      RawIsCurrentRun(cfg, tr[..|tr| - 1]);
      RawIsCurrentRun(cfg, tr);
    }
  }

  ghost predicate SomeSees(cfg: ModelConfig, tr: Trace, from: nat) {
    exists i :: from <= i < |tr| && SeesAlarming(cfg, tr, i)
  }

  lemma SomeSeesStep(cfg: ModelConfig, tr: Trace, from: nat)
    requires tr != [] && from < |tr|
    ensures SomeSees(cfg, tr, from) <==> SomeSees(cfg, tr[..|tr| - 1], from) || SeesAlarming(cfg, tr, |tr| - 1)
  {
    var init := tr[..|tr| - 1];
    forall i | 0 <= i < |init| ensures SeesAlarming(cfg, tr, i) == SeesAlarming(cfg, init, i) {
      assert init[..i + 1] == tr[..i + 1];
    }
    if SomeSees(cfg, init, from) {
      var i :| from <= i < |init| && SeesAlarming(cfg, init, i);
      assert SeesAlarming(cfg, tr, i);
    }
  }

  lemma AlarmCountStep(cfg: ModelConfig, tr: Trace, from: nat)
    requires tr != [] && from < |tr|
    ensures AlarmCount(cfg, tr, from, |tr|) ==
            AlarmCount(cfg, tr[..|tr| - 1], from, |tr| - 1) + if SaysAlarm(SaidAt(cfg, tr, |tr| - 1)) then 1 else 0
  {
    AlarmCountPrefix(cfg, tr, from, |tr| - 1);
  }

  /** Each belief alarms at most once, and does so exactly when some message of
      its life sees the alarm class believed for alarmAfter. */
  lemma {:induction false} AlarmOncePerBelief(cfg: ModelConfig, tr: Trace)
    ensures var a := EpisodeStart(cfg, tr);
            && (Run(cfg, tr).alarmed <==> SomeSees(cfg, tr, a))
            && AlarmCount(cfg, tr, a, |tr|) == if SomeSees(cfg, tr, a) then 1 else 0
    decreases |tr|
  {
    if tr != [] {
      var init, n, a := tr[..|tr| - 1], |tr| - 1, EpisodeStart(cfg, tr);
      AlarmOncePerBelief(cfg, init);
      AlarmStep(cfg, tr);
      SomeSeesStep(cfg, tr, a);
      AlarmCountStep(cfg, tr, a);
      if ChangesBelief(cfg, tr, n) {
        assert a == n && AlarmCount(cfg, init, n, n) == 0;
      } else {
        assert a == EpisodeStart(cfg, init);
      }
    }
  }

  // ----- what an announcement names -----

  /** Message p brought the last verdict. */
  ghost predicate LastVerdict(tr: Trace, p: nat) {
    p < |tr| && tr[p].class_ != "" && forall k :: p < k < |tr| ==> tr[k].class_ == ""
  }

  lemma {:induction false} CameraIsOfLastVerdict(cfg: ModelConfig, tr: Trace)
    ensures forall p: nat :: LastVerdict(tr, p) ==> Run(cfg, tr).camera == tr[p].camera
    ensures Run(cfg, tr).held != "" || Run(cfg, tr).raw != "" ==> exists p: nat :: LastVerdict(tr, p)
    decreases |tr|
  {
    if tr != [] {
      var init, n := tr[..|tr| - 1], |tr| - 1;
      CameraIsOfLastVerdict(cfg, init);
      if tr[n].class_ != "" {
        assert LastVerdict(tr, n);
      } else {
        forall p: nat ensures LastVerdict(tr, p) <==> LastVerdict(init, p) {
          assert LastVerdict(tr, p) ==> p < n;
        }
      }
    }
  }

  lemma AnnouncedNames(m: Model, at: Time, k: nat)
    requires k < |Announced(m, at)| && (m.held == "" ==> m.raw == "")
    ensures var c, b := Announced(m, at)[k], Ticked(m, at);
            && c.model == m.cfg.model && c.class_ == b.held != "" && c.camera == b.camera && c.startedAt == b.heldAt
            && (c.News? ==> c.endedAt == c.startedAt)
            && (c.Alarm? ==> c.class_ == m.cfg.alarmClass && c.endedAt == at)
  {
  }

  /** Whatever message i makes a model announce names the model, the class believed
      since and the camera of the last verdict.  News is of the instant since when the
      new class is believed; an alarm is about the alarm class, from that instant to
      now. */
  lemma AnnouncementNames(cfg: ModelConfig, tr: Trace, i: nat, k: nat)
    requires i < |tr| && k < |SaidAt(cfg, tr, i)|
    ensures var c, upto := SaidAt(cfg, tr, i)[k], tr[..i + 1];
            && c.model == cfg.model && c.class_ == Run(cfg, upto).held
            && (exists p: nat :: LastVerdict(upto, p) && c.camera == upto[p].camera)
            && BeliefSince(cfg, upto) <= i && c.startedAt == tr[BeliefSince(cfg, upto)].at
            && (c.News? ==> c.endedAt == c.startedAt)
            && (c.Alarm? ==> c.class_ == cfg.alarmClass && c.endedAt == tr[i].at)
  {
    hide BeliefSince, Announced, Ticked;
    var upto := tr[..i + 1];
    assert upto[..i] == tr[..i];
    RawIsCurrentRun(cfg, tr[..i]);
    AnnouncedNames(HeardOne(Run(cfg, tr[..i]), tr[i]), tr[i].at, k);
    CameraIsOfLastVerdict(cfg, upto);
    HeldAtIsBeliefSince(cfg, upto);
  }

  // ----- runs of the engine -----

  datatype Observation = Observation(at: Time, r: Reading)

  /** The engine's models between messages, and what each message made it say. */
  ghost predicate IsRun(obs: seq<Observation>, states: seq<map<string, Model>>, said: seq<seq<Announcement>>) {
    && |said| == |obs| && |states| == |obs| + 1
    && (forall k :: k in states[0] ==> states[0][k] == Blank(states[0][k].cfg) && states[0][k].cfg.model == k)
    && forall i :: 0 <= i < |obs| ==> Observed(states[i], obs[i], states[i + 1], said[i])
  }

  /** What Observe promises of one message. */
  ghost predicate Observed(before: map<string, Model>, o: Observation, after: map<string, Model>,
                           said: seq<Announcement>)
  {
    && after.Keys == before.Keys
    && forall k :: k in before ==>
         && after[k] == Ticked(AfterReading(before[k], o.at, o.r), o.at)
         && AnnouncedOf(said, k) == Announced(AfterReading(before[k], o.at, o.r), o.at)
  }

  /** The messages as one model sees them. */
  function TraceOf(obs: seq<Observation>, model: string): (tr: Trace)
    ensures |tr| == |obs|
    ensures forall i :: 0 <= i < |obs| ==> tr[i] == EntryFor(model, obs[i].at, obs[i].r)
  {
    seq(|obs|, i requires 0 <= i < |obs| => EntryFor(model, obs[i].at, obs[i].r))
  }

  /** In every run of the engine each model goes through, and is announced as, the
      fold of its own trace of the messages. */
  lemma {:induction false} EveryModelRuns(obs: seq<Observation>, states: seq<map<string, Model>>,
                                          said: seq<seq<Announcement>>, model: string, n: nat)
    requires IsRun(obs, states, said) && model in states[0] && n <= |obs|
    ensures var cfg, tr := states[0][model].cfg, TraceOf(obs, model);
            && model in states[n] && states[n][model] == Run(cfg, tr[..n])
            && (n < |obs| ==> AnnouncedOf(said[n], model) == SaidAt(cfg, tr, n))
    decreases n
  {
    hide Ticked, Announced, HeardOne;
    var cfg, tr := states[0][model].cfg, TraceOf(obs, model);
    RawIsCurrentRun(cfg, tr[..n]);
    if n > 0 {
      EveryModelRuns(obs, states, said, model, n - 1);
      assert Observed(states[n - 1], obs[n - 1], states[n], said[n - 1]);
      RawIsCurrentRun(cfg, tr[..n - 1]);
      assert tr[..n][..n - 1] == tr[..n - 1];
    }
    if n < |obs| {
      assert Observed(states[n], obs[n], states[n + 1], said[n]);
    }
  }
}
