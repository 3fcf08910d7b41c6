/** What holds of the occupancy ledgers over every run. */
module OccupancyRuns {
  import opened Common
  import opened Policy
  import opened Occupancy

  // ----- how the track table evolves -----

  /** A zone clock running after a step either started at the step or was
      already running, with the same start, on the same camera and label. */
  ghost predicate Evolves(before: Tracks, after: Tracks, at: Time) {
    forall id, z :: id in after && z in after[id].entered ==>
      after[id].entered[z] == at || Carried(before, after, id, z)
  }

  ghost predicate Carried(before: Tracks, after: Tracks, id: string, z: string)
    requires id in after && z in after[id].entered
  {
    && id in before && z in before[id].entered
    && before[id].entered[z] == after[id].entered[z]
    && before[id].camera == after[id].camera && before[id].labelName == after[id].labelName
  }

  lemma AbsorbedEvolves(watches: map<string, Watch>, tracks: Tracks, at: Time, typ: MessageType, obj: Object)
    ensures Evolves(tracks, Absorbed(watches, tracks, at, typ, obj), at)
  {
  }

  // ----- runs of one ledger -----

  datatype Tick = Tick(at: Time, tracks: Tracks)

  /** A ledger's life from empty: the ticks, the ledger between them and what it
      said, under a clock that never runs backwards. */
  ghost predicate IsLedgerRun(ticks: seq<Tick>, ls: seq<Ledger>, said: seq<seq<Transition>>) {
    && |said| == |ticks| && |ls| == |ticks| + 1
    && ls[0] == Blank(ls[0].watch, ls[0].labelName)
    && ls[0].watch.arriveAfter > 0 && ls[0].watch.departAfter > 0
    && (forall i :: 0 <= i < |ticks| ==> ticks[i].at != UNSET)
    && (forall i, j :: 0 <= i < j < |ticks| ==> ticks[i].at <= ticks[j].at)
    && (forall i :: 0 <= i < |ticks| ==> EvolvesAt(ticks, i))
    && (forall i :: 0 <= i < |ticks| ==> StepsAt(ticks, ls, said, i))
  }

  ghost predicate EvolvesAt(ticks: seq<Tick>, i: nat)
    requires i < |ticks|
  {
    Evolves(if i == 0 then map[] else ticks[i - 1].tracks, ticks[i].tracks, ticks[i].at)
  }

  ghost predicate StepsAt(ticks: seq<Tick>, ls: seq<Ledger>, said: seq<seq<Transition>>, i: nat)
    requires i < |said| == |ticks| && |ls| == |ticks| + 1
  {
    LedgerStep(ls[i], ticks[i].at, ticks[i].tracks, ls[i + 1], said[i])
  }

  /** Everything later proofs need of one tick; base asks the same question as
      l, how many of this label are in this zone. */
  ghost predicate StepFacts(base: Ledger, l: Ledger, at: Time, tracks: Tracks, l': Ledger, said: seq<Transition>,
                            q: nat, raw: nat)
  {
    && IsQualified(tracks, base, at, q) && IsRaw(tracks, base, raw) && q <= raw
    && SameQuestion(base, l')
    && |said| <= 1
    && l'.lastSeen == (if raw >= l.present && raw > 0 then at else l.lastSeen)
    && (said == [] ==>
          && l'.present == l.present && q <= l.present
          && (raw >= l.present ==> l'.belowSince == UNSET)
          && (raw < l.present ==> l'.belowSince == if l.belowSince == UNSET then at else l.belowSince))
    && (said != [] ==>
          && said[0].count == l'.present && said[0].at == at && l'.belowSince == UNSET)
    && (said != [] && said[0].turn.Arrival? ==> l'.present == q > l.present && raw > 0)
    && (said != [] && said[0].turn.Departure? ==>
          && l'.present == raw < l.present
          && l.belowSince != UNSET
          && at - l.belowSince >= l.watch.departAfter
          && said[0].startedAt == if l.lastSeen != UNSET then l.lastSeen else at)
  }

  predicate SameQuestion(a: Ledger, b: Ledger) {
    a.watch == b.watch && a.labelName == b.labelName
  }

  lemma SameCounts(a: Ledger, b: Ledger, tracks: Tracks, at: Time)
    requires SameQuestion(a, b)
    ensures forall n: nat :: IsRaw(tracks, a, n) <==> IsRaw(tracks, b, n)
    ensures forall n: nat :: IsQualified(tracks, a, at, n) <==> IsQualified(tracks, b, at, n)
  {
    forall cam ensures Seen(tracks, a, cam) == Seen(tracks, b, cam) {
    }
    forall cam ensures Dwelt(tracks, a, at, cam) == Dwelt(tracks, b, at, cam) {
    }
  }

  lemma DweltWithinSeen(tracks: Tracks, l: Ledger, at: Time, q: nat, raw: nat)
    requires IsQualified(tracks, l, at, q) && IsRaw(tracks, l, raw)
    ensures q <= raw
  {
    if q > 0 {
      var cam :| |Dwelt(tracks, l, at, cam)| == q;
      SubsetSize(Dwelt(tracks, l, at, cam), Seen(tracks, l, cam));
    }
  }

  lemma StepHasFacts(base: Ledger, l: Ledger, at: Time, tracks: Tracks, l': Ledger, said: seq<Transition>)
    returns (q: nat, raw: nat)
    requires LedgerStep(l, at, tracks, l', said) && at != UNSET && l.watch.departAfter > 0 && SameQuestion(base, l)
    ensures StepFacts(base, l, at, tracks, l', said, q, raw)
  {
    hide IsRaw, IsQualified, IsWitness;
    SameCounts(base, l, tracks, at);
    var cover: Option<Track>, seenBy: Option<Track>;
    q, raw, cover, seenBy :| LedgerStepBy(l, at, tracks, l', said, q, raw, cover, seenBy);
    DweltWithinSeen(tracks, l, at, q, raw);
  }

  /** The facts of tick i, told about the ledger's first state. */
  lemma {:induction false} FactsAt(ticks: seq<Tick>, ls: seq<Ledger>, said: seq<seq<Transition>>, i: nat)
    returns (q: nat, raw: nat)
    requires IsLedgerRun(ticks, ls, said) && i < |ticks|
    ensures SameQuestion(ls[0], ls[i]) && SameQuestion(ls[0], ls[i + 1])
    ensures StepFacts(ls[0], ls[i], ticks[i].at, ticks[i].tracks, ls[i + 1], said[i], q, raw)
    decreases i
  {
    if i > 0 {
      var _, _ := FactsAt(ticks, ls, said, i - 1);
    }
    assert StepsAt(ticks, ls, said, i);
    q, raw := StepHasFacts(ls[0], ls[i], ticks[i].at, ticks[i].tracks, ls[i + 1], said[i]);
  }

  // ----- spacing of transitions -----

  /** Sightings on one camera whose clock started before a bound. */
  ghost function Early(tracks: Tracks, l: Ledger, cam: string, bound: Time): set<string> {
    set id | id in tracks && InZone(tracks[id], l) && tracks[id].camera == cam &&
        tracks[id].entered[l.watch.zone] < bound
  }

  /** The sightings from before a bound only dwindle. */
  lemma EarlyDwindles(before: Tracks, after: Tracks, at: Time, l: Ledger, cam: string, bound: Time)
    requires Evolves(before, after, at) && bound <= at
    ensures |Early(after, l, cam, bound)| <= |Early(before, l, cam, bound)|
  {
    forall id | id in Early(after, l, cam, bound) ensures id in Early(before, l, cam, bound) {
      assert Carried(before, after, id, l.watch.zone);
    }
    SubsetSize(Early(after, l, cam, bound), Early(before, l, cam, bound));
  }

  /** Transition i is the last one before tick n. */
  ghost predicate LastBefore(said: seq<seq<Transition>>, i: nat, n: nat)
    requires n <= |said|
  {
    i < n && said[i] != [] && forall k :: i < k < n ==> said[k] == []
  }

  /** Whose clock a transition at tick i has already taken into account: a
      departure everyone's from before it, an arrival those that had dwelt. */
  function Bound(ticks: seq<Tick>, ls: seq<Ledger>, said: seq<seq<Transition>>, i: nat): Time
    requires i < |ticks| == |said| && |ls| == |ticks| + 1 && said[i] != []
  {
    if said[i][0].turn.Departure? then ticks[i].at else ticks[i].at - ls[0].watch.arriveAfter + 1
  }

  /** Since its last transition a ledger believes what it then said, its
      shortfall clock has started no earlier, and the sightings the transition
      accounted for still do not exceed that belief. */
  lemma {:induction false} SinceLast(ticks: seq<Tick>, ls: seq<Ledger>, said: seq<seq<Transition>>, i: nat, n: nat,
                                     cam: string)
    requires IsLedgerRun(ticks, ls, said) && n <= |ticks| && LastBefore(said, i, n)
    ensures ls[n].present == said[i][0].count
    ensures ls[n].belowSince == UNSET || ls[n].belowSince >= ticks[i].at
    ensures |Early(ticks[n - 1].tracks, ls[0], cam, Bound(ticks, ls, said, i))| <= ls[n].present
    decreases n
  {
    var m := n - 1;
    var q, raw := FactsAt(ticks, ls, said, m);
    var l := ls[0];
    if m == i {
      if said[i][0].turn.Departure? {
        SubsetSize(Early(ticks[i].tracks, l, cam, ticks[i].at), Seen(ticks[i].tracks, l, cam));
      } else {
        assert Early(ticks[i].tracks, l, cam, Bound(ticks, ls, said, i)) == Dwelt(ticks[i].tracks, l, ticks[i].at, cam);
      }
    } else {
      SinceLast(ticks, ls, said, i, m, cam);
      assert EvolvesAt(ticks, m);
      EarlyDwindles(ticks[m - 1].tracks, ticks[m].tracks, ticks[m].at, l, cam, Bound(ticks, ls, said, i));
    }
  }

  /** Before its first transition a ledger believes nothing is there. */
  lemma {:induction false} BeforeAny(ticks: seq<Tick>, ls: seq<Ledger>, said: seq<seq<Transition>>, n: nat)
    requires IsLedgerRun(ticks, ls, said) && n <= |ticks| && forall k :: 0 <= k < n ==> said[k] == []
    ensures ls[n].present == 0
    decreases n
  {
    if n > 0 {
      BeforeAny(ticks, ls, said, n - 1);
      var _, _ := FactsAt(ticks, ls, said, n - 1);
    }
  }

  /** A departure is never a ledger's first transition and comes at least
      departAfter after the one before it; an arrival after a departure comes at
      least arriveAfter after it; an arrival after an arrival comes later. */
  lemma TransitionsSpaced(ticks: seq<Tick>, ls: seq<Ledger>, said: seq<seq<Transition>>, i: nat, j: nat)
    requires IsLedgerRun(ticks, ls, said) && j < |ticks| && LastBefore(said, i, j) && said[j] != []
    ensures said[j][0].turn.Departure? ==> ticks[j].at >= ticks[i].at + ls[0].watch.departAfter
    ensures said[j][0].turn.Arrival? && said[i][0].turn.Departure? ==>
              ticks[j].at >= ticks[i].at + ls[0].watch.arriveAfter
    ensures ticks[j].at > ticks[i].at
  {
    var q, raw := FactsAt(ticks, ls, said, j);
    SinceLast(ticks, ls, said, i, j, "");
    if said[j][0].turn.Arrival? {
      var l, now, tracks := ls[0], ticks[j].at, ticks[j].tracks;
      var cam :| |Dwelt(tracks, l, now, cam)| == q;
      SinceLast(ticks, ls, said, i, j, cam);
      var bound := Bound(ticks, ls, said, i);
      assert EvolvesAt(ticks, j);
      EarlyDwindles(ticks[j - 1].tracks, tracks, now, l, cam, bound);
      assert Dwelt(tracks, l, now, cam) == Early(tracks, l, cam, now - l.watch.arriveAfter + 1);
      if now - l.watch.arriveAfter + 1 <= bound {
        SubsetSize(Early(tracks, l, cam, now - l.watch.arriveAfter + 1), Early(tracks, l, cam, bound));
      }
    }
  }

  lemma FirstIsArrival(ticks: seq<Tick>, ls: seq<Ledger>, said: seq<seq<Transition>>, j: nat)
    requires IsLedgerRun(ticks, ls, said) && j < |ticks| && said[j] != [] && said[j][0].turn.Departure?
    ensures exists i: nat :: LastBefore(said, i, j)
  {
    var _, _ := FactsAt(ticks, ls, said, j);
    if k :| 0 <= k < j && said[k] != [] {
      var i := LatestBefore(said, j, k);
    } else {
      BeforeAny(ticks, ls, said, j);
    }
  }

  lemma {:induction false} LatestBefore(said: seq<seq<Transition>>, n: nat, k: nat) returns (i: nat)
    requires k < n <= |said| && said[k] != []
    ensures k <= i && LastBefore(said, i, n)
    decreases n
  {
    if said[n - 1] != [] {
      i := n - 1;
    } else {
      i := LatestBefore(said, n - 1, k);
    }
  }

  /** So a ledger's transitions happen at strictly increasing instants, and the
      ids minted from zone, label and instant never repeat. */
  lemma {:induction false} TransitionTimesDistinct(ticks: seq<Tick>, ls: seq<Ledger>, said: seq<seq<Transition>>,
                                                   i: nat, j: nat)
    requires IsLedgerRun(ticks, ls, said) && i < j < |ticks| && said[i] != [] && said[j] != []
    ensures said[i][0].at < said[j][0].at
    decreases j
  {
    var _, _ := FactsAt(ticks, ls, said, i);
    var _, _ := FactsAt(ticks, ls, said, j);
    var k := LatestBefore(said, j, i);
    TransitionsSpaced(ticks, ls, said, k, j);
    if i < k {
      TransitionTimesDistinct(ticks, ls, said, i, k);
    }
  }

  // ----- what a transition rests on -----

  /** The same track holds the zone, under one clock, on one camera, at both ticks. */
  ghost predicate HeldFrom(early: Tick, late: Tick, id: string, z: string)
    requires id in late.tracks && z in late.tracks[id].entered
  {
    && id in early.tracks && z in early.tracks[id].entered
    && early.tracks[id].entered[z] == late.tracks[id].entered[z]
    && early.tracks[id].camera == late.tracks[id].camera
    && early.tracks[id].labelName == late.tracks[id].labelName
  }

  /** A zone clock shown at tick j was started at the instant of some tick m, and
      ran unbroken, on the same track, at every tick from m to j. */
  lemma {:induction false} HeldSince(ticks: seq<Tick>, ls: seq<Ledger>, said: seq<seq<Transition>>,
                                     id: string, z: string, j: nat) returns (m: nat)
    requires IsLedgerRun(ticks, ls, said) && j < |ticks|
    requires id in ticks[j].tracks && z in ticks[j].tracks[id].entered
    ensures m <= j && ticks[m].at == ticks[j].tracks[id].entered[z]
    ensures forall k :: m <= k <= j ==> HeldFrom(ticks[k], ticks[j], id, z)
    decreases j
  {
    m := j;
    if ticks[j].tracks[id].entered[z] != ticks[j].at {
      assert EvolvesAt(ticks, j);
      assert Carried(ticks[j - 1].tracks, ticks[j].tracks, id, z);
      m := HeldSince(ticks, ls, said, id, z, j - 1);
    }
  }

  /** The last tick up to j no later than an instant some tick k is no later than. */
  lemma {:induction false} LastTickBy(ticks: seq<Tick>, bound: Time, k: nat, j: nat) returns (m: nat)
    requires k <= j < |ticks| && ticks[k].at <= bound
    ensures k <= m <= j && ticks[m].at <= bound
    ensures forall i :: m < i <= j ==> ticks[i].at > bound
    decreases j
  {
    m := j;
    if ticks[j].at > bound {
      m := LastTickBy(ticks, bound, k, j - 1);
    }
  }

  /** These tracks, on this camera, were in the ledger's zone at this tick. */
  ghost predicate AllInZone(tick: Tick, l: Ledger, ids: set<string>, cam: string) {
    forall id :: id in ids ==> id in tick.tracks && InZone(tick.tracks[id], l) && tick.tracks[id].camera == cam
  }

  /** Every arrival rests on as many tracks of one camera as it announces: there
      is a tick m, arriveAfter or more before, from which on each of them was in
      the zone at every tick, its clock never restarted.  It raises the count. */
  lemma ArrivalEvidence(ticks: seq<Tick>, ls: seq<Ledger>, said: seq<seq<Transition>>, j: nat)
    returns (ids: set<string>, cam: string, m: nat)
    requires IsLedgerRun(ticks, ls, said) && j < |ticks| && said[j] != [] && said[j][0].turn.Arrival?
    ensures |ids| == said[j][0].count == ls[j + 1].present > ls[j].present
    ensures m < j && ticks[j].at - ticks[m].at >= ls[0].watch.arriveAfter
    ensures forall k :: m <= k <= j ==> AllInZone(ticks[k], ls[0], ids, cam)
    ensures forall id :: id in ids ==> id in ticks[j].tracks && ls[0].watch.zone in ticks[j].tracks[id].entered
    ensures forall k, id :: m <= k <= j && id in ids ==> HeldFrom(ticks[k], ticks[j], id, ls[0].watch.zone)
  {
    var l, now := ls[0], ticks[j].at;
    var bound := now - l.watch.arriveAfter;
    var q, raw := FactsAt(ticks, ls, said, j);
    cam :| |Dwelt(ticks[j].tracks, l, now, cam)| == q;
    ids := Dwelt(ticks[j].tracks, l, now, cam);
    var one :| one in ids;
    var first := HeldSince(ticks, ls, said, one, l.watch.zone, j);
    m := LastTickBy(ticks, bound, first, j);
    forall k, id | m <= k <= j && id in ids ensures HeldFrom(ticks[k], ticks[j], id, l.watch.zone) {
      var start := HeldSince(ticks, ls, said, id, l.watch.zone, j);
      assert start <= m;
    }
  }

  ghost predicate RawBelow(tick: Tick, l: Ledger, present: nat) {
    exists raw: nat :: IsRaw(tick.tracks, l, raw) && raw < present
  }

  /** The tick saw something, and no fewer than the count believed. */
  ghost predicate SawAll(tick: Tick, l: Ledger, present: nat) {
    exists raw: nat :: IsRaw(tick.tracks, l, raw) && raw > 0 && raw >= present
  }

  /** While the shortfall clock runs, every tick since it started fell short of
      the count believed, which has not changed. */
  lemma {:induction false} Shortfall(ticks: seq<Tick>, ls: seq<Ledger>, said: seq<seq<Transition>>, n: nat)
    returns (m: nat)
    requires IsLedgerRun(ticks, ls, said) && n <= |ticks| && ls[n].belowSince != UNSET
    ensures m < n && ticks[m].at == ls[n].belowSince
    ensures forall k :: m <= k < n ==> RawBelow(ticks[k], ls[0], ls[n].present) && said[k] == []
    ensures forall k :: m <= k < n ==> ls[k].present == ls[n].present
    decreases n
  {
    var q, raw := FactsAt(ticks, ls, said, n - 1);
    assert RawBelow(ticks[n - 1], ls[0], ls[n].present);
    if ls[n - 1].belowSince == UNSET {
      m := n - 1;
    } else {
      m := Shortfall(ticks, ls, said, n - 1);
    }
  }

  /** The sighting remembered before tick n is that of tick s, the last at which
      the whole count was seen. */
  ghost predicate LastSighting(ticks: seq<Tick>, ls: seq<Ledger>, n: nat, s: nat)
    requires |ls| == |ticks| + 1 && n <= |ticks|
  {
    && s < n && ls[n].lastSeen == ticks[s].at && SawAll(ticks[s], ls[0], ls[s].present)
    && forall k :: s < k < n ==> !SawAll(ticks[k], ls[0], ls[k].present)
  }

  lemma {:induction false} Remembers(ticks: seq<Tick>, ls: seq<Ledger>, said: seq<seq<Transition>>, n: nat)
    requires IsLedgerRun(ticks, ls, said) && n <= |ticks|
    ensures ls[n].lastSeen != UNSET ==> exists s: nat :: LastSighting(ticks, ls, n, s)
    ensures ls[n].present > 0 ==> ls[n].lastSeen != UNSET
    decreases n
  {
    if n > 0 {
      Remembers(ticks, ls, said, n - 1);
      var q, raw := FactsAt(ticks, ls, said, n - 1);
      var now := ticks[n - 1];
      if raw >= ls[n - 1].present && raw > 0 {
        assert SawAll(now, ls[0], ls[n - 1].present);
        assert LastSighting(ticks, ls, n, n - 1);
      } else if ls[n].lastSeen != UNSET {
        assert !SawAll(now, ls[0], ls[n - 1].present) by {
          forall a: nat | IsRaw(now.tracks, ls[0], a) ensures a == raw {
          }
        }
        var s: nat :| LastSighting(ticks, ls, n - 1, s);
        assert LastSighting(ticks, ls, n, s);
      }
    }
  }

  /** Every departure rests on a window of at least departAfter through which
      every tick saw fewer than the count believed; it is anchored at the last
      tick that saw the whole count, which comes before that window; and it lowers
      the count. */
  lemma DepartureEvidence(ticks: seq<Tick>, ls: seq<Ledger>, said: seq<seq<Transition>>, j: nat)
    returns (s: nat, m: nat)
    requires IsLedgerRun(ticks, ls, said) && j < |ticks| && said[j] != [] && said[j][0].turn.Departure?
    ensures s < m < j && ticks[j].at - ticks[m].at >= ls[0].watch.departAfter
    ensures forall k :: m <= k <= j ==> RawBelow(ticks[k], ls[0], ls[j].present)
    ensures said[j][0].count == ls[j + 1].present < ls[j].present
    ensures said[j][0].startedAt == ticks[s].at != UNSET
    ensures SawAll(ticks[s], ls[0], ls[s].present)
    ensures forall k :: s < k <= j ==> !SawAll(ticks[k], ls[0], ls[k].present)
  {
    var q, raw := FactsAt(ticks, ls, said, j);
    m := Shortfall(ticks, ls, said, j);
    Remembers(ticks, ls, said, j);
    s :| LastSighting(ticks, ls, j, s);
    assert RawBelow(ticks[j], ls[0], ls[j].present);
    forall k | m <= k <= j ensures !SawAll(ticks[k], ls[0], ls[k].present) {
    }
  }

  /** What a ledger believes is what its last transition announced; nothing
      before the first. */
  lemma PresenceIsLastAnnounced(ticks: seq<Tick>, ls: seq<Ledger>, said: seq<seq<Transition>>, n: nat)
    requires IsLedgerRun(ticks, ls, said) && n <= |ticks|
    ensures (forall k :: 0 <= k < n ==> said[k] == []) ==> ls[n].present == 0
    ensures forall i: nat :: LastBefore(said, i, n) ==> ls[n].present == said[i][0].count
  {
    if forall k :: 0 <= k < n ==> said[k] == [] {
      BeforeAny(ticks, ls, said, n);
    }
    forall i: nat | LastBefore(said, i, n) ensures ls[n].present == said[i][0].count {
      SinceLast(ticks, ls, said, i, n, "");
    }
  }

  // ----- runs of the whole engine -----

  datatype Observation = Observation(at: Time, msg: Message)

  ghost predicate IsRun(watches: map<string, Watch>, obs: seq<Observation>, states: seq<State>,
                        said: seq<seq<Transition>>)
  {
    && |said| == |obs| && |states| == |obs| + 1
    && states[0].tracks == map[]
    && (forall k :: k in states[0].ledgers ==>
          && states[0].ledgers[k] == Blank(states[0].ledgers[k].watch, states[0].ledgers[k].labelName)
          && states[0].ledgers[k].watch.arriveAfter > 0 && states[0].ledgers[k].watch.departAfter > 0)
    && (forall i :: 0 <= i < |obs| ==> obs[i].at != UNSET)
    && (forall i, j :: 0 <= i < j < |obs| ==> obs[i].at <= obs[j].at)
    && (forall i :: 0 <= i < |obs| ==> ObservedAt(watches, obs, states, said, i))
  }

  ghost predicate ObservedAt(watches: map<string, Watch>, obs: seq<Observation>, states: seq<State>,
                             said: seq<seq<Transition>>, i: nat)
    requires i < |obs| == |said| && |states| == |obs| + 1
  {
    Observed(watches, states[i], obs[i].at, obs[i].msg, states[i + 1], said[i])
  }

  ghost function TicksOf(obs: seq<Observation>, states: seq<State>): (r: seq<Tick>)
    requires |states| == |obs| + 1
    ensures |r| == |obs| && forall i :: 0 <= i < |obs| ==> r[i] == Tick(obs[i].at, states[i + 1].tracks)
  {
    seq(|obs|, i requires 0 <= i < |obs| => Tick(obs[i].at, states[i + 1].tracks))
  }

  ghost function LedgersOf(states: seq<State>, key: LedgerKey): (r: seq<Ledger>)
    requires forall i :: 0 <= i < |states| ==> key in states[i].ledgers
    ensures |r| == |states| && forall i :: 0 <= i < |states| ==> r[i] == states[i].ledgers[key]
  {
    seq(|states|, i requires 0 <= i < |states| => states[i].ledgers[key])
  }

  ghost function SaidTo(said: seq<seq<Transition>>, key: LedgerKey): (r: seq<seq<Transition>>)
    ensures |r| == |said| && forall i :: 0 <= i < |said| ==> r[i] == SaidOf(said[i], key)
  {
    seq(|said|, i requires 0 <= i < |said| => SaidOf(said[i], key))
  }

  /** Each ledger of an engine run lives a ledger run, so all of the above holds
      of every ledger of every run. */
  lemma EveryLedgerRuns(watches: map<string, Watch>, obs: seq<Observation>, states: seq<State>,
                        said: seq<seq<Transition>>, key: LedgerKey)
    requires IsRun(watches, obs, states, said) && key in states[0].ledgers
    ensures forall i :: 0 <= i < |states| ==> key in states[i].ledgers
    ensures IsLedgerRun(TicksOf(obs, states), LedgersOf(states, key), SaidTo(said, key))
  {
    forall i | 0 <= i < |states| ensures key in states[i].ledgers {
      KeyStays(watches, obs, states, said, key, i);
    }
    var ticks, ls, out := TicksOf(obs, states), LedgersOf(states, key), SaidTo(said, key);
    forall i | 0 <= i < |obs| ensures StepsAt(ticks, ls, out, i) {
      StepOfRun(watches, obs, states, said, key, i);
    }
    forall i | 0 <= i < |obs| ensures EvolvesAt(ticks, i) {
      TracksOfRun(watches, obs, states, said, i);
      assert i > 0 ==> ticks[i - 1].tracks == states[i].tracks;
    }
  }

  /** A transition is the only thing said about its ledger, if no more than one is. */
  lemma {:induction false} SaidOfOne(changes: seq<Transition>, p: nat)
    requires p < |changes|
    ensures var key := (changes[p].zone, changes[p].labelName);
            && SaidOf(changes, key) != []
            && (|SaidOf(changes, key)| == 1 ==>
                  && SaidOf(changes, key) == [changes[p]]
                  && forall q :: 0 <= q < |changes| && (changes[q].zone, changes[q].labelName) == key ==> q == p)
    decreases |changes|
  {
    var key, n := (changes[p].zone, changes[p].labelName), |changes| - 1;
    var init := changes[..n];
    if p < n {
      SaidOfOne(init, p);
    } else {
      forall q | 0 <= q < n && (changes[q].zone, changes[q].labelName) == key ensures SaidOf(init, key) != [] {
        SaidOfOne(init, q);
      }
    }
  }

  lemma {:induction false} SameLedgers(watches: map<string, Watch>, obs: seq<Observation>, states: seq<State>,
                                       said: seq<seq<Transition>>, i: nat)
    requires IsRun(watches, obs, states, said) && i <= |obs|
    ensures states[i].ledgers.Keys == states[0].ledgers.Keys
    decreases i
  {
    hide Observed;
    if i > 0 {
      SameLedgers(watches, obs, states, said, i - 1);
      assert ObservedAt(watches, obs, states, said, i - 1);
      OneMoreSame(watches, obs, states, said, i - 1);
    }
  }

  lemma OneMoreSame(watches: map<string, Watch>, obs: seq<Observation>, states: seq<State>,
                    said: seq<seq<Transition>>, i: nat)
    requires |said| == |obs| && |states| == |obs| + 1 && i < |obs| && ObservedAt(watches, obs, states, said, i)
    ensures states[i + 1].ledgers.Keys == states[i].ledgers.Keys
    ensures forall p :: 0 <= p < |said[i]| ==> (said[i][p].zone, said[i][p].labelName) in states[i].ledgers
  {
  }

  /** What one transition of a run is to its ledger: all that was said of it then. */
  lemma TransitionOfLedger(watches: map<string, Watch>, obs: seq<Observation>, states: seq<State>,
                           said: seq<seq<Transition>>, i: nat, p: nat)
    requires IsRun(watches, obs, states, said) && i < |obs| && p < |said[i]|
    ensures var c := said[i][p];
            var key := (c.zone, c.labelName);
            && key in states[0].ledgers && SaidTo(said, key)[i] == [c]
            && forall q :: 0 <= q < |said[i]| && (said[i][q].zone, said[i][q].labelName) == key ==> q == p
  {
    var key := (said[i][p].zone, said[i][p].labelName);
    assert ObservedAt(watches, obs, states, said, i);
    SameLedgers(watches, obs, states, said, i);
    OneMoreSame(watches, obs, states, said, i);
    EveryLedgerRuns(watches, obs, states, said, key);
    var q, raw := FactsAt(TicksOf(obs, states), LedgersOf(states, key), SaidTo(said, key), i);
    SaidOfOne(said[i], p);
  }

  /** No two transitions of a run share zone, label and instant, so no two events
      share an id. */
  lemma TransitionIdsUnique(watches: map<string, Watch>, obs: seq<Observation>, states: seq<State>,
                            said: seq<seq<Transition>>, i: nat, p: nat, j: nat, q: nat)
    requires IsRun(watches, obs, states, said)
    requires i < |obs| && p < |said[i]| && j < |obs| && q < |said[j]| && (i != j || p != q)
    ensures var c, d := said[i][p], said[j][q]; (c.zone, c.labelName, c.at) != (d.zone, d.labelName, d.at)
  {
    hide IsLedgerRun;
    var c, d := said[i][p], said[j][q];
    TransitionOfLedger(watches, obs, states, said, i, p);
    TransitionOfLedger(watches, obs, states, said, j, q);
    if (c.zone, c.labelName) == (d.zone, d.labelName) {
      var key := (c.zone, c.labelName);
      EveryLedgerRuns(watches, obs, states, said, key);
      if i < j {
        TransitionTimesDistinct(TicksOf(obs, states), LedgersOf(states, key), SaidTo(said, key), i, j);
      } else if j < i {
        TransitionTimesDistinct(TicksOf(obs, states), LedgersOf(states, key), SaidTo(said, key), j, i);
      }
    }
  }

  lemma StepOfRun(watches: map<string, Watch>, obs: seq<Observation>, states: seq<State>,
                  said: seq<seq<Transition>>, key: LedgerKey, i: nat)
    requires IsRun(watches, obs, states, said) && i < |obs| && key in states[i].ledgers
    ensures key in states[i + 1].ledgers
    ensures LedgerStep(states[i].ledgers[key], obs[i].at, states[i + 1].tracks, states[i + 1].ledgers[key],
                       SaidOf(said[i], key))
  {
    assert ObservedAt(watches, obs, states, said, i);
  }

  lemma TracksOfRun(watches: map<string, Watch>, obs: seq<Observation>, states: seq<State>,
                    said: seq<seq<Transition>>, i: nat)
    requires IsRun(watches, obs, states, said) && i < |obs|
    ensures Evolves(states[i].tracks, states[i + 1].tracks, obs[i].at)
  {
    assert ObservedAt(watches, obs, states, said, i);
    if obs[i].msg.Tracked? {
      AbsorbedEvolves(watches, states[i].tracks, obs[i].at, obs[i].msg.typ, obs[i].msg.obj);
    }
  }

  lemma {:induction false} KeyStays(watches: map<string, Watch>, obs: seq<Observation>, states: seq<State>,
                                    said: seq<seq<Transition>>, key: LedgerKey, i: nat)
    requires IsRun(watches, obs, states, said) && key in states[0].ledgers && i <= |obs|
    ensures key in states[i].ledgers
    decreases i
  {
    if i > 0 {
      KeyStays(watches, obs, states, said, key, i - 1);
      assert ObservedAt(watches, obs, states, said, i - 1);
    }
  }

  // ----- supersession -----

  /** A box as a camera reports one. */
  predicate Proper(b: seq<real>) {
    |b| == 4 && b[0] < b[2] && b[1] < b[3]
  }

  function Area(b: seq<real>): real
    requires |b| == 4
  {
    (b[2] - b[0]) * (b[3] - b[1])
  }

  function OverlapX(a: seq<real>, b: seq<real>): real
    requires |a| == 4 && |b| == 4
  {
    MinR(a[2], b[2]) - MaxR(a[0], b[0])
  }

  function OverlapY(a: seq<real>, b: seq<real>): real
    requires |a| == 4 && |b| == 4
  {
    MinR(a[3], b[3]) - MaxR(a[1], b[1])
  }

  /** Boxes that overlap are proper and no smaller than the overlap, so the
      guard on the union never decides. */
  lemma OverlapFits(a: seq<real>, b: seq<real>)
    requires |a| == 4 && |b| == 4 && OverlapX(a, b) > 0.0 && OverlapY(a, b) > 0.0
    ensures Proper(a) && Proper(b)
    ensures 0.0 < OverlapX(a, b) * OverlapY(a, b) <= Area(a)
    ensures OverlapX(a, b) * OverlapY(a, b) <= Area(b)
  {
    var ix, iy := OverlapX(a, b), OverlapY(a, b);
    MulMono(ix, iy, a[2] - a[0], a[3] - a[1]);
    MulMono(ix, iy, b[2] - b[0], b[3] - b[1]);
  }

  lemma IoUAsRatio(a: seq<real>, b: seq<real>)
    requires |a| == 4 && |b| == 4
    ensures var inter := OverlapX(a, b) * OverlapY(a, b);
            if OverlapX(a, b) <= 0.0 || OverlapY(a, b) <= 0.0 then IoU(a, b) == 0.0
            else 0.0 < inter <= Area(a) + Area(b) - inter && IoU(a, b) == inter / (Area(a) + Area(b) - inter)
  {
    if OverlapX(a, b) > 0.0 && OverlapY(a, b) > 0.0 {
      OverlapFits(a, b);
    }
  }

  /** Overlap is symmetric and never more than the whole. */
  lemma IoUBounds(a: seq<real>, b: seq<real>)
    ensures IoU(a, b) == IoU(b, a)
    ensures 0.0 <= IoU(a, b) <= 1.0
    ensures IoU(a, b) > 0.0 ==> Proper(a) && Proper(b)
  {
    if |a| == 4 && |b| == 4 {
      IoUAsRatio(a, b);
      IoUAsRatio(b, a);
      assert OverlapX(a, b) == OverlapX(b, a) && OverlapY(a, b) == OverlapY(b, a);
      var inter := OverlapX(a, b) * OverlapY(a, b);
      if OverlapX(a, b) > 0.0 && OverlapY(a, b) > 0.0 {
        OverlapFits(a, b);
        DivBounds(inter, Area(a) + Area(b) - inter);
      }
    }
  }

  lemma IoUOfItself(a: seq<real>)
    requires Proper(a)
    ensures IoU(a, a) == 1.0
  {
    IoUAsRatio(a, a);
    DivBounds(Area(a), Area(a));
  }

  lemma MulMono(x: real, y: real, x': real, y': real)
    requires 0.0 < x <= x' && 0.0 < y <= y'
    ensures 0.0 < x * y <= x' * y'
  {
    assert x * y <= x' * y;
    assert x' * y <= x' * y';
  }

  lemma DivBounds(x: real, y: real)
    requires 0.0 < x <= y
    ensures 0.0 < x / y <= 1.0
    ensures x == y ==> x / y == 1.0
  {
  }

  /** After a parked object has spoken, with a box or with one remembered, no
      other track of its label on its camera still claims its spot, every track
      removed did, and the object's own track stays.  Without any box nothing is
      removed. */
  lemma ParkedOwnsItsSpot(watches: map<string, Watch>, tracks: Tracks, at: Time, typ: MessageType, obj: Object)
    requires Watched(watches, obj.labelName) && !typ.End? && obj.stationary
    ensures var after := Absorbed(watches, tracks, at, typ, obj);
            var boxed := |obj.box| == 4 || (obj.id in tracks && |tracks[obj.id].box| == 4);
            && obj.id in after
            && (forall id :: id in after && id != obj.id ==> id in tracks && after[id] == tracks[id])
            && (forall id :: id in tracks && id !in after ==> boxed && Superseded(after[obj.id], tracks[id]))
            && (boxed ==> forall id :: id in after && id != obj.id ==> !Superseded(after[obj.id], after[id]))
  {
  }

  /** A moving object never removes another's track. */
  lemma MoverSweepsNothing(watches: map<string, Watch>, tracks: Tracks, at: Time, typ: MessageType, obj: Object)
    requires !obj.stationary
    ensures forall id :: id in tracks && id != obj.id ==>
              id in Absorbed(watches, tracks, at, typ, obj) && Absorbed(watches, tracks, at, typ, obj)[id] == tracks[id]
  {
  }
}
