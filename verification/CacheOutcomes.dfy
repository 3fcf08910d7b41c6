/** What each call of the cache returns, told by what it did. */
module CacheOutcomes {
  import opened Common
  import opened MediaCache
  import opened CacheProtocol

  /** The action is a step of this call. */
  predicate StepOf(a: Action, t: nat) {
    !a.Get? && !a.Evict? && a.t == t
  }

  predicate Starts(a: Action) {
    a.FillHit? || a.FillJoin? || a.FillLead? || a.PutRename?
  }

  /** The call was started by this action and no other. */
  ghost predicate StartedBy(past: seq<Action>, t: nat, start: Action) {
    start in past && Starts(start) && start.t == t && forall a :: a in past && Starts(a) && a.t == t ==> a == start
  }

  predicate GotIt(past: seq<Action>, t: nat) {
    Insert(t) in past
  }

  predicate LostIt(past: seq<Action>, t: nat) {
    GiveUp(t) in past || FetchFails(t) in past
  }

  /** What a leader will return, once that is settled. */
  function ResultOf(p: Proc): Option<Outcome> {
    match p
    case Leader(_, Out(o)) => Some(o)
    case Leader(_, Done(o)) => Some(o)
    case Leader(_, Closing(o)) => Some(o)
    case Returned(_, o) => Some(o)
    case _ => None
  }

  ghost predicate LeaderFate(past: seq<Action>, t: nat, p: Proc) {
    && (p.Leader? || p.Returned?)
    && (GotIt(past, t) <==> ResultOf(p) == Some(At(p.key)))
    && (LostIt(past, t) <==> ResultOf(p) == Some(Failed))
  }

  /** A waiter is still there, has left, or was told its leader's result. */
  ghost predicate WaiterFate(procs: map<nat, Proc>, past: seq<Action>, t: nat, p: Proc) {
    match p
    case Waiting(f, k) => FillLead(f, k) in past && Abandon(t) !in past && Wake(t) !in past
    case Returned(k, o) =>
      if Abandon(t) in past then o == Failed && Wake(t) !in past
      else Wake(t) in past && exists f :: FillLead(f, k) in past && f in procs && procs[f] == p
    case _ => false
  }

  /** Calls so started take only such steps. */
  predicate Takes(start: Action, a: Action) {
    match start
    case FillHit(_, _) => false
    case FillJoin(_, _) => a.Wake? || a.Abandon?
    case FillLead(_, _) => !a.Wake? && !a.Abandon? && !a.PutEnter?
    case _ => a.PutEnter?
  }

  ghost predicate Fate(procs: map<nat, Proc>, past: seq<Action>, t: nat, start: Action)
    requires t in procs && Starts(start)
  {
    var p := procs[t];
    && p.key == start.k
    && (forall a :: a in past && StepOf(a, t) && !Starts(a) ==> Takes(start, a))
    && match start
       case FillHit(_, k) => p == Returned(k, At(k))
       case FillJoin(_, _) => WaiterFate(procs, past, t, p)
       case FillLead(_, _) => LeaderFate(past, t, p)
       case PutRename(_, k, n) => p == Putting(k, n) || p == Returned(k, At(k))
  }

  ghost predicate Fated(procs: map<nat, Proc>, past: seq<Action>, t: nat) {
    if t in procs then exists start :: StartedBy(past, t, start) && Fate(procs, past, t, start)
    else forall a :: a in past ==> !StepOf(a, t)
  }

  ghost predicate Fates(procs: map<nat, Proc>, past: seq<Action>) {
    forall t :: Fated(procs, past, t)
  }

  // ----- one step -----

  /** How a step moves the call it belongs to. */
  ghost predicate Moves(s: Sys, a: Action, p: Proc)
    requires !a.Get? && !a.Evict?
  {
    if Starts(a) then
      && a.t !in s.procs && p.key == a.k
      && match a
         case FillHit(_, k) => p == Returned(k, At(k))
         case FillJoin(_, k) => k in s.inflight && p == Waiting(s.inflight[k], k)
         case FillLead(_, k) => p == Leader(k, WantToken)
         case PutRename(_, k, n) => p == Putting(k, n)
    else
      && a.t in s.procs && p.key == s.procs[a.t].key
      && var was := s.procs[a.t];
         match a
         case Insert(_) => was.Leader? && ResultOf(was) == None && p.Leader? && ResultOf(p) == Some(At(p.key))
         case GiveUp(_) => was.Leader? && ResultOf(was) == None && p.Leader? && ResultOf(p) == Some(Failed)
         case FetchFails(_) => was.Leader? && ResultOf(was) == None && p.Leader? && ResultOf(p) == Some(Failed)
         case Wake(_) => was.Waiting? && was.flight in s.closed && p == Returned(was.key, s.closed[was.flight])
         case Abandon(_) => was.Waiting? && p == Returned(was.key, Failed)
         case PutEnter(_) => was.Putting? && p == Returned(was.key, At(was.key))
         case _ => was.Leader? && (p.Leader? || p.Returned?) && ResultOf(p) == ResultOf(was)
  }

  lemma StepMoves(budget: int, s: Sys, a: Action, s': Sys) returns (p: Proc)
    requires Does(budget, s, a, s')
    ensures if a.Get? || a.Evict? then s'.procs == s.procs else Moves(s, a, p) && s'.procs == s.procs[a.t := p]
  {
    hide Adds, Replaces, Stands, Moves;
    if a.Insert? || a.PutEnter? {
      p := EnterMoves(budget, s, a, s');
    } else if a.Get? || a.Evict? {
      p := Returned(a.k, Failed);
    } else {
      if Starts(a) || a.Wake? || a.Abandon? {
        QuietMoves(budget, s, a, s');
      } else {
        LeadingMoves(budget, s, a, s');
      }
      p := s'.procs[a.t];
    }
  }

  lemma QuietMoves(budget: int, s: Sys, a: Action, s': Sys)
    requires Does(budget, s, a, s') && (Starts(a) || a.Wake? || a.Abandon?)
    ensures a.t in s'.procs && Moves(s, a, s'.procs[a.t]) && s'.procs == s.procs[a.t := s'.procs[a.t]]
  {
    hide Adds, Replaces, Stands;
  }

  lemma LeadingMoves(budget: int, s: Sys, a: Action, s': Sys)
    requires Does(budget, s, a, s') && !Starts(a) && !a.Wake? && !a.Abandon? && !a.Insert? && !a.PutEnter?
    requires !a.Get? && !a.Evict?
    ensures a.t in s'.procs && Moves(s, a, s'.procs[a.t]) && s'.procs == s.procs[a.t := s'.procs[a.t]]
  {
    hide Adds, Replaces, Bumped;
  }

  lemma EnterMoves(budget: int, s: Sys, a: Action, s': Sys) returns (p: Proc)
    requires Does(budget, s, a, s') && (a.Insert? || a.PutEnter?)
    ensures Moves(s, a, p) && s'.procs == s.procs[a.t := p]
  {
    hide Adds;
    if a.Insert? {
      var k, n :| Stands(s, a.t, k, Renamed(n)) && Adds(budget, Now(s, a.t, Leader(k, Out(At(k)))), k, n, 0, s');
      AddsCalls(budget, Now(s, a.t, Leader(k, Out(At(k)))), k, n, 0, s');
      p := Leader(k, Out(At(k)));
    } else {
      var k, n :| a.t in s.procs && s.procs[a.t] == Putting(k, n)
                  && Adds(budget, Now(s, a.t, Returned(k, At(k))), k, n, Replaces(s, k), s');
      AddsCalls(budget, Now(s, a.t, Returned(k, At(k))), k, n, Replaces(s, k), s');
      p := Returned(k, At(k));
    }
  }

  /** A step of another call changes nothing of this one's fate: what its leader
      returned stands. */
  lemma OthersFated(procs: map<nat, Proc>, procs': map<nat, Proc>, past: seq<Action>, a: Action, u: nat)
    requires Fated(procs, past, u) && !StepOf(a, u)
    requires u in procs' <==> u in procs
    requires u in procs ==> procs'[u] == procs[u]
    requires forall f :: f in procs && procs[f].Returned? ==> f in procs' && procs'[f] == procs[f]
    ensures Fated(procs', past + [a], u)
  {
    if u in procs {
      var start :| StartedBy(past, u, start) && Fate(procs, past, u, start);
      assert StartedBy(past + [a], u, start);
      assert Fate(procs', past + [a], u, start);
    }
  }

  lemma OnlyLeadersLead(procs: map<nat, Proc>, past: seq<Action>, f: nat)
    requires Fated(procs, past, f) && f in procs && procs[f].Leader?
    ensures FillLead(f, procs[f].key) in past
  {
  }

  lemma StartFated(s: Sys, a: Action, p: Proc, past: seq<Action>)
    requires Inv(s) && Fates(s.procs, past) && Starts(a) && Moves(s, a, p)
    ensures Fated(s.procs[a.t := p], past + [a], a.t)
  {
    hide Books, Calls, Exclusive;
    var t := a.t;
    assert Fated(s.procs, past, t);
    assert StartedBy(past + [a], t, a);
    if a.FillJoin? {
      var f := s.inflight[a.k];
      assert Fated(s.procs, past, f);
      OnlyLeadersLead(s.procs, past, f);
    }
    assert Fate(s.procs[t := p], past + [a], t, a);
  }

  lemma LeaderMoves(s: Sys, a: Action, p: Proc, past: seq<Action>)
    requires !Starts(a) && !a.Get? && !a.Evict? && Moves(s, a, p) && LeaderFate(past, a.t, s.procs[a.t])
    ensures LeaderFate(past + [a], a.t, p) && !a.Wake? && !a.Abandon? && !a.PutEnter?
  {
  }

  lemma WaiterMoves(s: Sys, a: Action, p: Proc, past: seq<Action>)
    requires Inv(s) && !Starts(a) && !a.Get? && !a.Evict? && Moves(s, a, p)
    requires WaiterFate(s.procs, past, a.t, s.procs[a.t])
    ensures WaiterFate(s.procs[a.t := p], past + [a], a.t, p) && (a.Wake? || a.Abandon?)
  {
    hide Books, Exclusive;
    if a.Wake? {
      var f := s.procs[a.t].flight;
      assert CallOk(s, a.t);
      assert s.procs[a.t := p][f] == p && FillLead(f, p.key) in past + [a];
    }
  }

  lemma MoveFated(s: Sys, a: Action, p: Proc, past: seq<Action>)
    requires Inv(s) && Fates(s.procs, past) && !Starts(a) && !a.Get? && !a.Evict? && Moves(s, a, p)
    ensures Fated(s.procs[a.t := p], past + [a], a.t)
  {
    hide Inv, LeaderFate, WaiterFate;
    var t, past', procs' := a.t, past + [a], s.procs[a.t := p];
    assert Fated(s.procs, past, t);
    var start :| StartedBy(past, t, start) && Fate(s.procs, past, t, start);
    assert StartedBy(past', t, start);
    if start.FillLead? {
      LeaderMoves(s, a, p, past);
    } else if start.FillJoin? {
      WaiterMoves(s, a, p, past);
    }
    assert Fate(procs', past', t, start);
  }

  lemma StepFated(budget: int, s: Sys, a: Action, s': Sys, past: seq<Action>)
    requires Inv(s) && Does(budget, s, a, s') && Fates(s.procs, past)
    ensures Fates(s'.procs, past + [a])
  {
    hide Does, Inv, Fated;
    var p := StepMoves(budget, s, a, s');
    forall u ensures Fated(s'.procs, past + [a], u) {
      assert Fated(s.procs, past, u);
      if StepOf(a, u) {
        if Starts(a) {
          StartFated(s, a, p, past);
        } else {
          MoveFated(s, a, p, past);
        }
      } else {
        OthersFated(s.procs, s'.procs, past, a, u);
      }
    }
  }

  lemma {:induction false} EveryCallFated(budget: int, acts: seq<Action>, states: seq<Sys>, n: nat)
    requires IsCarefulRun(budget, acts, states) && n <= |acts|
    ensures Fates(states[n].procs, acts[..n])
    decreases n
  {
    hide Inv, Does, Careful, Fates;
    if n == 0 {
      NothingFated();
    } else {
      EveryCallFated(budget, acts, states, n - 1);
      EveryStateInv(budget, acts, states, n - 1);
      assert StepAt(budget, acts, states, n - 1);
      StepFated(budget, states[n - 1], acts[n - 1], states[n], acts[..n - 1]);
      assert acts[..n] == acts[..n - 1] + [acts[n - 1]];
    }
  }

  lemma NothingFated()
    ensures Fates(START.procs, [])
  {
  }

  // ----- what calls return -----

  /** A leader that has returned was given its key's file exactly if it entered its
      cut, and an error exactly if it gave up waiting for a token or its fetch failed. */
  lemma LeaderReturnsWhatItDid(budget: int, acts: seq<Action>, states: seq<Sys>, n: nat, t: nat, k: Key)
    requires IsCarefulRun(budget, acts, states) && n <= |acts| && FillLead(t, k) in acts[..n]
    ensures t in states[n].procs && states[n].procs[t].key == k
    ensures states[n].procs[t].Returned? ==>
              var o := states[n].procs[t].o;
              && o in {At(k), Failed}
              && (o == At(k) <==> Insert(t) in acts[..n])
              && (o == Failed <==> GiveUp(t) in acts[..n] || FetchFails(t) in acts[..n])
  {
    hide StepAt, Careful;
    EveryCallFated(budget, acts, states, n);
    assert Fated(states[n].procs, acts[..n], t);
    CallsReturnTheirOwn(budget, acts, states, n, n, t);
  }

  /** A waiter that is woken gets its key's file exactly if the leader it waited for
      entered its cut, and an error exactly if that leader gave up or failed. */
  lemma WokenGetsWhatLeaderDid(budget: int, acts: seq<Action>, states: seq<Sys>, i: nat)
    requires IsCarefulRun(budget, acts, states) && i < |acts| && acts[i].Wake?
    ensures var t, s, s', past := acts[i].t, states[i], states[i + 1], acts[..i];
            && t in s.procs && s.procs[t].Waiting? && t in s'.procs && s'.procs[t].Returned?
            && s'.procs[t].key == s.procs[t].key
            && var k, f, o := s.procs[t].key, s.procs[t].flight, s'.procs[t].o;
               && FillJoin(t, k) in past && FillLead(f, k) in past
               && o in {At(k), Failed}
               && (o == At(k) <==> Insert(f) in past)
               && (o == Failed <==> GiveUp(f) in past || FetchFails(f) in past)
  {
    hide StepAt, Careful;
    WaiterGetsLeaderResult(budget, acts, states, i);
    EveryCallFated(budget, acts, states, i);
    var t, s := acts[i].t, states[i];
    assert Fated(s.procs, acts[..i], t);
    LeaderReturnsWhatItDid(budget, acts, states, i, s.procs[t].flight, s.procs[t].key);
  }

  /** This call, leading, gave up waiting for a token or failed to fetch; or it
      waited on a call that did; or it left before it was told. */
  ghost predicate FailureOf(past: seq<Action>, t: nat, k: Key) {
    || GiveUp(t) in past || FetchFails(t) in past
    || Abandon(t) in past
    || (Wake(t) in past && exists f :: FillLead(f, k) in past && (GiveUp(f) in past || FetchFails(f) in past))
  }

  /** This call found the file or put it there; or it led and entered its cut; or it
      waited on a call that did. */
  ghost predicate SuccessOf(past: seq<Action>, t: nat, k: Key) {
    || FillHit(t, k) in past
    || (exists n :: PutRename(t, k, n) in past)
    || Insert(t) in past
    || (Wake(t) in past && exists f :: FillLead(f, k) in past && Insert(f) in past)
  }

  /** Whatever a call about k returns, it is k's own file, and then for one of those
      reasons, or an error, and then for one of these. */
  lemma CallsReturnForAReason(budget: int, acts: seq<Action>, states: seq<Sys>, n: nat, t: nat)
    requires IsCarefulRun(budget, acts, states) && n <= |acts|
    requires t in states[n].procs && states[n].procs[t].Returned?
    ensures var k, o := states[n].procs[t].key, states[n].procs[t].o;
            && (o == At(k) || o == Failed)
            && (o == At(k) ==> SuccessOf(acts[..n], t, k))
            && (o == Failed ==> FailureOf(acts[..n], t, k))
  {
    hide StepAt, Careful;
    var past, procs := acts[..n], states[n].procs;
    EveryCallFated(budget, acts, states, n);
    CallsReturnTheirOwn(budget, acts, states, n, n, t);
    assert Fated(procs, past, t);
    var start :| StartedBy(past, t, start) && Fate(procs, past, t, start);
    if start.FillJoin? && Abandon(t) !in past {
      var k := procs[t].key;
      var f :| FillLead(f, k) in past && f in procs && procs[f] == procs[t];
      LeaderReturnsWhatItDid(budget, acts, states, n, f, k);
    }
  }

  /** A hit, a put and a leader whose cut was entered never fail; a leader that gave up
      or failed, and a waiter that left, never succeed. */
  lemma ReasonsDecide(budget: int, acts: seq<Action>, states: seq<Sys>, n: nat, t: nat)
    requires IsCarefulRun(budget, acts, states) && n <= |acts|
    requires t in states[n].procs && states[n].procs[t].Returned?
    ensures var k, o, past := states[n].procs[t].key, states[n].procs[t].o, acts[..n];
            && (FillHit(t, k) in past || (exists m :: PutRename(t, k, m) in past) || Insert(t) in past ==> o == At(k))
            && (GiveUp(t) in past || FetchFails(t) in past || Abandon(t) in past ==> o == Failed)
  {
    hide StepAt, Careful;
    EveryCallFated(budget, acts, states, n);
    assert Fated(states[n].procs, acts[..n], t);
  }
}
