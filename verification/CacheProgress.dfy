/** No call of the cache is ever stuck: from every state the invariant holds in,
    careful steps can bring it to its end, and to success unless its fetch failed. */
module CacheProgress {
  import opened Common
  import opened MediaCache
  import opened CacheProtocol
  import opened CacheCare
  import opened CacheOutcomes

  lemma Onward(budget: int, s0: Sys, s: Sys, a: Action, s': Sys)
    requires Leads(budget, s0, s) && Inv(s) && Careful(s, a) && Does(budget, s, a, s')
    ensures Leads(budget, s0, s') && Inv(s')
  {
    hide Inv, Leads, Careful, Does;
    assert CarefulStep(budget, s, a, s');
    LeadsOn(budget, s0, s, a, s');
    StepKeeps(budget, s, a, s');
  }

  // ----- a leader's way out -----

  /** It returns what it carries, and the waiters are still there to be told. */
  ghost predicate Brought(budget: int, s0: Sys, s: Sys, t: nat, k: Key, o: Outcome, s': Sys) {
    && Leads(budget, s0, s') && Inv(s')
    && t in s'.procs && s'.procs[t] == Returned(k, o)
    && t in s'.closed && s'.closed[t] == o
    && forall w :: w in s.procs && s.procs[w].Waiting? ==> w in s'.procs && s'.procs[w] == s.procs[w]
  }

  lemma FromClosing(budget: int, s0: Sys, s: Sys, t: nat, k: Key, o: Outcome) returns (s': Sys)
    requires Leads(budget, s0, s) && Inv(s) && Stands(s, t, k, Closing(o))
    ensures Brought(budget, s0, s, t, k, o, s')
  {
    hide Inv, Leads, Adds;
    s' := Now(s, t, Returned(k, o)).(closed := s.closed[t := o]);
    assert Does(budget, s, CloseDone(t), s');
    Onward(budget, s0, s, CloseDone(t), s');
  }

  lemma FromDone(budget: int, s0: Sys, s: Sys, t: nat, k: Key, o: Outcome) returns (s': Sys)
    requires Leads(budget, s0, s) && Inv(s) && Stands(s, t, k, Done(o))
    ensures Brought(budget, s0, s, t, k, o, s')
  {
    hide Inv, Leads, Adds;
    var r := Now(s, t, Leader(k, Closing(o))).(inflight := s.inflight - {k});
    assert Does(budget, s, Land(t), r);
    Onward(budget, s0, s, Land(t), r);
    s' := FromClosing(budget, s0, r, t, k, o);
  }

  lemma FromOut(budget: int, s0: Sys, s: Sys, t: nat, k: Key, o: Outcome) returns (s': Sys)
    requires Leads(budget, s0, s) && Inv(s) && Stands(s, t, k, Out(o))
    ensures Brought(budget, s0, s, t, k, o, s')
  {
    hide Inv, Leads, Adds;
    var r := Now(s, t, Leader(k, Done(o))).(tokens := s.tokens - {t});
    assert Does(budget, s, Release(t), r);
    Onward(budget, s0, s, Release(t), r);
    s' := FromDone(budget, s0, r, t, k, o);
  }

  lemma BooksAged(s: Sys)
    requires Inv(s)
    ensures Aged(s.entries, s.uses)
  {
  }

  lemma Inserts(budget: int, s0: Sys, s: Sys, t: nat, k: Key, n: nat) returns (r: Sys)
    requires Leads(budget, s0, s) && Inv(s) && Stands(s, t, k, Renamed(n))
    ensures Leads(budget, s0, r) && Inv(r) && r.procs == s.procs[t := Leader(k, Out(At(k)))] && r.tokens == s.tokens
  {
    hide Inv, Leads, Aged, Does;
    BooksAged(s);
    r := InsertsNow(budget, s0, s, t, k, n);
    Onward(budget, s0, s, Insert(t), r);
  }

  lemma FromRenamed(budget: int, s0: Sys, s: Sys, t: nat, k: Key, n: nat) returns (s': Sys)
    requires Leads(budget, s0, s) && Inv(s) && Stands(s, t, k, Renamed(n))
    ensures Brought(budget, s0, s, t, k, At(k), s')
  {
    hide Inv, Leads;
    var r := Inserts(budget, s0, s, t, k, n);
    s' := FromOut(budget, s0, r, t, k, At(k));
  }

  lemma PartThere(s: Sys, t: nat, k: Key)
    requires Inv(s) && Stands(s, t, k, Copied)
    ensures Part(k) in s.files
  {
    assert CallOk(s, t);
  }

  lemma FromCopied(budget: int, s0: Sys, s: Sys, t: nat, k: Key) returns (s': Sys)
    requires Leads(budget, s0, s) && Inv(s) && Stands(s, t, k, Copied)
    ensures Brought(budget, s0, s, t, k, At(k), s')
  {
    hide Inv, Leads, Adds;
    PartThere(s, t, k);
    var r := Now(s, t, Leader(k, Renamed(0))).(files := (s.files - {Part(k)})[Final(k) := s.files[Part(k)]]);
    assert Does(budget, s, Rename(t, 0), r);
    Onward(budget, s0, s, Rename(t, 0), r);
    s' := FromRenamed(budget, s0, r, t, k, 0);
  }

  lemma FromFetching(budget: int, s0: Sys, s: Sys, t: nat, k: Key) returns (s': Sys)
    requires Leads(budget, s0, s) && Inv(s) && Stands(s, t, k, Fetching)
    ensures Brought(budget, s0, s, t, k, At(k), s')
  {
    hide Inv, Leads, Adds;
    var r := Now(s, t, Leader(k, Copied)).(files := s.files[Part(k) := Whole(k)]);
    assert Does(budget, s, CopyAll(t), r);
    Onward(budget, s0, s, CopyAll(t), r);
    s' := FromCopied(budget, s0, r, t, k);
  }

  // ----- a token -----

  lemma Holder(s: Sys) returns (v: nat)
    requires Inv(s) && s.tokens != {}
    ensures v in s.procs && Holding(s.procs[v])
  {
    v :| v in s.tokens;
  }

  lemma TokensBounded(s: Sys)
    requires Inv(s)
    ensures |s.tokens| <= MAX_FILLS
  {
  }

  /** Whoever holds a token can let it go, and no one who waits for one is touched. */
  lemma LetsGo(budget: int, s0: Sys, s: Sys, v: nat) returns (s': Sys)
    requires Leads(budget, s0, s) && Inv(s) && v in s.procs && Holding(s.procs[v])
    ensures Leads(budget, s0, s') && Inv(s') && s'.tokens == s.tokens - {v}
    ensures forall w :: w in s.procs && w != v ==> w in s'.procs && s'.procs[w] == s.procs[w]
  {
    hide Inv, Leads, Does;
    var r, k, stage := s, s.procs[v].key, s.procs[v].stage;
    if stage.Renamed? {
      r := Inserts(budget, s0, s, v, k, stage.n);
    } else if !stage.Out? {
      r := FailsNow(budget, s0, s, v, k);
      FailsDoes(budget, s, v, k, r);
      Onward(budget, s0, s, FetchFails(v), r);
    }
    var o := r.procs[v].stage.o;
    s' := Now(r, v, Leader(k, Done(o))).(tokens := r.tokens - {v});
    Releases(budget, r, v, k, o, s');
    assert CarefulStep(budget, r, Release(v), s');
    Onward(budget, s0, r, Release(v), s');
  }

  lemma FailsDoes(budget: int, s: Sys, v: nat, k: Key, r: Sys)
    requires Stands(s, v, k, Fetching) || Stands(s, v, k, Copied)
    requires r == Now(s, v, Leader(k, Out(Failed))).(files := s.files - {Part(k)})
    ensures Does(budget, s, FetchFails(v), r)
  {
    hide Adds;
  }

  lemma FromWaiting(budget: int, s0: Sys, s: Sys, t: nat, k: Key) returns (s': Sys)
    requires Leads(budget, s0, s) && Inv(s) && Stands(s, t, k, WantToken)
    ensures Brought(budget, s0, s, t, k, At(k), s')
  {
    hide Inv, Leads, Does, Holding, Careful;
    TokensBounded(s);
    var r := s;
    if |s.tokens| == MAX_FILLS {
      var v := Holder(s);
      r := LetsGo(budget, s0, s, v);
      TokenWas(s, v);
    }
    var q := Now(r, t, Leader(k, Fetching)).(tokens := r.tokens + {t});
    TokenTaken(budget, r, t, k, q);
    Onward(budget, s0, r, TakeToken(t), q);
    s' := FromFetching(budget, s0, q, t, k);
  }

  lemma TokenTaken(budget: int, s: Sys, t: nat, k: Key, s': Sys)
    requires Stands(s, t, k, WantToken) && |s.tokens| < MAX_FILLS
    requires s' == Now(s, t, Leader(k, Fetching)).(tokens := s.tokens + {t})
    ensures Does(budget, s, TakeToken(t), s') && Careful(s, TakeToken(t))
  {
  }

  lemma TokenWas(s: Sys, v: nat)
    requires Inv(s) && v in s.procs && Holding(s.procs[v])
    ensures v in s.tokens
  {
  }

  // ----- every call -----

  lemma LeaderReturns(budget: int, s: Sys, t: nat) returns (s': Sys)
    requires Inv(s) && t in s.procs && s.procs[t].Leader?
    ensures Brought(budget, s, s, t, s.procs[t].key,
                    if ResultOf(s.procs[t]) == Some(Failed) then Failed else At(s.procs[t].key), s')
  {
    hide Inv, Leads, Brought;
    LeadsNowhere(budget, s);
    LeaderCarriesOwn(s, t);
    var k := s.procs[t].key;
    match s.procs[t].stage
    case WantToken => s' := FromWaiting(budget, s, s, t, k);
    case Fetching => s' := FromFetching(budget, s, s, t, k);
    case Copied => s' := FromCopied(budget, s, s, t, k);
    case Renamed(n) => s' := FromRenamed(budget, s, s, t, k, n);
    case Out(o) => s' := FromOut(budget, s, s, t, k, o);
    case Done(o) => s' := FromDone(budget, s, s, t, k, o);
    case Closing(o) => s' := FromClosing(budget, s, s, t, k, o);
  }

  lemma LeaderCarriesOwn(s: Sys, t: nat)
    requires Inv(s) && t in s.procs && s.procs[t].Leader?
    ensures ResultOf(s.procs[t]) in {None, Some(Failed), Some(At(s.procs[t].key))}
  {
    assert CallOk(s, t);
  }

  /** The call, or the one it waits for, has already failed. */
  ghost predicate HasFailed(s: Sys, t: nat)
    requires t in s.procs
  {
    var p := s.procs[t];
    if p.Waiting? then p.flight in s.procs && ResultOf(s.procs[p.flight]) == Some(Failed)
    else ResultOf(p) == Some(Failed)
  }

  lemma WaiterReturns(budget: int, s: Sys, t: nat) returns (s': Sys)
    requires Inv(s) && t in s.procs && s.procs[t].Waiting?
    ensures Leads(budget, s, s') && t in s'.procs
    ensures s'.procs[t] == Returned(s.procs[t].key, if HasFailed(s, t) then Failed else At(s.procs[t].key))
  {
    hide Leads, Does, Careful, Books, Exclusive;
    var f, k := s.procs[t].flight, s.procs[t].key;
    assert CallOk(s, t) && CallOk(s, f);
    var r := s;
    if f in s.closed {
      LeadsNowhere(budget, s);
    } else {
      r := LeaderReturns(budget, s, f);
    }
    s' := Now(r, t, Returned(k, r.closed[f]));
    Wakes(budget, r, t, s');
    Onward(budget, s, r, Wake(t), s');
  }

  lemma Wakes(budget: int, s: Sys, t: nat, s': Sys)
    requires t in s.procs && s.procs[t].Waiting? && s.procs[t].flight in s.closed
    requires s' == Now(s, t, Returned(s.procs[t].key, s.closed[s.procs[t].flight]))
    ensures Does(budget, s, Wake(t), s') && Careful(s, Wake(t))
  {
  }

  lemma PutterReturns(budget: int, s: Sys, t: nat) returns (s': Sys)
    requires Inv(s) && t in s.procs && s.procs[t].Putting?
    ensures Leads(budget, s, s') && t in s'.procs && s'.procs[t] == Returned(s.procs[t].key, At(s.procs[t].key))
  {
    hide Leads, Inv, Aged;
    LeadsNowhere(budget, s);
    BooksAged(s);
    s' := EntersNow(budget, s, s, t, s.procs[t].key, s.procs[t].n);
  }

  /** In every state of a careful run every call can still come to its end, whatever
      the others are doing: with its key's file, unless it, or the call it waits for,
      has already failed. */
  lemma EveryCallCanReturn(budget: int, acts: seq<Action>, states: seq<Sys>, n: nat, t: nat) returns (s': Sys)
    requires IsCarefulRun(budget, acts, states) && n <= |acts| && t in states[n].procs
    ensures Leads(budget, states[n], s') && t in s'.procs
    ensures s'.procs[t] == Returned(states[n].procs[t].key,
                                    if HasFailed(states[n], t) then Failed else At(states[n].procs[t].key))
  {
    hide Leads, Inv, StepAt, Careful;
    EveryStateInv(budget, acts, states, n);
    var s := states[n];
    match s.procs[t]
    case Leader(_, _) => s' := LeaderReturns(budget, s, t);
    case Waiting(_, _) => s' := WaiterReturns(budget, s, t);
    case Putting(_, _) => s' := PutterReturns(budget, s, t);
    case Returned(_, _) =>
      LeadsNowhere(budget, s);
      CallsReturnTheirOwn(budget, acts, states, n, n, t);
      s' := s;
  }
}
