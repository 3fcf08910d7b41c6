/** Exactly which careless calls break the cache: from any state the invariant
    holds in, a step keeps every careful continuation complete if and only if it is
    careful itself. */
module CacheCare {
  import opened Common
  import opened MediaCache
  import opened CacheProtocol

  // ----- where careful use can lead -----

  ghost predicate Path(budget: int, s: Sys, acts: seq<Action>, states: seq<Sys>) {
    && |states| == |acts| + 1 && states[0] == s
    && forall i, j :: 0 <= i < |acts| && j == i + 1 ==> CarefulStep(budget, states[i], acts[i], states[j])
  }

  ghost predicate CarefulStep(budget: int, s: Sys, a: Action, s': Sys) {
    Careful(s, a) && Does(budget, s, a, s')
  }

  /** Some careful steps take s to s'. */
  ghost predicate Leads(budget: int, s: Sys, s': Sys) {
    exists acts, states :: Path(budget, s, acts, states) && states[|acts|] == s'
  }

  lemma LeadsNowhere(budget: int, s: Sys)
    ensures Leads(budget, s, s)
  {
    assert Path(budget, s, [], [s]);
  }

  lemma LeadsOn(budget: int, s: Sys, mid: Sys, a: Action, s': Sys)
    requires Leads(budget, s, mid) && CarefulStep(budget, mid, a, s')
    ensures Leads(budget, s, s')
  {
    hide CarefulStep;
    var acts, states :| Path(budget, s, acts, states) && states[|acts|] == mid;
    assert Path(budget, s, acts + [a], states + [s']) && (states + [s'])[|acts + [a]|] == s';
  }

  lemma {:induction false} PathKeeps(budget: int, s: Sys, acts: seq<Action>, states: seq<Sys>, n: nat)
    requires Inv(s) && Path(budget, s, acts, states) && n <= |acts|
    ensures Inv(states[n])
    decreases n
  {
    hide Inv;
    if n > 0 {
      PathKeeps(budget, s, acts, states, n - 1);
      assert CarefulStep(budget, states[n - 1], acts[n - 1], states[n]);
      StepKeeps(budget, states[n - 1], acts[n - 1], states[n]);
    }
  }

  lemma LeadsKeeps(budget: int, s: Sys, s': Sys)
    requires Inv(s) && Leads(budget, s, s')
    ensures Inv(s')
  {
    hide Inv;
    var acts, states :| Path(budget, s, acts, states) && states[|acts|] == s';
    PathKeeps(budget, s, acts, states, |acts|);
  }

  /** The size is the sum of the entries, and each has its file, complete. */
  ghost predicate Complete(s: Sys) {
    s.size == Total(s.entries) && forall k :: k in s.entries ==> OnDisk(s, Final(k), k)
  }

  /** And stays so whatever careful steps follow. */
  ghost predicate SafeForever(budget: int, s: Sys) {
    forall s' :: Leads(budget, s, s') ==> Complete(s')
  }

  lemma InvIsSafe(budget: int, s: Sys)
    requires Inv(s)
    ensures SafeForever(budget, s)
  {
    forall s' | Leads(budget, s, s') ensures Complete(s') {
      LeadsKeeps(budget, s, s');
    }
  }

  // ----- entering a cut is always possible -----

  ghost predicate Aged(m: Entries, uses: nat) {
    Apart(m) && forall k :: k in m ==> m[k].used <= uses
  }

  lemma {:induction false} Oldest(m: Entries) returns (k: Key)
    requires m != map[] && Apart(m)
    ensures k in m && forall j :: j in m && j != k ==> m[k].used < m[j].used
    decreases m
  {
    k :| k in m;
    var less := m - {k};
    assert forall j :: j in m && j != k ==> j in less && less[j] == m[j];
    if less != map[] {
      var j := Oldest(less);
      if m[j].used < m[k].used {
        k := j;
      }
    }
  }

  lemma {:induction false} ShedExists(all: Entries, kept: Entries, room: int, newest: Key) returns (rest: Entries)
    requires Apart(all) && newest in all && forall k :: k in all && k != newest ==> all[k].used < all[newest].used
    requires Shedding(all, kept, room) && Within(all, kept) && newest in kept
    ensures IsShed(all, rest, room) && Within(all, rest) && newest in rest
    decreases |kept|
  {
    hide Total, Shedding, Apart;
    if Total(kept) <= room || |kept| <= 1 {
      rest := kept;
    } else {
      ApartWithin(all, kept);
      var oldest := Oldest(kept);
      ShedStep(all, kept, room, newest, oldest);
      rest := ShedExists(all, kept - {oldest}, room, newest);
    }
  }

  /** What entering leaves alone. */
  ghost predicate SameCalls(s: Sys, s': Sys) {
    && s'.procs == s.procs && s'.tokens == s.tokens
    && forall k :: Part(k) in s.files ==> Part(k) in s'.files
  }

  lemma KeptExists(m: Entries, k: Key, c: Cut, room: int) returns (kept: Entries)
    requires Apart(m) && forall j :: j in m ==> m[j].used < c.used
    ensures IsShed(m[k := c], kept, room) && k in kept && Aged(kept, c.used)
  {
    hide Total, Shedding;
    var all := m[k := c];
    assert Apart(all);
    ShedNone(all, room);
    kept := ShedExists(all, all, room, k);
    ApartWithin(all, kept);
  }

  lemma AddsExists(budget: int, s: Sys, k: Key, n: nat, credit: nat) returns (s': Sys)
    requires Aged(s.entries, s.uses)
    ensures Adds(budget, s, k, n, credit, s') && k in s'.entries && Aged(s'.entries, s'.uses)
    ensures SameCalls(s, s') && s'.files.Keys <= s.files.Keys
    ensures s'.size - Total(s'.entries) == s.size - Total(s.entries) - credit + Replaces(s, k)
  {
    hide IsShed, Total, Apart;
    var all := s.entries[k := Cut(n, s.uses + 1)];
    var drift := s.size + n - credit - Total(all);
    var kept := KeptExists(s.entries, k, Cut(n, s.uses + 1), budget - drift);
    Replaced(s.entries, k, Cut(n, s.uses + 1));
    s' := s.(entries := kept, uses := s.uses + 1, size := Total(kept) + drift,
             files := Unlinked(s.files, all.Keys - kept.Keys));
  }

  // ----- a Put that will enter too late -----

  /** Call t has put k's file in place and has yet to enter it. */
  ghost predicate Poised(s: Sys, t: nat, k: Key, n: nat) {
    t in s.procs && s.procs[t] == Putting(k, n) && Aged(s.entries, s.uses)
  }

  /** If meanwhile k has an entry, evicting it takes the file the Put will enter. */
  lemma LosesFile(budget: int, s0: Sys, s: Sys, t: nat, k: Key, n: nat)
    requires Leads(budget, s0, s) && Poised(s, t, k, n) && k in s.entries
    ensures !SafeForever(budget, s0)
  {
    hide Leads, Adds, Total;
    var s1 := s.(entries := s.entries - {k}, size := s.size - s.entries[k].size, files := s.files - {Final(k)});
    assert CarefulStep(budget, s, Evict(k), s1);
    LeadsOn(budget, s0, s, Evict(k), s1);
    var s2 := EntersNow(budget, s0, s1, t, k, n);
    assert !OnDisk(s2, Final(k), k);
  }

  lemma EntersNow(budget: int, s0: Sys, s: Sys, t: nat, k: Key, n: nat) returns (s': Sys)
    requires Leads(budget, s0, s) && Poised(s, t, k, n)
    ensures Leads(budget, s0, s') && k in s'.entries && Aged(s'.entries, s'.uses)
    ensures s'.procs == s.procs[t := Returned(k, At(k))] && s'.files.Keys <= s.files.Keys
  {
    hide Leads, Adds, Total, Aged;
    s' := AddsExists(budget, Now(s, t, Returned(k, At(k))), k, n, Replaces(s, k));
    assert CarefulStep(budget, s, PutEnter(t), s');
    LeadsOn(budget, s0, s, PutEnter(t), s');
  }

  /** It gets one if another Put of k is under way. */
  lemma PutMeetsPut(budget: int, s0: Sys, s: Sys, t: nat, u: nat, k: Key, n: nat)
    requires Leads(budget, s0, s) && Poised(s, t, k, n)
    requires u != t && u in s.procs && s.procs[u].Putting? && s.procs[u].key == k
    ensures !SafeForever(budget, s0)
  {
    hide Leads, Aged, SafeForever;
    var s' := EntersNow(budget, s0, s, u, k, s.procs[u].n);
    LosesFile(budget, s0, s', t, k, n);
  }

  // ----- or a fill -----

  ghost predicate Tokens(s: Sys) {
    |s.tokens| <= MAX_FILLS && forall v :: v in s.tokens ==> v in s.procs && Holding(s.procs[v])
  }

  /** The Put of t, a fill of u not yet entered, both of k. */
  ghost predicate Meeting(s: Sys, t: nat, u: nat, k: Key, n: nat) {
    && Poised(s, t, k, n) && Tokens(s)
    && u in s.procs && s.procs[u].key == k && Pending(s.procs[u])
    && (s.procs[u].stage.Copied? ==> Part(k) in s.files)
  }

  lemma PutMeetsRenamed(budget: int, s0: Sys, s: Sys, t: nat, u: nat, k: Key, n: nat)
    requires Leads(budget, s0, s) && Meeting(s, t, u, k, n) && s.procs[u].stage.Renamed?
    ensures !SafeForever(budget, s0)
  {
    hide Leads, Aged, SafeForever;
    var s' := InsertsNow(budget, s0, s, u, k, s.procs[u].stage.n);
    LosesFile(budget, s0, s', t, k, n);
  }

  lemma InsertsNow(budget: int, s0: Sys, s: Sys, u: nat, k: Key, m: nat) returns (s': Sys)
    requires Leads(budget, s0, s) && Stands(s, u, k, Renamed(m)) && Aged(s.entries, s.uses)
    ensures Leads(budget, s0, s') && k in s'.entries && Aged(s'.entries, s'.uses)
    ensures SameCalls(Now(s, u, Leader(k, Out(At(k)))), s')
    ensures Does(budget, s, Insert(u), s')
    ensures s'.size - Total(s'.entries) == s.size - Total(s.entries) + Replaces(s, k)
  {
    hide Leads, Adds, Total, Aged;
    var mid := Now(s, u, Leader(k, Out(At(k))));
    s' := AddsExists(budget, mid, k, m, 0);
    assert Stands(s, u, k, Renamed(m)) && Adds(budget, mid, k, m, 0, s');
    assert CarefulStep(budget, s, Insert(u), s');
    LeadsOn(budget, s0, s, Insert(u), s');
  }

  lemma PutMeetsCopied(budget: int, s0: Sys, s: Sys, t: nat, u: nat, k: Key, n: nat)
    requires Leads(budget, s0, s) && Meeting(s, t, u, k, n) && s.procs[u].stage.Copied?
    ensures !SafeForever(budget, s0)
  {
    hide Leads, Adds, Aged, SafeForever;
    var s' := Now(s, u, Leader(k, Renamed(0))).(files := (s.files - {Part(k)})[Final(k) := s.files[Part(k)]]);
    assert Stands(s, u, k, Copied) && CarefulStep(budget, s, Rename(u, 0), s');
    LeadsOn(budget, s0, s, Rename(u, 0), s');
    PutMeetsRenamed(budget, s0, s', t, u, k, n);
  }

  lemma PutMeetsFetching(budget: int, s0: Sys, s: Sys, t: nat, u: nat, k: Key, n: nat)
    requires Leads(budget, s0, s) && Meeting(s, t, u, k, n) && s.procs[u].stage.Fetching?
    ensures !SafeForever(budget, s0)
  {
    hide Leads, Adds, Aged, SafeForever;
    var s' := Now(s, u, Leader(k, Copied)).(files := s.files[Part(k) := Whole(k)]);
    assert Stands(s, u, k, Fetching) && CarefulStep(budget, s, CopyAll(u), s');
    LeadsOn(budget, s0, s, CopyAll(u), s');
    PutMeetsCopied(budget, s0, s', t, u, k, n);
  }

  lemma PutMeetsWaiting(budget: int, s0: Sys, s: Sys, t: nat, u: nat, k: Key, n: nat)
    requires Leads(budget, s0, s) && Meeting(s, t, u, k, n) && s.procs[u].stage.WantToken?
    ensures !SafeForever(budget, s0)
  {
    hide Leads, Adds, Aged, SafeForever;
    var r := FreeToken(budget, s0, s, t, u, k, n);
    var s' := Now(r, u, Leader(k, Fetching)).(tokens := r.tokens + {u});
    assert Stands(r, u, k, WantToken) && CarefulStep(budget, r, TakeToken(u), s');
    LeadsOn(budget, s0, r, TakeToken(u), s');
    PutMeetsFetching(budget, s0, s', t, u, k, n);
  }

  // ----- a token can always be had -----

  /** Whoever holds a token can be brought to let it go. */
  lemma FreeToken(budget: int, s0: Sys, s: Sys, t: nat, u: nat, k: Key, n: nat) returns (s': Sys)
    requires Leads(budget, s0, s) && Meeting(s, t, u, k, n) && s.procs[u].stage.WantToken?
    ensures Leads(budget, s0, s') && Meeting(s', t, u, k, n) && s'.procs[u].stage.WantToken?
    ensures |s'.tokens| < MAX_FILLS
  {
    hide Leads, Aged, CarefulStep;
    s' := s;
    if |s.tokens| == MAX_FILLS {
      var v :| v in s.tokens;
      s' := ComesOut(budget, s0, s, t, u, v, k, n);
      var j, o := s'.procs[v].key, s'.procs[v].stage.o;
      var r := Now(s', v, Leader(j, Done(o))).(tokens := s'.tokens - {v});
      Releases(budget, s', v, j, o, r);
      LeadsOn(budget, s0, s', Release(v), r);
      s' := r;
    }
  }

  lemma Releases(budget: int, s: Sys, v: nat, j: Key, o: Outcome, s': Sys)
    requires Stands(s, v, j, Out(o)) && s' == Now(s, v, Leader(j, Done(o))).(tokens := s.tokens - {v})
    ensures CarefulStep(budget, s, Release(v), s')
  {
    hide Adds;
  }

  /** A token's holder comes out of its fetch, failing if need be. */
  lemma ComesOut(budget: int, s0: Sys, s: Sys, t: nat, u: nat, v: nat, k: Key, n: nat) returns (s': Sys)
    requires Leads(budget, s0, s) && Meeting(s, t, u, k, n) && s.procs[u].stage.WantToken? && v in s.tokens
    ensures Leads(budget, s0, s') && Meeting(s', t, u, k, n) && s'.procs[u].stage.WantToken?
    ensures s'.tokens == s.tokens && s'.procs[v].Leader? && s'.procs[v].stage.Out?
  {
    hide Leads, Adds, Aged, Does;
    var j, stage := s.procs[v].key, s.procs[v].stage;
    if stage.Renamed? {
      s' := InsertsNow(budget, s0, s, v, j, stage.n);
    } else if stage.Out? {
      s' := s;
    } else {
      s' := FailsNow(budget, s0, s, v, j);
    }
  }

  lemma FailsNow(budget: int, s0: Sys, s: Sys, v: nat, j: Key) returns (s': Sys)
    requires Leads(budget, s0, s) && (Stands(s, v, j, Fetching) || Stands(s, v, j, Copied))
    ensures Leads(budget, s0, s') && s' == Now(s, v, Leader(j, Out(Failed))).(files := s.files - {Part(j)})
  {
    hide Leads, Adds;
    s' := Now(s, v, Leader(j, Out(Failed))).(files := s.files - {Part(j)});
    assert CarefulStep(budget, s, FetchFails(v), s');
    LeadsOn(budget, s0, s, FetchFails(v), s');
  }

  lemma PutMeetsFill(budget: int, s0: Sys, s: Sys, t: nat, u: nat, k: Key, n: nat)
    requires Leads(budget, s0, s) && Meeting(s, t, u, k, n)
    ensures !SafeForever(budget, s0)
  {
    hide Leads, Aged, SafeForever;
    match s.procs[u].stage
    case WantToken => PutMeetsWaiting(budget, s0, s, t, u, k, n);
    case Fetching => PutMeetsFetching(budget, s0, s, t, u, k, n);
    case Copied => PutMeetsCopied(budget, s0, s, t, u, k, n);
    case Renamed(_) => PutMeetsRenamed(budget, s0, s, t, u, k, n);
  }

  // ----- the exact condition -----

  lemma CarelessFillLoses(budget: int, s: Sys, u: nat, k: Key, s': Sys)
    requires Inv(s) && Does(budget, s, FillLead(u, k), s') && BeingPut(s, k)
    ensures !SafeForever(budget, s')
  {
    var t :| t in s.procs && s.procs[t].key == k && s.procs[t].Putting?;
    FillMeets(budget, s, u, k, s', t);
    LeadsNowhere(budget, s');
    hide Inv, Does, Leads, Meeting, SafeForever;
    PutMeetsFill(budget, s', s', t, u, k, s.procs[t].n);
  }

  lemma FillMeets(budget: int, s: Sys, u: nat, k: Key, s': Sys, t: nat)
    requires Inv(s) && Does(budget, s, FillLead(u, k), s')
    requires t in s.procs && s.procs[t].key == k && s.procs[t].Putting?
    ensures Meeting(s', t, u, k, s.procs[t].n)
  {
    hide Adds, Total, Calls, Exclusive, Apart;
  }

  lemma CarelessPutLoses(budget: int, s: Sys, t: nat, k: Key, n: nat, s': Sys)
    requires Inv(s) && Does(budget, s, PutRename(t, k, n), s')
    requires k in s.entries || BeingPut(s, k) || BeingFilled(s, k)
    ensures !SafeForever(budget, s')
  {
    PutPoises(budget, s, t, k, n, s');
    LeadsNowhere(budget, s');
    hide Inv, Does, Leads, Poised, SafeForever, Pending, Tokens;
    if k in s.entries {
      LosesFile(budget, s', s', t, k, n);
    } else if BeingPut(s, k) {
      var u :| u in s.procs && s.procs[u].key == k && s.procs[u].Putting?;
      PutMeetsPut(budget, s', s', t, u, k, n);
    } else {
      var u :| u in s.procs && s.procs[u].key == k && Pending(s.procs[u]);
      PutMeetsFill(budget, s', s', t, u, k, n);
    }
  }

  lemma PutPoises(budget: int, s: Sys, t: nat, k: Key, n: nat, s': Sys)
    requires Inv(s) && Does(budget, s, PutRename(t, k, n), s')
    ensures t !in s.procs && s'.procs == s.procs[t := Putting(k, n)] && s'.entries == s.entries
    ensures Poised(s', t, k, n) && Tokens(s')
    ensures forall u :: u in s.procs && s.procs[u].key == k && Pending(s.procs[u]) ==>
              u in s'.procs && (s'.procs[u].stage.Copied? ==> Part(k) in s'.files)
  {
    hide Adds, Total, Exclusive, Apart;
    forall u | u in s.procs && s.procs[u].key == k && Pending(s.procs[u])
      ensures u in s'.procs && (s'.procs[u].stage.Copied? ==> Part(k) in s'.files)
    {
      assert CallOk(s, u);
    }
  }

  /** From every state the invariant holds in, a step leaves the cache complete in
      every careful continuation exactly when it is careful: a Put exactly when its
      key is absent and no other Put and no fill of it is under way, a fill that
      leads exactly when no Put of its key is, and every other step always. */
  lemma CareIsExact(budget: int, s: Sys, a: Action, s': Sys)
    requires Inv(s) && Does(budget, s, a, s')
    ensures SafeForever(budget, s') <==> Careful(s, a)
  {
    hide Inv, Does, SafeForever;
    if Careful(s, a) {
      StepKeeps(budget, s, a, s');
      InvIsSafe(budget, s');
    } else if a.FillLead? {
      CarelessFillLoses(budget, s, a.t, a.k, s');
    } else {
      CarelessPutLoses(budget, s, a.t, a.k, a.n, s');
    }
  }

  // ----- each kind of carelessness, from an empty cache -----

  lemma StartLeads(budget: int, a: Action, s: Sys)
    requires CarefulStep(budget, START, a, s)
    ensures Leads(budget, START, s) && Inv(s)
  {
    hide Inv, CarefulStep, Leads;
    LeadsNowhere(budget, START);
    LeadsOn(budget, START, START, a, s);
    StartInv();
    LeadsKeeps(budget, START, s);
  }

  /** A Put over a present key. */
  lemma PutOverPresentLosesFile(budget: int, k: Key, n: nat) returns (s: Sys, s': Sys)
    ensures Leads(budget, START, s) && k in s.entries
    ensures Does(budget, s, PutRename(1, k, n), s') && !SafeForever(budget, s')
  {
    hide Leads, Adds, Inv;
    var s1 := Now(START, 0, Putting(k, n)).(files := START.files[Final(k) := Whole(k)]);
    StartLeads(budget, PutRename(0, k, n), s1);
    s := EntersNow(budget, START, s1, 0, k, n);
    StartInv();
    LeadsKeeps(budget, START, s);
    s' := Now(s, 1, Putting(k, n)).(files := s.files[Final(k) := Whole(k)]);
    CareIsExact(budget, s, PutRename(1, k, n), s');
  }

  /** Two Puts of one key at once. */
  lemma TwoPutsLoseFile(budget: int, k: Key, n: nat) returns (s: Sys, s': Sys)
    ensures Leads(budget, START, s) && BeingPut(s, k)
    ensures Does(budget, s, PutRename(1, k, n), s') && !SafeForever(budget, s')
  {
    hide Leads, Adds, Inv;
    s := Now(START, 0, Putting(k, n)).(files := START.files[Final(k) := Whole(k)]);
    StartLeads(budget, PutRename(0, k, n), s);
    s' := Now(s, 1, Putting(k, n)).(files := s.files[Final(k) := Whole(k)]);
    assert 0 in s.procs && s.procs[0].key == k;
    CareIsExact(budget, s, PutRename(1, k, n), s');
  }

  /** A Put of a key being filled. */
  lemma PutDuringFillLosesFile(budget: int, k: Key, n: nat) returns (s: Sys, s': Sys)
    ensures Leads(budget, START, s) && BeingFilled(s, k)
    ensures Does(budget, s, PutRename(1, k, n), s') && !SafeForever(budget, s')
  {
    hide Leads, Adds, Inv;
    s := Now(START, 0, Leader(k, WantToken)).(inflight := START.inflight[k := 0]);
    StartLeads(budget, FillLead(0, k), s);
    s' := Now(s, 1, Putting(k, n)).(files := s.files[Final(k) := Whole(k)]);
    assert 0 in s.procs && s.procs[0].key == k;
    CareIsExact(budget, s, PutRename(1, k, n), s');
  }

  /** A fill that enters over an entry leaves the size above the sum by that entry's. */
  lemma PutDuringFillUnbalances(budget: int, s: Sys, u: nat, k: Key, n: nat) returns (s': Sys)
    requires Stands(s, u, k, Renamed(n)) && Aged(s.entries, s.uses) && s.size == Total(s.entries) && k in s.entries
    ensures Does(budget, s, Insert(u), s') && s'.size == Total(s'.entries) + s.entries[k].size
  {
    hide Leads, Does, Total;
    LeadsNowhere(budget, s);
    s' := InsertsNow(budget, s, s, u, k, n);
  }
}
