/** The cache under concurrency: Fill, Get, Put and Evict of
    internal/mediacache/mediacache.go as interleaved atomic steps. */
module CacheProtocol {
  import opened Common
  import opened MediaCache

  const MAX_FILLS := 4

  /** What a call returns: the key's file, or an error. */
  datatype Outcome = At(key: Key) | Failed

  /** Where a leading Fill stands.  From Fetching to Out it holds a token; until
      Closing it is in the in-flight table. */
  datatype Stage =
    | WantToken
    | Fetching
    | Copied
    | Renamed(n: nat)
    | Out(o: Outcome)
    | Done(o: Outcome)
    | Closing(o: Outcome)

  datatype Proc =
    | Leader(key: Key, stage: Stage)
    | Waiting(flight: nat, key: Key)
    | Putting(key: Key, n: nat)
    | Returned(key: Key, o: Outcome)

  datatype Content = Partial | Whole(key: Key)

  /** The cache, the disk, and every call so far.  A flight is named by the call
      that leads it; closed holds the results of those whose done channel is. */
  datatype Sys = Sys(
    entries: Entries,
    size: int,
    uses: nat,
    inflight: map<Key, nat>,
    closed: map<nat, Outcome>,
    tokens: set<nat>,
    files: map<FileName, Content>,
    procs: map<nat, Proc>)

  const START := Sys(map[], 0, 0, map[], map[], {}, map[], map[])

  datatype Action =
    | FillHit(t: nat, k: Key)
    | FillJoin(t: nat, k: Key)
    | FillLead(t: nat, k: Key)
    | TakeToken(t: nat)
    | GiveUp(t: nat)
    | Write(t: nat)
    | CopyAll(t: nat)
    | FetchFails(t: nat)
    | Rename(t: nat, n: nat)
    | Insert(t: nat)
    | Release(t: nat)
    | Land(t: nat)
    | CloseDone(t: nat)
    | Wake(t: nat)
    | Abandon(t: nat)
    | Get(k: Key)
    | Evict(k: Key)
    | PutRename(t: nat, k: Key, n: nat)
    | PutEnter(t: nat)

  function Bumped(s: Sys, k: Key): Sys
    requires k in s.entries
  {
    s.(entries := s.entries[k := s.entries[k].(used := s.uses + 1)], uses := s.uses + 1)
  }

  function Now(s: Sys, t: nat, p: Proc): Sys {
    s.(procs := s.procs[t := p])
  }

  predicate Stands(s: Sys, t: nat, k: Key, stage: Stage) {
    t in s.procs && s.procs[t] == Leader(k, stage)
  }

  /** Entering a cut under the lock: count it, taking off what is credited, then
      shed by the size kept, removing the files of what is shed. */
  ghost predicate Adds(budget: int, s: Sys, k: Key, n: nat, credit: nat, s': Sys) {
    var all := s.entries[k := Cut(n, s.uses + 1)];
    var drift := s.size + n - credit - Total(all);
    && IsShed(all, s'.entries, budget - drift)
    && s' == s.(entries := s'.entries,
                uses := s.uses + 1,
                size := Total(s'.entries) + drift,
                files := Unlinked(s.files, all.Keys - s'.entries.Keys))
  }

  /** What Put takes off for the entry it replaces. */
  function Replaces(s: Sys, k: Key): nat {
    if k in s.entries then s.entries[k].size else 0
  }

  /** The files left when these cuts are shed. */
  function Unlinked(files: map<FileName, Content>, gone: set<Key>): map<FileName, Content> {
    map f | f in files && !(f.Final? && f.key in gone) :: files[f]
  }

  ghost predicate Does(budget: int, s: Sys, a: Action, s': Sys) {
    match a
    case FillHit(t, k) =>
      t !in s.procs && k in s.entries && s' == Now(Bumped(s, k), t, Returned(k, At(k)))
    case FillJoin(t, k) =>
      t !in s.procs && k !in s.entries && k in s.inflight && s' == Now(s, t, Waiting(s.inflight[k], k))
    case FillLead(t, k) =>
      && t !in s.procs && k !in s.entries && k !in s.inflight
      && s' == Now(s, t, Leader(k, WantToken)).(inflight := s.inflight[k := t])
    case TakeToken(t) =>
      exists k :: Stands(s, t, k, WantToken) && |s.tokens| < MAX_FILLS
                  && s' == Now(s, t, Leader(k, Fetching)).(tokens := s.tokens + {t})
    case GiveUp(t) =>
      exists k :: Stands(s, t, k, WantToken) && s' == Now(s, t, Leader(k, Done(Failed)))
    case Write(t) =>
      exists k :: Stands(s, t, k, Fetching) && s' == s.(files := s.files[Part(k) := Partial])
    case CopyAll(t) =>
      exists k :: Stands(s, t, k, Fetching)
                  && s' == Now(s, t, Leader(k, Copied)).(files := s.files[Part(k) := Whole(k)])
    case FetchFails(t) =>
      exists k :: (Stands(s, t, k, Fetching) || Stands(s, t, k, Copied))
                  && s' == Now(s, t, Leader(k, Out(Failed))).(files := s.files - {Part(k)})
    case Rename(t, n) =>
      exists k :: Stands(s, t, k, Copied) && Part(k) in s.files
                  && s' == Now(s, t, Leader(k, Renamed(n))).(
                             files := (s.files - {Part(k)})[Final(k) := s.files[Part(k)]])
    case Insert(t) =>
      exists k, n :: Stands(s, t, k, Renamed(n)) && Adds(budget, Now(s, t, Leader(k, Out(At(k)))), k, n, 0, s')
    case Release(t) =>
      exists k, o :: Stands(s, t, k, Out(o)) && s' == Now(s, t, Leader(k, Done(o))).(tokens := s.tokens - {t})
    case Land(t) =>
      exists k, o :: Stands(s, t, k, Done(o)) && s' == Now(s, t, Leader(k, Closing(o))).(inflight := s.inflight - {k})
    case CloseDone(t) =>
      exists k, o :: Stands(s, t, k, Closing(o)) && s' == Now(s, t, Returned(k, o)).(closed := s.closed[t := o])
    case Wake(t) =>
      t in s.procs && s.procs[t].Waiting? && s.procs[t].flight in s.closed
      && s' == Now(s, t, Returned(s.procs[t].key, s.closed[s.procs[t].flight]))
    case Abandon(t) =>
      t in s.procs && s.procs[t].Waiting? && s' == Now(s, t, Returned(s.procs[t].key, Failed))
    case Get(k) =>
      k in s.entries && s' == Bumped(s, k)
    case Evict(k) =>
      k in s.entries && s' == s.(entries := s.entries - {k}, size := s.size - s.entries[k].size,
                                 files := s.files - {Final(k)})
    case PutRename(t, k, n) =>
      t !in s.procs && s' == Now(s, t, Putting(k, n)).(files := s.files[Final(k) := Whole(k)])
    case PutEnter(t) =>
      exists k, n :: t in s.procs && s.procs[t] == Putting(k, n)
                     && Adds(budget, Now(s, t, Returned(k, At(k))), k, n, Replaces(s, k), s')
  }

  /** Not yet entered in the cache. */
  predicate Pending(p: Proc) {
    p.Leader? && (p.stage.WantToken? || p.stage.Fetching? || p.stage.Copied? || p.stage.Renamed?)
  }

  ghost predicate BeingPut(s: Sys, k: Key) {
    exists u :: u in s.procs && s.procs[u].key == k && s.procs[u].Putting?
  }

  ghost predicate BeingFilled(s: Sys, k: Key) {
    exists u :: u in s.procs && s.procs[u].key == k && Pending(s.procs[u])
  }

  /** How the program uses the cache: a Put starts only while its key is absent and
      no other Put and no fill of it is under way, and a fill leads only while no Put
      of its key is.  Stitched renders are put and never filled, and put by one
      worker when absent, so both hold. */
  ghost predicate Careful(s: Sys, a: Action) {
    match a
    case FillLead(_, k) => !BeingPut(s, k)
    case PutRename(_, k, _) => k !in s.entries && !BeingPut(s, k) && !BeingFilled(s, k)
    case _ => true
  }

  // ----- what every step keeps -----

  predicate Holding(p: Proc) {
    p.Leader? && (p.stage.Fetching? || p.stage.Copied? || p.stage.Renamed? || p.stage.Out?)
  }

  predicate Flying(p: Proc) {
    p.Leader? && !p.stage.Closing?
  }

  /** A call about k fails or gives k's own file. */
  predicate Owns(k: Key, o: Outcome) {
    o == Failed || o == At(k)
  }

  /** The result a leader carries, if it has come that far. */
  predicate Carries(k: Key, stage: Stage) {
    (stage.Out? || stage.Done? || stage.Closing?) ==> Owns(k, stage.o)
  }

  predicate OnDisk(s: Sys, f: FileName, k: Key) {
    f in s.files && s.files[f] == Whole(k)
  }

  /** The books balance and each entry's file is that key's complete cut. */
  ghost predicate Books(s: Sys) {
    && s.size == Total(s.entries) && Apart(s.entries)
    && (forall k :: k in s.entries ==> s.entries[k].used <= s.uses)
    && (forall k :: k in s.entries ==> OnDisk(s, Final(k), k))
  }

  /** Each call stands where the shared state says it does. */
  ghost predicate CallOk(s: Sys, t: nat)
    requires t in s.procs
  {
    var p := s.procs[t];
    match p
    case Leader(k, stage) =>
      && Carries(k, stage)
      && (Flying(p) ==> k in s.inflight && s.inflight[k] == t)
      && (Pending(p) ==> k !in s.entries)
      && (stage.Copied? ==> OnDisk(s, Part(k), k))
      && (stage.Renamed? ==> OnDisk(s, Final(k), k))
    case Waiting(f, k) =>
      f in s.procs && s.procs[f].key == k && (f in s.closed || s.procs[f].Leader?)
    case Putting(k, _) =>
      k !in s.entries && OnDisk(s, Final(k), k)
    case Returned(k, o) => Owns(k, o)
  }

  ghost predicate Calls(s: Sys) {
    forall t :: t in s.procs ==> CallOk(s, t)
  }

  ghost predicate Tables(s: Sys) {
    && (forall t :: t in s.tokens <==> t in s.procs && Holding(s.procs[t]))
    && |s.tokens| <= MAX_FILLS
    && (forall k :: k in s.inflight ==>
          s.inflight[k] in s.procs && Flying(s.procs[s.inflight[k]]) && s.procs[s.inflight[k]].key == k)
    && (forall t :: t in s.closed ==> t in s.procs && s.procs[t] == Returned(s.procs[t].key, s.closed[t]))
  }

  /** A key being put is not being filled, nor put by another call. */
  ghost predicate Exclusive(procs: map<nat, Proc>) {
    forall t, u :: t in procs && u in procs && procs[t].Putting? && procs[t].key == procs[u].key ==>
      !Pending(procs[u]) && (procs[u].Putting? ==> t == u)
  }

  ghost predicate Inv(s: Sys) {
    Books(s) && Calls(s) && Tables(s) && Exclusive(s.procs)
  }

  lemma StartInv()
    ensures Inv(START)
  {
  }

  // ----- step by step -----

  // The three parts of the invariant are kept separately: Calls by a lemma per
  // step, Tables by one per kind of step, and Books where a step touches them.

  lemma BumpKeeps(s: Sys, k: Key)
    requires Inv(s) && k in s.entries
    ensures Inv(Bumped(s, k))
  {
    hide Tables, Calls, Total, Apart, Exclusive;
    Reused(s.entries, k, s.uses + 1);
    var s' := Bumped(s, k);
    BumpCalls(s, k, s');
    SameTables(s, s');
  }

  lemma BumpCalls(s: Sys, k: Key, s': Sys)
    requires Calls(s) && k in s.entries && s' == Bumped(s, k)
    ensures Calls(s')
  {
    forall t | t in s'.procs ensures CallOk(s', t) {
      assert CallOk(s, t);
    }
  }

  lemma SameTables(s: Sys, s': Sys)
    requires Tables(s) && s'.procs == s.procs && s'.inflight == s.inflight && s'.closed == s.closed &&
             s'.tokens == s.tokens
    ensures Tables(s')
  {
  }

  /** A call that moves on starts no Put and no fill. */
  lemma Excludes(procs: map<nat, Proc>, t: nat, p: Proc)
    requires Exclusive(procs) && !p.Putting?
    requires Pending(p) ==> t in procs && Pending(procs[t]) && procs[t].key == p.key
    ensures Exclusive(procs[t := p])
  {
  }

  /** A call that starts one does so alone. */
  lemma ExcludesNew(s: Sys, t: nat, p: Proc)
    requires Exclusive(s.procs) && !BeingPut(s, p.key) && (p.Putting? ==> !BeingFilled(s, p.key))
    ensures Exclusive(s.procs[t := p])
  {
  }

  /** A call that holds nothing and leads nothing may appear or change. */
  lemma QuietKeeps(s: Sys, t: nat, p: Proc)
    requires Inv(s)
    requires t in s.procs ==> s.procs[t].Waiting? || s.procs[t].Putting?
    requires t in s.procs ==> s.procs[t].key == p.key
    requires (p.Returned? && Owns(p.key, p.o)) ||
             (p.Waiting? && p.flight in s.procs && s.procs[p.flight].Leader? && s.procs[p.flight].key == p.key)
    ensures Inv(Now(s, t, p))
  {
    hide Tables, Exclusive;
    Excludes(s.procs, t, p);
    QuietTables(s, t, p);
    var s' := Now(s, t, p);
    forall u | u in s'.procs ensures CallOk(s', u) {
      if u != t {
        assert CallOk(s, u);
      }
    }
  }

  lemma QuietTables(s: Sys, t: nat, p: Proc)
    requires Tables(s) && (p.Returned? || p.Waiting?)
    requires t in s.procs ==> s.procs[t].Waiting? || s.procs[t].Putting?
    ensures Tables(Now(s, t, p))
  {
  }

  lemma LeadKeeps(s: Sys, t: nat, k: Key)
    requires Inv(s) && t !in s.procs && k !in s.entries && k !in s.inflight && !BeingPut(s, k)
    ensures Inv(Now(s, t, Leader(k, WantToken)).(inflight := s.inflight[k := t]))
  {
    hide Tables, Exclusive, BeingPut;
    ExcludesNew(s, t, Leader(k, WantToken));
    var s' := Now(s, t, Leader(k, WantToken)).(inflight := s.inflight[k := t]);
    LeadTables(s, t, k, s');
    forall u | u in s'.procs ensures CallOk(s', u) {
      if u != t {
        assert CallOk(s, u);
      }
    }
  }

  lemma LeadTables(s: Sys, t: nat, k: Key, s': Sys)
    requires Tables(s) && t !in s.procs && k !in s.inflight
    requires s' == Now(s, t, Leader(k, WantToken)).(inflight := s.inflight[k := t])
    ensures Tables(s')
  {
  }

  /** A leader moves on. */
  lemma MoveTables(s: Sys, t: nat, k: Key, stage: Stage, stage': Stage, s': Sys)
    requires Tables(s) && Stands(s, t, k, stage) && !stage.Closing? && !stage'.Closing?
    requires s'.procs == s.procs[t := Leader(k, stage')] && s'.inflight == s.inflight && s'.closed == s.closed
    requires |s'.tokens| <= MAX_FILLS
    requires forall u :: u in s'.tokens <==> if u == t then Holding(Leader(k, stage')) else u in s.tokens
    ensures Tables(s')
  {
  }

  /** And stays without a token, or with it. */
  lemma StayTables(s: Sys, t: nat, k: Key, stage: Stage, stage': Stage, s': Sys)
    requires Tables(s) && Stands(s, t, k, stage) && !stage.Closing? && !stage'.Closing?
    requires s'.procs == s.procs[t := Leader(k, stage')] && s'.inflight == s.inflight && s'.closed == s.closed
    requires s'.tokens == s.tokens && Holding(Leader(k, stage)) == Holding(Leader(k, stage'))
    ensures Tables(s')
  {
    assert t in s.tokens <==> Holding(s.procs[t]);
    assert |s.tokens| <= MAX_FILLS;
    hide Tables;
    MoveTables(s, t, k, stage, stage', s');
  }

  /** Without touching the disk or the entries. */
  lemma MoveKeeps(s: Sys, t: nat, k: Key, stage: Stage, stage': Stage, tokens: set<nat>)
    requires Inv(s) && Stands(s, t, k, stage) && Flying(Leader(k, stage')) && !stage.Closing?
    requires !stage'.Copied? && !stage'.Renamed? && Carries(k, stage')
    requires Pending(Leader(k, stage')) ==> Pending(Leader(k, stage))
    requires |tokens| <= MAX_FILLS
    requires forall u :: u in tokens <==> if u == t then Holding(Leader(k, stage')) else u in s.tokens
    ensures Inv(Now(s, t, Leader(k, stage')).(tokens := tokens))
  {
    hide Tables, Exclusive;
    Excludes(s.procs, t, Leader(k, stage'));
    var s' := Now(s, t, Leader(k, stage')).(tokens := tokens);
    MoveTables(s, t, k, stage, stage', s');
    assert CallOk(s, t);
    forall u | u in s'.procs ensures CallOk(s', u) {
      if u != t {
        assert CallOk(s, u);
      }
    }
  }

  /** A fetching leader writes its own part file, and no one else's. */
  lemma WriteKeeps(s: Sys, t: nat, k: Key, stage': Stage, files: map<FileName, Content>)
    requires Inv(s) && (Stands(s, t, k, Fetching) || Stands(s, t, k, Copied))
    requires stage'.Fetching? || stage'.Copied? || stage' == Out(Failed)
    requires forall f :: f != Part(k) ==> (f in files <==> f in s.files) && (f in files ==> files[f] == s.files[f])
    requires stage'.Copied? ==> Part(k) in files && files[Part(k)] == Whole(k)
    ensures Inv(Now(s, t, Leader(k, stage')).(files := files))
  {
    hide Tables, CallOk, Exclusive;
    Excludes(s.procs, t, Leader(k, stage'));
    var s' := Now(s, t, Leader(k, stage')).(files := files);
    StayTables(s, t, k, s.procs[t].stage, stage', s');
    forall u | u in s'.procs ensures CallOk(s', u) {
      WriteOther(s, t, k, s', u);
    }
    forall j | j in s'.entries ensures OnDisk(s', Final(j), j) {
      assert Final(j) != Part(k);
    }
  }

  lemma WriteOther(s: Sys, t: nat, k: Key, s': Sys, u: nat)
    requires Calls(s) && (Stands(s, t, k, Fetching) || Stands(s, t, k, Copied))
    requires t in s'.procs && s' == Now(s, t, s'.procs[t]).(files := s'.files)
    requires s'.procs[t].Leader? && s'.procs[t].key == k
    requires s'.procs[t].stage.Fetching? || s'.procs[t].stage.Copied? || s'.procs[t].stage == Out(Failed)
    requires forall f :: f != Part(k) ==>
               (f in s'.files <==> f in s.files) && (f in s'.files ==> s'.files[f] == s.files[f])
    requires s'.procs[t].stage.Copied? ==> OnDisk(s', Part(k), k)
    requires u in s'.procs
    ensures CallOk(s', u)
  {
    assert CallOk(s, t);
    if u != t {
      assert CallOk(s, u);
    }
  }

  lemma RenameKeeps(s: Sys, t: nat, k: Key, n: nat)
    requires Inv(s) && Stands(s, t, k, Copied)
    ensures Part(k) in s.files
    ensures Inv(Now(s, t, Leader(k, Renamed(n))).(files := (s.files - {Part(k)})[Final(k) := s.files[Part(k)]]))
  {
    hide Tables, Exclusive;
    Excludes(s.procs, t, Leader(k, Renamed(n)));
    assert CallOk(s, t);
    var s' := Now(s, t, Leader(k, Renamed(n))).(files := (s.files - {Part(k)})[Final(k) := s.files[Part(k)]]);
    StayTables(s, t, k, Copied, Renamed(n), s');
    forall u | u in s'.procs ensures CallOk(s', u) {
      if u != t {
        assert CallOk(s, u);
      }
    }
  }

  lemma LandKeeps(s: Sys, t: nat, k: Key, o: Outcome)
    requires Inv(s) && Stands(s, t, k, Done(o))
    ensures Inv(Now(s, t, Leader(k, Closing(o))).(inflight := s.inflight - {k}))
  {
    hide Tables, Exclusive;
    Excludes(s.procs, t, Leader(k, Closing(o)));
    var s' := Now(s, t, Leader(k, Closing(o))).(inflight := s.inflight - {k});
    assert CallOk(s, t);
    LandTables(s, t, k, o, s');
    forall u | u in s'.procs ensures CallOk(s', u) {
      if u != t {
        assert CallOk(s, u);
      }
    }
  }

  lemma LandTables(s: Sys, t: nat, k: Key, o: Outcome, s': Sys)
    requires Tables(s) && Stands(s, t, k, Done(o)) && k in s.inflight && s.inflight[k] == t
    requires s' == Now(s, t, Leader(k, Closing(o))).(inflight := s.inflight - {k})
    ensures Tables(s')
  {
  }

  lemma CloseKeeps(s: Sys, t: nat, k: Key, o: Outcome)
    requires Inv(s) && Stands(s, t, k, Closing(o))
    ensures Inv(Now(s, t, Returned(k, o)).(closed := s.closed[t := o]))
  {
    hide Tables, Exclusive;
    Excludes(s.procs, t, Returned(k, o));
    var s' := Now(s, t, Returned(k, o)).(closed := s.closed[t := o]);
    CloseTables(s, t, k, o, s');
    assert CallOk(s, t);
    forall u | u in s'.procs ensures CallOk(s', u) {
      if u != t {
        assert CallOk(s, u);
      }
    }
  }

  lemma CloseTables(s: Sys, t: nat, k: Key, o: Outcome, s': Sys)
    requires Tables(s) && Stands(s, t, k, Closing(o))
    requires s' == Now(s, t, Returned(k, o)).(closed := s.closed[t := o])
    ensures Tables(s')
  {
  }

  lemma EvictKeeps(s: Sys, k: Key)
    requires Inv(s) && k in s.entries
    ensures Inv(s.(entries := s.entries - {k}, size := s.size - s.entries[k].size, files := s.files - {Final(k)}))
  {
    hide Tables, Total, Exclusive;
    TotalWithout(s.entries, k);
    var s' := s.(entries := s.entries - {k}, size := s.size - s.entries[k].size, files := s.files - {Final(k)});
    SameTables(s, s');
    forall u | u in s'.procs ensures CallOk(s', u) {
      assert CallOk(s, u);
    }
  }

  lemma PutRenameKeeps(s: Sys, t: nat, k: Key, n: nat)
    requires Inv(s) && t !in s.procs && k !in s.entries && !BeingPut(s, k) && !BeingFilled(s, k)
    ensures Inv(Now(s, t, Putting(k, n)).(files := s.files[Final(k) := Whole(k)]))
  {
    hide Tables, Exclusive, BeingPut, BeingFilled;
    ExcludesNew(s, t, Putting(k, n));
    var s' := Now(s, t, Putting(k, n)).(files := s.files[Final(k) := Whole(k)]);
    PutTables(s, t, k, n, s');
    forall u | u in s'.procs ensures CallOk(s', u) {
      if u != t {
        assert CallOk(s, u);
      }
    }
  }

  lemma PutTables(s: Sys, t: nat, k: Key, n: nat, s': Sys)
    requires Tables(s) && t !in s.procs
    requires s' == Now(s, t, Putting(k, n)).(files := s.files[Final(k) := Whole(k)])
    ensures Tables(s')
  {
  }

  /** While the books balance and the key is absent. */
  ghost predicate Enters(budget: int, s: Sys, k: Key, n: nat, s': Sys) {
    var all := s.entries[k := Cut(n, s.uses + 1)];
    && IsShed(all, s'.entries, budget)
    && s' == s.(entries := s'.entries,
                uses := s.uses + 1,
                size := Total(s'.entries),
                files := Unlinked(s.files, all.Keys - s'.entries.Keys))
  }

  lemma AddsEnters(budget: int, s: Sys, k: Key, n: nat, s': Sys)
    requires s.size == Total(s.entries) && k !in s.entries
    ensures Adds(budget, s, k, n, 0, s') <==> Enters(budget, s, k, n, s')
  {
    hide IsShed, Total, Unlinked;
    TotalWith(s.entries, k, Cut(n, s.uses + 1));
  }

  /** Entering a cut whose file is in place and whose key is absent, with no
      other call waiting to enter it. */
  lemma EnterBooks(budget: int, s: Sys, k: Key, n: nat, s': Sys)
    requires Books(s) && k !in s.entries && OnDisk(s, Final(k), k) && Enters(budget, s, k, n, s')
    ensures Books(s') && k in s'.entries
    ensures s'.entries.Keys <= s.entries.Keys + {k}
  {
    EnterKept(budget, s, k, n, s');
    hide Enters, Total, Apart, Within, OnDisk;
  }

  lemma EnterKept(budget: int, s: Sys, k: Key, n: nat, s': Sys)
    requires (forall j :: j in s.entries ==> s.entries[j].used <= s.uses) && Enters(budget, s, k, n, s')
    ensures Within(s.entries[k := Cut(n, s.uses + 1)], s'.entries) && s'.uses == s.uses + 1
    ensures k in s'.entries && s'.entries.Keys <= s.entries.Keys + {k}
  {
    hide IsShed, Total, Within, Unlinked;
    var all := s.entries[k := Cut(n, s.uses + 1)];
    ShedWithin(all, s'.entries, budget);
    NewestKept(all, s'.entries, budget, k);
  }

  lemma ShedWithin(all: Entries, kept: Entries, budget: int)
    requires IsShed(all, kept, budget)
    ensures Within(all, kept) && kept.Keys <= all.Keys
  {
  }

  /** Shedding never drops the most recently used cut. */
  lemma NewestKept(all: Entries, kept: Entries, budget: int, k: Key)
    requires IsShed(all, kept, budget) && k in all
    requires forall j :: j in all && j != k ==> all[j].used < all[k].used
    ensures k in kept
  {
    var j :| j in kept.Keys;
    assert j in all;
  }

  lemma EnterCalls(budget: int, s: Sys, k: Key, n: nat, s': Sys)
    requires Calls(s) && Enters(budget, s, k, n, s') && s'.entries.Keys <= s.entries.Keys + {k} && k in s'.entries
    requires forall t :: t in s.procs && (Pending(s.procs[t]) || s.procs[t].Putting?) ==> s.procs[t].key != k
    ensures Calls(s')
  {
    forall t | t in s'.procs ensures CallOk(s', t) {
      assert CallOk(s, t);
    }
  }

  lemma InsertKeeps(budget: int, s: Sys, t: nat, k: Key, n: nat, s': Sys)
    requires Inv(s) && Stands(s, t, k, Renamed(n)) && Enters(budget, Now(s, t, Leader(k, Out(At(k)))), k, n, s')
    ensures Inv(s') && k in s'.entries
  {
    var mid := Now(s, t, Leader(k, Out(At(k))));
    assert CallOk(s, t);
    MoveKeeps(s, t, k, Renamed(n), Out(At(k)), s.tokens);
    assert mid.(tokens := s.tokens) == mid;
    forall u | u in mid.procs && (Pending(mid.procs[u]) || mid.procs[u].Putting?) ensures mid.procs[u].key != k {
      assert CallOk(mid, u) && CallOk(mid, t);
    }
    EnterBooks(budget, mid, k, n, s');
    EnterCalls(budget, mid, k, n, s');
  }

  lemma PutEnterKeeps(budget: int, s: Sys, t: nat, k: Key, n: nat, s': Sys)
    requires Inv(s) && t in s.procs && s.procs[t] == Putting(k, n) &&
             Enters(budget, Now(s, t, Returned(k, At(k))), k, n, s')
    ensures Inv(s') && k in s'.entries
  {
    var mid := Now(s, t, Returned(k, At(k)));
    assert CallOk(s, t);
    QuietKeeps(s, t, Returned(k, At(k)));
    forall u | u in mid.procs && (Pending(mid.procs[u]) || mid.procs[u].Putting?) ensures mid.procs[u].key != k {
      assert CallOk(s, u);
    }
    EnterBooks(budget, mid, k, n, s');
    EnterCalls(budget, mid, k, n, s');
  }

  lemma TokenHeld(s: Sys, t: nat)
    requires Tables(s) && t in s.procs
    ensures |s.tokens| <= MAX_FILLS && (t in s.tokens <==> Holding(s.procs[t]))
  {
  }

  lemma LeaderCarries(s: Sys, t: nat)
    requires Calls(s) && t in s.procs && s.procs[t].Leader?
    ensures Carries(s.procs[t].key, s.procs[t].stage)
  {
    assert CallOk(s, t);
  }

  lemma TokenStepKeeps(budget: int, s: Sys, a: Action, s': Sys)
    requires Inv(s) && Does(budget, s, a, s') && (a.TakeToken? || a.GiveUp? || a.Release?)
    ensures Inv(s')
  {
    hide Books, Calls, Tables;
    TokenHeld(s, a.t);
    var t := a.t;
    match a
    case TakeToken(_) =>
      var k :| Stands(s, t, k, WantToken) && s' == Now(s, t, Leader(k, Fetching)).(tokens := s.tokens + {t});
      MoveKeeps(s, t, k, WantToken, Fetching, s.tokens + {t});
    case GiveUp(_) =>
      var k :| Stands(s, t, k, WantToken) && s' == Now(s, t, Leader(k, Done(Failed)));
      MoveKeeps(s, t, k, WantToken, Done(Failed), s.tokens);
      assert s'.(tokens := s.tokens) == s';
    case Release(_) =>
      var k, o :| Stands(s, t, k, Out(o)) && s' == Now(s, t, Leader(k, Done(o))).(tokens := s.tokens - {t});
      LeaderCarries(s, t);
      MoveKeeps(s, t, k, Out(o), Done(o), s.tokens - {t});
  }

  lemma PartialKeeps(s: Sys, t: nat, k: Key)
    requires Inv(s) && Stands(s, t, k, Fetching)
    ensures Inv(s.(files := s.files[Part(k) := Partial]))
  {
    WriteKeeps(s, t, k, Fetching, s.files[Part(k) := Partial]);
    assert s.procs[t := Leader(k, Fetching)] == s.procs;
  }

  lemma CopyKeeps(s: Sys, t: nat, k: Key)
    requires Inv(s) && Stands(s, t, k, Fetching)
    ensures Inv(Now(s, t, Leader(k, Copied)).(files := s.files[Part(k) := Whole(k)]))
  {
    WriteKeeps(s, t, k, Copied, s.files[Part(k) := Whole(k)]);
  }

  lemma FailKeeps(s: Sys, t: nat, k: Key)
    requires Inv(s) && (Stands(s, t, k, Fetching) || Stands(s, t, k, Copied))
    ensures Inv(Now(s, t, Leader(k, Out(Failed))).(files := s.files - {Part(k)}))
  {
    WriteKeeps(s, t, k, Out(Failed), s.files - {Part(k)});
  }

  lemma DiskStepKeeps(budget: int, s: Sys, a: Action, s': Sys)
    requires Inv(s) && Does(budget, s, a, s') && (a.Write? || a.CopyAll? || a.FetchFails?)
    ensures Inv(s')
  {
    hide Inv;
    var t := a.t;
    match a
    case Write(_) =>
      var k :| Stands(s, t, k, Fetching) && s' == s.(files := s.files[Part(k) := Partial]);
      PartialKeeps(s, t, k);
    case CopyAll(_) =>
      var k :| Stands(s, t, k, Fetching) && s' == Now(s, t, Leader(k, Copied)).(files := s.files[Part(k) := Whole(k)]);
      CopyKeeps(s, t, k);
    case FetchFails(_) =>
      var k :| (Stands(s, t, k, Fetching) || Stands(s, t, k, Copied))
               && s' == Now(s, t, Leader(k, Out(Failed))).(files := s.files - {Part(k)});
      FailKeeps(s, t, k);
  }

  /** What is about to enter the cache is not in it, and the books balance. */
  lemma Absent(s: Sys, t: nat, k: Key)
    requires Inv(s) && t in s.procs && s.procs[t].key == k && (Pending(s.procs[t]) || s.procs[t].Putting?)
    ensures k !in s.entries && s.size == Total(s.entries)
  {
    assert CallOk(s, t);
  }

  lemma LandingStepKeeps(budget: int, s: Sys, a: Action, s': Sys)
    requires Inv(s) && Does(budget, s, a, s')
    requires a.Rename? || a.Insert? || a.Land? || a.CloseDone?
    ensures Inv(s')
  {
    hide Inv, Adds, Enters;
    var t := a.t;
    match a
    case Rename(_, n) =>
      var k :| Stands(s, t, k, Copied) && Part(k) in s.files
               && s' == Now(s, t, Leader(k, Renamed(n))).(files := (s.files - {Part(k)})[Final(k) := s.files[Part(k)]]);
      RenameKeeps(s, t, k, n);
    case Insert(_) =>
      var k, n :| Stands(s, t, k, Renamed(n)) && Adds(budget, Now(s, t, Leader(k, Out(At(k)))), k, n, 0, s');
      Absent(s, t, k);
      AddsEnters(budget, Now(s, t, Leader(k, Out(At(k)))), k, n, s');
      InsertKeeps(budget, s, t, k, n, s');
    case Land(_) =>
      var k, o :| Stands(s, t, k, Done(o)) && s' == Now(s, t, Leader(k, Closing(o))).(inflight := s.inflight - {k});
      LandKeeps(s, t, k, o);
    case CloseDone(_) =>
      var k, o :| Stands(s, t, k, Closing(o)) && s' == Now(s, t, Returned(k, o)).(closed := s.closed[t := o]);
      CloseKeeps(s, t, k, o);
  }

  lemma WakeOwns(s: Sys, t: nat)
    requires Calls(s) && Tables(s) && t in s.procs && s.procs[t].Waiting? && s.procs[t].flight in s.closed
    ensures Owns(s.procs[t].key, s.closed[s.procs[t].flight])
  {
    assert CallOk(s, t) && CallOk(s, s.procs[t].flight);
  }

  lemma QuietStepKeeps(budget: int, s: Sys, a: Action, s': Sys)
    requires Inv(s) && Does(budget, s, a, s') && (a.FillHit? || a.FillJoin? || a.Wake? || a.Abandon? || a.Get?)
    ensures Inv(s')
  {
    hide Books, Calls;
    match a
    case FillHit(t, k) =>
      BumpKeeps(s, k);
      QuietKeeps(Bumped(s, k), t, Returned(k, At(k)));
    case FillJoin(t, k) =>
      QuietKeeps(s, t, Waiting(s.inflight[k], k));
    case Wake(t) =>
      WakeOwns(s, t);
      QuietKeeps(s, t, Returned(s.procs[t].key, s.closed[s.procs[t].flight]));
    case Abandon(t) =>
      QuietKeeps(s, t, Returned(s.procs[t].key, Failed));
    case Get(k) =>
      BumpKeeps(s, k);
  }

  lemma KeyStepKeeps(budget: int, s: Sys, a: Action, s': Sys)
    requires Inv(s) && Does(budget, s, a, s') && Careful(s, a) &&
             (a.FillLead? || a.Evict? || a.PutRename? || a.PutEnter?)
    ensures Inv(s')
  {
    hide Inv, Adds, Enters;
    match a
    case FillLead(t, k) =>
      LeadKeeps(s, t, k);
    case Evict(k) =>
      EvictKeeps(s, k);
    case PutRename(t, k, n) =>
      PutRenameKeeps(s, t, k, n);
    case PutEnter(t) =>
      var k, n :| t in s.procs && s.procs[t] == Putting(k, n)
                  && Adds(budget, Now(s, t, Returned(k, At(k))), k, n, Replaces(s, k), s');
      Absent(s, t, k);
      AddsEnters(budget, Now(s, t, Returned(k, At(k))), k, n, s');
      PutEnterKeeps(budget, s, t, k, n, s');
  }

  /** Every step of a careful use of the cache keeps the invariant. */
  lemma StepKeeps(budget: int, s: Sys, a: Action, s': Sys)
    requires Inv(s) && Does(budget, s, a, s') && Careful(s, a)
    ensures Inv(s')
  {
    if a.TakeToken? || a.GiveUp? || a.Release? {
      TokenStepKeeps(budget, s, a, s');
    } else if a.Write? || a.CopyAll? || a.FetchFails? {
      DiskStepKeeps(budget, s, a, s');
    } else if a.Rename? || a.Insert? || a.Land? || a.CloseDone? {
      LandingStepKeeps(budget, s, a, s');
    } else if a.FillHit? || a.FillJoin? || a.Wake? || a.Abandon? || a.Get? {
      QuietStepKeeps(budget, s, a, s');
    } else {
      KeyStepKeeps(budget, s, a, s');
    }
  }

  // ----- every interleaving -----

  /** Any interleaving of the steps of any number of calls. */
  ghost predicate IsRun(budget: int, acts: seq<Action>, states: seq<Sys>) {
    && |states| == |acts| + 1 && states[0] == START
    && forall i :: 0 <= i < |acts| ==> StepAt(budget, acts, states, i)
  }

  ghost predicate StepAt(budget: int, acts: seq<Action>, states: seq<Sys>, i: nat)
    requires i < |acts| && |states| == |acts| + 1
  {
    Does(budget, states[i], acts[i], states[i + 1])
  }

  ghost predicate IsCarefulRun(budget: int, acts: seq<Action>, states: seq<Sys>) {
    IsRun(budget, acts, states) && forall i :: 0 <= i < |acts| ==> Careful(states[i], acts[i])
  }

  lemma {:induction false} EveryStateInv(budget: int, acts: seq<Action>, states: seq<Sys>, i: nat)
    requires IsCarefulRun(budget, acts, states) && i <= |acts|
    ensures Inv(states[i])
    decreases i
  {
    hide Inv, Does, Careful;
    if i == 0 {
      StartInv();
    } else {
      EveryStateInv(budget, acts, states, i - 1);
      assert StepAt(budget, acts, states, i - 1) && Careful(states[i - 1], acts[i - 1]);
      StepKeeps(budget, states[i - 1], acts[i - 1], states[i]);
    }
  }

  /** A call with a fetch in progress: it holds a token and has not come out. */
  predicate Fetches(s: Sys, t: nat) {
    && t in s.procs && s.procs[t].Leader?
    && (s.procs[t].stage.Fetching? || s.procs[t].stage.Copied? || s.procs[t].stage.Renamed?)
  }

  /** In every reachable state at most one fetch per key and at most MAX_FILLS in
      all are in progress, and a key being fetched is not in the cache. */
  lemma FetchesBounded(budget: int, acts: seq<Action>, states: seq<Sys>, i: nat)
    requires IsCarefulRun(budget, acts, states) && i <= |acts|
    ensures var s := states[i];
            && (forall t, u :: Fetches(s, t) && Fetches(s, u) && s.procs[t].key == s.procs[u].key ==> t == u)
            && (forall T: set<nat> :: (forall t :: t in T ==> Fetches(s, t)) ==> |T| <= MAX_FILLS)
            && (forall t :: t in s.procs && Pending(s.procs[t]) ==> s.procs[t].key !in s.entries)
  {
    EveryStateInv(budget, acts, states, i);
    var s := states[i];
    forall t, u | Fetches(s, t) && Fetches(s, u) && s.procs[t].key == s.procs[u].key ensures t == u {
    }
    forall T: set<nat> | forall t :: t in T ==> Fetches(s, t) ensures |T| <= MAX_FILLS {
      assert T <= s.tokens;
      SubsetSize(T, s.tokens);
    }
    forall t | t in s.procs && Pending(s.procs[t]) ensures s.procs[t].key !in s.entries {
      assert CallOk(s, t);
    }
  }

  /** In every reachable state the size is the sum of the entries' sizes, and
      each entry's file is there and is that key's complete cut. */
  lemma EntriesComplete(budget: int, acts: seq<Action>, states: seq<Sys>, i: nat)
    requires IsCarefulRun(budget, acts, states) && i <= |acts|
    ensures var s := states[i];
            s.size == Total(s.entries) && forall k :: k in s.entries ==> OnDisk(s, Final(k), k)
  {
    EveryStateInv(budget, acts, states, i);
  }

  /** A waiter that is not cancelled returns what its leader returned, and its
      leader's call was about the waiter's own key. */
  lemma WaiterGetsLeaderResult(budget: int, acts: seq<Action>, states: seq<Sys>, i: nat)
    requires IsCarefulRun(budget, acts, states) && i < |acts| && acts[i].Wake?
    ensures var t, s, s' := acts[i].t, states[i], states[i + 1];
            && t in s.procs && s.procs[t].Waiting? && t in s'.procs
            && var f := s.procs[t].flight;
               f in s.procs && s.procs[f].Returned? && s.procs[f].key == s.procs[t].key && s'.procs[t] == s.procs[f]
  {
    EveryStateInv(budget, acts, states, i);
    assert StepAt(budget, acts, states, i);
    assert CallOk(states[i], acts[i].t);
  }

  lemma AddsCalls(budget: int, s: Sys, k: Key, n: nat, credit: nat, s': Sys)
    requires Adds(budget, s, k, n, credit, s')
    ensures s'.procs == s.procs
  {
    hide IsShed, Total, Unlinked;
  }

  /** A call stays about the key it was made for. */
  lemma StepKeepsKeys(budget: int, s: Sys, a: Action, s': Sys, t: nat)
    requires Does(budget, s, a, s') && t in s.procs
    ensures t in s'.procs && s'.procs[t].key == s.procs[t].key
  {
    hide Does;
    if a.Insert? || a.PutEnter? {
      EnterKeepsKeys(budget, s, a, s', t);
    } else {
      MoveKeepsKeys(budget, s, a, s', t);
    }
  }

  lemma MoveKeepsKeys(budget: int, s: Sys, a: Action, s': Sys, t: nat)
    requires Does(budget, s, a, s') && t in s.procs && !a.Insert? && !a.PutEnter?
    ensures t in s'.procs && s'.procs[t].key == s.procs[t].key
  {
    hide Adds, Replaces;
  }

  lemma EnterKeepsKeys(budget: int, s: Sys, a: Action, s': Sys, t: nat)
    requires Does(budget, s, a, s') && t in s.procs && (a.Insert? || a.PutEnter?)
    ensures t in s'.procs && s'.procs[t].key == s.procs[t].key
  {
    hide Adds;
    if a.Insert? {
      var k, n :| Stands(s, a.t, k, Renamed(n)) && Adds(budget, Now(s, a.t, Leader(k, Out(At(k)))), k, n, 0, s');
      AddsCalls(budget, Now(s, a.t, Leader(k, Out(At(k)))), k, n, 0, s');
    } else {
      var k, n :| a.t in s.procs && s.procs[a.t] == Putting(k, n)
                  && Adds(budget, Now(s, a.t, Returned(k, At(k))), k, n, Replaces(s, k), s');
      AddsCalls(budget, Now(s, a.t, Returned(k, At(k))), k, n, Replaces(s, k), s');
    }
  }

  lemma {:induction false} KeysStay(budget: int, acts: seq<Action>, states: seq<Sys>, i: nat, j: nat, t: nat)
    requires IsRun(budget, acts, states) && i <= j <= |acts| && t in states[i].procs
    ensures t in states[j].procs && states[j].procs[t].key == states[i].procs[t].key
    decreases j
  {
    if i < j {
      KeysStay(budget, acts, states, i, j - 1, t);
      assert StepAt(budget, acts, states, j - 1);
      StepKeepsKeys(budget, states[j - 1], acts[j - 1], states[j], t);
    }
  }

  /** Whatever a call about k returns, from a hit, as leader or as waiter, it is an
      error or k's own file. */
  lemma CallsReturnTheirOwn(budget: int, acts: seq<Action>, states: seq<Sys>, i: nat, j: nat, t: nat)
    requires IsCarefulRun(budget, acts, states) && i <= j <= |acts| && t in states[i].procs
    ensures t in states[j].procs
    ensures states[j].procs[t].Returned? ==> states[j].procs[t].o in {Failed, At(states[i].procs[t].key)}
  {
    KeysStay(budget, acts, states, i, j, t);
    EveryStateInv(budget, acts, states, j);
    assert CallOk(states[j], t);
  }

  /** A leader that brought its cut in leaves it in the cache at that moment,
      whatever had to be shed for it. */
  lemma InsertedIsKept(budget: int, acts: seq<Action>, states: seq<Sys>, i: nat)
    requires IsCarefulRun(budget, acts, states) && i < |acts| && acts[i].Insert?
    ensures var t, s' := acts[i].t, states[i + 1];
            && t in s'.procs && s'.procs[t].Leader? && s'.procs[t].stage == Out(At(s'.procs[t].key))
            && s'.procs[t].key in s'.entries
            && (s'.size <= budget || |s'.entries| <= 1)
  {
    EveryStateInv(budget, acts, states, i);
    assert StepAt(budget, acts, states, i);
    InsertLeavesIt(budget, states[i], acts[i].t, states[i + 1]);
  }

  lemma InsertLeavesIt(budget: int, s: Sys, t: nat, s': Sys)
    requires Inv(s) && Does(budget, s, Insert(t), s')
    ensures t in s'.procs && s'.procs[t].Leader? && s'.procs[t].stage == Out(At(s'.procs[t].key))
    ensures s'.procs[t].key in s'.entries && (s'.size <= budget || |s'.entries| <= 1)
  {
    hide Inv, Unlinked, Total;
    var k, n :| Stands(s, t, k, Renamed(n)) && Adds(budget, Now(s, t, Leader(k, Out(At(k)))), k, n, 0, s');
    Absent(s, t, k);
    AddsEnters(budget, Now(s, t, Leader(k, Out(At(k)))), k, n, s');
    InsertKeeps(budget, s, t, k, n, s');
  }
}
