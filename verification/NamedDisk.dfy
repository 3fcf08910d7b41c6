/** The cache directory as it is: files found by name.  CacheProtocol keeps a file
    per key and stage; here every step is shown to do the same to a disk keyed by
    name, under any naming that tells apart the files of the keys in play, and so
    under the one of internal/mediacache/mediacache.go for nameable keys. */
module NamedDisk {
  import opened MediaCache
  import opened CacheProtocol

  type Naming = FileName -> string

  /** No two files of these keys share a name. */
  ghost predicate Tells(name: Naming, keys: set<Key>) {
    forall f: FileName, g: FileName :: f.key in keys && g.key in keys && name(f) == name(g) ==> f == g
  }

  ghost predicate FilesOf(keys: set<Key>, files: map<FileName, Content>) {
    forall f :: f in files ==> f.key in keys
  }

  ghost predicate Named(name: Naming, files: map<FileName, Content>, n: string) {
    exists f :: f in files && name(f) == n
  }

  /** d is what the directory holds when its files are these. */
  ghost predicate IsDisk(name: Naming, files: map<FileName, Content>, d: map<string, Content>) {
    && (forall f :: f in files ==> name(f) in d && d[name(f)] == files[f])
    && (forall n :: n in d ==> Named(name, files, n))
  }

  lemma InDisk(name: Naming, keys: set<Key>, files: map<FileName, Content>, d: map<string, Content>, f: FileName)
    requires Tells(name, keys) && FilesOf(keys, files) && IsDisk(name, files, d) && f.key in keys
    ensures name(f) in d <==> f in files
    ensures f in files ==> d[name(f)] == files[f]
  {
  }

  lemma DiskWrite(name: Naming, keys: set<Key>, files: map<FileName, Content>, d: map<string, Content>, f: FileName,
                  c: Content)
    requires Tells(name, keys) && FilesOf(keys, files) && IsDisk(name, files, d) && f.key in keys
    ensures IsDisk(name, files[f := c], d[name(f) := c])
  {
    var files', d' := files[f := c], d[name(f) := c];
    forall n | n in d' ensures Named(name, files', n) {
      if n == name(f) {
        assert f in files';
      } else {
        var g :| g in files && name(g) == n;
        assert g in files';
      }
    }
  }

  ghost function Names(name: Naming, gone: set<FileName>): set<string> {
    set f | f in gone :: name(f)
  }

  lemma DiskRemove(name: Naming, keys: set<Key>, files: map<FileName, Content>, d: map<string, Content>,
                   gone: set<FileName>)
    requires Tells(name, keys) && FilesOf(keys, files) && IsDisk(name, files, d)
    requires forall f :: f in gone ==> f.key in keys
    ensures IsDisk(name, files - gone, d - Names(name, gone))
  {
    forall n | n in d - Names(name, gone) ensures Named(name, files - gone, n) {
      var g :| g in files && name(g) == n;
      assert g !in gone;
    }
  }

  lemma DiskRemoveOne(name: Naming, keys: set<Key>, files: map<FileName, Content>, d: map<string, Content>, f: FileName)
    requires Tells(name, keys) && FilesOf(keys, files) && IsDisk(name, files, d) && f.key in keys
    ensures IsDisk(name, files - {f}, d - {name(f)})
  {
    DiskRemove(name, keys, files, d, {f});
    assert Names(name, {f}) == {name(f)};
  }

  /** The directory after a step. */
  ghost predicate DiskDoes(name: Naming, s: Sys, a: Action, s': Sys, d: map<string, Content>,
                           d': map<string, Content>)
  {
    match a
    case Write(t) =>
      t in s.procs && d' == d[name(Part(s.procs[t].key)) := Partial]
    case CopyAll(t) =>
      t in s.procs && d' == d[name(Part(s.procs[t].key)) := Whole(s.procs[t].key)]
    case FetchFails(t) =>
      t in s.procs && d' == d - {name(Part(s.procs[t].key))}
    case Rename(t, _) =>
      t in s.procs && name(Part(s.procs[t].key)) in d
      && d' == (d - {name(Part(s.procs[t].key))})[name(Final(s.procs[t].key)) := d[name(Part(s.procs[t].key))]]
    case PutRename(_, k, _) => d' == d[name(Final(k)) := Whole(k)]
    case Evict(k) => d' == d - {name(Final(k))}
    case Insert(t) => t in s.procs && d' == d - Names(name, Shed(s, s.procs[t].key, s'))
    case PutEnter(t) => t in s.procs && d' == d - Names(name, Shed(s, s.procs[t].key, s'))
    case _ => d' == d
  }

  /** The files of what entering k shed. */
  ghost function Shed(s: Sys, k: Key, s': Sys): set<FileName> {
    set j | j in s.entries.Keys + {k} - s'.entries.Keys :: Final(j)
  }

  /** The keys in play. */
  ghost predicate Uses(keys: set<Key>, s: Sys) {
    && (forall t :: t in s.procs ==> s.procs[t].key in keys)
    && s.entries.Keys <= keys && FilesOf(keys, s.files)
  }

  predicate Asks(keys: set<Key>, a: Action) {
    match a
    case FillHit(_, k) => k in keys
    case FillJoin(_, k) => k in keys
    case FillLead(_, k) => k in keys
    case PutRename(_, k, _) => k in keys
    case _ => true
  }

  lemma AddsShed(budget: int, s: Sys, k: Key, n: nat, credit: nat, s': Sys)
    requires Adds(budget, s, k, n, credit, s')
    ensures s'.procs == s.procs && s'.files == s.files - Shed(s, k, s')
  {
    hide IsShed, Total;
    assert s.entries[k := Cut(n, s.uses + 1)].Keys == s.entries.Keys + {k};
  }

  lemma AddsFewer(budget: int, s: Sys, k: Key, n: nat, credit: nat, s': Sys)
    requires Adds(budget, s, k, n, credit, s')
    ensures s'.entries.Keys <= s.entries.Keys + {k}
  {
    hide Total, Unlinked, Shedding;
    var all := s.entries[k := Cut(n, s.uses + 1)];
    FewerShed(all, s'.entries, budget - (s.size + n - credit - Total(all)));
    assert all.Keys == s.entries.Keys + {k};
  }

  lemma FewerShed(all: Entries, kept: Entries, budget: int)
    requires IsShed(all, kept, budget)
    ensures kept.Keys <= all.Keys
  {
  }

  /** Every step stays with the keys in play and does to the directory what the
      program does to its own. */
  lemma StepsOnDisk(name: Naming, keys: set<Key>, budget: int, s: Sys, a: Action, s': Sys, d: map<string, Content>)
    returns (d': map<string, Content>)
    requires Tells(name, keys) && Uses(keys, s) && Asks(keys, a) && Does(budget, s, a, s') && IsDisk(name, s.files, d)
    ensures Uses(keys, s') && DiskDoes(name, s, a, s', d, d') && IsDisk(name, s'.files, d')
  {
    hide Does, Tells, IsDisk, Uses, Asks;
    if a.Insert? || a.PutEnter? {
      d' := EntersOnDisk(name, keys, budget, s, a, s', d);
    } else if a.Write? || a.CopyAll? || a.FetchFails? || a.Rename? {
      d' := PartOnDisk(name, keys, budget, s, a, s', d);
    } else {
      d' := OthersOnDisk(name, keys, budget, s, a, s', d);
    }
  }

  lemma OthersOnDisk(name: Naming, keys: set<Key>, budget: int, s: Sys, a: Action, s': Sys, d: map<string, Content>)
    returns (d': map<string, Content>)
    requires Tells(name, keys) && Uses(keys, s) && Asks(keys, a) && Does(budget, s, a, s') && IsDisk(name, s.files, d)
    requires !a.Insert? && !a.PutEnter? && !a.Write? && !a.CopyAll? && !a.FetchFails? && !a.Rename?
    ensures Uses(keys, s') && DiskDoes(name, s, a, s', d, d') && IsDisk(name, s'.files, d')
  {
    if a.PutRename? || a.Evict? {
      d' := FinalOnDisk(name, keys, budget, s, a, s', d);
    } else {
      d' := d;
      StaysOnDisk(keys, budget, s, a, s');
    }
    hide Tells, IsDisk, Does, Asks, Uses;
  }

  lemma StaysOnDisk(keys: set<Key>, budget: int, s: Sys, a: Action, s': Sys)
    requires Uses(keys, s) && Asks(keys, a) && Does(budget, s, a, s') && !a.PutRename? && !a.Evict?
    requires !a.Insert? && !a.PutEnter? && !a.Write? && !a.CopyAll? && !a.FetchFails? && !a.Rename?
    ensures Uses(keys, s') && s'.files == s.files
  {
    hide FilesOf;
  }

  lemma FinalOnDisk(name: Naming, keys: set<Key>, budget: int, s: Sys, a: Action, s': Sys, d: map<string, Content>)
    returns (d': map<string, Content>)
    requires Tells(name, keys) && Uses(keys, s) && Asks(keys, a) && Does(budget, s, a, s') && IsDisk(name, s.files, d)
    requires a.PutRename? || a.Evict?
    ensures Uses(keys, s') && DiskDoes(name, s, a, s', d, d') && IsDisk(name, s'.files, d')
  {
    hide Tells, IsDisk, Adds;
    if a.PutRename? {
      d' := d[name(Final(a.k)) := Whole(a.k)];
      DiskWrite(name, keys, s.files, d, Final(a.k), Whole(a.k));
    } else {
      d' := d - {name(Final(a.k))};
      DiskRemoveOne(name, keys, s.files, d, Final(a.k));
    }
  }

  lemma PartOnDisk(name: Naming, keys: set<Key>, budget: int, s: Sys, a: Action, s': Sys, d: map<string, Content>)
    returns (d': map<string, Content>)
    requires Tells(name, keys) && Uses(keys, s) && Does(budget, s, a, s') && IsDisk(name, s.files, d)
    requires a.Write? || a.CopyAll? || a.FetchFails? || a.Rename?
    ensures Uses(keys, s') && DiskDoes(name, s, a, s', d, d') && IsDisk(name, s'.files, d')
  {
    hide Tells, IsDisk, Adds;
    var k := s.procs[a.t].key;
    InDisk(name, keys, s.files, d, Part(k));
    if a.Write? || a.CopyAll? {
      var c := if a.Write? then Partial else Whole(k);
      d' := d[name(Part(k)) := c];
      DiskWrite(name, keys, s.files, d, Part(k), c);
    } else {
      d' := d - {name(Part(k))};
      DiskRemoveOne(name, keys, s.files, d, Part(k));
      if a.Rename? {
        DiskWrite(name, keys, s.files - {Part(k)}, d', Final(k), s.files[Part(k)]);
        d' := d'[name(Final(k)) := d[name(Part(k))]];
      }
    }
  }

  lemma EntersOnDisk(name: Naming, keys: set<Key>, budget: int, s: Sys, a: Action, s': Sys, d: map<string, Content>)
    returns (d': map<string, Content>)
    requires Tells(name, keys) && Uses(keys, s) && Does(budget, s, a, s') && (a.Insert? || a.PutEnter?)
    requires IsDisk(name, s.files, d)
    ensures Uses(keys, s') && DiskDoes(name, s, a, s', d, d') && IsDisk(name, s'.files, d')
  {
    hide Tells, IsDisk, Adds, Names;
    var mid, k, n, credit := Entry(budget, s, a, s');
    AddsShed(budget, mid, k, n, credit, s');
    AddsFewer(budget, mid, k, n, credit, s');
    d' := d - Names(name, Shed(s, k, s'));
    DiskRemove(name, keys, s.files, d, Shed(s, k, s'));
  }

  lemma Entry(budget: int, s: Sys, a: Action, s': Sys) returns (mid: Sys, k: Key, n: nat, credit: nat)
    requires Does(budget, s, a, s') && (a.Insert? || a.PutEnter?)
    ensures a.t in s.procs && s.procs[a.t].key == k && Adds(budget, mid, k, n, credit, s')
    ensures mid.entries == s.entries && mid.files == s.files
    ensures mid.procs.Keys == s.procs.Keys && forall t :: t in s.procs ==> mid.procs[t].key == s.procs[t].key
  {
    hide Adds;
    if a.Insert? {
      k, n :| Stands(s, a.t, k, Renamed(n)) && Adds(budget, Now(s, a.t, Leader(k, Out(At(k)))), k, n, 0, s');
      mid, credit := Now(s, a.t, Leader(k, Out(At(k)))), 0;
    } else {
      k, n :| a.t in s.procs && s.procs[a.t] == Putting(k, n)
              && Adds(budget, Now(s, a.t, Returned(k, At(k))), k, n, Replaces(s, k), s');
      mid, credit := Now(s, a.t, Returned(k, At(k))), Replaces(s, k);
    }
  }

  /** The directories a run leads through, step by step. */
  ghost predicate IsDiskRun(name: Naming, acts: seq<Action>, states: seq<Sys>, disks: seq<map<string, Content>>)
    requires |states| == |acts| + 1
  {
    && |disks| == |states| && disks[0] == map[]
    && forall i, j :: 0 <= i < |acts| && j == i + 1 ==>
         DiskDoes(name, states[i], acts[i], states[j], disks[i], disks[j])
  }

  lemma {:induction false} RunOnDisk(name: Naming, keys: set<Key>, budget: int, acts: seq<Action>, states: seq<Sys>)
    returns (disks: seq<map<string, Content>>)
    requires Tells(name, keys) && IsRun(budget, acts, states) && forall i :: 0 <= i < |acts| ==> Asks(keys, acts[i])
    ensures IsDiskRun(name, acts, states, disks)
    ensures forall i :: 0 <= i < |states| ==> Uses(keys, states[i]) && IsDisk(name, states[i].files, disks[i])
    decreases |acts|
  {
    hide Tells, Does, DiskDoes, Asks;
    if acts == [] {
      disks := [map[]];
    } else {
      var n := |acts| - 1;
      var acts', states' := acts[..n], states[..n + 1];
      forall i | 0 <= i < n ensures StepAt(budget, acts', states', i) {
        assert StepAt(budget, acts, states, i);
      }
      var init := RunOnDisk(name, keys, budget, acts', states');
      assert StepAt(budget, acts, states, n);
      assert states'[n] == states[n];
      var last := StepsOnDisk(name, keys, budget, states[n], acts[n], states[n + 1], init[n]);
      disks := init + [last];
      forall i, j | 0 <= i < |acts| && j == i + 1
        ensures DiskDoes(name, states[i], acts[i], states[j], disks[i], disks[j])
      {
        if i < n {
          assert DiskDoes(name, states'[i], acts'[i], states'[j], init[i], init[j]);
        }
      }
    }
  }

  lemma NamesTell(keys: set<Key>)
    requires forall k :: k in keys ==> Nameable(k)
    ensures Tells(NameOf, keys)
  {
    forall f: FileName, g: FileName | f.key in keys && g.key in keys && NameOf(f) == NameOf(g) ensures f == g {
      NamesInjective(f, g);
    }
  }

  /** So careful use with nameable keys leads through directories, step by step what
      the program's file operations make of an empty one, in which the path of every
      cached key leads to that key's complete cut. */
  lemma EntriesCompleteOnDisk(keys: set<Key>, budget: int, acts: seq<Action>, states: seq<Sys>)
    returns (disks: seq<map<string, Content>>)
    requires IsCarefulRun(budget, acts, states) && forall i :: 0 <= i < |acts| ==> Asks(keys, acts[i])
    requires forall k :: k in keys ==> Nameable(k)
    ensures IsDiskRun(NameOf, acts, states, disks)
    ensures forall i, k :: 0 <= i < |states| && k in states[i].entries ==>
              Filename(k) in disks[i] && disks[i][Filename(k)] == Whole(k)
  {
    NamesTell(keys);
    hide Nameable, IsDiskRun, Filename, Tells;
    disks := RunOnDisk(NameOf, keys, budget, acts, states);
    forall i, k | 0 <= i < |states| && k in states[i].entries
      ensures Filename(k) in disks[i] && disks[i][Filename(k)] == Whole(k)
    {
      EntriesComplete(budget, acts, states, i);
    }
  }

}
