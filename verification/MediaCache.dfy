/** The disk-backed cache of immutable cuts: file names, accounting and
    eviction of internal/mediacache/mediacache.go. */
module MediaCache {
  import opened Common
  import opened Decimal

  datatype Key = Key(media: string, ref: string, start: int, end: int, variant: string)

  // ----- file names -----

  function Version(k: Key): string {
    if k.variant == "" then "orig" else k.variant
  }

  function Filename(k: Key): string {
    k.media + "-" + k.ref + "-" + PrintInt(k.start) + "-" + PrintInt(k.end) + "-" + Version(k)
  }

  /** Where a completed cut lives, and where one is being written. */
  datatype FileName = Final(key: Key) | Part(key: Key)

  function NameOf(f: FileName): string {
    match f
    case Final(k) => Filename(k)
    case Part(k) => Filename(k) + ".part"
  }

  predicate Without(s: string, c: char) {
    forall i :: 0 <= i < |s| ==> s[i] != c
  }

  /** Keys whose names can be told apart: no dash in media or variant, no dot in
      the variant, the variant not the word that stands for none, and a start
      that is not negative. */
  predicate Nameable(k: Key) {
    && Without(k.media, '-') && Without(k.variant, '-') && Without(k.variant, '.')
    && k.variant != "orig" && k.start >= 0
  }

  lemma SplitLast(a: string, b: string, a': string, b': string)
    requires a + "-" + b == a' + "-" + b' && Without(b, '-') && Without(b', '-')
    ensures a == a' && b == b'
  {
    var s, s' := a + "-" + b, a' + "-" + b';
    assert s[|a|] == '-' && s'[|a'|] == '-';
    assert forall i :: |a| < i < |s| ==> s[i] == b[i - |a| - 1];
    assert forall i :: |a'| < i < |s'| ==> s'[i] == b'[i - |a'| - 1];
    assert |a| == |a'|;
    assert a == s[..|a|] && a' == s'[..|a'|];
    assert b == s[|a| + 1..] && b' == s'[|a'| + 1..];
  }

  lemma SplitFirst(a: string, b: string, a': string, b': string)
    requires a + "-" + b == a' + "-" + b' && Without(a, '-') && Without(a', '-')
    ensures a == a' && b == b'
  {
    var s, s' := a + "-" + b, a' + "-" + b';
    assert s[|a|] == '-' && s'[|a'|] == '-';
    assert forall i :: 0 <= i < |a| ==> s[i] == a[i];
    assert forall i :: 0 <= i < |a'| ==> s'[i] == a'[i];
    assert |a| == |a'|;
    assert a == s[..|a|] && a' == s'[..|a'|];
    assert b == s[|a| + 1..] && b' == s'[|a'| + 1..];
  }

  function Sign(n: int): string {
    if n < 0 then "-" else ""
  }

  function Abs(n: int): nat {
    if n < 0 then -n else n
  }

  lemma SignMoves(a: string, n: int)
    requires a != [] && a[|a| - 1] != '-'
    ensures a + "-" + PrintInt(n) == (a + Sign(n)) + "-" + PrintNat(Abs(n)) && Without(PrintNat(Abs(n)), '-')
    ensures var b := a + Sign(n);
            b != [] && (n < 0 <==> b[|b| - 1] == '-') && a == if n < 0 then b[..|b| - 1] else b
  {
    hide PrintNat;
    var b := a + Sign(n);
    assert n < 0 ==> b[..|b| - 1] == a;
  }

  /** A number, even negative, comes off after a dash when what is before the dash
      does not end in one. */
  lemma SplitNumber(a: string, n: int, a': string, n': int)
    requires a + "-" + PrintInt(n) == a' + "-" + PrintInt(n')
    requires a != [] && a' != [] && a[|a| - 1] != '-' && a'[|a'| - 1] != '-'
    ensures a == a' && n == n'
  {
    hide PrintNat, PrintInt, Sign;
    SignMoves(a, n);
    SignMoves(a', n');
    SplitLast(a + Sign(n), PrintNat(Abs(n)), a' + Sign(n'), PrintNat(Abs(n')));
    PrintNatInjective(Abs(n), Abs(n'));
  }

  /** Peel a name from the right, then from the left. */
  lemma NamePieces(k: Key, v: string, k': Key, v': string)
    requires Nameable(k) && Nameable(k') && Without(v, '-') && Without(v', '-')
    requires var body := k.media + "-" + k.ref + "-" + PrintInt(k.start) + "-" + PrintInt(k.end);
             var body' := k'.media + "-" + k'.ref + "-" + PrintInt(k'.start) + "-" + PrintInt(k'.end);
             body + "-" + v == body' + "-" + v'
    ensures k.media == k'.media && k.ref == k'.ref && k.start == k'.start && k.end == k'.end && v == v'
  {
    var m, m' := k.media + "-" + k.ref, k'.media + "-" + k'.ref;
    var s, s' := PrintInt(k.start), PrintInt(k'.start);
    SplitLast(m + "-" + s + "-" + PrintInt(k.end), v, m' + "-" + s' + "-" + PrintInt(k'.end), v');
    SplitNumber(m + "-" + s, k.end, m' + "-" + s', k'.end);
    SplitLast(m, s, m', s');
    SplitFirst(k.media, k.ref, k'.media, k'.ref);
    PrintNatInjective(k.start, k'.start);
  }

  /** Distinct files of nameable keys have distinct names: no cut overwrites
      another, and none is mistaken for one being written. */
  lemma NamesInjective(a: FileName, b: FileName)
    requires Nameable(a.key) && Nameable(b.key) && NameOf(a) == NameOf(b)
    ensures a == b
  {
    var v := Version(a.key) + if a.Part? then ".part" else "";
    var v' := Version(b.key) + if b.Part? then ".part" else "";
    NameEndsIn(a);
    NameEndsIn(b);
    NamePieces(a.key, v, b.key, v');
    VersionTells(a, b);
  }

  lemma NameEndsIn(f: FileName)
    ensures var k := f.key;
            NameOf(f) == k.media + "-" + k.ref + "-" + PrintInt(k.start) + "-" + PrintInt(k.end) + "-" +
                         (Version(k) + if f.Part? then ".part" else "")
    ensures Nameable(f.key) ==> Without(Version(f.key) + if f.Part? then ".part" else "", '-')
  {
    if f.Final? {
      assert Version(f.key) + "" == Version(f.key);
    }
  }

  lemma VersionTells(a: FileName, b: FileName)
    requires Nameable(a.key) && Nameable(b.key)
    requires (Version(a.key) + if a.Part? then ".part" else "") == (Version(b.key) + if b.Part? then ".part" else "")
    ensures a.Part? == b.Part? && a.key.variant == b.key.variant
  {
    var v := Version(a.key) + if a.Part? then ".part" else "";
    var v' := Version(b.key) + if b.Part? then ".part" else "";
    assert Without(Version(a.key), '.') && Without(Version(b.key), '.');
    if a.Part? {
      assert v[|Version(a.key)|] == '.';
    }
    if b.Part? {
      assert v'[|Version(b.key)|] == '.';
    }
    assert a.Part? == b.Part?;
    assert Version(a.key) == v[..|Version(a.key)|] && Version(b.key) == v'[..|Version(b.key)|];
  }

  lemma SmallNumbers()
    ensures PrintInt(1) == "1" && PrintInt(2) == "2" && PrintInt(3) == "3" && PrintInt(-1) == "-1"
  {
  }

  /** Each condition earns its place: without it two files share a name.  In turn:
      a dash in the media, the variant "orig", a negative start, a dot and a dash in
      the variant. */
  lemma NamesCollide()
    ensures Filename(Key("clip-a", "b", 1, 2, "")) == Filename(Key("clip", "a-b", 1, 2, ""))
    ensures Filename(Key("clip", "cam", 1, 2, "")) == Filename(Key("clip", "cam", 1, 2, "orig"))
    ensures Filename(Key("clip", "cam", -1, 2, "")) == Filename(Key("clip", "cam-", 1, 2, ""))
    ensures NameOf(Part(Key("clip", "cam", 1, 2, "lo"))) == NameOf(Final(Key("clip", "cam", 1, 2, "lo.part")))
    ensures Filename(Key("clip", "cam", 1, 2, "3-hi")) == Filename(Key("clip", "cam-1", 2, 3, "hi"))
  {
    hide PrintInt;
    SmallNumbers();
  }

  // ----- accounting -----

  /** A completed cut: its size and when, by the use counter, it was last used. */
  datatype Cut = Cut(size: nat, used: nat)

  type Entries = map<Key, Cut>

  ghost function Total(m: Entries): nat
    decreases |m|
  {
    if m == map[] then 0 else var k :| k in m; m[k].size + Total(m - {k})
  }

  lemma {:induction false} TotalWithout(m: Entries, k: Key)
    requires k in m
    ensures Total(m) == m[k].size + Total(m - {k})
    decreases |m|
  {
    var j :| j in m && Total(m) == m[j].size + Total(m - {j});
    if j != k {
      TotalWithout(m - {j}, k);
      TotalWithout(m - {k}, j);
      assert m - {j} - {k} == m - {k} - {j};
    }
  }

  lemma TotalWith(m: Entries, k: Key, c: Cut)
    requires k !in m
    ensures Total(m[k := c]) == Total(m) + c.size
  {
    TotalWithout(m[k := c], k);
    assert m[k := c] - {k} == m;
  }

  lemma Replaced(m: Entries, k: Key, c: Cut)
    ensures Total(m[k := c]) == Total(m) + c.size - if k in m then m[k].size else 0
  {
    if k in m {
      TotalWithout(m, k);
      TotalWith(m - {k}, k, c);
      assert (m - {k})[k := c] == m[k := c];
    } else {
      TotalWith(m, k, c);
    }
  }

  /** fill adds the new size without taking an old one off, so the books still
      balance exactly when the key had no entry or an empty one. */
  lemma FillBalances(m: Entries, size: nat, k: Key, c: Cut)
    requires size == Total(m)
    ensures size + c.size == Total(m[k := c]) <==> k !in m || m[k].size == 0
  {
    Replaced(m, k, c);
  }

  // ----- eviction -----

  /** No two cuts were last used at the same count. */
  ghost predicate Apart(m: Entries) {
    forall j, k :: j in m && k in m && j != k ==> m[j].used != m[k].used
  }

  ghost function Only(m: Entries, keys: set<Key>): Entries {
    map k | k in m && k in keys :: m[k]
  }

  /** keys are the most recently used of m. */
  ghost predicate IsRecent(m: Entries, keys: set<Key>) {
    keys <= m.Keys && forall j, k :: j in m && j !in keys && k in keys ==> m[j].used < m[k].used
  }

  /** Midway through shedding: a recent run, and every longer one too big. */
  ghost predicate Shedding(m: Entries, kept: Entries, budget: int) {
    && IsRecent(m, kept.Keys) && kept == Only(m, kept.Keys)
    && (m != map[] ==> kept != map[])
    && forall keys :: IsRecent(m, keys) && kept.Keys < keys ==> Total(Only(m, keys)) > budget
  }

  /** What a list LRU keeps: the longest most-recently-used run that fits the
      budget, or the newest cut alone. */
  ghost predicate IsShed(m: Entries, kept: Entries, budget: int) {
    Shedding(m, kept, budget) && (Total(kept) <= budget || |kept| <= 1)
  }

  /** There is one such outcome. */
  lemma ShedUnique(m: Entries, a: Entries, b: Entries, budget: int)
    requires IsShed(m, a, budget) && IsShed(m, b, budget)
    ensures a == b
  {
    if a.Keys < b.Keys {
      ShedSmaller(m, a, b, budget);
    } else if b.Keys < a.Keys {
      ShedSmaller(m, b, a, budget);
    }
  }

  lemma ShedSmaller(m: Entries, a: Entries, b: Entries, budget: int)
    requires IsShed(m, a, budget) && IsShed(m, b, budget)
    ensures !(a.Keys < b.Keys)
  {
    assert |a.Keys| == |a| && |b.Keys| == |b|;
    if a.Keys < b.Keys {
      ProperSubsetSize(a.Keys, b.Keys);
    }
  }

  lemma AnotherKey(m: Entries, k: Key) returns (other: Key)
    requires k in m && |m| > 1
    ensures other in m && other != k
  {
    assert |m.Keys - {k}| == |m| - 1;
    other :| other in m.Keys - {k};
  }

  lemma RecentLess(m: Entries, kept: Entries, k: Key)
    requires IsRecent(m, kept.Keys) && kept == Only(m, kept.Keys)
    requires k in kept && forall j :: j in kept && j != k ==> kept[k].used < kept[j].used
    ensures IsRecent(m, (kept - {k}).Keys) && kept - {k} == Only(m, (kept - {k}).Keys)
  {
    var less := kept - {k};
    forall i, j | i in m && i !in less.Keys && j in less.Keys ensures m[i].used < m[j].used {
      assert j in kept && m[j] == kept[j];
      if i == k {
        assert m[k] == kept[k];
      }
    }
  }

  lemma LongerHolds(m: Entries, kept: Entries, keys: set<Key>, k: Key)
    requires IsRecent(m, kept.Keys) && IsRecent(m, keys)
    requires k in kept && kept.Keys - {k} < keys
    ensures kept.Keys <= keys
  {
    var j :| j in keys && j !in kept.Keys - {k};
    assert k in m && j in m;
  }

  /** Dropping the least recently used of a run that does not fit. */
  lemma ShedOne(m: Entries, kept: Entries, budget: int, k: Key)
    requires Shedding(m, kept, budget) && Total(kept) > budget && |kept| > 1
    requires k in kept && forall j :: j in kept && j != k ==> kept[k].used < kept[j].used
    ensures Shedding(m, kept - {k}, budget)
  {
    var less := kept - {k};
    RecentLess(m, kept, k);
    var other := AnotherKey(kept, k);
    assert other in less;
    forall keys | IsRecent(m, keys) && less.Keys < keys ensures Total(Only(m, keys)) > budget {
      assert less.Keys == kept.Keys - {k};
      LongerHolds(m, kept, keys, k);
      if kept.Keys == keys {
        assert Only(m, keys) == kept;
      }
    }
  }

  /** The cache under its lock. */
  class Cache {
    const budget: int
    var entries: Entries
    var size: int
    var uses: nat

    ghost predicate Valid()
      reads this
    {
      Apart(entries) && forall k :: k in entries ==> entries[k].used <= uses
    }

    /** How far the size kept is above the sum of the entries. */
    ghost function Drift(): int
      reads this
    {
      size - Total(entries)
    }

    constructor (budget: int)
      ensures Valid() && Drift() == 0 && entries == map[] && this.budget == budget
    {
      this.budget := budget;
      entries, size, uses := map[], 0, 0;
    }

    /** A hit marks the cut used. */
    method Get(key: Key) returns (hit: bool)
      requires Valid()
      modifies this
      ensures Valid() && Drift() == old(Drift())
      ensures hit <==> key in old(entries)
      ensures entries == if hit then old(entries)[key := old(entries)[key].(used := old(uses) + 1)] else old(entries)
      ensures uses == old(uses) + (if hit then 1 else 0) && size == old(size)
    {
      hit := key in entries;
      if hit {
        uses := uses + 1;
        Reused(entries, key, uses);
        entries := entries[key := entries[key].(used := uses)];
      }
    }

    /** The end of a fill: enter the cut and make room.  An entry the key already
        has is replaced without its size being taken off, so that much of the
        budget is lost for good. */
    method Enter(key: Key, n: nat)
      requires Valid()
      modifies this
      ensures Valid() && uses == old(uses) + 1
      ensures Drift() == old(Drift()) + if key in old(entries) then old(entries)[key].size else 0
      ensures IsShed(old(entries)[key := Cut(n, old(uses) + 1)], entries, budget - Drift())
      ensures key in entries
    {
      hide Total, IsShed;
      Replaced(entries, key, Cut(n, uses + 1));
      uses := uses + 1;
      entries := entries[key := Cut(n, uses)];
      size := size + n;
      Shed(key);
    }

    /** Adopt a finished file, replacing what the key had. */
    method Put(key: Key, n: nat)
      requires Valid()
      modifies this
      ensures Valid() && uses == old(uses) + 1 && Drift() == old(Drift())
      ensures IsShed(old(entries)[key := Cut(n, old(uses) + 1)], entries, budget - Drift())
      ensures key in entries
    {
      hide Total, IsShed;
      Replaced(entries, key, Cut(n, uses + 1));
      if key in entries {
        size := size - entries[key].size;
      }
      uses := uses + 1;
      entries := entries[key := Cut(n, uses)];
      size := size + n;
      Shed(key);
    }

    /** Evict least recently used cuts until the size kept is within the budget or
        one is left; the newest is never evicted. */
    method Shed(ghost newest: Key)
      requires Valid() && newest in entries
      requires forall k :: k in entries && k != newest ==> entries[k].used < entries[newest].used
      modifies this`entries, this`size
      ensures Valid() && Drift() == old(Drift())
      ensures IsShed(old(entries), entries, budget - Drift())
      ensures newest in entries
    {
      hide Total, IsShed;
      entries, size := ShedFrom(entries, size, budget, newest);
    }

    /** Remove one cut if present. */
    method Evict(key: Key)
      requires Valid()
      modifies this`entries, this`size
      ensures Valid() && Drift() == old(Drift()) && entries == old(entries) - {key}
    {
      if key in entries {
        TotalWithout(entries, key);
        size := size - entries[key].size;
        entries := entries - {key};
      } else {
        assert entries - {key} == entries;
      }
    }
  }

  method ShedFrom(all: Entries, bytes: int, budget: int, ghost newest: Key) returns (kept: Entries, size: int)
    requires Apart(all) && newest in all
    requires forall k :: k in all && k != newest ==> all[k].used < all[newest].used
    ensures size - Total(kept) == bytes - Total(all)
    ensures IsShed(all, kept, budget - (bytes - Total(all))) && newest in kept
    ensures Within(all, kept)
  {
    hide Total, Shedding, Within, Apart;
    kept, size := all, bytes;
    ghost var room := budget - (bytes - Total(all));
    ShedNone(all, room);
    while size > budget && |kept| > 1
      invariant size - Total(kept) == bytes - Total(all) && Shedding(all, kept, room)
      invariant newest in kept && Within(all, kept)
      decreases |kept|
    {
      ApartWithin(all, kept);
      var oldest := LeastUsed(kept);
      ShedStep(all, kept, room, newest, oldest);
      size := size - kept[oldest].size;
      kept := kept - {oldest};
    }
  }

  lemma ShedNone(all: Entries, budget: int)
    ensures Shedding(all, all, budget) && Within(all, all)
  {
    assert Only(all, all.Keys) == all;
  }

  lemma ShedStep(all: Entries, kept: Entries, budget: int, newest: Key, oldest: Key)
    requires Shedding(all, kept, budget) && Within(all, kept) && Total(kept) > budget && |kept| > 1
    requires newest in kept && forall k :: k in all && k != newest ==> all[k].used < all[newest].used
    requires oldest in kept && forall j :: j in kept && j != oldest ==> kept[oldest].used < kept[j].used
    ensures Shedding(all, kept - {oldest}, budget) && Within(all, kept - {oldest})
    ensures Total(kept - {oldest}) == Total(kept) - kept[oldest].size
    ensures newest in kept - {oldest}
    ensures |kept - {oldest}| < |kept|
  {
    ShedOne(all, kept, budget, oldest);
    TotalWithout(kept, oldest);
    var other := AnotherKey(kept, newest);
    assert (kept - {oldest}).Keys == kept.Keys - {oldest};
  }

  ghost predicate Within(all: Entries, kept: Entries) {
    forall k :: k in kept ==> k in all && kept[k] == all[k]
  }

  lemma ApartWithin(all: Entries, kept: Entries)
    requires Apart(all) && Within(all, kept)
    ensures Apart(kept)
  {
  }

  lemma Reused(m: Entries, k: Key, now: nat)
    requires k in m && Apart(m) && forall j :: j in m ==> m[j].used < now
    ensures Total(m[k := m[k].(used := now)]) == Total(m) && Apart(m[k := m[k].(used := now)])
  {
    TotalWithout(m, k);
    TotalWithout(m[k := m[k].(used := now)], k);
    assert m[k := m[k].(used := now)] - {k} == m - {k};
  }

  method LeastUsed(m: Entries) returns (oldest: Key)
    requires m != map[] && Apart(m)
    ensures oldest in m && forall j :: j in m && j != oldest ==> m[oldest].used < m[j].used
  {
    oldest :| oldest in m;
    var todo := m.Keys - {oldest};
    while todo != {}
      invariant oldest in m && todo <= m.Keys
      invariant forall j :: j in m && j !in todo && j != oldest ==> m[oldest].used < m[j].used
    {
      var k :| k in todo;
      todo := todo - {k};
      if m[k].used < m[oldest].used {
        oldest := k;
      }
    }
  }
}
