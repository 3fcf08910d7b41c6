/** The store of events the API serves: internal/store/store.go. */
module EventStore {
  import opened Common
  import opened Policy

  /** An event as the store needs it; detail stands for what it only carries. */
  datatype Ev = Ev(id: string, camera: string, startedAt: Time, endedAt: Time, detail: string)

  datatype StoreChange = StoreChange(op: Op, ev: Ev)

  /** One state an event was in, and when it was said. */
  datatype Revision = Revision(at: Time, op: Op, ev: Ev)

  datatype Entry = Entry(ev: Ev, updatedAt: Time, history: seq<Revision>)

  const MAX_HISTORY := 64

  // ----- list order -----

  /** Byte order on strings. */
  predicate Less(a: string, b: string) {
    if b == [] then false
    else if a == [] then true
    else if a[0] != b[0] then a[0] < b[0]
    else Less(a[1..], b[1..])
  }

  lemma {:induction false} LessTransitive(a: string, b: string, c: string)
    requires Less(a, b) && Less(b, c)
    ensures Less(a, c)
    decreases |a|
  {
    if a != [] && a[0] == b[0] == c[0] {
      LessTransitive(a[1..], b[1..], c[1..]);
    }
  }

  lemma {:induction false} LessTotal(a: string, b: string)
    ensures Less(a, b) || a == b || Less(b, a)
    ensures !(Less(a, b) && Less(b, a)) && !Less(a, a)
    decreases |a|
  {
    if a != [] {
      LessTotal(a[1..], a[1..]);
      if b != [] && a[0] == b[0] {
        LessTotal(a[1..], b[1..]);
        assert a == [a[0]] + a[1..] && b == [b[0]] + b[1..];
      }
    }
  }

  /** A position in list order: newest first, then id descending. */
  datatype Cursor = Cursor(startedAt: Time, id: string)

  function KeyOf(e: Entry): Cursor {
    Cursor(e.ev.startedAt, e.ev.id)
  }

  /** a comes after b in the list. */
  predicate Older(a: Cursor, b: Cursor) {
    if a.startedAt != b.startedAt then a.startedAt < b.startedAt else Less(a.id, b.id)
  }

  lemma OlderTransitive(a: Cursor, b: Cursor, c: Cursor)
    requires Older(a, b) && Older(b, c)
    ensures Older(a, c)
  {
    if a.startedAt == b.startedAt == c.startedAt {
      LessTransitive(a.id, b.id, c.id);
    }
  }

  lemma OlderTotal(a: Cursor, b: Cursor)
    ensures Older(a, b) || a == b || Older(b, a)
    ensures !(Older(a, b) && Older(b, a)) && !Older(a, a)
  {
    LessTotal(a.id, b.id);
    LessTotal(a.id, a.id);
  }

  ghost predicate Descending(s: seq<Entry>) {
    forall i, j :: 0 <= i < j < |s| ==> Older(KeyOf(s[j]), KeyOf(s[i]))
  }

  /** The list holds exactly the entries of the map, in strict order. */
  ghost predicate Indexes(ordered: seq<Entry>, byID: map<string, Entry>) {
    && Descending(ordered)
    && (forall e :: e in ordered ==> e.ev.id in byID && byID[e.ev.id] == e)
    && (forall id :: id in byID ==> byID[id].ev.id == id && byID[id] in ordered)
  }

  /** sort.Search: the least index at which a predicate that only ever turns
      from false to true holds. */
  method Search(s: seq<Entry>, f: Entry -> bool) returns (i: nat)
    requires forall a, b :: 0 <= a < b < |s| && f(s[a]) ==> f(s[b])
    ensures i <= |s|
    ensures forall k :: 0 <= k < i ==> !f(s[k])
    ensures forall k :: i <= k < |s| ==> f(s[k])
  {
    i := 0;
    var j := |s|;
    while i < j
      invariant 0 <= i <= j <= |s|
      invariant forall k :: 0 <= k < i ==> !f(s[k])
      invariant forall k :: j <= k < |s| ==> f(s[k])
    {
      var h := (i + j) / 2;
      if !f(s[h]) {
        i := h + 1;
      } else {
        j := h;
      }
    }
  }

  lemma OlderIsMonotone(s: seq<Entry>, c: Cursor)
    requires Descending(s)
    ensures forall a, b :: 0 <= a < b < |s| && Older(KeyOf(s[a]), c) ==> Older(KeyOf(s[b]), c)
    ensures forall a, b :: 0 <= a < b < |s| && !Older(c, KeyOf(s[a])) ==> !Older(c, KeyOf(s[b]))
  {
    forall a, b | 0 <= a < b < |s|
      ensures Older(KeyOf(s[a]), c) ==> Older(KeyOf(s[b]), c)
      ensures !Older(c, KeyOf(s[a])) ==> !Older(c, KeyOf(s[b]))
    {
      if Older(KeyOf(s[a]), c) {
        OlderTransitive(KeyOf(s[b]), KeyOf(s[a]), c);
      }
      if Older(c, KeyOf(s[b])) {
        OlderTransitive(c, KeyOf(s[b]), KeyOf(s[a]));
      }
    }
  }

  /** Put e where the order wants it. */
  method Insert(s: seq<Entry>, e: Entry) returns (r: seq<Entry>)
    requires Descending(s) && forall k :: 0 <= k < |s| ==> KeyOf(s[k]) != KeyOf(e)
    ensures Descending(r)
    ensures forall x :: x in r <==> x in s || x == e
    ensures |r| == |s| + 1
  {
    hide Older;
    var c := KeyOf(e);
    OlderIsMonotone(s, c);
    var i := Search(s, (x: Entry) => Older(KeyOf(x), c));
    r := s[..i] + [e] + s[i..];
    forall k | 0 <= k < i ensures Older(c, KeyOf(s[k])) {
      OlderTotal(c, KeyOf(s[k]));
    }
    assert s == s[..i] + s[i..];
  }

  /** Take e out; the binary search always finds it. */
  method Remove(s: seq<Entry>, e: Entry) returns (r: seq<Entry>)
    requires Descending(s) && e in s
    ensures Descending(r)
    ensures forall x :: x in r <==> x in s && x != e
    ensures |r| == |s| - 1
  {
    hide Less;
    var c := KeyOf(e);
    OlderIsMonotone(s, c);
    var i := Search(s, (x: Entry) => !Older(c, KeyOf(x)));
    r := s;
    ghost var k :| 0 <= k < |s| && s[k] == e;
    OlderTotal(c, c);
    FoundAt(s, c, i, k);
    if i < |s| && s[i] == e {
      r := s[..i] + s[i + 1..];
      assert s == s[..i] + [s[i]] + s[i + 1..];
      forall x | x in r ensures x != e {
        var j :| 0 <= j < |r| && r[j] == x;
        OlderTotal(c, c);
        assert r[j] == if j < i then s[j] else s[j + 1];
      }
    }
  }

  lemma FoundAt(s: seq<Entry>, c: Cursor, i: nat, k: nat)
    requires Descending(s) && k < |s| && KeyOf(s[k]) == c
    requires i <= |s|
    requires forall j :: 0 <= j < i ==> Older(c, KeyOf(s[j]))
    requires forall j :: i <= j < |s| ==> !Older(c, KeyOf(s[j]))
    ensures i == k
  {
    OlderTotal(c, c);
    var found := if i < |s| then KeyOf(s[i]) else c;
    assert i < k ==> Older(c, found);
  }

  // ----- history -----

  /** One more revision; past the bound the middle goes and the first stays. */
  function Push(h: seq<Revision>, r: Revision): seq<Revision> {
    var all := h + [r];
    if |all| > MAX_HISTORY then all[..1] + all[|all| - MAX_HISTORY + 1..] else all
  }

  function PushAll(rs: seq<Revision>): seq<Revision> {
    if rs == [] then [] else Push(PushAll(rs[..|rs| - 1]), rs[|rs| - 1])
  }

  /** However many revisions an event has had, its history is all of them up to
      the bound, and beyond it the first and the latest. */
  lemma {:induction false} HistoryIsFirstAndLatest(rs: seq<Revision>)
    ensures PushAll(rs) == if |rs| <= MAX_HISTORY then rs else rs[..1] + rs[|rs| - MAX_HISTORY + 1..]
    decreases |rs|
  {
    if rs != [] {
      var init, r := rs[..|rs| - 1], rs[|rs| - 1];
      HistoryIsFirstAndLatest(init);
      assert rs == init + [r];
      if |init| > MAX_HISTORY {
        var all := init[..1] + init[|init| - MAX_HISTORY + 1..] + [r];
        assert all[..1] == rs[..1];
        assert all[|all| - MAX_HISTORY + 1..] == rs[|rs| - MAX_HISTORY + 1..];
      }
    }
  }

  // ----- pages -----

  predicate Wanted(want: Option<set<string>>, camera: string) {
    want.None? || camera in want.value
  }

  function Wants(cameras: seq<string>): Option<set<string>> {
    if cameras == [] then None else Some(set c | c in cameras)
  }

  /** The wanted events strictly older than a position, in list order. */
  function Matching(s: seq<Entry>, want: Option<set<string>>, after: Option<Cursor>): seq<Ev> {
    if s == [] then []
    else
      var e := s[|s| - 1];
      Matching(s[..|s| - 1], want, after) +
      (if (after.None? || Older(KeyOf(e), after.value)) && Wanted(want, e.ev.camera) then [e.ev] else [])
  }

  function Take<T>(s: seq<T>, n: int): seq<T> {
    if n <= 0 then [] else if n >= |s| then s else s[..n]
  }

  lemma {:induction false} MatchingSkips(s: seq<Entry>, want: Option<set<string>>, after: Option<Cursor>, i: nat)
    requires i <= |s| && after.Some?
    requires forall k :: 0 <= k < i ==> !Older(KeyOf(s[k]), after.value)
    ensures Matching(s[..i], want, after) == []
    decreases i
  {
    if i > 0 {
      assert s[..i][..i - 1] == s[..i - 1];
      MatchingSkips(s, want, after, i - 1);
    }
  }

  lemma {:induction false} MatchingPrefix(s: seq<Entry>, want: Option<set<string>>, after: Option<Cursor>, i: nat)
    requires i <= |s|
    ensures Matching(s[..i], want, after) <= Matching(s, want, after)
    decreases |s|
  {
    if i < |s| {
      assert s[..|s| - 1][..i] == s[..i];
      MatchingPrefix(s[..|s| - 1], want, after, i);
    } else {
      assert s[..i] == s;
    }
  }

  lemma MatchingStep(s: seq<Entry>, want: Option<set<string>>, after: Option<Cursor>, i: nat)
    requires i < |s|
    ensures Matching(s[..i + 1], want, after) ==
            Matching(s[..i], want, after) +
            (if (after.None? || Older(KeyOf(s[i]), after.value)) && Wanted(want, s[i].ev.camera) then [s[i].ev] else [])
  {
    assert s[..i + 1][..i] == s[..i];
  }

  /** Where the list goes on after a position. */
  method StartAfter(s: seq<Entry>, want: Option<set<string>>, after: Option<Cursor>) returns (i: nat)
    requires Descending(s)
    ensures i <= |s| && Matching(s[..i], want, after) == []
    ensures after.Some? ==> forall k :: i <= k < |s| ==> Older(KeyOf(s[k]), after.value)
  {
    i := 0;
    if after.Some? {
      OlderIsMonotone(s, after.value);
      i := Search(s, (x: Entry) => Older(KeyOf(x), after.value));
      MatchingSkips(s, want, after, i);
    }
  }

  /** One page: the first pageSize wanted events past the position. */
  method Page(s: seq<Entry>, want: Option<set<string>>, pageSize: int, after: Option<Cursor>) returns (page: seq<Ev>)
    requires Descending(s)
    ensures page == Take(Matching(s, want, after), pageSize)
  {
    hide Less, Wanted;
    var i := StartAfter(s, want, after);
    page := [];
    while i < |s| && |page| < pageSize
      invariant i <= |s|
      invariant page == Matching(s[..i], want, after)
      invariant page == [] || |page| <= pageSize
      invariant after.Some? ==> forall k :: i <= k < |s| ==> Older(KeyOf(s[k]), after.value)
      decreases |s| - i
    {
      MatchingStep(s, want, after, i);
      if Wanted(want, s[i].ev.camera) {
        page := page + [s[i].ev];
      }
      i := i + 1;
    }
    MatchingPrefix(s, want, after, i);
    assert i == |s| ==> s[..i] == s;
  }

  // ----- watchers -----

  const WATCH_BUFFER := 256

  /** A watcher's side of its channel: what waits in the buffer, and how often
      the channel has been closed. */
  datatype Sub = Sub(want: Option<set<string>>, queue: seq<StoreChange>, dead: bool, closes: nat)

  /** Deliver without blocking; a full buffer ends the subscription. */
  function Offered(s: Sub, c: StoreChange): Sub {
    if s.dead || !Wanted(s.want, c.ev.camera) then s
    else if |s.queue| < WATCH_BUFFER then s.(queue := s.queue + [c])
    else s.(dead := true, closes := s.closes + 1)
  }

  function OfferedAll(s: Sub, cs: seq<StoreChange>): Sub {
    if cs == [] then s else Offered(OfferedAll(s, cs[..|cs| - 1]), cs[|cs| - 1])
  }

  function Dropped(s: Sub): Sub {
    if s.dead then s else s.(dead := true, closes := s.closes + 1)
  }

  /** The replay a new watcher gets: every event touched since, oldest first, as
      started or, if it has ended, as ended. */
  function Replay(ordered: seq<Entry>, since: Time): seq<StoreChange> {
    if ordered == [] || since == UNSET then []
    else
      var e := ordered[|ordered| - 1];
      (if e.updatedAt < since then [] else [StoreChange(if e.ev.endedAt == UNSET then Started else Ended, e.ev)]) +
      Replay(ordered[..|ordered| - 1], since)
  }

  /** The subscriber object; sending on or closing a closed channel would
      panic, so both demand an open one. */
  class Subscriber {
    const want: Option<set<string>>
    var buf: seq<StoreChange>
    var dead: bool
    var closes: nat

    ghost predicate Valid()
      reads this
    {
      |buf| <= WATCH_BUFFER && closes == if dead then 1 else 0
    }

    ghost function Value(): Sub
      reads this
    {
      Sub(want, buf, dead, closes)
    }

    constructor (want: Option<set<string>>)
      ensures Valid() && Value() == Sub(want, [], false, 0)
    {
      this.want, buf, dead, closes := want, [], false, 0;
    }

    /** A non-blocking send: false when the buffer is full. */
    method TrySend(c: StoreChange) returns (sent: bool)
      requires Valid() && closes == 0
      modifies this`buf
      ensures Valid()
      ensures sent <==> |old(buf)| < WATCH_BUFFER
      ensures buf == if sent then old(buf) + [c] else old(buf)
    {
      sent := |buf| < WATCH_BUFFER;
      if sent {
        buf := buf + [c];
      }
    }

    method Close()
      requires closes == 0
      modifies this`closes
      ensures closes == 1
    {
      closes := 1;
    }

    method Offer(c: StoreChange)
      requires Valid()
      modifies this
      ensures Valid() && Value() == Offered(old(Value()), c)
    {
      if dead || !Wanted(want, c.ev.camera) {
        return;
      }
      var sent := TrySend(c);
      if !sent {
        dead := true;
        Close();
      }
    }

    method Die()
      requires Valid()
      modifies this
      ensures Valid() && Value() == Dropped(old(Value()))
    {
      if !dead {
        dead := true;
        Close();
      }
    }
  }

  // ----- the store -----

  function Revised(byID: map<string, Entry>, at: Time, c: StoreChange): Entry {
    Entry(c.ev, at, Push(if c.ev.id in byID then byID[c.ev.id].history else [], Revision(at, c.op, c.ev)))
  }

  class Store {
    const retention: int
    var byID: map<string, Entry>
    var ordered: seq<Entry>
    var cameras: set<string>
    var subs: set<Subscriber>
    var applied: nat
    var pruned: nat

    ghost predicate Valid()
      reads this, subs
    {
      Indexes(ordered, byID) && forall s :: s in subs ==> s.Valid()
    }

    constructor (retention: int)
      ensures Valid() && byID == map[] && ordered == [] && subs == {}
    {
      this.retention := retention;
      byID, ordered, cameras, subs, applied, pruned := map[], [], {}, {}, 0, 0;
    }

    /** Apply is a map upsert; every watcher is offered the change. */
    method Apply(at: Time, c: StoreChange)
      requires Valid()
      modifies this, subs
      ensures Valid()
      ensures byID == old(byID)[c.ev.id := Revised(old(byID), at, c)]
      ensures byID[c.ev.id].ev == c.ev && byID[c.ev.id].updatedAt == at
      ensures subs == old(subs) && forall s :: s in subs ==> s.Value() == Offered(old(s.Value()), c)
      ensures applied == old(applied) + 1 && pruned == old(pruned)
      ensures cameras == old(cameras) + if c.ev.camera != "" then {c.ev.camera} else {}
    {
      applied := applied + 1;
      if c.ev.camera != "" {
        cameras := cameras + {c.ev.camera};
      }
      Upsert(Revised(byID, at, c));
      FanOut(c);
    }

    method Upsert(e: Entry)
      requires Valid()
      modifies this`ordered, this`byID
      ensures Indexes(ordered, byID) && byID == old(byID)[e.ev.id := e]
    {
      var rest := ordered;
      if e.ev.id in byID {
        rest := Remove(ordered, byID[e.ev.id]);
      }
      var all := Insert(rest, e);
      ordered, byID := all, byID[e.ev.id := e];
    }

    method Get(id: string) returns (r: Option<Ev>)
      ensures r == if id in byID then Some(byID[id].ev) else None
    {
      r := if id in byID then Some(byID[id].ev) else None;
    }

    /** One page, newest first, and where the next one starts: None only when
        this page is empty. */
    method List(cams: seq<string>, pageSize: int, after: Option<Cursor>) returns (page: seq<Ev>, next: Option<Cursor>)
      requires Valid()
      ensures page == Take(Matching(ordered, Wants(cams), after), pageSize)
      ensures next == NextAfter(page)
    {
      page := Page(ordered, Wants(cams), pageSize, after);
      if page == [] {
        return page, None;
      }
      var last := page[|page| - 1];
      next := Some(Cursor(last.startedAt, last.id));
    }

    /** Forget exactly the events that started before the cutoff. */
    method Prune(now: Time) returns (n: nat)
      requires Valid()
      modifies this
      ensures Valid() && subs == old(subs)
      ensures byID == map id | id in old(byID) && old(byID)[id].ev.startedAt >= now - retention :: old(byID)[id]
      ensures n == |old(byID)| - |byID| && pruned == old(pruned) + n && applied == old(applied)
    {
      var kept, left;
      kept, left, n := Forget(ordered, byID, now - retention);
      ordered, byID := kept, left;
      pruned := pruned + n;
    }

    /** Snapshot and subscribe under one lock: the watcher is offered the replay
        and nothing slips between it and what is applied next. */
    method Watch(since: Time, cams: seq<string>) returns (sub: Subscriber)
      requires Valid()
      modifies this`subs
      ensures Valid() && fresh(sub) && subs == old(subs) + {sub}
      ensures sub.Value() == OfferedAll(Sub(Wants(cams), [], false, 0), Replay(ordered, since))
    {
      sub := new Subscriber(Wants(cams));
      SendReplay(sub, ordered, since);
      subs := subs + {sub};
    }

    /** The watcher's context ended. */
    method Drop(sub: Subscriber)
      requires Valid() && sub.Valid()
      modifies this`subs, sub
      ensures Valid() && subs == old(subs) - {sub}
      ensures sub.Value() == if sub in old(subs) then Dropped(old(sub.Value())) else old(sub.Value())
    {
      if sub in subs {
        subs := subs - {sub};
        sub.Die();
      }
    }

    method FanOut(c: StoreChange)
      requires forall s :: s in subs ==> s.Valid()
      modifies subs
      ensures forall s :: s in subs ==> s.Valid() && s.Value() == Offered(old(s.Value()), c)
    {
      var todo := subs;
      while todo != {}
        invariant todo <= subs
        invariant forall s :: s in subs ==> s.Valid()
        invariant forall s :: s in todo ==> s.Value() == old(s.Value())
        invariant forall s :: s in subs - todo ==> s.Value() == Offered(old(s.Value()), c)
      {
        var s :| s in todo;
        todo := todo - {s};
        s.Offer(c);
      }
    }
  }

  method SendReplay(sub: Subscriber, ordered: seq<Entry>, since: Time)
    requires sub.Valid()
    modifies sub
    ensures sub.Valid() && sub.Value() == OfferedAll(old(sub.Value()), Replay(ordered, since))
  {
    if since == UNSET {
      return;
    }
    var i := |ordered|;
    assert ordered[..i] == ordered;
    while i > 0
      invariant 0 <= i <= |ordered| && sub.Valid()
      invariant OfferedAll(sub.Value(), Replay(ordered[..i], since)) ==
                OfferedAll(old(sub.Value()), Replay(ordered, since))
    {
      i := i - 1;
      var e := ordered[i];
      ReplayStep(sub.Value(), ordered, since, i);
      if e.updatedAt >= since {
        sub.Offer(StoreChange(if e.ev.endedAt == UNSET then Started else Ended, e.ev));
      }
    }
    assert ordered[..0] == [];
  }

  function NextAfter(page: seq<Ev>): Option<Cursor> {
    if page == [] then None else Some(Cursor(page[|page| - 1].startedAt, page[|page| - 1].id))
  }

  /** Drop from the old end while it is before the cutoff. */
  method Forget(ordered: seq<Entry>, byID: map<string, Entry>, cutoff: Time)
    returns (kept: seq<Entry>, left: map<string, Entry>, n: nat)
    requires Indexes(ordered, byID)
    ensures Indexes(kept, left) && kept <= ordered
    ensures left == map id | id in byID && byID[id].ev.startedAt >= cutoff :: byID[id]
    ensures n == |byID| - |left|
  {
    kept, left, n := ordered, byID, 0;
    while kept != [] && kept[|kept| - 1].ev.startedAt < cutoff
      invariant Indexes(kept, left) && kept <= ordered
      invariant Trimmed(byID, left, cutoff)
      invariant n == |byID| - |left|
      decreases |kept|
    {
      ForgetLast(kept, left);
      left := left - {kept[|kept| - 1].ev.id};
      kept := kept[..|kept| - 1];
      n := n + 1;
    }
    NoneBefore(kept, left, cutoff);
    TrimmedAll(byID, left, cutoff);
  }

  /** Some entries from before the cutoff are gone, and only such. */
  ghost predicate Trimmed(byID: map<string, Entry>, left: map<string, Entry>, cutoff: Time) {
    && (forall id :: id in left ==> id in byID && left[id] == byID[id])
    && (forall id :: id in byID && id !in left ==> byID[id].ev.startedAt < cutoff)
  }

  lemma TrimmedAll(byID: map<string, Entry>, left: map<string, Entry>, cutoff: Time)
    requires Trimmed(byID, left, cutoff) && forall id :: id in left ==> left[id].ev.startedAt >= cutoff
    ensures left == map id | id in byID && byID[id].ev.startedAt >= cutoff :: byID[id]
  {
  }

  lemma ForgetLast(ordered: seq<Entry>, byID: map<string, Entry>)
    requires ordered != [] && Indexes(ordered, byID)
    ensures var e := ordered[|ordered| - 1];
            e.ev.id in byID && byID[e.ev.id] == e && Indexes(ordered[..|ordered| - 1], byID - {e.ev.id})
  {
    var init, e := ordered[..|ordered| - 1], ordered[|ordered| - 1];
    assert e in ordered;
    forall x | x in init ensures x in ordered && x.ev.id != e.ev.id {
      var k :| 0 <= k < |init| && init[k] == x;
      OlderTotal(KeyOf(e), KeyOf(x));
      assert Older(KeyOf(ordered[|ordered| - 1]), KeyOf(ordered[k]));
    }
    assert forall x :: x in ordered <==> x in init || x == e;
  }

  lemma NoneBefore(ordered: seq<Entry>, byID: map<string, Entry>, cutoff: Time)
    requires Indexes(ordered, byID) && (ordered == [] || ordered[|ordered| - 1].ev.startedAt >= cutoff)
    ensures forall id :: id in byID ==> byID[id].ev.startedAt >= cutoff
  {
    forall id | id in byID ensures byID[id].ev.startedAt >= cutoff {
      var k :| 0 <= k < |ordered| && ordered[k] == byID[id];
      if k < |ordered| - 1 {
        assert Older(KeyOf(ordered[|ordered| - 1]), KeyOf(ordered[k]));
      }
    }
  }

  lemma ReplayStep(s: Sub, ordered: seq<Entry>, since: Time, i: nat)
    requires i < |ordered| && since != UNSET
    ensures var e := ordered[i];
            OfferedAll(s, Replay(ordered[..i + 1], since)) ==
            OfferedAll(if e.updatedAt < since then s
                       else Offered(s, StoreChange(if e.ev.endedAt == UNSET then Started else Ended, e.ev)),
                       Replay(ordered[..i], since))
  {
    var e := ordered[i];
    assert ordered[..i + 1][..i] == ordered[..i];
    var first := if e.updatedAt < since then []
                 else [StoreChange(if e.ev.endedAt == UNSET then Started else Ended, e.ev)];
    OfferedAllConcat(s, first, Replay(ordered[..i], since));
    if first != [] {
      assert first[..0] == [];
    }
  }

  lemma {:induction false} OfferedAllConcat(s: Sub, a: seq<StoreChange>, b: seq<StoreChange>)
    ensures OfferedAll(s, a + b) == OfferedAll(OfferedAll(s, a), b)
    decreases |b|
  {
    if b == [] {
      assert a + b == a;
    } else {
      assert (a + b)[..|a + b| - 1] == a + b[..|b| - 1];
      OfferedAllConcat(s, a, b[..|b| - 1]);
    }
  }

}
