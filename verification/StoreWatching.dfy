/** What a watcher of the store receives, over every run. */
module StoreWatching {
  import opened Common
  import opened Policy
  import opened EventStore

  /** Something that happens after a watch began: a change is applied, old
      events are pruned, the watcher takes a change, or its context ends. */
  datatype Act = Applied(at: Time, c: StoreChange) | Pruned(cutoff: Time) | Received | Cancelled

  /** The store, one subscription, what its watcher has taken and everything it
      was ever offered. */
  datatype World = World(byID: map<string, Entry>, sub: Sub, taken: seq<StoreChange>, offered: seq<StoreChange>,
                         registered: bool)

  function Begin(ordered: seq<Entry>, byID: map<string, Entry>, since: Time, cams: seq<string>): World {
    var replay := Replay(ordered, since);
    World(byID, OfferedAll(Sub(Wants(cams), [], false, 0), replay), [], replay, true)
  }

  function Next(w: World, a: Act): World {
    match a
    case Applied(at, c) =>
      var byID' := w.byID[c.ev.id := Revised(w.byID, at, c)];
      if w.registered then w.(byID := byID', sub := Offered(w.sub, c), offered := w.offered + [c])
      else w.(byID := byID')
    case Pruned(cutoff) =>
      w.(byID := map id | id in w.byID && w.byID[id].ev.startedAt >= cutoff :: w.byID[id])
    case Received =>
      if w.sub.queue == [] then w
      else w.(sub := w.sub.(queue := w.sub.queue[1..]), taken := w.taken + [w.sub.queue[0]])
    case Cancelled =>
      if w.registered then w.(sub := Dropped(w.sub), registered := false) else w
  }

  function After(w: World, acts: seq<Act>): World {
    if acts == [] then w else Next(After(w, acts[..|acts| - 1]), acts[|acts| - 1])
  }

  // ----- the stream -----

  /** The changes about wanted cameras. */
  function Sift(cs: seq<StoreChange>, want: Option<set<string>>): seq<StoreChange> {
    if cs == [] then []
    else
      var c := cs[|cs| - 1];
      Sift(cs[..|cs| - 1], want) + (if Wanted(want, c.ev.camera) then [c] else [])
  }

  /** What is taken or waiting is a prefix of what was offered and wanted, all of
      it until the channel is closed; the channel is closed once at most, and
      falls behind only with a full buffer. */
  ghost predicate InStep(w: World) {
    var got, all := w.taken + w.sub.queue, Sift(w.offered, w.sub.want);
    && got <= all
    && (!w.sub.dead ==> got == all)
    && w.sub.closes == (if w.sub.dead then 1 else 0)
    && |w.sub.queue| <= WATCH_BUFFER
  }

  lemma {:induction false} OfferAllInStep(s: Sub, cs: seq<StoreChange>, byID: map<string, Entry>)
    requires s == Sub(s.want, [], false, 0)
    ensures InStep(World(byID, OfferedAll(s, cs), [], cs, true))
    ensures OfferedAll(s, cs).want == s.want
    decreases |cs|
  {
    if cs != [] {
      var init := cs[..|cs| - 1];
      OfferAllInStep(s, init, byID);
      assert cs == init + [cs[|cs| - 1]];
    } else {
      assert [] + s.queue == [];
    }
  }

  lemma NextInStep(w: World, a: Act)
    requires InStep(w)
    ensures InStep(Next(w, a)) && Next(w, a).sub.want == w.sub.want
  {
    match a
    case Applied(at, c) =>
      if w.registered {
      }
    case Pruned(_) =>
    case Received =>
      if w.sub.queue != [] {
        assert w.taken + [w.sub.queue[0]] + w.sub.queue[1..] == w.taken + w.sub.queue;
      }
    case Cancelled =>
  }

  /** Whatever happens after a watch begins, its watcher has received exactly a
      prefix of the replay followed by every later change, in order, about its
      cameras; nothing is lost while the channel is open; and the channel is
      closed at most once. */
  lemma {:induction false} EveryWatchInStep(ordered: seq<Entry>, byID: map<string, Entry>, since: Time,
                                            cams: seq<string>, acts: seq<Act>)
    ensures InStep(After(Begin(ordered, byID, since, cams), acts))
    ensures After(Begin(ordered, byID, since, cams), acts).sub.want == Wants(cams)
    decreases |acts|
  {
    if acts == [] {
      OfferAllInStep(Sub(Wants(cams), [], false, 0), Replay(ordered, since), byID);
    } else {
      EveryWatchInStep(ordered, byID, since, cams, acts[..|acts| - 1]);
      NextInStep(After(Begin(ordered, byID, since, cams), acts[..|acts| - 1]), acts[|acts| - 1]);
    }
  }

  /** While a watch is registered, what it is offered after the replay is every
      change applied, in order. */
  function ChangesOf(acts: seq<Act>): seq<StoreChange> {
    if acts == [] then []
    else
      var a := acts[|acts| - 1];
      ChangesOf(acts[..|acts| - 1]) + (if a.Applied? then [a.c] else [])
  }

  lemma {:induction false} OfferedIsReplayThenChanges(ordered: seq<Entry>, byID: map<string, Entry>, since: Time,
                                                      cams: seq<string>, acts: seq<Act>)
    requires forall i :: 0 <= i < |acts| ==> !acts[i].Cancelled?
    ensures After(Begin(ordered, byID, since, cams), acts).registered
    ensures After(Begin(ordered, byID, since, cams), acts).offered == Replay(ordered, since) + ChangesOf(acts)
    decreases |acts|
  {
    if acts == [] {
      assert Replay(ordered, since) + [] == Replay(ordered, since);
    } else {
      OfferedIsReplayThenChanges(ordered, byID, since, cams, acts[..|acts| - 1]);
    }
  }

  /** The replay holds exactly the events touched since. */
  lemma {:induction false} ReplayHolds(ordered: seq<Entry>, since: Time, ev: Ev)
    requires since != UNSET
    ensures (exists i :: 0 <= i < |Replay(ordered, since)| && Replay(ordered, since)[i].ev == ev) <==>
            exists k :: 0 <= k < |ordered| && ordered[k].ev == ev && ordered[k].updatedAt >= since
    decreases |ordered|
  {
    if ordered != [] {
      var init, e := ordered[..|ordered| - 1], ordered[|ordered| - 1];
      ReplayHolds(init, since, ev);
      if e.updatedAt >= since {
        var c := StoreChange(if e.ev.endedAt == UNSET then Started else Ended, e.ev);
        MentionedFirst(c, Replay(init, since), ev);
        assert Replay(ordered, since) == [c] + Replay(init, since);
      } else {
        assert Replay(ordered, since) == Replay(init, since);
      }
    }
  }

  lemma MentionedFirst(c: StoreChange, rest: seq<StoreChange>, ev: Ev)
    ensures var all := [c] + rest;
            (exists i :: 0 <= i < |all| && all[i].ev == ev) <==>
            c.ev == ev || exists i :: 0 <= i < |rest| && rest[i].ev == ev
  {
    var all := [c] + rest;
    if i :| 0 <= i < |rest| && rest[i].ev == ev {
      assert all[i + 1].ev == ev;
    }
    if c.ev == ev {
      assert all[0].ev == ev;
    }
  }

  predicate Lists(ordered: seq<Entry>, ev: Ev) {
    exists k :: 0 <= k < |ordered| && ordered[k].ev == ev
  }

  /** A replayed change is about a listed event, and says where it stands. */
  predicate Says(ordered: seq<Entry>, c: StoreChange) {
    Lists(ordered, c.ev) && c.op == if c.ev.endedAt == UNSET then Started else Ended
  }

  /** The replay is read from the old end of the list. */
  lemma {:induction false} ReplayInOrder(ordered: seq<Entry>, since: Time)
    requires Descending(ordered)
    ensures forall i :: 0 <= i < |Replay(ordered, since)| ==> Says(ordered, Replay(ordered, since)[i])
    ensures OldestFirst(Replay(ordered, since))
    decreases |ordered|
  {
    hide Older;
    if ordered != [] && since != UNSET {
      var init, e := ordered[..|ordered| - 1], ordered[|ordered| - 1];
      ReplayInOrder(init, since);
      var rest, r := Replay(init, since), Replay(ordered, since);
      forall j | 0 <= j < |rest| ensures Says(ordered, rest[j]) && Older(KeyOf(e), EvCursor(rest[j].ev)) {
        assert Says(init, rest[j]);
        SaysMore(ordered, rest[j]);
      }
      assert Lists(ordered, e.ev);
      FrontOlder(r, rest, e);
    }
  }

  /** What an earlier part of the list says is said of the whole, and the last entry
      is older. */
  lemma SaysMore(ordered: seq<Entry>, c: StoreChange)
    requires ordered != [] && Descending(ordered) && Says(ordered[..|ordered| - 1], c)
    ensures Says(ordered, c) && Older(KeyOf(ordered[|ordered| - 1]), EvCursor(c.ev))
  {
    hide Older;
    var init := ordered[..|ordered| - 1];
    var k :| 0 <= k < |init| && init[k].ev == c.ev;
    assert ordered[k] == init[k];
    assert Older(KeyOf(ordered[|ordered| - 1]), KeyOf(ordered[k]));
  }

  ghost predicate OldestFirst(r: seq<StoreChange>) {
    forall i, j :: 0 <= i < j < |r| ==> Older(EvCursor(r[i].ev), EvCursor(r[j].ev))
  }

  lemma FrontOlder(r: seq<StoreChange>, rest: seq<StoreChange>, e: Entry)
    requires OldestFirst(rest) && forall j :: 0 <= j < |rest| ==> Older(KeyOf(e), EvCursor(rest[j].ev))
    requires r == rest || exists c: StoreChange :: c.ev == e.ev && r == [c] + rest
    ensures OldestFirst(r)
  {
    hide Older;
    if r != rest {
      forall i, j | 0 <= i < j < |r| ensures Older(EvCursor(r[i].ev), EvCursor(r[j].ev)) {
        assert r[j] == rest[j - 1];
        assert if i == 0 then EvCursor(r[i].ev) == KeyOf(e) else r[i] == rest[i - 1];
      }
    }
  }

  function EvCursor(e: Ev): Cursor {
    Cursor(e.startedAt, e.id)
  }

  /** The replay is exactly the events touched since, each once, oldest first, as
      started or, if it has ended, as ended. */
  lemma ReplayIsTouched(ordered: seq<Entry>, byID: map<string, Entry>, since: Time)
    requires since != UNSET && Indexes(ordered, byID)
    ensures var r := Replay(ordered, since);
            && (forall ev :: (exists i :: 0 <= i < |r| && r[i].ev == ev) <==>
                             ev.id in byID && byID[ev.id].ev == ev && byID[ev.id].updatedAt >= since)
            && (forall i :: 0 <= i < |r| ==> r[i].op == if r[i].ev.endedAt == UNSET then Started else Ended)
            && (forall i, j :: 0 <= i < j < |r| ==>
                  r[i].ev.id != r[j].ev.id && Older(EvCursor(r[i].ev), EvCursor(r[j].ev)))
  {
    var r := Replay(ordered, since);
    forall ev: Ev
      ensures (exists i :: 0 <= i < |r| && r[i].ev == ev) <==>
              ev.id in byID && byID[ev.id].ev == ev && byID[ev.id].updatedAt >= since
    {
      ReplayHolds(ordered, since, ev);
      if k :| 0 <= k < |ordered| && ordered[k].ev == ev && ordered[k].updatedAt >= since {
        assert ordered[k] in ordered;
      }
      if ev.id in byID && byID[ev.id].ev == ev && byID[ev.id].updatedAt >= since {
        var k :| 0 <= k < |ordered| && ordered[k] == byID[ev.id];
      }
    }
    ReplayInOrder(ordered, since);
    assert forall i :: 0 <= i < |r| ==> Says(ordered, r[i]);
    forall i, j | 0 <= i < j < |r| ensures r[i].ev.id != r[j].ev.id {
      OlderTotal(EvCursor(r[i].ev), EvCursor(r[j].ev));
      assert Says(ordered, r[i]) && Says(ordered, r[j]);
    }
  }

  // ----- histories -----

  /** What was applied about an event, as revisions. */
  function Told(acts: seq<Act>, id: string): seq<Revision> {
    if acts == [] then []
    else
      var last := acts[|acts| - 1];
      Told(acts[..|acts| - 1], id) +
      (if last.Applied? && last.c.ev.id == id then [Revision(last.at, last.c.op, last.c.ev)] else [])
  }

  lemma ToldSuffix(acts: seq<Act>, m: nat, id: string)
    requires m < |acts|
    ensures var n := |acts| - 1;
            Told(acts[m..], id) == Told(acts[..n][m..], id) +
              if acts[n].Applied? && acts[n].c.ev.id == id then [Revision(acts[n].at, acts[n].c.op, acts[n].c.ev)]
                  else []
  {
    assert acts[m..][..|acts[m..]| - 1] == acts[..|acts| - 1][m..];
  }

  function HistoryIn(byID: map<string, Entry>, id: string): seq<Revision> {
    if id in byID then byID[id].history else []
  }

  lemma HistoryStep(w: World, a: Act, id: string)
    requires id in Next(w, a).byID
    ensures if a.Applied? && a.c.ev.id == id
            then HistoryIn(Next(w, a).byID, id) == Push(HistoryIn(w.byID, id), Revision(a.at, a.c.op, a.c.ev))
            else id in w.byID && HistoryIn(Next(w, a).byID, id) == HistoryIn(w.byID, id)
  {
    hide Push, Offered, Dropped;
  }

  lemma PushedAfter(rs: seq<Revision>, r: Revision)
    ensures PushAll(rs + [r]) == Push(PushAll(rs), r)
  {
    assert (rs + [r])[..|rs|] == rs;
  }

  ghost predicate PresentSince(w: World, acts: seq<Act>, id: string, m: nat) {
    && m < |acts| && id !in After(w, acts[..m]).byID
    && forall i :: m < i <= |acts| ==> id in After(w, acts[..i]).byID
  }

  lemma PresentOn(w: World, acts: seq<Act>, id: string, m: nat)
    requires acts != [] && id in After(w, acts).byID
    requires if m == |acts| - 1 then id !in After(w, acts[..m]).byID else PresentSince(w, acts[..|acts| - 1], id, m)
    ensures PresentSince(w, acts, id, m)
  {
    hide After;
    var init := acts[..|acts| - 1];
    assert acts[..|acts|] == acts;
    assert forall i :: 0 <= i <= |init| ==> acts[..i] == init[..i];
  }

  lemma {:induction false} HistoryIsPushed(w: World, acts: seq<Act>, id: string) returns (m: nat)
    requires w.byID == map[] && id in After(w, acts).byID
    ensures PresentSince(w, acts, id, m)
    ensures After(w, acts).byID[id].history == PushAll(Told(acts[m..], id))
    decreases |acts|
  {
    hide Push, PushAll, Next, After, PresentSince, Told;
    SomeActs(w, acts, id);
    var n := |acts| - 1;
    var init := acts[..n];
    AfterLast(w, acts);
    HistoryStep(After(w, init), acts[n], id);
    if id in After(w, init).byID {
      m := HistoryIsPushed(w, init, id);
      InRange(w, init, id, m);
    } else {
      m := n;
      NothingTold(init[m..], id);
    }
    PresentOn(w, acts, id, m);
    HistoryLonger(acts, m, id);
  }

  /** Over every run from an empty store, an event's history is all that was applied
      about it since it was last absent, up to the bound, and beyond it the first
      and the latest. */
  lemma HistoryIsSinceAbsent(w: World, acts: seq<Act>, id: string) returns (m: nat)
    requires w.byID == map[] && id in After(w, acts).byID
    ensures PresentSince(w, acts, id, m)
    ensures var rs := Told(acts[m..], id);
            After(w, acts).byID[id].history ==
            if |rs| <= MAX_HISTORY then rs else rs[..1] + rs[|rs| - MAX_HISTORY + 1..]
  {
    hide PushAll, After, Told;
    m := HistoryIsPushed(w, acts, id);
    HistoryIsFirstAndLatest(Told(acts[m..], id));
  }

  lemma SomeActs(w: World, acts: seq<Act>, id: string)
    requires w.byID == map[] && id in After(w, acts).byID
    ensures acts != []
  {
  }

  lemma AfterLast(w: World, acts: seq<Act>)
    requires acts != []
    ensures After(w, acts) == Next(After(w, acts[..|acts| - 1]), acts[|acts| - 1])
  {
  }

  /** One more act adds at most its own revision to what was told. */
  lemma HistoryLonger(acts: seq<Act>, m: nat, id: string)
    requires m < |acts|
    ensures var last, rs := acts[|acts| - 1], Told(acts[..|acts| - 1][m..], id);
            PushAll(Told(acts[m..], id)) ==
            if last.Applied? && last.c.ev.id == id then Push(PushAll(rs), Revision(last.at, last.c.op, last.c.ev))
                else PushAll(rs)
  {
    hide Push, PushAll, Told;
    var last, rs := acts[|acts| - 1], Told(acts[..|acts| - 1][m..], id);
    ToldSuffix(acts, m, id);
    if last.Applied? && last.c.ev.id == id {
      PushedAfter(rs, Revision(last.at, last.c.op, last.c.ev));
    } else {
      assert Told(acts[m..], id) == rs;
    }
  }

  lemma InRange(w: World, acts: seq<Act>, id: string, m: nat)
    requires PresentSince(w, acts, id, m)
    ensures m < |acts|
  {
  }

  lemma NothingTold(acts: seq<Act>, id: string)
    requires acts == []
    ensures Told(acts, id) == [] && PushAll(Told(acts, id)) == []
  {
  }

  // ----- a mirror -----

  /** A client that upserts what it receives. */
  function Upserts(m: map<string, Ev>, cs: seq<StoreChange>): map<string, Ev> {
    if cs == [] then m
    else
      var c := cs[|cs| - 1];
      Upserts(m, cs[..|cs| - 1])[c.ev.id := c.ev]
  }

  lemma {:induction false} UpsertsConcat(m: map<string, Ev>, a: seq<StoreChange>, b: seq<StoreChange>)
    ensures Upserts(m, a + b) == Upserts(Upserts(m, a), b)
    decreases |b|
  {
    if b == [] {
      assert a + b == a;
    } else {
      assert (a + b)[..|a + b| - 1] == a + b[..|b| - 1];
      UpsertsConcat(m, a, b[..|b| - 1]);
    }
  }

  /** The client has this event as the store does. */
  predicate Agrees(client: map<string, Ev>, byID: map<string, Entry>, id: string)
    requires id in byID
  {
    id in client && client[id] == byID[id].ev
  }

  /** The client agrees with every wanted event the store holds. */
  ghost predicate Mirrors(client: map<string, Ev>, byID: map<string, Entry>, want: Option<set<string>>) {
    forall id :: id in byID && Wanted(want, byID[id].ev.camera) ==> Agrees(client, byID, id)
  }

  /** What the client must already have right: wanted events not touched since. */
  ghost predicate Knew(client: map<string, Ev>, byID: map<string, Entry>, since: Time, want: Option<set<string>>) {
    forall id :: id in byID && Wanted(want, byID[id].ev.camera) && (since == UNSET || byID[id].updatedAt < since) ==>
      Agrees(client, byID, id)
  }

  lemma {:induction false} SiftConcat(a: seq<StoreChange>, b: seq<StoreChange>, want: Option<set<string>>)
    ensures Sift(a + b, want) == Sift(a, want) + Sift(b, want)
    decreases |b|
  {
    if b == [] {
      assert a + b == a;
    } else {
      assert (a + b)[..|a + b| - 1] == a + b[..|b| - 1];
      SiftConcat(a, b[..|b| - 1], want);
    }
  }

  /** Being told of one change more. */
  lemma UpsertsOne(client: map<string, Ev>, cs: seq<StoreChange>, c: StoreChange, want: Option<set<string>>)
    ensures var m := Upserts(client, Sift(cs, want));
            Upserts(client, Sift(cs + [c], want)) == if Wanted(want, c.ev.camera) then m[c.ev.id := c.ev] else m
  {
    assert (cs + [c])[..|cs|] == cs;
    var told := Sift(cs, want);
    assert (told + [c])[..|told|] == told && told + [] == told;
  }

  /** Upserting what is wanted of the replay. */
  lemma {:induction false} ReplayUpserts(client: map<string, Ev>, ordered: seq<Entry>, byID: map<string, Entry>,
                                         since: Time, want: Option<set<string>>, id: string)
    requires since != UNSET && forall e :: e in ordered ==> e.ev.id in byID && byID[e.ev.id] == e
    requires id in byID && byID[id].ev.id == id
    ensures var m := Upserts(client, Sift(Replay(ordered, since), want));
            if byID[id] in ordered && byID[id].updatedAt >= since && Wanted(want, byID[id].ev.camera)
            then Agrees(m, byID, id)
            else (id in m <==> id in client) && (id in client ==> m[id] == client[id])
    decreases |ordered|
  {
    if ordered != [] {
      var init, e := ordered[..|ordered| - 1], ordered[|ordered| - 1];
      assert e in ordered && forall x :: x in ordered <==> x in init || x == e;
      if e.updatedAt < since {
        assert Replay(ordered, since) == Replay(init, since);
        ReplayUpserts(client, init, byID, since, want, id);
      } else {
        var first := StoreChange(if e.ev.endedAt == UNSET then Started else Ended, e.ev);
        assert Replay(ordered, since) == [first] + Replay(init, since);
        FirstUpserted(client, first, Replay(init, since), want);
        var client' := if Wanted(want, e.ev.camera) then client[e.ev.id := e.ev] else client;
        ReplayUpserts(client', init, byID, since, want, id);
      }
    }
  }

  lemma FirstUpserted(client: map<string, Ev>, c: StoreChange, cs: seq<StoreChange>, want: Option<set<string>>)
    ensures Upserts(client, Sift([c] + cs, want)) ==
            Upserts(if Wanted(want, c.ev.camera) then client[c.ev.id := c.ev] else client, Sift(cs, want))
  {
    SiftConcat([c], cs, want);
    UpsertsConcat(client, Sift([c], want), Sift(cs, want));
    UpsertsOne(client, [], c, want);
    assert [] + [c] == [c];
  }

  lemma ReplayMirrors(client: map<string, Ev>, ordered: seq<Entry>, byID: map<string, Entry>, since: Time,
                      want: Option<set<string>>)
    requires Indexes(ordered, byID) && Knew(client, byID, since, want)
    ensures Mirrors(Upserts(client, Sift(Replay(ordered, since), want)), byID, want)
  {
    if since != UNSET {
      forall id | id in byID && Wanted(want, byID[id].ev.camera)
        ensures Agrees(Upserts(client, Sift(Replay(ordered, since), want)), byID, id)
      {
        ReplayUpserts(client, ordered, byID, since, want, id);
      }
    }
  }

  lemma {:induction false} OfferedMirrors(client: map<string, Ev>, w: World, acts: seq<Act>, want: Option<set<string>>)
    requires Mirrors(Upserts(client, Sift(w.offered, want)), w.byID, want) && w.registered
    requires forall i :: 0 <= i < |acts| ==> !acts[i].Cancelled?
    ensures var w' := After(w, acts);
            w'.registered && Mirrors(Upserts(client, Sift(w'.offered, want)), w'.byID, want)
    decreases |acts|
  {
    hide Upserts, Sift, Offered;
    if acts != [] {
      var init, a := acts[..|acts| - 1], acts[|acts| - 1];
      OfferedMirrors(client, w, init, want);
      if a.Applied? {
        UpsertsOne(client, After(w, init).offered, a.c, want);
      }
    }
  }

  /** A watcher of some cameras, or of all, that was right about the wanted events
      not touched since, that upserts what it receives and has taken all that waits,
      is right about every held event whose camera is now wanted, for as long as it
      has not been cut off. */
  lemma WatcherMirrorsStore(client: map<string, Ev>, ordered: seq<Entry>, byID: map<string, Entry>, since: Time,
                            cams: seq<string>, acts: seq<Act>)
    requires Indexes(ordered, byID) && Knew(client, byID, since, Wants(cams))
    requires forall i :: 0 <= i < |acts| ==> !acts[i].Cancelled?
    requires var w := After(Begin(ordered, byID, since, cams), acts); !w.sub.dead && w.sub.queue == []
    ensures var w := After(Begin(ordered, byID, since, cams), acts);
            && Mirrors(Upserts(client, w.taken), w.byID, Wants(cams))
            && (cams == [] ==> forall id :: id in w.byID ==> Agrees(Upserts(client, w.taken), w.byID, id))
  {
    var w := After(Begin(ordered, byID, since, cams), acts);
    EveryWatchInStep(ordered, byID, since, cams, acts);
    assert w.taken + [] == w.taken;
    ReplayMirrors(client, ordered, byID, since, Wants(cams));
    OfferedMirrors(client, Begin(ordered, byID, since, cams), acts, Wants(cams));
  }

  /** And about no more than that: a watcher right about a wanted event is right
      about it after it changes exactly when its new camera is wanted too.  Otherwise
      it keeps the version it had. */
  lemma RightExactlyIfStillWanted(client: map<string, Ev>, w: World, at: Time, c: StoreChange)
    requires InStep(w) && w.registered && !w.sub.dead && w.sub.queue == []
    requires c.ev.id in w.byID && Wanted(w.sub.want, w.byID[c.ev.id].ev.camera)
    requires Agrees(Upserts(client, w.taken), w.byID, c.ev.id)
    ensures var w' := Next(Next(w, Applied(at, c)), Received);
            && !w'.sub.dead && w'.sub.queue == [] && c.ev.id in w'.byID && w'.byID[c.ev.id].ev == c.ev
            && (Agrees(Upserts(client, w'.taken), w'.byID, c.ev.id) <==> Wanted(w.sub.want, c.ev.camera))
            && (!Wanted(w.sub.want, c.ev.camera) ==> Upserts(client, w'.taken) == Upserts(client, w.taken))
  {
    hide Push, Upserts;
    TakenNow(w, at, c);
    if Wanted(w.sub.want, c.ev.camera) {
      ToldLast(client, w.taken, c);
    }
  }

  lemma ToldLast(client: map<string, Ev>, cs: seq<StoreChange>, c: StoreChange)
    ensures Upserts(client, cs + [c]) == Upserts(client, cs)[c.ev.id := c.ev]
  {
    assert (cs + [c])[..|cs|] == cs;
  }

  /** A drained watcher takes a wanted change at once, and is not offered another. */
  lemma TakenNow(w: World, at: Time, c: StoreChange)
    requires w.registered && !w.sub.dead && w.sub.queue == []
    ensures var w' := Next(Next(w, Applied(at, c)), Received);
            && !w'.sub.dead && w'.sub.queue == [] && w'.byID == w.byID[c.ev.id := Revised(w.byID, at, c)]
            && w'.taken == if Wanted(w.sub.want, c.ev.camera) then w.taken + [c] else w.taken
  {
    hide Push, Revised, Wanted;
  }
}
