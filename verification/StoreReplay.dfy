/** What a watcher is replayed and ends up with, told by what was applied. */
module StoreReplay {
  import opened Common
  import opened Policy
  import opened EventStore
  import opened StoreWatching

  /** Act i is the last to apply a change about this event. */
  ghost predicate LastApplied(acts: seq<Act>, id: string, i: nat) {
    && i < |acts| && AppliedAbout(acts[i], id)
    && forall j :: i < j < |acts| ==> !AppliedAbout(acts[j], id)
  }

  predicate AppliedAbout(a: Act, id: string) {
    a.Applied? && a.c.ev.id == id
  }

  /** What was last applied about the event, at act i, has not been pruned since. */
  ghost predicate Held(acts: seq<Act>, id: string, i: nat) {
    LastApplied(acts, id, i) && forall j :: i < j < |acts| ==> !PrunedBy(acts[j], acts[i].c.ev)
  }

  predicate PrunedBy(a: Act, ev: Ev) {
    a.Pruned? && ev.startedAt < a.cutoff
  }

  /** The entry is what act i applied, touched then. */
  predicate IsFrom(e: Entry, a: Act) {
    a.Applied? && e.ev == a.c.ev && e.updatedAt == a.at
  }

  lemma HeldStep(acts: seq<Act>, id: string, i: nat)
    requires acts != []
    ensures var init, a := acts[..|acts| - 1], acts[|acts| - 1];
            Held(acts, id, i) <==>
              if AppliedAbout(a, id) then i == |acts| - 1 else Held(init, id, i) && !PrunedBy(a, acts[i].c.ev)
    ensures i < |acts| - 1 ==> acts[..|acts| - 1][i] == acts[i]
    ensures Held(acts[..|acts| - 1], id, i) ==> i < |acts| - 1
  {
    var n := |acts| - 1;
    var init := acts[..n];
    if i < n {
      assert init[i] == acts[i];
      assert forall j :: i < j < |init| ==> init[j] == acts[j];
    }
  }

  lemma EntryStep(w: World, a: Act, id: string)
    ensures AppliedAbout(a, id) ==> id in Next(w, a).byID && IsFrom(Next(w, a).byID[id], a)
    ensures !AppliedAbout(a, id) ==>
              && (id in Next(w, a).byID <==> id in w.byID && !PrunedBy(a, w.byID[id].ev))
              && (id in Next(w, a).byID ==> Next(w, a).byID[id] == w.byID[id])
  {
    hide Push, Offered, Dropped;
  }

  /** Over every run from an empty store, the events held are those whose last
      applied version has not been pruned since; each is that version, and was
      touched when that was applied. */
  lemma {:induction false} StoreIsLastApplied(w: World, acts: seq<Act>, id: string)
    requires w.byID == map[]
    ensures id in After(w, acts).byID <==> exists i: nat :: Held(acts, id, i)
    ensures forall i: nat :: Held(acts, id, i) ==>
              i < |acts| && id in After(w, acts).byID && IsFrom(After(w, acts).byID[id], acts[i])
    decreases |acts|
  {
    hide Held, AppliedAbout, PrunedBy, IsFrom, Next;
    if acts == [] {
      NothingHeld(acts, id);
    } else {
      var init, a := acts[..|acts| - 1], acts[|acts| - 1];
      StoreIsLastApplied(w, init, id);
      EntryStep(After(w, init), a, id);
      forall i: nat
        ensures Held(acts, id, i) <==>
                  if AppliedAbout(a, id) then i == |acts| - 1
                  else Held(init, id, i) && IsFrom(After(w, init).byID[id], acts[i]) &&
                       !PrunedBy(a, After(w, init).byID[id].ev)
        ensures i < |init| ==> init[i] == acts[i]
      {
        HeldStep(acts, id, i);
        if Held(init, id, i) {
          SameEvent(After(w, init).byID[id], init[i]);
        }
      }
      assert AppliedAbout(a, id) ==> Held(acts, id, |acts| - 1);
    }
  }

  lemma NothingHeld(acts: seq<Act>, id: string)
    requires acts == []
    ensures forall i: nat :: !Held(acts, id, i)
  {
  }

  lemma SameEvent(e: Entry, a: Act)
    requires IsFrom(e, a)
    ensures a.Applied? && a.c.ev == e.ev
  {
  }

  // ----- the replay -----

  /** This version of an event was the last applied about it, is held, and was
      applied at or after since. */
  ghost predicate AppliedSince(acts: seq<Act>, ev: Ev, since: Time) {
    exists i: nat :: Held(acts, ev.id, i) && acts[i].c.ev == ev && acts[i].at >= since
  }

  ghost predicate Mentions(cs: seq<StoreChange>, ev: Ev) {
    exists k :: 0 <= k < |cs| && cs[k].ev == ev
  }

  /** A watcher that joins after a run from an empty store is replayed exactly the
      events held whose last change was applied at or after since, each once, as last
      applied, oldest first, as started or, if it has ended, as ended. */
  lemma ReplayIsLastApplied(w: World, acts: seq<Act>, ordered: seq<Entry>, since: Time)
    requires w.byID == map[] && Indexes(ordered, After(w, acts).byID) && since != UNSET
    ensures var r := Replay(ordered, since);
            && (forall ev :: Mentions(r, ev) <==> AppliedSince(acts, ev, since))
            && (forall k :: 0 <= k < |r| ==> r[k].op == if r[k].ev.endedAt == UNSET then Started else Ended)
            && (forall j, k :: 0 <= j < k < |r| ==>
                  r[j].ev.id != r[k].ev.id && Older(EvCursor(r[j].ev), EvCursor(r[k].ev)))
  {
    hide After, Replay, Older, Indexes, Held, Mentions;
    ReplayIsTouched(ordered, After(w, acts).byID, since);
    forall ev ensures Mentions(Replay(ordered, since), ev) <==> AppliedSince(acts, ev, since) {
      ReplayMentions(w, acts, ordered, since, ev);
    }
  }

  lemma ReplayMentions(w: World, acts: seq<Act>, ordered: seq<Entry>, since: Time, ev: Ev)
    requires w.byID == map[] && Indexes(ordered, After(w, acts).byID) && since != UNSET
    ensures Mentions(Replay(ordered, since), ev) <==> AppliedSince(acts, ev, since)
  {
    hide After, Replay, Older, Indexes, Held, LastApplied;
    var byID := After(w, acts).byID;
    ReplayIsTouched(ordered, byID, since);
    assert Mentions(Replay(ordered, since), ev) <==>
           ev.id in byID && byID[ev.id].ev == ev && byID[ev.id].updatedAt >= since;
    StoreIsLastApplied(w, acts, ev.id);
  }

  // ----- a mirror -----

  /** The client has every held event whose last change was about a wanted camera,
      and was applied before since if that is set, as it was last applied. */
  ghost predicate Right(client: map<string, Ev>, acts: seq<Act>, want: Option<set<string>>, since: Time) {
    forall id, i: nat ::
      Held(acts, id, i) && Wanted(want, acts[i].c.ev.camera) && (since == UNSET || acts[i].at < since) ==>
        id in client && client[id] == acts[i].c.ev
  }

  /** Only what is held of a world decides what will be. */
  lemma {:induction false} SameEvents(w: World, v: World, acts: seq<Act>)
    requires w.byID == v.byID
    ensures After(w, acts).byID == After(v, acts).byID
    decreases |acts|
  {
    hide Revised, Offered, Dropped;
    if acts != [] {
      SameEvents(w, v, acts[..|acts| - 1]);
    }
  }

  lemma {:induction false} AfterConcat(w: World, a: seq<Act>, b: seq<Act>)
    ensures After(w, a + b) == After(After(w, a), b)
    decreases |b|
  {
    hide Next;
    if b == [] {
      assert a + b == a;
    } else {
      assert (a + b)[..|a + b| - 1] == a + b[..|b| - 1];
      AfterConcat(w, a, b[..|b| - 1]);
    }
  }

  lemma RightKnew(client: map<string, Ev>, w: World, acts: seq<Act>, want: Option<set<string>>, since: Time)
    requires w.byID == map[] && Right(client, acts, want, since)
    ensures Knew(client, After(w, acts).byID, since, want)
  {
    hide After, Held, Wanted;
    var byID := After(w, acts).byID;
    forall id | id in byID && Wanted(want, byID[id].ev.camera) && (since == UNSET || byID[id].updatedAt < since)
      ensures Agrees(client, byID, id)
    {
      StoreIsLastApplied(w, acts, id);
      var i: nat :| Held(acts, id, i);
    }
  }

  lemma MirrorsRight(client: map<string, Ev>, w: World, acts: seq<Act>, want: Option<set<string>>)
    requires w.byID == map[] && Mirrors(client, After(w, acts).byID, want)
    ensures Right(client, acts, want, UNSET)
  {
    hide After, Wanted;
    forall id, i: nat | Held(acts, id, i) && Wanted(want, acts[i].c.ev.camera)
      ensures id in client && client[id] == acts[i].c.ev
    {
      StoreIsLastApplied(w, acts, id);
      assert Agrees(client, After(w, acts).byID, id);
    }
  }

  /** A client that was right about the wanted events last changed before since, that
      watches from then on and upserts what it receives, is right about every held
      event whose last change, before or after it joined, was about a wanted camera:
      whenever it has taken all that waits and has not been cut off. */
  lemma WatcherHasLastApplied(client: map<string, Ev>, w: World, past: seq<Act>, ordered: seq<Entry>, since: Time,
                              cams: seq<string>, acts: seq<Act>)
    requires w.byID == map[] && Indexes(ordered, After(w, past).byID)
    requires Right(client, past, Wants(cams), since)
    requires forall i :: 0 <= i < |acts| ==> !acts[i].Cancelled?
    requires var v := After(Begin(ordered, After(w, past).byID, since, cams), acts); !v.sub.dead && v.sub.queue == []
    ensures var v := After(Begin(ordered, After(w, past).byID, since, cams), acts);
            Right(Upserts(client, v.taken), past + acts, Wants(cams), UNSET)
  {
    hide After, Right, Knew, Mirrors, Upserts, Indexes, Wants, Replay;
    var byID := After(w, past).byID;
    var v := After(Begin(ordered, byID, since, cams), acts);
    RightKnew(client, w, past, Wants(cams), since);
    WatcherMirrorsStore(client, ordered, byID, since, cams, acts);
    SameEvents(Begin(ordered, byID, since, cams), After(w, past), acts);
    AfterConcat(w, past, acts);
    MirrorsRight(Upserts(client, v.taken), w, past + acts, Wants(cams));
  }

  // ----- being cut off -----

  /** More has been offered, of what is wanted, than was taken and 256 can wait for. */
  ghost predicate Behind(w: World) {
    |Sift(w.offered, w.sub.want)| > |w.taken| + 256
  }

  /** At some point so far the watcher was that far behind. */
  ghost predicate WasBehind(w: World, acts: seq<Act>) {
    exists i :: 0 <= i <= |acts| && Behind(After(w, acts[..i]))
  }

  lemma WasBehindStep(w: World, acts: seq<Act>)
    requires acts != []
    ensures WasBehind(w, acts) <==> WasBehind(w, acts[..|acts| - 1]) || Behind(After(w, acts))
  {
    hide Behind, After;
    var n, init := |acts| - 1, acts[..|acts| - 1];
    assert acts[..n + 1] == acts;
    assert forall i :: 0 <= i <= n ==> init[..i] == acts[..i];
    if i :| 0 <= i <= n && Behind(After(w, init[..i])) {
      assert Behind(After(w, acts[..i]));
    }
  }

  lemma {:induction false} OfferAllBehind(s: Sub, cs: seq<StoreChange>)
    requires s == Sub(s.want, [], false, 0)
    ensures OfferedAll(s, cs).dead <==> |Sift(cs, s.want)| > 256
    ensures !OfferedAll(s, cs).dead ==> |OfferedAll(s, cs).queue| == |Sift(cs, s.want)|
    ensures OfferedAll(s, cs).want == s.want
    decreases |cs|
  {
    hide Wanted;
    if cs != [] {
      OfferAllBehind(s, cs[..|cs| - 1]);
    }
  }

  lemma NextBehind(w: World, a: Act)
    requires InStep(w) && w.registered && !a.Cancelled?
    ensures !w.sub.dead ==> !Behind(w) && (Next(w, a).sub.dead <==> Behind(Next(w, a)))
    ensures w.sub.dead ==> Next(w, a).sub.dead
    ensures Next(w, a).registered
  {
    hide Wanted, Revised;
    if a.Applied? {
      SiftOne(w.offered, a.c, w.sub.want);
    }
  }

  lemma SiftOne(cs: seq<StoreChange>, c: StoreChange, want: Option<set<string>>)
    ensures Sift(cs + [c], want) == Sift(cs, want) + if Wanted(want, c.ev.camera) then [c] else []
  {
    assert (cs + [c])[..|cs|] == cs;
  }

  /** A watcher whose context has not ended is cut off exactly when at some point,
      the replay included, more wanted changes had been offered than it had taken and
      256 more. */
  lemma {:induction false} CutOffIffBehind(ordered: seq<Entry>, byID: map<string, Entry>, since: Time,
                                           cams: seq<string>, acts: seq<Act>)
    requires forall i :: 0 <= i < |acts| ==> !acts[i].Cancelled?
    ensures var w := Begin(ordered, byID, since, cams);
            && After(w, acts).registered
            && (After(w, acts).sub.dead <==> WasBehind(w, acts))
    decreases |acts|
  {
    hide Behind, WasBehind, InStep, Next, Replay;
    var w := Begin(ordered, byID, since, cams);
    if acts == [] {
      BeginBehind(ordered, byID, since, cams);
    } else {
      var init, n := acts[..|acts| - 1], |acts| - 1;
      CutOffIffBehind(ordered, byID, since, cams, init);
      EveryWatchInStep(ordered, byID, since, cams, init);
      NextBehind(After(w, init), acts[n]);
      WasBehindStep(w, acts);
    }
  }

  lemma BeginBehind(ordered: seq<Entry>, byID: map<string, Entry>, since: Time, cams: seq<string>)
    ensures var w := Begin(ordered, byID, since, cams); w.registered && (w.sub.dead <==> WasBehind(w, []))
  {
    hide Replay, Wants;
    var w := Begin(ordered, byID, since, cams);
    OfferAllBehind(Sub(Wants(cams), [], false, 0), Replay(ordered, since));
    var none: seq<Act> := [];
    assert none[..0] == none && After(w, none) == w;
    assert WasBehind(w, []) <==> Behind(w);
  }
}
