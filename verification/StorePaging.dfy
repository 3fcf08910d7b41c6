/** Walking the store page by page while it changes underneath. */
module StorePaging {
  import opened Common
  import opened EventStore

  function EvKey(e: Ev): Cursor {
    Cursor(e.startedAt, e.id)
  }

  ghost predicate EvsDescend(evs: seq<Ev>) {
    forall i, j :: 0 <= i < j < |evs| ==> Older(EvKey(evs[j]), EvKey(evs[i]))
  }

  predicate Past(after: Option<Cursor>, c: Cursor) {
    after.None? || Older(c, after.value)
  }

  // ----- what one page holds -----

  lemma {:induction false} MatchingMeans(s: seq<Entry>, want: Option<set<string>>, after: Option<Cursor>)
    ensures forall x :: x in Matching(s, want, after) <==>
              exists k :: 0 <= k < |s| && s[k].ev == x && Past(after, EvKey(x)) && Wanted(want, x.camera)
    decreases |s|
  {
    if s != [] {
      var init := s[..|s| - 1];
      MatchingMeans(init, want, after);
      forall x | x in Matching(s, want, after)
        ensures exists k :: 0 <= k < |s| && s[k].ev == x && Past(after, EvKey(x)) && Wanted(want, x.camera)
      {
        if x in Matching(init, want, after) {
          var k :| 0 <= k < |init| && init[k].ev == x && Past(after, EvKey(x)) && Wanted(want, x.camera);
          assert s[k].ev == x;
        } else {
          assert s[|s| - 1].ev == x;
        }
      }
      forall k | 0 <= k < |s| && Past(after, EvKey(s[k].ev)) && Wanted(want, s[k].ev.camera)
        ensures s[k].ev in Matching(s, want, after)
      {
        if k < |init| {
          assert init[k] == s[k];
        }
      }
    }
  }

  /** So a request for some cameras is answered from exactly theirs, and one for none
      from all. */
  lemma FilterKeepsNamed(s: seq<Entry>, cams: seq<string>, after: Option<Cursor>)
    ensures forall x :: x in Matching(s, Wants(cams), after) <==>
              exists k :: 0 <= k < |s| && s[k].ev == x && Past(after, EvKey(x)) && (cams == [] || x.camera in cams)
  {
    hide Matching, Past;
    MatchingMeans(s, Wants(cams), after);
  }

  lemma {:induction false} MatchingDescends(s: seq<Entry>, want: Option<set<string>>, after: Option<Cursor>)
    requires Descending(s)
    ensures EvsDescend(Matching(s, want, after))
    decreases |s|
  {
    if s != [] {
      var init, e := s[..|s| - 1], s[|s| - 1];
      MatchingDescends(init, want, after);
      MatchingMeans(init, want, after);
      var m := Matching(init, want, after);
      forall i | 0 <= i < |m| ensures Older(KeyOf(e), EvKey(m[i])) {
        assert m[i] in m;
        var k :| 0 <= k < |init| && init[k].ev == m[i];
        assert Older(KeyOf(s[|s| - 1]), KeyOf(s[k]));
      }
    }
  }

  // ----- a session -----

  /** Successive pages, each asked of the store as it then is, each continuing
      where the one before ended; only the last may be empty. */
  ghost predicate IsSession(stores: seq<seq<Entry>>, want: Option<set<string>>, pageSize: int,
                            pages: seq<seq<Ev>>, tokens: seq<Option<Cursor>>)
  {
    && pageSize >= 1
    && |stores| == |pages| && |tokens| == |pages| + 1 && tokens[0] == None
    && forall k :: 0 <= k < |pages| ==> PagesOn(stores, want, pageSize, pages, tokens, k)
  }

  ghost predicate PagesOn(stores: seq<seq<Entry>>, want: Option<set<string>>, pageSize: int,
                          pages: seq<seq<Ev>>, tokens: seq<Option<Cursor>>, k: nat)
    requires k < |pages| == |stores| && |tokens| == |pages| + 1
  {
    && Descending(stores[k])
    && pages[k] == Take(Matching(stores[k], want, tokens[k]), pageSize)
    && tokens[k + 1] == NextAfter(pages[k])
    && (k + 1 < |pages| ==> pages[k] != [])
  }

  function Delivered(pages: seq<seq<Ev>>): seq<Ev> {
    if pages == [] then [] else Delivered(pages[..|pages| - 1]) + pages[|pages| - 1]
  }

  /** Nothing delivered so far is older than the token. */
  ghost predicate UpTo(evs: seq<Ev>, token: Option<Cursor>) {
    && EvsDescend(evs)
    && (token.None? ==> evs == [])
    && (token.Some? ==> forall i :: 0 <= i < |evs| ==>
          EvKey(evs[i]) == token.value || Older(token.value, EvKey(evs[i])))
  }

  lemma PageExtends(evs: seq<Ev>, token: Option<Cursor>, page: seq<Ev>)
    requires UpTo(evs, token) && EvsDescend(page) && page != []
    requires forall i :: 0 <= i < |page| ==> Past(token, EvKey(page[i]))
    ensures UpTo(evs + page, NextAfter(page))
  {
    var all, last := evs + page, EvKey(page[|page| - 1]);
    forall i, j | 0 <= i < |evs| && 0 <= j < |page| ensures Older(EvKey(page[j]), EvKey(evs[i])) {
      if EvKey(evs[i]) != token.value {
        OlderTransitive(EvKey(page[j]), token.value, EvKey(evs[i]));
      }
    }
    forall i, j | 0 <= i < j < |all| ensures Older(EvKey(all[j]), EvKey(all[i])) {
    }
  }

  lemma PageIsPast(s: seq<Entry>, want: Option<set<string>>, after: Option<Cursor>, pageSize: int)
    requires Descending(s)
    ensures var page := Take(Matching(s, want, after), pageSize);
            EvsDescend(page) && forall i :: 0 <= i < |page| ==> Past(after, EvKey(page[i]))
  {
    var m := Matching(s, want, after);
    MatchingDescends(s, want, after);
    MatchingMeans(s, want, after);
    forall i | 0 <= i < |m| ensures Past(after, EvKey(m[i])) {
      assert m[i] in m;
    }
  }

  /** However the store changes between pages, what a session delivers is
      strictly descending: nothing comes twice or out of order. */
  lemma {:induction false} SessionDescends(stores: seq<seq<Entry>>, want: Option<set<string>>, pageSize: int,
                                           pages: seq<seq<Ev>>, tokens: seq<Option<Cursor>>, k: nat)
    requires IsSession(stores, want, pageSize, pages, tokens) && k <= |pages|
    ensures EvsDescend(Delivered(pages[..k]))
    ensures (k == 0 || pages[k - 1] != []) ==> UpTo(Delivered(pages[..k]), tokens[k])
    decreases k
  {
    if k > 0 {
      SessionDescends(stores, want, pageSize, pages, tokens, k - 1);
      assert PagesOn(stores, want, pageSize, pages, tokens, k - 1);
      assert k - 1 > 0 ==> PagesOn(stores, want, pageSize, pages, tokens, k - 2);
      assert pages[..k][..k - 1] == pages[..k - 1];
      var page := pages[k - 1];
      PageIsPast(stores[k - 1], want, tokens[k - 1], pageSize);
      if page == [] {
        assert Delivered(pages[..k]) == Delivered(pages[..k - 1]);
      } else {
        PageExtends(Delivered(pages[..k - 1]), tokens[k - 1], page);
      }
    }
  }

  /** An event matching, under this key, in this state of the store. */
  ghost predicate Present(s: seq<Entry>, want: Option<set<string>>, c: Cursor) {
    exists k :: 0 <= k < |s| && KeyOf(s[k]) == c && Wanted(want, s[k].ev.camera)
  }

  ghost predicate Has(evs: seq<Ev>, c: Cursor) {
    exists i :: 0 <= i < |evs| && EvKey(evs[i]) == c
  }

  /** A present event past the position is on the page, or the page is not empty
      and the event lies past its end. */
  lemma OnPageOrPast(s: seq<Entry>, want: Option<set<string>>, after: Option<Cursor>, pageSize: int, c: Cursor)
    requires Descending(s) && pageSize >= 1 && Present(s, want, c) && Past(after, c)
    ensures var page := Take(Matching(s, want, after), pageSize);
            page != [] && (Has(page, c) || Past(NextAfter(page), c))
  {
    var m := Matching(s, want, after);
    var page := Take(m, pageSize);
    var k :| 0 <= k < |s| && KeyOf(s[k]) == c && Wanted(want, s[k].ev.camera);
    MatchingMeans(s, want, after);
    MatchingDescends(s, want, after);
    assert s[k].ev in m;
    var i :| 0 <= i < |m| && m[i] == s[k].ev;
    if i < |page| {
      assert EvKey(page[i]) == c;
    } else {
      assert page[|page| - 1] == m[|page| - 1];
    }
  }

  lemma {:induction false} StableReached(stores: seq<seq<Entry>>, want: Option<set<string>>, pageSize: int,
                                         pages: seq<seq<Ev>>, tokens: seq<Option<Cursor>>, c: Cursor, k: nat)
    requires IsSession(stores, want, pageSize, pages, tokens) && k <= |pages|
    requires forall i :: 0 <= i < |stores| ==> Present(stores[i], want, c)
    ensures Has(Delivered(pages[..k]), c) || (Past(tokens[k], c) && (k > 0 ==> pages[k - 1] != []))
    decreases k
  {
    if k > 0 {
      StableReached(stores, want, pageSize, pages, tokens, c, k - 1);
      assert PagesOn(stores, want, pageSize, pages, tokens, k - 1);
      assert pages[..k][..k - 1] == pages[..k - 1];
      var before, page, all := Delivered(pages[..k - 1]), pages[k - 1], Delivered(pages[..k]);
      if Has(before, c) {
        var i :| 0 <= i < |before| && EvKey(before[i]) == c;
        assert EvKey(all[i]) == c;
      } else {
        OnPageOrPast(stores[k - 1], want, tokens[k - 1], pageSize, c);
        if Has(page, c) {
          var i :| 0 <= i < |page| && EvKey(page[i]) == c;
          assert EvKey(all[|before| + i]) == c;
        }
      }
    }
  }

  /** A session that reached an empty page has delivered every event that stayed
      in the store, matching and under one key, throughout; and it delivered it
      once. */
  lemma StableDeliveredOnce(stores: seq<seq<Entry>>, want: Option<set<string>>, pageSize: int,
                            pages: seq<seq<Ev>>, tokens: seq<Option<Cursor>>, c: Cursor)
    requires IsSession(stores, want, pageSize, pages, tokens) && pages != [] && pages[|pages| - 1] == []
    requires forall i :: 0 <= i < |stores| ==> Present(stores[i], want, c)
    ensures Has(Delivered(pages), c)
    ensures forall i, j :: 0 <= i < j < |Delivered(pages)| ==> EvKey(Delivered(pages)[i]) != EvKey(Delivered(pages)[j])
  {
    assert pages[..|pages|] == pages;
    StableReached(stores, want, pageSize, pages, tokens, c, |pages|);
    SessionDescends(stores, want, pageSize, pages, tokens, |pages|);
    var all := Delivered(pages);
    forall i, j | 0 <= i < j < |all| ensures EvKey(all[i]) != EvKey(all[j]) {
      OlderTotal(EvKey(all[i]), EvKey(all[j]));
    }
  }

  // ----- a store that holds still -----

  function OlderThan(evs: seq<Ev>, c: Cursor): seq<Ev> {
    if evs == [] then []
    else
      var e := evs[|evs| - 1];
      OlderThan(evs[..|evs| - 1], c) + (if Older(EvKey(e), c) then [e] else [])
  }

  /** A later position only filters further. */
  lemma {:induction false} MatchingNarrows(s: seq<Entry>, want: Option<set<string>>, after: Option<Cursor>, c: Cursor)
    requires Past(after, c)
    ensures Matching(s, want, Some(c)) == OlderThan(Matching(s, want, after), c)
    decreases |s|
  {
    if s != [] {
      var init, e := s[..|s| - 1], s[|s| - 1];
      MatchingNarrows(init, want, after, c);
      if Older(KeyOf(e), c) && after.Some? {
        OlderTransitive(KeyOf(e), c, after.value);
      }
      var m := Matching(init, want, after);
      assert (m + [e.ev])[..|m|] == m;
      assert m + [] == m;
    }
  }

  /** In a descending list, what is older than the k-th is what follows it. */
  lemma {:induction false} OlderThanIsRest(evs: seq<Ev>, k: nat)
    requires EvsDescend(evs) && 0 < k <= |evs|
    ensures OlderThan(evs, EvKey(evs[k - 1])) == evs[k..]
    decreases |evs|
  {
    var init, e := evs[..|evs| - 1], evs[|evs| - 1];
    if k < |evs| {
      OlderThanIsRest(init, k);
      assert Older(EvKey(evs[|evs| - 1]), EvKey(evs[k - 1]));
      assert evs[k..] == init[k..] + [e];
    } else {
      NoneOlder(init, EvKey(e));
      OlderTotal(EvKey(e), EvKey(e));
    }
  }

  lemma {:induction false} NoneOlder(evs: seq<Ev>, c: Cursor)
    requires forall i :: 0 <= i < |evs| ==> Older(c, EvKey(evs[i]))
    ensures OlderThan(evs, c) == []
    decreases |evs|
  {
    if evs != [] {
      NoneOlder(evs[..|evs| - 1], c);
      OlderTotal(c, EvKey(evs[|evs| - 1]));
    }
  }

  lemma MatchIsPast(s: seq<Entry>, want: Option<set<string>>, after: Option<Cursor>, i: nat)
    requires i < |Matching(s, want, after)|
    ensures Past(after, EvKey(Matching(s, want, after)[i]))
  {
    MatchingMeans(s, want, after);
    assert Matching(s, want, after)[i] in Matching(s, want, after);
  }

  /** What matches past the n-th match is the rest of the matches. */
  lemma RestOfMatches(s: seq<Entry>, want: Option<set<string>>, after: Option<Cursor>, n: nat)
    requires Descending(s) && 0 < n <= |Matching(s, want, after)|
    ensures Matching(s, want, Some(EvKey(Matching(s, want, after)[n - 1]))) == Matching(s, want, after)[n..]
  {
    var m := Matching(s, want, after);
    MatchingDescends(s, want, after);
    MatchIsPast(s, want, after, n - 1);
    MatchingNarrows(s, want, after, EvKey(m[n - 1]));
    OlderThanIsRest(m, n);
  }

  /** One page and what is left after it. */
  lemma FixedPage(s: seq<Entry>, want: Option<set<string>>, after: Option<Cursor>, pageSize: int, page: seq<Ev>)
    requires Descending(s) && pageSize >= 1 && page == Take(Matching(s, want, after), pageSize)
    ensures page == [] ==> Matching(s, want, after) == []
    ensures page != [] ==> page + Matching(s, want, NextAfter(page)) == Matching(s, want, after)
  {
    if page != [] {
      var m := Matching(s, want, after);
      RestOfMatches(s, want, after, |page|);
      assert page == m[..|page|];
      assert page[|page| - 1] == m[|page| - 1];
    }
  }

  /** On a store that does not change, the pages are the matching events cut
      into pieces: nothing lost, nothing repeated, and an end reached within one
      page more than there are events. */
  lemma {:induction false} FixedStorePages(s: seq<Entry>, stores: seq<seq<Entry>>, want: Option<set<string>>,
                                           pageSize: int,
                                           pages: seq<seq<Ev>>, tokens: seq<Option<Cursor>>, k: nat)
    requires IsSession(stores, want, pageSize, pages, tokens) && k <= |pages|
    requires forall i :: 0 <= i < |stores| ==> stores[i] == s
    ensures PagesSoFar(s, want, pages, tokens, k)
    ensures k <= |Matching(s, want, None)| + 1
    decreases k
  {
    if k > 0 {
      FixedStorePages(s, stores, want, pageSize, pages, tokens, k - 1);
      assert PagesOn(stores, want, pageSize, pages, tokens, k - 1);
      assert k - 1 > 0 ==> PagesOn(stores, want, pageSize, pages, tokens, k - 2);
      assert stores[k - 1] == s;
      FixedPage(s, want, tokens[k - 1], pageSize, pages[k - 1]);
      OneMorePage(s, want, pages, tokens, k);
    }
  }

  /** After k pages: what they delivered and what is still to come make up all
      that matches; an empty page means nothing is. */
  ghost predicate PagesSoFar(s: seq<Entry>, want: Option<set<string>>, pages: seq<seq<Ev>>,
                             tokens: seq<Option<Cursor>>, k: nat)
    requires k <= |pages| && |tokens| == |pages| + 1
  {
    var got := Delivered(pages[..k]);
    if k > 0 && pages[k - 1] == [] then got == Matching(s, want, None) && k <= |got| + 1
    else got + Matching(s, want, tokens[k]) == Matching(s, want, None) && k <= |got|
  }

  lemma OneMorePage(s: seq<Entry>, want: Option<set<string>>, pages: seq<seq<Ev>>, tokens: seq<Option<Cursor>>, k: nat)
    requires 0 < k <= |pages| && |tokens| == |pages| + 1
    requires PagesSoFar(s, want, pages, tokens, k - 1) && (k > 1 ==> pages[k - 2] != [])
    requires var page := pages[k - 1];
             && tokens[k] == NextAfter(page)
             && (page == [] ==> Matching(s, want, tokens[k - 1]) == [])
             && (page != [] ==> page + Matching(s, want, tokens[k]) == Matching(s, want, tokens[k - 1]))
    ensures PagesSoFar(s, want, pages, tokens, k)
    ensures k <= |Matching(s, want, None)| + 1
  {
    assert pages[..k][..k - 1] == pages[..k - 1];
    var before, page := Delivered(pages[..k - 1]), pages[k - 1];
    assert before + (page + Matching(s, want, tokens[k])) == (before + page) + Matching(s, want, tokens[k]);
  }
}
