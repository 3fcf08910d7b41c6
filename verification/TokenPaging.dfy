/** Paging as a client does it, handing back printed tokens: List of
    internal/store/store.go with cursor.String and parseCursor around it. */
module TokenPaging {
  import opened Common
  import opened EventStore
  import opened StorePaging
  import opened CursorText
  import Decimal

  datatype Response = Listed(page: seq<Ev>, next: string) | Refused

  /** What List answers: a token that does not parse is refused, an empty one means
      from the top, and an empty page has no next. */
  function Answer(a: Armour, s: seq<Entry>, want: Option<set<string>>, pageSize: int, token: string): Response {
    if token == "" then Respond(a, Take(Matching(s, want, None), pageSize))
    else
      match Parse(a, token)
      case BadToken => Refused
      case Good(c) => Respond(a, Take(Matching(s, want, Some(c)), pageSize))
  }

  function Respond(a: Armour, page: seq<Ev>): Response {
    Listed(page, if NextAfter(page).None? then "" else Print(a, NextAfter(page).value))
  }

  /** A client asks page after page of whatever the store then is, with the token it
      was last given, until an answer has none. */
  ghost predicate IsTokenSession(a: Armour, stores: seq<seq<Entry>>, want: Option<set<string>>, pageSize: int,
                                 answers: seq<Response>, tokens: seq<string>)
  {
    && pageSize >= 1 && |stores| == |answers| == |tokens|
    && (tokens != [] ==> tokens[0] == "")
    && (forall k :: 0 <= k < |stores| ==>
          Descending(stores[k]) && answers[k] == Answer(a, stores[k], want, pageSize, tokens[k]))
    && (forall k, n :: 0 <= k && n == k + 1 && n < |answers| ==>
          answers[k].Listed? && answers[k].next != "" && tokens[n] == answers[k].next)
  }

  /** The token's text holds every key of the store. */
  ghost predicate Printable(s: seq<Entry>) {
    forall k :: 0 <= k < |s| ==> s[k].ev.id != "" && IsInt64(s[k].ev.startedAt - UNIX_EPOCH)
  }

  /** base64url: lossless, and empty only for nothing. */
  ghost predicate IsBase64(a: Armour) {
    Lossless(a) && a.enc("") == ""
  }

  lemma PrintNotEmpty(a: Armour, c: Cursor)
    requires IsBase64(a)
    ensures Print(a, c) != ""
  {
    var text := Decimal.PrintInt(Wrap64(c.startedAt - UNIX_EPOCH)) + "|" + c.id;
    assert |text| > 0;
    assert a.dec(a.enc(text)) == Some(text) && a.dec(a.enc("")) == Some("");
  }

  function Position(a: Armour, token: string): Option<Cursor> {
    if token == "" then None else match Parse(a, token) case Good(c) => Some(c) case BadToken => None
  }

  function PageOf(r: Response): seq<Ev> {
    match r case Listed(page, _) => page case Refused => []
  }

  function Pages(answers: seq<Response>): (pages: seq<seq<Ev>>)
    ensures |pages| == |answers| && forall k :: 0 <= k < |answers| ==> pages[k] == PageOf(answers[k])
  {
    seq(|answers|, k requires 0 <= k < |answers| => PageOf(answers[k]))
  }

  /** The positions a session goes through. */
  function Positions(a: Armour, tokens: seq<string>, answers: seq<Response>): (cs: seq<Option<Cursor>>)
    requires tokens != [] && |answers| == |tokens|
    ensures |cs| == |tokens| + 1
    ensures forall k :: 0 <= k < |tokens| ==> cs[k] == Position(a, tokens[k])
    ensures cs[|tokens|] == NextAfter(PageOf(answers[|answers| - 1]))
  {
    seq(|tokens|, k requires 0 <= k < |tokens| => Position(a, tokens[k])) + [NextAfter(PageOf(answers[|answers| - 1]))]
  }

  /** A printed token is a position again. */
  lemma NextIsPosition(a: Armour, s: seq<Entry>, want: Option<set<string>>, pageSize: int, token: string)
    requires IsBase64(a) && Printable(s)
    requires var r := Answer(a, s, want, pageSize, token); r.Listed? && r.next != ""
    ensures var r := Answer(a, s, want, pageSize, token);
            r.page != [] && Position(a, r.next) == NextAfter(r.page) && Parse(a, r.next).Good?
  {
    var r := Answer(a, s, want, pageSize, token);
    var after := Position(a, token);
    assert r == Respond(a, Take(Matching(s, want, after), pageSize));
    MatchingMeans(s, want, after);
    var last := r.page[|r.page| - 1];
    assert last == Matching(s, want, after)[|r.page| - 1] && last in Matching(s, want, after);
    var c := Cursor(last.startedAt, last.id);
    TokenRoundTrip(a, c);
    PrintNotEmpty(a, c);
  }

  /** No token a session was given is refused, and each answer is the page at the
      position the token stands for. */
  lemma {:induction false} NeverRefused(a: Armour, stores: seq<seq<Entry>>, want: Option<set<string>>, pageSize: int,
                                        answers: seq<Response>, tokens: seq<string>, k: nat)
    requires IsBase64(a) && IsTokenSession(a, stores, want, pageSize, answers, tokens) && k < |answers|
    requires forall i :: 0 <= i < |stores| ==> Printable(stores[i])
    ensures answers[k] == Respond(a, Take(Matching(stores[k], want, Position(a, tokens[k])), pageSize))
    ensures k > 0 ==> Position(a, tokens[k]) == NextAfter(PageOf(answers[k - 1])) && PageOf(answers[k - 1]) != []
  {
    hide Parse, Print;
    assert answers[k] == Answer(a, stores[k], want, pageSize, tokens[k]);
    if k > 0 {
      var i := k - 1;
      assert answers[i].Listed? && answers[i].next != "" && tokens[k] == answers[i].next;
      assert answers[i] == Answer(a, stores[i], want, pageSize, tokens[i]);
      NextIsPosition(a, stores[i], want, pageSize, tokens[i]);
    }
  }

  /** So a session by tokens is a session by positions, whatever the tokens look
      like: all that is proved of those holds of it. */
  lemma TokensArePositions(a: Armour, stores: seq<seq<Entry>>, want: Option<set<string>>, pageSize: int,
                           answers: seq<Response>, tokens: seq<string>)
    requires IsBase64(a) && IsTokenSession(a, stores, want, pageSize, answers, tokens) && tokens != []
    requires forall i :: 0 <= i < |stores| ==> Printable(stores[i])
    ensures forall k :: 0 <= k < |answers| ==> answers[k].Listed?
    ensures IsSession(stores, want, pageSize, Pages(answers), Positions(a, tokens, answers))
  {
    hide Parse, Print, Answer;
    var pages, cs := Pages(answers), Positions(a, tokens, answers);
    forall k | 0 <= k < |answers| ensures answers[k].Listed? && PagesOn(stores, want, pageSize, pages, cs, k) {
      NeverRefused(a, stores, want, pageSize, answers, tokens, k);
      if k + 1 < |answers| {
        NeverRefused(a, stores, want, pageSize, answers, tokens, k + 1);
      }
    }
  }

  /** While the store changes between its requests, a client that pages to the end
      is never refused, gets strictly descending events, and gets every event that
      stayed, wanted and under one key, exactly once. */
  lemma TokenSessionDelivers(a: Armour, stores: seq<seq<Entry>>, want: Option<set<string>>, pageSize: int,
                             answers: seq<Response>, tokens: seq<string>, c: Cursor)
    requires IsBase64(a) && IsTokenSession(a, stores, want, pageSize, answers, tokens)
    requires forall i :: 0 <= i < |stores| ==> Printable(stores[i])
    requires answers != [] && answers[|answers| - 1].Listed? && answers[|answers| - 1].next == ""
    ensures EvsDescend(Delivered(Pages(answers)))
    ensures (forall i :: 0 <= i < |stores| ==> Present(stores[i], want, c)) ==> Has(Delivered(Pages(answers)), c)
    ensures var all := Delivered(Pages(answers)); forall i, j :: 0 <= i < j < |all| ==> EvKey(all[i]) != EvKey(all[j])
  {
    TokensArePositions(a, stores, want, pageSize, answers, tokens);
    var pages, cs, n := Pages(answers), Positions(a, tokens, answers), |answers|;
    assert pages[..n] == pages;
    SessionDescends(stores, want, pageSize, pages, cs, n);
    var all := Delivered(pages);
    forall i, j | 0 <= i < j < |all| ensures EvKey(all[i]) != EvKey(all[j]) {
      OlderTotal(EvKey(all[i]), EvKey(all[j]));
    }
    NeverRefused(a, stores, want, pageSize, answers, tokens, n - 1);
    if forall i :: 0 <= i < n ==> Present(stores[i], want, c) {
      EmptyEnd(a, PageOf(answers[n - 1]));
      StableDeliveredOnce(stores, want, pageSize, pages, cs, c);
    }
  }

  /** An answer without a next token has an empty page. */
  lemma EmptyEnd(a: Armour, page: seq<Ev>)
    requires IsBase64(a) && Respond(a, page).next == ""
    ensures page == []
  {
    if page != [] {
      PrintNotEmpty(a, NextAfter(page).value);
    }
  }
}
