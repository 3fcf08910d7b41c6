/** The continuation token: cursor.String and parseCursor of
    internal/store/store.go. */
module CursorText {
  import opened Common
  import opened EventStore
  import opened Decimal

  /** The base64url armour. */
  datatype Armour = Armour(enc: string -> string, dec: string -> Option<string>)

  ghost predicate Lossless(a: Armour) {
    forall s :: a.dec(a.enc(s)) == Some(s)
  }

  function Print(a: Armour, c: Cursor): string {
    a.enc(PrintInt(Wrap64(c.startedAt - UNIX_EPOCH)) + "|" + c.id)
  }

  /** Where a character first occurs, or the length. */
  function Find(s: string, c: char): (i: nat)
    ensures i <= |s| && (i < |s| ==> s[i] == c) && forall k :: 0 <= k < i ==> s[k] != c
  {
    if s == [] then 0
    else
      var i := Find(s[..|s| - 1], c);
      if i < |s| - 1 then i else if s[|s| - 1] == c then |s| - 1 else |s|
  }

  datatype Parsed = Good(cursor: Cursor) | BadToken

  function Parse(a: Armour, token: string): Parsed {
    var b := a.dec(token);
    if b.None? then BadToken
    else
      var i := Find(b.value, '|');
      if i == |b.value| || b.value[i + 1..] == "" then BadToken
      else
        var n := ParseInt(b.value[..i]);
        if n.None? then BadToken else Good(Cursor(UNIX_EPOCH + n.value, b.value[i + 1..]))
  }

  lemma FindSplits(s: string, t: string)
    requires forall i :: 0 <= i < |s| ==> s[i] != '|'
    ensures Find(s + "|" + t, '|') == |s|
    ensures (s + "|" + t)[..|s|] == s && (s + "|" + t)[|s| + 1..] == t
  {
    var all := s + "|" + t;
    assert all[|s|] == '|';
    assert forall k :: 0 <= k < |s| ==> all[k] == s[k];
  }

  lemma NumberHasNoBar(n: int)
    ensures forall i :: 0 <= i < |PrintInt(n)| ==> PrintInt(n)[i] != '|'
  {
    if n < 0 {
      assert PrintInt(n) == ['-'] + PrintNat(-n);
    }
  }

  /** A token parses back to its cursor exactly when the id is not empty and the
      instant is one an int64 of nanoseconds can hold, whatever bars the id
      contains. */
  lemma TokenRoundTrip(a: Armour, c: Cursor)
    requires Lossless(a)
    ensures Parse(a, Print(a, c)) == Good(c) <==> c.id != "" && IsInt64(c.startedAt - UNIX_EPOCH)
    ensures c.id == "" ==> Parse(a, Print(a, c)) == BadToken
  {
    hide PrintInt, ParseInt, Find, Wrap64;
    var n := Wrap64(c.startedAt - UNIX_EPOCH);
    NumberHasNoBar(n);
    FindSplits(PrintInt(n), c.id);
    IntRoundTrip(n);
    assert a.dec(a.enc(PrintInt(n) + "|" + c.id)) == Some(PrintInt(n) + "|" + c.id);
  }

  /** So distinct positions never share a token. */
  lemma TokensDistinct(a: Armour, c: Cursor, d: Cursor)
    requires Lossless(a) && c.id != "" && d.id != ""
    requires IsInt64(c.startedAt - UNIX_EPOCH) && IsInt64(d.startedAt - UNIX_EPOCH)
    requires Print(a, c) == Print(a, d)
    ensures c == d
  {
    TokenRoundTrip(a, c);
    TokenRoundTrip(a, d);
  }
}
