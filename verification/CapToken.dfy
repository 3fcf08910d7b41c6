/** Capability tokens: internal/captoken/captoken.go.  The key-id hash, the MAC
    and base64 are parameters. */
module CapToken {
  import opened Common
  import opened BigEndian

  const MIN_KEY_LEN := 32
  const KID_LEN := 4
  const MAC_LEN := 16
  const FIXED_LEN := 10

  type KeyId = s: seq<byte> | |s| == KID_LEN witness [0, 0, 0, 0]
  type Tag = s: seq<byte> | |s| == MAC_LEN witness [0, 0, 0, 0, 0, 0, 0, 0, 0, 0, 0, 0, 0, 0, 0, 0]

  /** mkKey's hash, the truncated HMAC of a secret and data, and base64url. */
  datatype Primitives = Primitives(
    kid: seq<byte> -> KeyId,
    mac: (seq<byte>, seq<byte>) -> Tag,
    enc: seq<byte> -> string,
    dec: string -> Option<seq<byte>>)

  ghost predicate Lossless(p: Primitives) {
    forall b :: p.dec(p.enc(b)) == Some(b)
  }

  datatype Claims = Claims(eventId: seq<byte>, media: byte, camera: seq<byte>, expires: Time)

  datatype Key = Key(id: KeyId, secret: seq<byte>)
  datatype Keyring = Keyring(current: Key, prior: Option<Key>)

  datatype Ring = Ring(ring: Keyring) | CurrentShort | PriorShort | SameKey

  function MakeKey(p: Primitives, secret: seq<byte>): Key {
    Key(p.kid(secret), secret)
  }

  /** The ring, or what is wrong with the keys.  An empty prior means none. */
  method New(p: Primitives, current: seq<byte>, prior: seq<byte>) returns (r: Ring)
    ensures r.Ring? <==>
            |current| >= MIN_KEY_LEN && (prior == [] || (|prior| >= MIN_KEY_LEN && p.kid(prior) != p.kid(current)))
    ensures r.Ring? ==> IsRing(p, r.ring) && r.ring.current.secret == current
    ensures r.Ring? ==> r.ring.prior == if prior == [] then None else Some(MakeKey(p, prior))
    ensures r.CurrentShort? <==> |current| < MIN_KEY_LEN
    ensures r.PriorShort? <==> |current| >= MIN_KEY_LEN && 0 < |prior| < MIN_KEY_LEN
  {
    if |current| < MIN_KEY_LEN {
      return CurrentShort;
    }
    var kr := Keyring(MakeKey(p, current), None);
    if |prior| > 0 {
      if |prior| < MIN_KEY_LEN {
        return PriorShort;
      }
      var k := MakeKey(p, prior);
      if k.id == kr.current.id {
        return SameKey;
      }
      kr := kr.(prior := Some(k));
    }
    r := Ring(kr);
  }

  /** The rings New makes. */
  ghost predicate IsRing(p: Primitives, kr: Keyring) {
    && kr.current == MakeKey(p, kr.current.secret)
    && |kr.current.secret| >= MIN_KEY_LEN
    && (kr.prior.Some? ==>
          && kr.prior.value == MakeKey(p, kr.prior.value.secret)
          && |kr.prior.value.secret| >= MIN_KEY_LEN
          && kr.prior.value.id != kr.current.id)
  }

  predicate Holds(kr: Keyring, k: Key) {
    kr.current == k || kr.prior == Some(k)
  }

  // ---- Whole seconds as an int64, and back. ----

  /** Time.Unix: the second, counted from the Unix epoch. */
  function UnixOf(t: Time): (n: int)
    ensures IsInt64(n)
  {
    Wrap64(t / SECOND - UNIX_EPOCH / SECOND)
  }

  /** time.Unix. */
  function OfUnix(n: int): Time {
    Wrap64(n + UNIX_EPOCH / SECOND) * SECOND
  }

  /** The uint64 of an int64, and the int64 of a uint64. */
  function Unsigned(n: int): (r: nat)
    requires IsInt64(n)
    ensures r < 0x1_0000_0000_0000_0000
  {
    if n < 0 then n + 0x1_0000_0000_0000_0000 else n
  }

  /** The instants a time.Time counts. */
  predicate IsTime(t: Time) {
    IsInt64(t / SECOND)
  }

  predicate WholeSecond(t: Time) {
    t % SECOND == 0
  }

  /** Rounded down to the second. */
  function Floor(t: Time): (r: Time)
    ensures WholeSecond(r) && r <= t < r + SECOND
  {
    t / SECOND * SECOND
  }

  lemma SecondsRoundTrip(t: Time)
    requires IsTime(t)
    ensures OfUnix(Wrap64(Unsigned(UnixOf(t)))) == Floor(t)
  {
    var s := t / SECOND;
    assert Wrap64(UnixOf(t) + UNIX_EPOCH / SECOND) == s;
  }

  lemma InstantRoundTrip(n: nat)
    requires n < 0x1_0000_0000_0000_0000
    ensures var t := OfUnix(Wrap64(n)); WholeSecond(t) && IsTime(t) && Unsigned(UnixOf(t)) == n
  {
    var s := Wrap64(Wrap64(n) + UNIX_EPOCH / SECOND);
    assert s * SECOND / SECOND == s && s * SECOND % SECOND == 0;
    assert Wrap64(s - UNIX_EPOCH / SECOND) == Wrap64(n);
  }

  // ---- Mint. ----

  /** The claims, as a token spells them. */
  function Fields(c: Claims): seq<byte>
    requires |c.camera| <= 255
  {
    Bytes(Unsigned(UnixOf(c.expires)), 8) + [c.media, |c.camera|] + c.camera + c.eventId
  }

  /** What is signed: the key's id and the claims. */
  function Signed(k: Key, c: Claims): seq<byte>
    requires |c.camera| <= 255
  {
    k.id + Fields(c)
  }

  /** The body of a token: what is signed and its tag. */
  function Layout(p: Primitives, k: Key, c: Claims): seq<byte>
    requires |c.camera| <= 255
  {
    Signed(k, c) + p.mac(k.secret, Signed(k, c))
  }

  /** What a token can say of claims: a camera too long to be real becomes the
      leading one, and the expiry is a whole second. */
  function Sayable(c: Claims): (r: Claims)
    ensures r == c <==> |c.camera| <= 255 && WholeSecond(c.expires)
  {
    c.(camera := if |c.camera| > 255 then [] else c.camera, expires := Floor(c.expires))
  }

  method Mint(p: Primitives, kr: Keyring, c: Claims) returns (token: string)
    ensures token == MintOf(p, kr, c)
  {
    var camera := if |c.camera| > 255 then [] else c.camera;
    var body: seq<byte> := kr.current.id;
    body := body + Bytes(Unsigned(UnixOf(c.expires)), 8);
    body := body + [c.media, |camera|];
    body := body + camera;
    body := body + c.eventId;
    body := body + p.mac(kr.current.secret, body);
    assert body == Layout(p, kr.current, Sayable(c)) by {
      assert body[..|body| - MAC_LEN] == Signed(kr.current, Sayable(c));
    }
    token := p.enc(body);
  }

  function MintOf(p: Primitives, kr: Keyring, c: Claims): string {
    p.enc(Layout(p, kr.current, Sayable(c)))
  }

  // ---- Verify. ----

  datatype Verdict = Accepted(claims: Claims) | Malformed | UnknownKey | BadMac | Expired(claims: Claims)

  function Lookup(kr: Keyring, id: seq<byte>): Option<Key> {
    if id == kr.current.id then Some(kr.current)
    else if kr.prior.Some? && id == kr.prior.value.id then kr.prior
    else None
  }

  function Verify(p: Primitives, kr: Keyring, token: string, now: Time): Verdict {
    var b := p.dec(token);
    if b.None? || |b.value| < KID_LEN + FIXED_LEN + 1 + MAC_LEN then Malformed
    else
      var body := b.value;
      var k := Lookup(kr, body[..KID_LEN]);
      if k.None? then UnknownKey
      else
        var signed, sig := body[..|body| - MAC_LEN], body[|body| - MAC_LEN..];
        if sig != p.mac(k.value.secret, signed) then BadMac
        else
          match ClaimsIn(signed[KID_LEN..])
          case None => Malformed
          case Some(c) => if now < c.expires then Accepted(c) else Expired(c)
  }

  /** The claims, once their signature is good. */
  function ClaimsIn(s: seq<byte>): Option<Claims>
    requires |s| > FIXED_LEN
  {
    var camLen := s[9];
    if |s| < FIXED_LEN + camLen + 1 then None
    else Some(Claims(s[FIXED_LEN + camLen..], s[8], s[FIXED_LEN..FIXED_LEN + camLen], OfUnix(Wrap64(Number(s[..8])))))
  }

  /** Claims that a token states as they are. */
  predicate Plain(c: Claims) {
    c.eventId != [] && |c.camera| <= 255 && WholeSecond(c.expires) && IsTime(c.expires)
  }

  lemma FieldsParts(c: Claims)
    requires |c.camera| <= 255
    ensures var s := Fields(c);
            && |s| == FIXED_LEN + |c.camera| + |c.eventId| && s[..8] == Bytes(Unsigned(UnixOf(c.expires)), 8)
            && s[8] == c.media && s[9] == |c.camera|
            && s[FIXED_LEN..FIXED_LEN + |c.camera|] == c.camera && s[FIXED_LEN + |c.camera|..] == c.eventId
  {
    hide Bytes, UnixOf, Unsigned;
  }

  /** Reading back what was written, and whatever is read was written: for bytes
      long enough to be looked at. */
  lemma FieldsRead(c: Claims)
    requires |c.camera| <= 255 && WholeSecond(c.expires) && IsTime(c.expires) && |Fields(c)| > FIXED_LEN
    ensures ClaimsIn(Fields(c)) == if c.eventId == [] then None else Some(c)
  {
    hide Bytes, Number, UnixOf, Unsigned, OfUnix, Fields;
    FieldsParts(c);
    Pow256Values();
    NumberOfBytes(Unsigned(UnixOf(c.expires)), 8);
    SecondsRoundTrip(c.expires);
  }

  lemma FieldsWritten(s: seq<byte>)
    requires |s| > FIXED_LEN && ClaimsIn(s).Some?
    ensures Plain(ClaimsIn(s).value) && Fields(ClaimsIn(s).value) == s
  {
    hide Bytes, Number, UnixOf, Unsigned, OfUnix, Fields;
    var c := ClaimsIn(s).value;
    Pow256Values();
    BytesOfNumber(s[..8]);
    InstantRoundTrip(Number(s[..8]));
    FieldsParts(c);
    assert |c.camera| == s[9];
    assert s == s[..8] + [s[8], s[9]] + s[FIXED_LEN..FIXED_LEN + |c.camera|] + s[FIXED_LEN + |c.camera|..];
    var t := Fields(c);
    assert t == t[..8] + [s[8], s[9]] + t[FIXED_LEN..FIXED_LEN + |c.camera|] + t[FIXED_LEN + |c.camera|..];
  }

  /** A verdict on the body a key signed, by a ring that holds that key. */
  lemma LayoutVerifies(p: Primitives, kr: Keyring, token: string, now: Time, k: Key, c: Claims)
    requires IsRing(p, kr) && Holds(kr, k) && |c.camera| <= 255 && WholeSecond(c.expires) && IsTime(c.expires)
    requires p.dec(token) == Some(Layout(p, k, c))
    ensures Verify(p, kr, token, now) ==
            if c.eventId == [] then Malformed else if now < c.expires then Accepted(c) else Expired(c)
  {
    hide Fields, ClaimsIn, IsTime, WholeSecond;
    var body := Layout(p, k, c);
    var signed := body[..|body| - MAC_LEN];
    FieldsParts(c);
    assert signed == Signed(k, c);
    assert body[|body| - MAC_LEN..] == p.mac(k.secret, Signed(k, c));
    assert body[..KID_LEN] == k.id && signed[KID_LEN..] == Fields(c);
    if |Fields(c)| > FIXED_LEN {
      FieldsRead(c);
    }
  }

  /** What every ring that holds the minting key, as current or as prior, makes of
      a minted token: before its expiry, exactly the claims it was minted for (as
      far as a token can say them), and never anything if the event id is empty. */
  lemma MintedVerifies(p: Primitives, minter: Keyring, kr: Keyring, c: Claims, now: Time)
    requires Lossless(p) && IsRing(p, kr) && Holds(kr, minter.current) && IsTime(c.expires)
    ensures Verify(p, kr, MintOf(p, minter, c), now) ==
            if c.eventId == [] then Malformed
            else if now < Floor(c.expires) then Accepted(Sayable(c)) else Expired(Sayable(c))
  {
    assert IsTime(Floor(c.expires)) by {
      assert Floor(c.expires) / SECOND == c.expires / SECOND;
    }
    var body := Layout(p, minter.current, Sayable(c));
    assert p.dec(p.enc(body)) == Some(body);
    LayoutVerifies(p, kr, MintOf(p, minter, c), now, minter.current, Sayable(c));
  }

  /** So a token comes back as the claims it was minted for exactly when these have
      an event, a camera of at most 255 bytes, a whole second and time left. */
  lemma ExactlyTheClaimsIff(p: Primitives, minter: Keyring, kr: Keyring, c: Claims, now: Time)
    requires Lossless(p) && IsRing(p, kr) && Holds(kr, minter.current) && IsTime(c.expires)
    ensures Verify(p, kr, MintOf(p, minter, c), now) == Accepted(c) <==> Plain(c) && now < c.expires
  {
    MintedVerifies(p, minter, kr, c, now);
  }

  /** A ring with neither the key nor another of the same id turns the token away. */
  lemma RetiredKeyIsUnknown(p: Primitives, minter: Keyring, kr: Keyring, c: Claims, now: Time)
    requires Lossless(p) && c.eventId != []
    requires kr.current.id != minter.current.id && (kr.prior.Some? ==> kr.prior.value.id != minter.current.id)
    ensures Verify(p, kr, MintOf(p, minter, c), now) == UnknownKey
  {
    hide Fields;
    var body := Layout(p, minter.current, Sayable(c));
    assert p.dec(p.enc(body)) == Some(body);
    FieldsParts(Sayable(c));
    assert body[..KID_LEN] == minter.current.id;
  }

  /** Whatever a ring accepts is, byte for byte, what Mint lays out for the returned
      claims under the ring's key that the token names; and all of that is accepted. */
  lemma AcceptedIffMinted(p: Primitives, kr: Keyring, token: string, now: Time, c: Claims)
    requires IsRing(p, kr)
    ensures Verify(p, kr, token, now) == Accepted(c) <==>
            Plain(c) && now < c.expires && exists k :: Holds(kr, k) && p.dec(token) == Some(Layout(p, k, c))
  {
    if Verify(p, kr, token, now) == Accepted(c) {
      BodyWasLaidOut(p, kr, token, now, c);
    }
    if Plain(c) && now < c.expires {
      forall k | Holds(kr, k) && p.dec(token) == Some(Layout(p, k, c))
        ensures Verify(p, kr, token, now) == Accepted(c)
      {
        LayoutVerifies(p, kr, token, now, k, c);
      }
    }
  }

  lemma BodyWasLaidOut(p: Primitives, kr: Keyring, token: string, now: Time, c: Claims)
    requires Verify(p, kr, token, now) in {Accepted(c), Expired(c)}
    ensures Plain(c) && exists k :: Holds(kr, k) && p.dec(token) == Some(Layout(p, k, c))
  {
    hide Fields, ClaimsIn, IsTime, WholeSecond;
    var body := p.dec(token).value;
    var k := Lookup(kr, body[..KID_LEN]).value;
    var signed := body[..|body| - MAC_LEN];
    FieldsWritten(signed[KID_LEN..]);
    assert signed[..KID_LEN] == body[..KID_LEN];
    assert signed == k.id + Fields(c);
    assert body == signed + body[|body| - MAC_LEN..];
    assert Holds(kr, k) && p.dec(token) == Some(Layout(p, k, c));
  }

  // ---- The body, byte by byte. ----

  /** Four bytes of key id, eight of expiry, one of media, one of camera length, the
      camera, the event, and sixteen of tag over every byte before them. */
  ghost predicate Spells(p: Primitives, k: Key, c: Claims, body: seq<byte>) {
    var n, end := |c.camera|, |body| - 16;
    && |body| == 30 + n + |c.eventId|
    && body[..4] == k.id
    && Number(body[4..12]) == (c.expires / SECOND - UNIX_EPOCH / SECOND) % 0x1_0000_0000_0000_0000
    && body[12] == c.media && body[13] == n
    && body[14..14 + n] == c.camera && body[14 + n..end] == c.eventId
    && body[end..] == p.mac(k.secret, body[..end])
  }

  lemma UnixIsModular(t: Time)
    ensures Unsigned(UnixOf(t)) == (t / SECOND - UNIX_EPOCH / SECOND) % 0x1_0000_0000_0000_0000
  {
  }

  lemma LayoutSpells(p: Primitives, k: Key, c: Claims)
    requires |c.camera| <= 255
    ensures Spells(p, k, c, Layout(p, k, c))
  {
    hide Bytes, Number, UnixOf, Unsigned, Fields;
    var body, s := Layout(p, k, c), Fields(c);
    FieldsParts(c);
    UnixIsModular(c.expires);
    Pow256Values();
    NumberOfBytes(Unsigned(UnixOf(c.expires)), 8);
    var n, end := |c.camera|, |body| - 16;
    assert body[..end] == Signed(k, c);
    assert body[..4] == k.id && body[4..end] == s;
    Slices(body, 4, end, 0, 8);
    Slices(body, 4, end, 10, 10 + n);
    Slices(body, 4, end, 10 + n, |s|);
    assert s[10 + n..] == s[10 + n..|s|];
    assert body[12] == s[8] && body[13] == s[9];
    assert body[end..] == p.mac(k.secret, Signed(k, c));
  }

  lemma Slices(b: seq<byte>, lo: nat, hi: nat, i: nat, j: nat)
    requires lo <= hi <= |b| && i <= j <= hi - lo
    ensures b[lo..hi][i..j] == b[lo + i..lo + j]
  {
    forall m | 0 <= m < j - i ensures b[lo..hi][i..j][m] == b[lo + i..lo + j][m] {
    }
  }

  lemma SpelledIsLayout(p: Primitives, k: Key, c: Claims, body: seq<byte>)
    requires |c.camera| <= 255 && Spells(p, k, c, body)
    ensures body == Layout(p, k, c)
  {
    hide Bytes, Number, UnixOf, Unsigned;
    var n, end := |c.camera|, |body| - 16;
    UnixIsModular(c.expires);
    Pow256Values();
    BytesOfNumber(body[4..12]);
    assert body[4..end] == body[4..12] + [body[12], body[13]] + body[14..14 + n] + body[14 + n..end];
    assert body[4..end] == Fields(c);
    assert body[..end] == body[..4] + body[4..end];
    assert body == body[..end] + body[end..];
  }

  /** A token is accepted as these claims exactly when they have an event, a camera of
      at most 255 bytes, a whole second and time left, and its body spells them and
      is tagged under one of the ring's keys. */
  lemma AcceptedIffSpelled(p: Primitives, kr: Keyring, token: string, now: Time, c: Claims)
    requires IsRing(p, kr)
    ensures Verify(p, kr, token, now) == Accepted(c) <==>
            && Plain(c) && now < c.expires && p.dec(token).Some?
            && exists k :: Holds(kr, k) && Spells(p, k, c, p.dec(token).value)
  {
    hide Spells, Layout, Verify;
    AcceptedIffMinted(p, kr, token, now, c);
    if p.dec(token).Some? && |c.camera| <= 255 {
      var body := p.dec(token).value;
      forall k: Key ensures Spells(p, k, c, body) <==> body == Layout(p, k, c) {
        LayoutSpells(p, k, c);
        if Spells(p, k, c, body) {
          SpelledIsLayout(p, k, c, body);
        }
      }
    }
  }

  /** Mint spells the claims it is given, with the ring's current key: no camera if
      it is too long, and the expiry rounded down to its second. */
  lemma MintSpells(p: Primitives, kr: Keyring, c: Claims)
    requires Lossless(p)
    ensures var camera := if |c.camera| <= 255 then c.camera else [];
            && p.dec(MintOf(p, kr, c)).Some?
            && Spells(p, kr.current, c.(camera := camera, expires := c.expires / SECOND * SECOND),
                      p.dec(MintOf(p, kr, c)).value)
  {
    hide Spells, Layout;
    LayoutSpells(p, kr.current, Sayable(c));
    assert p.dec(p.enc(Layout(p, kr.current, Sayable(c)))).Some?;
  }
}
