/** Passkey registration and the stored key: internal/webauthn/webauthn.go, from
    the attestation object on.  SHA-256 of the relying party's id arrives as
    `rpHash` and the P-256 curve equation as `onCurve`. */
module Cose {
  import opened Common
  import opened BigEndian
  import opened Cbor
  import opened CborWire

  const ES256 := -7
  const RS256 := -257

  datatype PublicKey = EC2(x: nat, y: nat) | RSA(modulus: nat, exponent: nat)

  datatype Fault =
    | NotCbor | NotAMap | BadShape | OffCurve | SmallExponent | UnsupportedKey
    | NoAuthData | AuthDataShort | WrongParty | NotPresent | NotVerified | NotAttested | CredentialShort | BadIdLength

  datatype Result<+T> = Good(value: T) | Bad(fault: Fault)

  /** A parsed key: its algorithm, the key, how many bytes it spanned. */
  datatype Parsed = Parsed(alg: int, key: PublicKey, span: nat)

  // A missing or mistyped entry reads as the zero value.

  function IntAt(m: map<MapKey, Value>, k: MapKey): int {
    if k in m && m[k].IntV? then m[k].i else 0
  }

  function BytesAt(m: map<MapKey, Value>, k: MapKey): seq<byte> {
    if k in m && m[k].BytesV? then m[k].b else []
  }

  function ParseMap(onCurve: (nat, nat) -> bool, m: map<MapKey, Value>, span: nat): (r: Result<Parsed>)
    ensures r.Good? ==> r.value.span == span
  {
    var kty, alg := IntAt(m, IntKey(1)), IntAt(m, IntKey(3));
    if kty == 2 && alg == ES256 then
      var crv, x, y := IntAt(m, IntKey(-1)), BytesAt(m, IntKey(-2)), BytesAt(m, IntKey(-3));
      if crv != 1 || |x| != 32 || |y| != 32 then Bad(BadShape)
      else if !onCurve(Number(x), Number(y)) then Bad(OffCurve)
      else Good(Parsed(alg, EC2(Number(x), Number(y)), span))
    else if kty == 3 && alg == RS256 then
      var mod, e := BytesAt(m, IntKey(-1)), BytesAt(m, IntKey(-2));
      if |mod| < 256 || |e| == 0 || |e| > 4 then Bad(BadShape)
      else if Number(e) < 3 then Bad(SmallExponent)
      else Good(Parsed(alg, RSA(Number(mod), Number(e)), span))
    else Bad(UnsupportedKey)
  }

  function Parse(onCurve: (nat, nat) -> bool, b: seq<byte>): (r: Result<Parsed>)
    ensures r.Good? ==> 0 < r.value.span <= |b|
  {
    match DecodePrefix(b)
    case None => Bad(NotCbor)
    case Some((v, n)) => if v.MapV? then ParseMap(onCurve, v.entries, n) else Bad(NotAMap)
  }

  method ParseCoseKey(onCurve: (nat, nat) -> bool, b: seq<byte>) returns (r: Result<Parsed>)
    ensures r == Parse(onCurve, b)
  {
    var reader := new CborReader(b);
    var v := reader.ReadValue(0);
    if v.None? {
      return Bad(NotCbor);
    }
    if !v.value.MapV? {
      return Bad(NotAMap);
    }
    r := ParseEntries(onCurve, v.value.entries, reader.pos);
  }

  method ParseEntries(onCurve: (nat, nat) -> bool, m: map<MapKey, Value>, span: nat) returns (r: Result<Parsed>)
    ensures r == ParseMap(onCurve, m, span)
  {
    var kty, alg := IntAt(m, IntKey(1)), IntAt(m, IntKey(3));
    if kty == 2 && alg == ES256 {
      var crv, x, y := IntAt(m, IntKey(-1)), BytesAt(m, IntKey(-2)), BytesAt(m, IntKey(-3));
      if crv != 1 || |x| != 32 || |y| != 32 {
        return Bad(BadShape);
      }
      if !onCurve(Number(x), Number(y)) {
        return Bad(OffCurve);
      }
      return Good(Parsed(alg, EC2(Number(x), Number(y)), span));
    }
    if kty == 3 && alg == RS256 {
      var mod, e := BytesAt(m, IntKey(-1)), BytesAt(m, IntKey(-2));
      if |mod| < 256 || |e| == 0 || |e| > 4 {
        return Bad(BadShape);
      }
      var exp := ReadNumber(e);
      if exp < 3 {
        return Bad(SmallExponent);
      }
      return Good(Parsed(alg, RSA(Number(mod), exp), span));
    }
    r := Bad(UnsupportedKey);
  }

  /** What a key map must say for a key to be taken from it (sections 7.1 and
      13.1.1 of RFC 8152, section 4 of RFC 8230). */
  ghost predicate Describes(onCurve: (nat, nat) -> bool, m: map<MapKey, Value>, alg: int, key: PublicKey) {
    match key
    case EC2(x, y) =>
      alg == ES256 && x < Pow256(32) && y < Pow256(32) && onCurve(x, y) &&
      Says(m, 1, IntV(2)) && Says(m, 3, IntV(ES256)) && Says(m, -1, IntV(1)) &&
      Says(m, -2, BytesV(Bytes(x, 32))) && Says(m, -3, BytesV(Bytes(y, 32)))
    case RSA(modulus, exponent) =>
      alg == RS256 && exponent >= 3 &&
      Says(m, 1, IntV(3)) && Says(m, 3, IntV(RS256)) &&
      (exists width :: width >= 256 && modulus < Pow256(width) && Says(m, -1, BytesV(Bytes(modulus, width)))) &&
      (exists width :: 1 <= width <= 4 && exponent < Pow256(width) && Says(m, -2, BytesV(Bytes(exponent, width))))
  }

  predicate Says(m: map<MapKey, Value>, k: int, v: Value) {
    IntKey(k) in m && m[IntKey(k)] == v
  }

  lemma EC2Iff(onCurve: (nat, nat) -> bool, m: map<MapKey, Value>, span: nat, x: nat, y: nat, alg: int)
    ensures ParseMap(onCurve, m, span) == Good(Parsed(alg, EC2(x, y), span)) <==> Describes(onCurve, m, alg, EC2(x, y))
  {
    hide Bytes, Number, Pow256;
    if ParseMap(onCurve, m, span) == Good(Parsed(alg, EC2(x, y), span)) {
      BytesOfNumber(BytesAt(m, IntKey(-2)));
      BytesOfNumber(BytesAt(m, IntKey(-3)));
    }
    if Describes(onCurve, m, alg, EC2(x, y)) {
      NumberOfBytes(x, 32);
      NumberOfBytes(y, 32);
    }
  }

  lemma RSAIff(onCurve: (nat, nat) -> bool, m: map<MapKey, Value>, span: nat, n: nat, e: nat, alg: int)
    ensures ParseMap(onCurve, m, span) == Good(Parsed(alg, RSA(n, e), span)) <==> Describes(onCurve, m, alg, RSA(n, e))
  {
    hide Bytes, Number, Pow256;
    if ParseMap(onCurve, m, span) == Good(Parsed(alg, RSA(n, e), span)) {
      var mod, exp := BytesAt(m, IntKey(-1)), BytesAt(m, IntKey(-2));
      BytesOfNumber(mod);
      BytesOfNumber(exp);
      assert Says(m, -1, BytesV(Bytes(n, |mod|)));
      assert Says(m, -2, BytesV(Bytes(e, |exp|)));
    }
    if Describes(onCurve, m, alg, RSA(n, e)) {
      var width :| width >= 256 && n < Pow256(width) && Says(m, -1, BytesV(Bytes(n, width)));
      NumberOfBytes(n, width);
      var width' :| 1 <= width' <= 4 && e < Pow256(width') && Says(m, -2, BytesV(Bytes(e, width')));
      NumberOfBytes(e, width');
    }
  }

  /** s is a COSE key of this algorithm and key. */
  ghost predicate IsCoseKey(onCurve: (nat, nat) -> bool, s: seq<byte>, alg: int, key: PublicKey) {
    exists m :: Encodes(s, MapV(m)) && Describes(onCurve, m, alg, key)
  }

  /** A key is parsed exactly when the bytes begin with a map that describes it,
      and its span is exactly that map's encoding. */
  lemma ParsesIffCoseKey(onCurve: (nat, nat) -> bool, b: seq<byte>, p: Parsed)
    ensures Parse(onCurve, b) == Good(p) <==> p.span <= |b| && IsCoseKey(onCurve, b[..p.span], p.alg, p.key)
  {
    hide Encodes, ValueAt;
    if Parse(onCurve, b) == Good(p) {
      var (v, n) := DecodePrefix(b).value;
      PrefixReadIffWritten(b, v, n);
      DescribesIff(onCurve, v.entries, p);
    }
    if p.span <= |b| && IsCoseKey(onCurve, b[..p.span], p.alg, p.key) {
      var m :| Encodes(b[..p.span], MapV(m)) && Describes(onCurve, m, p.alg, p.key);
      PrefixReadIffWritten(b, MapV(m), p.span);
      DescribesIff(onCurve, m, p);
    }
  }

  lemma DescribesIff(onCurve: (nat, nat) -> bool, m: map<MapKey, Value>, p: Parsed)
    ensures ParseMap(onCurve, m, p.span) == Good(p) <==> Describes(onCurve, m, p.alg, p.key)
  {
    match p.key
    case EC2(x, y) => EC2Iff(onCurve, m, p.span, x, y, p.alg);
    case RSA(n, e) => RSAIff(onCurve, m, p.span, n, e, p.alg);
  }

  // ---- Registration. ----

  datatype Credential = Credential(id: seq<byte>, alg: int, key: PublicKey, cose: seq<byte>, signCount: nat)

  /** The bytes of "authData". */
  const AUTH_DATA: seq<byte> := [97, 117, 116, 104, 68, 97, 116, 97]

  predicate UserPresent(flags: byte) { flags % 2 == 1 }
  predicate UserVerified(flags: byte) { flags / 4 % 2 == 1 }
  predicate Attested(flags: byte) { flags / 64 % 2 == 1 }

  /** What VerifyRegistration does with the attestation object. */
  function Register(onCurve: (nat, nat) -> bool, rpHash: seq<byte>, attestation: seq<byte>): Result<Credential> {
    match Decode(attestation)
    case None => Bad(NotCbor)
    case Some(v) =>
      if !v.MapV? then Bad(NotAMap)
      else if TextKey(AUTH_DATA) !in v.entries || !v.entries[TextKey(AUTH_DATA)].BytesV? then Bad(NoAuthData)
      else RegisterData(onCurve, rpHash, v.entries[TextKey(AUTH_DATA)].b)
  }

  function RegisterData(onCurve: (nat, nat) -> bool, rpHash: seq<byte>, a: seq<byte>): Result<Credential> {
    if |a| < 37 then Bad(AuthDataShort)
    else if a[..32] != rpHash then Bad(WrongParty)
    else if !UserPresent(a[32]) then Bad(NotPresent)
    else if !UserVerified(a[32]) then Bad(NotVerified)
    else if !Attested(a[32]) then Bad(NotAttested)
    else
      var rest := a[37..];
      if |rest| < 18 then Bad(CredentialShort)
      else
        var idLen := Number(rest[16..18]);
        if idLen == 0 || idLen > 1023 || |rest| < 18 + idLen then Bad(BadIdLength)
        else
          var raw := rest[18 + idLen..];
          match Parse(onCurve, raw)
          case Bad(fault) => Bad(fault)
          case Good(p) =>
            Good(Credential(rest[18..18 + idLen], p.alg, p.key, raw[..p.span], Number(a[33..37])))
  }

  /** Authenticator data with an attested credential, as section 6.5.1 of WebAuthn
      Level 2 lays it out; extensions may follow the key. */
  function Layout(rpHash: seq<byte>, flags: byte, count: nat, aaguid: seq<byte>, id: seq<byte>, cose: seq<byte>,
                  more: seq<byte>): seq<byte>
  {
    rpHash + [flags] + Bytes(count, 4) + aaguid + Bytes(|id|, 2) + id + cose + more
  }

  /** The authenticator data a credential may come from. */
  ghost predicate Offers(onCurve: (nat, nat) -> bool, rpHash: seq<byte>, a: seq<byte>, c: Credential,
                         flags: byte, aaguid: seq<byte>, more: seq<byte>)
  {
    && a == Layout(rpHash, flags, c.signCount, aaguid, c.id, c.cose, more)
    && |rpHash| == 32 && |aaguid| == 16 && 1 <= |c.id| <= 1023 && c.signCount < Pow256(4)
    && UserPresent(flags) && UserVerified(flags) && Attested(flags)
    && IsCoseKey(onCurve, c.cose, c.alg, c.key)
  }

  lemma LayoutParts(rpHash: seq<byte>, flags: byte, count: nat, aaguid: seq<byte>, id: seq<byte>, cose: seq<byte>,
                    more: seq<byte>)
    requires |rpHash| == 32 && |aaguid| == 16
    ensures var a := Layout(rpHash, flags, count, aaguid, id, cose, more);
            && |a| == 55 + |id| + |cose| + |more| && a[..32] == rpHash && a[32] == flags && a[33..37] == Bytes(count, 4)
            && a[53..55] == Bytes(|id|, 2) && a[55..55 + |id|] == id && a[55 + |id|..] == cose + more
  {
    hide Bytes;
    var a := Layout(rpHash, flags, count, aaguid, id, cose, more);
    assert a[55 + |id|..] == cose + more;
  }

  lemma LayoutOfParts(a: seq<byte>, idLen: nat, span: nat)
    requires 55 + idLen + span <= |a| && Number(a[53..55]) == idLen
    ensures a == Layout(a[..32], a[32], Number(a[33..37]), a[37..53], a[55..55 + idLen], a[55 + idLen..][..span],
                        a[55 + idLen..][span..])
  {
    hide Bytes, Number;
    BytesOfNumber(a[33..37]);
    BytesOfNumber(a[53..55]);
    var raw := a[55 + idLen..];
    var l := a[..32] + [a[32]] + a[33..37] + a[37..53] + a[53..55] + a[55..55 + idLen] + raw[..span] + raw[span..];
    assert |l| == |a|;
    assert forall i :: 0 <= i < |a| ==> l[i] == a[i];
  }

  /** The same checks and slices, by position in the whole. */
  lemma RegisterSlices(onCurve: (nat, nat) -> bool, rpHash: seq<byte>, a: seq<byte>, c: Credential)
    ensures RegisterData(onCurve, rpHash, a) == Good(c) <==>
            && |a| >= 55 && a[..32] == rpHash && UserPresent(a[32]) && UserVerified(a[32]) && Attested(a[32])
            && c.signCount == Number(a[33..37])
            && var n := Number(a[53..55]);
            && 1 <= n <= 1023 && 55 + n <= |a| && c.id == a[55..55 + n]
            && var r := Parse(onCurve, a[55 + n..]);
            && r.Good? && r.value.alg == c.alg && r.value.key == c.key && c.cose == a[55 + n..][..r.value.span]
  {
    hide Number, Parse;
    if |a| >= 55 {
      assert a[37..][16..18] == a[53..55];
      var n := Number(a[53..55]);
      if n <= 1023 && 55 + n <= |a| {
        assert a[37..][18..18 + n] == a[55..55 + n] && a[37..][18 + n..] == a[55 + n..];
      }
    }
  }

  /** Authenticator data registers a credential exactly when it is laid out around
      it: nothing but that layout is accepted, and every such layout is. */
  lemma DataRegistersIff(onCurve: (nat, nat) -> bool, rpHash: seq<byte>, a: seq<byte>, c: Credential)
    requires |rpHash| == 32
    ensures RegisterData(onCurve, rpHash, a) == Good(c) <==>
            exists flags, aaguid, more :: Offers(onCurve, rpHash, a, c, flags, aaguid, more)
  {
    if RegisterData(onCurve, rpHash, a) == Good(c) {
      RegisteredIsOffered(onCurve, rpHash, a, c);
    }
    if flags, aaguid, more :| Offers(onCurve, rpHash, a, c, flags, aaguid, more) {
      OfferedIsRegistered(onCurve, rpHash, a, c, flags, aaguid, more);
    }
  }

  lemma RegisteredIsOffered(onCurve: (nat, nat) -> bool, rpHash: seq<byte>, a: seq<byte>, c: Credential)
    requires |rpHash| == 32 && RegisterData(onCurve, rpHash, a) == Good(c)
    ensures exists flags, aaguid, more :: Offers(onCurve, rpHash, a, c, flags, aaguid, more)
  {
    hide Number, Parse, RegisterData, IsCoseKey, Layout, UserPresent, UserVerified, Attested;
    RegisterSlices(onCurve, rpHash, a, c);
    var n := Number(a[53..55]);
    var p := Parse(onCurve, a[55 + n..]).value;
    LayoutOfParts(a, n, p.span);
    BytesOfNumber(a[33..37]);
    ParsesIffCoseKey(onCurve, a[55 + n..], p);
    assert Offers(onCurve, rpHash, a, c, a[32], a[37..53], a[55 + n..][p.span..]);
  }

  lemma OfferedIsRegistered(onCurve: (nat, nat) -> bool, rpHash: seq<byte>, a: seq<byte>, c: Credential,
                            flags: byte, aaguid: seq<byte>, more: seq<byte>)
    requires Offers(onCurve, rpHash, a, c, flags, aaguid, more)
    ensures RegisterData(onCurve, rpHash, a) == Good(c)
  {
    hide Number, Parse, RegisterData, IsCoseKey, Layout, UserPresent, UserVerified, Attested;
    LayoutParts(rpHash, flags, c.signCount, aaguid, c.id, c.cose, more);
    Pow256Values();
    NumberOfBytes(|c.id|, 2);
    NumberOfBytes(c.signCount, 4);
    var raw := a[55 + |c.id|..];
    assert raw[..|c.cose|] == c.cose;
    ParsesIffCoseKey(onCurve, raw, Parsed(c.alg, c.key, |c.cose|));
    RegisterSlices(onCurve, rpHash, a, c);
  }

  /** An attestation object: one encoded map holding authenticator data a. */
  ghost predicate Attests(attestation: seq<byte>, a: seq<byte>) {
    exists m :: Encodes(attestation, MapV(m)) && TextKey(AUTH_DATA) in m && m[TextKey(AUTH_DATA)] == BytesV(a)
  }

  /** A credential is registered exactly when the attestation object is one
      encoded map holding authenticator data laid out around the credential. */
  lemma RegistersIff(onCurve: (nat, nat) -> bool, rpHash: seq<byte>, attestation: seq<byte>, c: Credential)
    requires |rpHash| == 32
    ensures Register(onCurve, rpHash, attestation) == Good(c) <==>
            exists a, flags, aaguid, more ::
              Attests(attestation, a) && Offers(onCurve, rpHash, a, c, flags, aaguid, more)
  {
    hide Encodes, Decode, RegisterData, Offers;
    if Register(onCurve, rpHash, attestation) == Good(c) {
      var v := Decode(attestation).value;
      ReadIffWritten(attestation, v);
      var a := v.entries[TextKey(AUTH_DATA)].b;
      DataRegistersIff(onCurve, rpHash, a, c);
      assert Encodes(attestation, MapV(v.entries)) && Attests(attestation, a);
    }
    if a, flags, aaguid, more :| Attests(attestation, a) && Offers(onCurve, rpHash, a, c, flags, aaguid, more) {
      var m :| Encodes(attestation, MapV(m)) && TextKey(AUTH_DATA) in m && m[TextKey(AUTH_DATA)] == BytesV(a);
      ReadIffWritten(attestation, MapV(m));
      DataRegistersIff(onCurve, rpHash, a, c);
    }
  }

  /** ParseCOSEKey is the way back: the bytes a registered credential stores, alone
      or followed by anything, parse to the credential's own algorithm and key. */
  lemma StoredKeyReparses(onCurve: (nat, nat) -> bool, rpHash: seq<byte>, attestation: seq<byte>, c: Credential,
                          suffix: seq<byte>)
    requires |rpHash| == 32 && Register(onCurve, rpHash, attestation) == Good(c)
    ensures Parse(onCurve, c.cose + suffix) == Good(Parsed(c.alg, c.key, |c.cose|))
    ensures Parse(onCurve, c.cose) == Good(Parsed(c.alg, c.key, |c.cose|))
  {
    hide Encodes, Decode, RegisterData, IsCoseKey;
    RegistersIff(onCurve, rpHash, attestation, c);
    var p := Parsed(c.alg, c.key, |c.cose|);
    assert (c.cose + suffix)[..p.span] == c.cose && c.cose[..p.span] == c.cose;
    ParsesIffCoseKey(onCurve, c.cose + suffix, p);
    ParsesIffCoseKey(onCurve, c.cose, p);
  }
}
