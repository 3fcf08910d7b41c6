/** What the reader of internal/webauthn/cbor.go accepts: the encodings of
    section 3 of RFC 8949, written down as a tree of items with the width each
    header was given, and a printer of such trees that shares nothing with the
    reader. */
module CborWire {
  import opened Common
  import opened BigEndian
  import opened Cbor

  /** An encoded item.  `width` is how many argument bytes its header spends:
      0, 1, 2, 4 or 8. */
  datatype Wire =
    | WInt(negative: bool, width: nat, arg: nat)
    | WString(isText: bool, width: nat, s: seq<byte>)
    | WArray(width: nat, items: Items)
    | WMap(width: nat, pairs: Pairs)

  /** Items one after another, and pairs. */
  datatype Items = NoItems | Item(before: Items, last: Wire)
  datatype Pairs = NoPairs | Pair(before: Pairs, key: Wire, value: Wire)

  function Len(items: Items): nat {
    match items case NoItems => 0 case Item(before, _) => Len(before) + 1
  }

  function LenPairs(pairs: Pairs): nat {
    match pairs case NoPairs => 0 case Pair(before, _, _) => LenPairs(before) + 1
  }

  /** An argument can be written in a header of this width. */
  predicate Fits(width: nat, arg: nat) {
    if width == 0 then arg < 24 else width in {1, 2, 4, 8} && arg < Pow256(width)
  }

  /** A header; its argument is meant to fit its width. */
  function HeadBytes(major: nat, width: nat, arg: nat): (s: seq<byte>)
    requires major < 8
    ensures |s| == 1 + width
  {
    var info := if width == 0 then arg % 24
                else if width == 1 then 24
                else if width == 2 then 25
                else if width == 4 then 26
                else 27;
    [32 * major + info] + Bytes(arg, width)
  }

  /** The items the reader supports at a nesting depth. */
  predicate Supported(w: Wire, depth: nat) {
    depth <= MAX_DEPTH &&
    match w
    case WInt(negative, width, arg) => Fits(width, arg) && arg <= (if negative then MAX_INT64 - 1 else MAX_INT64)
    case WString(_, width, s) => Fits(width, |s|)
    case WArray(width, items) => Fits(width, Len(items)) && Len(items) <= MAX_ITEMS && AllSupported(items, depth + 1)
    case WMap(width, pairs) =>
      Fits(width, LenPairs(pairs)) && LenPairs(pairs) <= MAX_ITEMS && PairsSupported(pairs, depth + 1)
  }

  predicate AllSupported(items: Items, depth: nat) {
    match items
    case NoItems => true
    case Item(before, last) => AllSupported(before, depth) && Supported(last, depth)
  }

  predicate PairsSupported(pairs: Pairs, depth: nat) {
    match pairs
    case NoPairs => true
    case Pair(before, key, value) =>
      PairsSupported(before, depth) && IsKey(key) && Supported(key, depth) && Supported(value, depth)
  }

  /** Map keys are integers or text. */
  predicate IsKey(w: Wire) {
    w.WInt? || (w.WString? && w.isText)
  }

  function Serialize(w: Wire): seq<byte> {
    match w
    case WInt(negative, width, arg) => HeadBytes(if negative then 1 else 0, width, arg)
    case WString(isText, width, s) => HeadBytes(if isText then 3 else 2, width, |s|) + s
    case WArray(width, items) => HeadBytes(4, width, Len(items)) + SerializeAll(items)
    case WMap(width, pairs) => HeadBytes(5, width, LenPairs(pairs)) + SerializePairs(pairs)
  }

  function SerializeAll(items: Items): seq<byte> {
    match items
    case NoItems => []
    case Item(before, last) => SerializeAll(before) + Serialize(last)
  }

  function SerializePairs(pairs: Pairs): seq<byte> {
    match pairs
    case NoPairs => []
    case Pair(before, key, value) => SerializePairs(before) + Serialize(key) + Serialize(value)
  }

  /** The value an encoding stands for; a repeated key keeps its last value. */
  function Meaning(w: Wire): Value {
    match w
    case WInt(negative, _, arg) => IntV(if negative then -1 - arg else arg)
    case WString(isText, _, s) => if isText then TextV(s) else BytesV(s)
    case WArray(_, items) => ArrayV(MeaningAll(items))
    case WMap(_, pairs) => MapV(MeaningPairs(pairs))
  }

  function MeaningAll(items: Items): (vs: seq<Value>)
    ensures |vs| == Len(items)
  {
    match items
    case NoItems => []
    case Item(before, last) => MeaningAll(before) + [Meaning(last)]
  }

  function MeaningPairs(pairs: Pairs): map<MapKey, Value> {
    match pairs
    case NoPairs => map[]
    case Pair(before, key, value) =>
      var m := MeaningPairs(before);
      if IsKey(key) then m[KeyFor(Meaning(key)).value := Meaning(value)] else m
  }

  /** s stands in b at pos. */
  ghost predicate StandsAt(s: seq<byte>, b: seq<byte>, pos: nat) {
    pos + |s| <= |b| && b[pos..pos + |s|] == s
  }

  lemma StandsSplit(s: seq<byte>, t: seq<byte>, b: seq<byte>, pos: nat)
    ensures StandsAt(s + t, b, pos) <==> StandsAt(s, b, pos) && StandsAt(t, b, pos + |s|)
  {
    if pos + |s + t| <= |b| {
      assert b[pos..pos + |s + t|] == b[pos..pos + |s|] + b[pos + |s|..pos + |s + t|];
      if b[pos..pos + |s + t|] == s + t {
        assert b[pos..pos + |s|] == (s + t)[..|s|] == s;
        assert b[pos + |s|..pos + |s + t|] == (s + t)[|s|..] == t;
      }
    }
  }

  // ---- Every supported encoding is read, to its own value and length. ----

  lemma HeadRead(major: nat, width: nat, arg: nat, b: seq<byte>, pos: nat)
    requires major < 8 && Fits(width, arg) && StandsAt(HeadBytes(major, width, arg), b, pos)
    ensures HeadAt(b, pos) == Ok(HeadV(major, arg), pos + 1 + width)
  {
    hide Bytes, Number, Pow256;
    var s := HeadBytes(major, width, arg);
    assert b[pos] == b[pos..pos + |s|][0] == s[0];
    if width > 0 {
      assert b[pos + 1..pos + 1 + width] == b[pos..pos + |s|][1..] == Bytes(arg, width);
      NumberOfBytes(arg, width);
    }
  }

  /** One more item after n, and one more pair after n. */
  lemma ItemsStep(b: seq<byte>, pos: nat, depth: nat, n: nat, done: seq<byte>, vs: seq<Value>, s: seq<byte>, v: Value)
    requires depth <= MAX_DEPTH + 1 && pos <= |b| && ItemsAt(b, pos, depth, n) == Ok(vs, pos + |done|)
    requires ValueAt(b, pos + |done|, depth) == Ok(v, pos + |done| + |s|)
    ensures ItemsAt(b, pos, depth, n + 1) == Ok(vs + [v], pos + |done + s|)
  {
    hide ValueAt;
  }

  lemma PairsStep(b: seq<byte>, pos: nat, depth: nat, n: nat, done: seq<byte>, m: map<MapKey, Value>,
                  s: seq<byte>, k: Value, t: seq<byte>, v: Value)
    requires depth <= MAX_DEPTH + 1 && pos <= |b| && PairsAt(b, pos, depth, n) == Ok(m, pos + |done|)
    requires ValueAt(b, pos + |done|, depth) == Ok(k, pos + |done + s|) && KeyFor(k).Some?
    requires ValueAt(b, pos + |done + s|, depth) == Ok(v, pos + |done + s| + |t|)
    ensures PairsAt(b, pos, depth, n + 1) == Ok(m[KeyFor(k).value := v], pos + |done + s + t|)
  {
    hide ValueAt;
  }

  /** A header followed by its content. */
  lemma HeadThen(major: nat, width: nat, arg: nat, content: seq<byte>, b: seq<byte>, pos: nat)
    requires major < 8 && Fits(width, arg) && StandsAt(HeadBytes(major, width, arg) + content, b, pos)
    ensures HeadAt(b, pos) == Ok(HeadV(major, arg), pos + 1 + width)
    ensures StandsAt(content, b, pos + 1 + width)
  {
    StandsSplit(HeadBytes(major, width, arg), content, b, pos);
    HeadRead(major, width, arg, b, pos);
  }

  lemma BodyFollows(b: seq<byte>, pos: nat, depth: nat, h: HeadV, at: nat)
    requires depth <= MAX_DEPTH && HeadAt(b, pos) == Ok(h, at)
    ensures at <= |b| && ValueAt(b, pos, depth) == BodyAt(b, at, depth, h)
  {
  }

  lemma ArrayRead(b: seq<byte>, pos: nat, depth: nat, n: nat, at: nat, vs: seq<Value>, p: nat)
    requires depth <= MAX_DEPTH && n <= MAX_ITEMS && HeadAt(b, pos) == Ok(HeadV(4, n), at) && at <= |b|
    requires ItemsAt(b, at, depth + 1, n) == Ok(vs, p)
    ensures ValueAt(b, pos, depth) == Ok(ArrayV(vs), p)
  {
    hide HeadAt, ItemsAt;
    BodyFollows(b, pos, depth, HeadV(4, n), at);
  }

  lemma MapRead(b: seq<byte>, pos: nat, depth: nat, n: nat, at: nat, m: map<MapKey, Value>, p: nat)
    requires depth <= MAX_DEPTH && n <= MAX_ITEMS && HeadAt(b, pos) == Ok(HeadV(5, n), at) && at <= |b|
    requires PairsAt(b, at, depth + 1, n) == Ok(m, p)
    ensures ValueAt(b, pos, depth) == Ok(MapV(m), p)
  {
    hide HeadAt, PairsAt;
    BodyFollows(b, pos, depth, HeadV(5, n), at);
  }

  lemma LeafRead(w: Wire, b: seq<byte>, pos: nat, depth: nat)
    requires (w.WInt? || w.WString?) && Supported(w, depth) && StandsAt(Serialize(w), b, pos)
    ensures ValueAt(b, pos, depth) == Ok(Meaning(w), pos + |Serialize(w)|)
  {
    hide HeadAt, HeadBytes, Fits, ItemsAt, PairsAt;
    match w
    case WInt(negative, width, arg) =>
      HeadRead(if negative then 1 else 0, width, arg, b, pos);
      BodyFollows(b, pos, depth, HeadV(if negative then 1 else 0, arg), pos + 1 + width);
    case WString(isText, width, s) =>
      HeadThen(if isText then 3 else 2, width, |s|, s, b, pos);
      BodyFollows(b, pos, depth, HeadV(if isText then 3 else 2, |s|), pos + 1 + width);
  }

  lemma {:induction false} ReadsItem(w: Wire, b: seq<byte>, pos: nat, depth: nat)
    requires Supported(w, depth) && StandsAt(Serialize(w), b, pos)
    ensures ValueAt(b, pos, depth) == Ok(Meaning(w), pos + |Serialize(w)|)
    decreases w
  {
    hide HeadAt, HeadBytes, Fits, ValueAt, BodyAt, ItemsAt, PairsAt;
    match w
    case WInt(_, _, _) => LeafRead(w, b, pos, depth);
    case WString(_, _, _) => LeafRead(w, b, pos, depth);
    case WArray(width, items) =>
      HeadThen(4, width, Len(items), SerializeAll(items), b, pos);
      ReadsItems(items, b, pos + 1 + width, depth + 1);
      ArrayRead(b, pos, depth, Len(items), pos + 1 + width, MeaningAll(items), pos + 1 + width + |SerializeAll(items)|);
    case WMap(width, pairs) =>
      HeadThen(5, width, LenPairs(pairs), SerializePairs(pairs), b, pos);
      ReadsPairs(pairs, b, pos + 1 + width, depth + 1);
      MapRead(b, pos, depth, LenPairs(pairs), pos + 1 + width, MeaningPairs(pairs),
              pos + 1 + width + |SerializePairs(pairs)|);
  }

  lemma {:induction false} ReadsItems(items: Items, b: seq<byte>, pos: nat, depth: nat)
    requires depth <= MAX_DEPTH + 1 && AllSupported(items, depth) && StandsAt(SerializeAll(items), b, pos)
    ensures ItemsAt(b, pos, depth, Len(items)) == Ok(MeaningAll(items), pos + |SerializeAll(items)|)
    decreases items
  {
    hide ValueAt, Serialize, Meaning, Supported;
    match items
    case NoItems =>
    case Item(before, last) =>
      var done := SerializeAll(before);
      StandsSplit(done, Serialize(last), b, pos);
      ReadsItems(before, b, pos, depth);
      ReadsItem(last, b, pos + |done|, depth);
      ItemsStep(b, pos, depth, Len(before), done, MeaningAll(before), Serialize(last), Meaning(last));
  }

  lemma {:induction false} ReadsPairs(pairs: Pairs, b: seq<byte>, pos: nat, depth: nat)
    requires depth <= MAX_DEPTH + 1 && PairsSupported(pairs, depth) && StandsAt(SerializePairs(pairs), b, pos)
    ensures PairsAt(b, pos, depth, LenPairs(pairs)) == Ok(MeaningPairs(pairs), pos + |SerializePairs(pairs)|)
    decreases pairs
  {
    hide ValueAt, Serialize, Supported;
    match pairs
    case NoPairs =>
    case Pair(before, key, value) =>
      var done, k := SerializePairs(before), Serialize(key);
      StandsSplit(done + k, Serialize(value), b, pos);
      StandsSplit(done, k, b, pos);
      ReadsPairs(before, b, pos, depth);
      ReadsItem(key, b, pos + |done|, depth);
      ReadsItem(value, b, pos + |done + k|, depth);
      PairsStep(b, pos, depth, LenPairs(before), done, MeaningPairs(before), k, Meaning(key), Serialize(value),
                Meaning(value));
  }

  // ---- Whatever is read was a supported encoding. ----

  /** The width of the header at pos. */
  function WidthAt(b: seq<byte>, pos: nat): nat
    requires HeadAt(b, pos).Ok?
  {
    if b[pos] % 32 < 24 then 0 else ArgWidth(b[pos] % 32)
  }

  lemma HeadWasWritten(b: seq<byte>, pos: nat)
    requires HeadAt(b, pos).Ok?
    ensures var h := HeadAt(b, pos);
            Fits(WidthAt(b, pos), h.value.arg) && h.pos == pos + 1 + WidthAt(b, pos) &&
            StandsAt(HeadBytes(h.value.major, WidthAt(b, pos), h.value.arg), b, pos)
  {
    hide Bytes, Number, Pow256;
    var h, width := HeadAt(b, pos), WidthAt(b, pos);
    if width > 0 {
      BytesOfNumber(b[pos + 1..pos + 1 + width]);
    }
    assert b[pos..pos + 1 + width] == [b[pos]] + b[pos + 1..pos + 1 + width];
  }

  lemma {:induction false} ItemWasWritten(b: seq<byte>, pos: nat, depth: nat) returns (w: Wire)
    requires depth <= MAX_DEPTH + 1 && ValueAt(b, pos, depth).Ok?
    ensures Supported(w, depth) && Meaning(w) == ValueAt(b, pos, depth).value
    ensures StandsAt(Serialize(w), b, pos) && pos + |Serialize(w)| == ValueAt(b, pos, depth).pos
    decreases MAX_DEPTH + 1 - depth, 0
  {
    hide HeadAt, HeadBytes, Fits, WidthAt, TakeAt;
    HeadWasWritten(b, pos);
    var h, width := HeadAt(b, pos), WidthAt(b, pos);
    BodyFollows(b, pos, depth, h.value, h.pos);
    var head := HeadBytes(h.value.major, width, h.value.arg);
    if h.value.major <= 3 {
      w := LeafWasWritten(b, pos, depth);
    } else if h.value.major == 4 {
      var items := ItemsWereWritten(b, h.pos, depth + 1, h.value.arg);
      w := WArray(width, items);
      StandsSplit(head, SerializeAll(items), b, pos);
    } else {
      var pairs := PairsWereWritten(b, h.pos, depth + 1, h.value.arg);
      w := WMap(width, pairs);
      StandsSplit(head, SerializePairs(pairs), b, pos);
    }
  }

  lemma LeafWasWritten(b: seq<byte>, pos: nat, depth: nat) returns (w: Wire)
    requires depth <= MAX_DEPTH && ValueAt(b, pos, depth).Ok? && HeadAt(b, pos).value.major <= 3
    ensures Supported(w, depth) && Meaning(w) == ValueAt(b, pos, depth).value
    ensures StandsAt(Serialize(w), b, pos) && pos + |Serialize(w)| == ValueAt(b, pos, depth).pos
  {
    hide HeadAt, HeadBytes, Fits, WidthAt, ItemsAt, PairsAt;
    HeadWasWritten(b, pos);
    var h, width := HeadAt(b, pos), WidthAt(b, pos);
    BodyFollows(b, pos, depth, h.value, h.pos);
    if h.value.major <= 1 {
      w := WInt(h.value.major == 1, width, h.value.arg);
    } else {
      var s := b[h.pos..h.pos + h.value.arg];
      w := WString(h.value.major == 3, width, s);
      StandsSplit(HeadBytes(h.value.major, width, h.value.arg), s, b, pos);
    }
  }

  lemma {:induction false} ItemsWereWritten(b: seq<byte>, pos: nat, depth: nat, n: nat) returns (items: Items)
    requires depth <= MAX_DEPTH + 1 && pos <= |b| && ItemsAt(b, pos, depth, n).Ok?
    ensures Len(items) == n && AllSupported(items, depth) && MeaningAll(items) == ItemsAt(b, pos, depth, n).value
    ensures StandsAt(SerializeAll(items), b, pos) && pos + |SerializeAll(items)| == ItemsAt(b, pos, depth, n).pos
    decreases MAX_DEPTH + 1 - depth, n + 1
  {
    hide ValueAt, Serialize, Meaning, Supported;
    if n == 0 {
      items := NoItems;
    } else {
      var before := ItemsWereWritten(b, pos, depth, n - 1);
      var last := ItemWasWritten(b, ItemsAt(b, pos, depth, n - 1).pos, depth);
      items := Item(before, last);
      StandsSplit(SerializeAll(before), Serialize(last), b, pos);
    }
  }

  lemma {:induction false} PairsWereWritten(b: seq<byte>, pos: nat, depth: nat, n: nat) returns (pairs: Pairs)
    requires depth <= MAX_DEPTH + 1 && pos <= |b| && PairsAt(b, pos, depth, n).Ok?
    ensures LenPairs(pairs) == n && PairsSupported(pairs, depth) &&
            MeaningPairs(pairs) == PairsAt(b, pos, depth, n).value
    ensures StandsAt(SerializePairs(pairs), b, pos) && pos + |SerializePairs(pairs)| == PairsAt(b, pos, depth, n).pos
    decreases MAX_DEPTH + 1 - depth, n + 1
  {
    hide ValueAt, Serialize, Supported;
    if n == 0 {
      pairs := NoPairs;
    } else {
      var before := PairsWereWritten(b, pos, depth, n - 1);
      var at := PairsAt(b, pos, depth, n - 1).pos;
      var key := ItemWasWritten(b, at, depth);
      var value := ItemWasWritten(b, ValueAt(b, at, depth).pos, depth);
      pairs := Pair(before, key, value);
      var done := SerializePairs(before);
      StandsSplit(done, Serialize(key), b, pos);
      StandsSplit(done + Serialize(key), Serialize(value), b, pos);
    }
  }

  // ---- The decoders. ----

  /** An encoding of v. */
  ghost predicate Encodes(s: seq<byte>, v: Value) {
    exists w :: Supported(w, 0) && Serialize(w) == s && Meaning(w) == v
  }

  /** Decoding an encoding followed by anything yields the value and exactly the
      encoding's length, and nothing else decodes. */
  lemma PrefixReadIffWritten(b: seq<byte>, v: Value, n: nat)
    ensures DecodePrefix(b) == Some((v, n)) <==> n <= |b| && Encodes(b[..n], v)
  {
    hide ValueAt, Serialize, Meaning, Supported;
    if DecodePrefix(b) == Some((v, n)) {
      var w := ItemWasWritten(b, 0, 0);
      assert Serialize(w) == b[..n];
    }
    if n <= |b| && Encodes(b[..n], v) {
      var w :| Supported(w, 0) && Serialize(w) == b[..n] && Meaning(w) == v;
      ReadsItem(w, b, 0, 0);
    }
  }

  lemma ReadIffWritten(b: seq<byte>, v: Value)
    ensures Decode(b) == Some(v) <==> Encodes(b, v)
  {
    PrefixReadIffWritten(b, v, |b|);
    assert b[..|b|] == b;
  }

  /** The consumed bytes alone decide: cut there, or followed by anything else,
      they decode to the same value. */
  lemma OnlyConsumedBytesMatter(b: seq<byte>, v: Value, n: nat, suffix: seq<byte>)
    requires DecodePrefix(b) == Some((v, n))
    ensures n <= |b| && DecodePrefix(b[..n] + suffix) == Some((v, n)) && Decode(b[..n]) == Some(v)
  {
    PrefixReadIffWritten(b, v, n);
    assert (b[..n] + suffix)[..n] == b[..n];
    PrefixReadIffWritten(b[..n] + suffix, v, n);
    ReadIffWritten(b[..n], v);
  }

  /** No encoding is the beginning of another, and each stands for one value. */
  lemma EncodingsArePrefixFree(s: seq<byte>, t: seq<byte>, v: Value, u: Value)
    requires Encodes(s, v) && Encodes(t, u) && |s| <= |t| && t[..|s|] == s
    ensures s == t && v == u
  {
    PrefixReadIffWritten(t, v, |s|);
    assert t[..|t|] == t;
    PrefixReadIffWritten(t, u, |t|);
  }

  // ---- Which values can be decoded. ----

  predicate IsInt(i: int) {
    -MAX_INT64 <= i <= MAX_INT64
  }

  predicate ShortString(s: seq<byte>) {
    |s| < 0x1_0000_0000_0000_0000
  }

  predicate KeyExpressible(k: MapKey) {
    match k case IntKey(i) => IsInt(i) case TextKey(s) => ShortString(s)
  }

  /** A value within the reader's limits at a depth. */
  ghost predicate Expressible(v: Value, depth: nat)
    decreases MAX_DEPTH + 1 - depth, 0
  {
    depth <= MAX_DEPTH &&
    match v
    case IntV(i) => IsInt(i)
    case BytesV(s) => ShortString(s)
    case TextV(s) => ShortString(s)
    case ArrayV(items) => |items| <= MAX_ITEMS && forall i :: 0 <= i < |items| ==> Expressible(items[i], depth + 1)
    case MapV(entries) => |entries| <= MAX_ITEMS && EntriesExpressible(entries, depth + 1)
  }

  ghost predicate EntriesExpressible(entries: map<MapKey, Value>, depth: nat)
    decreases MAX_DEPTH + 1 - depth, 1
  {
    // A key is an item too, so it takes part in the nesting limit.
    forall k :: k in entries ==> depth <= MAX_DEPTH && KeyExpressible(k) && Expressible(entries[k], depth)
  }

  lemma Widest(n: nat)
    requires n < 0x1_0000_0000_0000_0000
    ensures Fits(8, n)
  {
    Pow256Values();
  }

  function WriteKey(k: MapKey): Wire {
    match k
    case IntKey(i) => if i < 0 then WInt(true, 8, -1 - i) else WInt(false, 8, i)
    case TextKey(s) => WString(true, 8, s)
  }

  lemma KeyWrites(k: MapKey, depth: nat)
    requires KeyExpressible(k) && depth <= MAX_DEPTH
    ensures Supported(WriteKey(k), depth) && IsKey(WriteKey(k)) && KeyFor(Meaning(WriteKey(k))) == Some(k)
  {
    match k
    case IntKey(i) => Widest(if i < 0 then -1 - i else i);
    case TextKey(s) => Widest(|s|);
  }

  lemma {:induction false} Writes(v: Value, depth: nat) returns (w: Wire)
    requires Expressible(v, depth)
    ensures Supported(w, depth) && Meaning(w) == v
    decreases MAX_DEPTH + 1 - depth, 0
  {
    match v
    case IntV(i) =>
      w := WriteKey(IntKey(i));
      KeyWrites(IntKey(i), depth);
    case BytesV(s) =>
      Widest(|s|);
      w := WString(false, 8, s);
    case TextV(s) =>
      w := WriteKey(TextKey(s));
      KeyWrites(TextKey(s), depth);
    case ArrayV(items) =>
      Widest(|items|);
      var ws := WritesAll(items, depth + 1);
      w := WArray(8, ws);
    case MapV(entries) =>
      Widest(|entries|);
      var ps := WritesPairs(entries, depth + 1);
      w := WMap(8, ps);
  }

  lemma {:induction false} WritesAll(vs: seq<Value>, depth: nat) returns (items: Items)
    requires depth <= MAX_DEPTH + 1 && forall i :: 0 <= i < |vs| ==> Expressible(vs[i], depth)
    ensures AllSupported(items, depth) && MeaningAll(items) == vs
    decreases MAX_DEPTH + 1 - depth, 1 + |vs|
  {
    if vs == [] {
      items := NoItems;
    } else {
      var n := |vs| - 1;
      var before := WritesAll(vs[..n], depth);
      var last := Writes(vs[n], depth);
      items := Item(before, last);
      assert vs == vs[..n] + [vs[n]];
    }
  }

  lemma {:induction false} WritesPairs(m: map<MapKey, Value>, depth: nat) returns (pairs: Pairs)
    requires depth <= MAX_DEPTH + 1 && EntriesExpressible(m, depth)
    ensures LenPairs(pairs) == |m| && PairsSupported(pairs, depth) && MeaningPairs(pairs) == m
    decreases MAX_DEPTH + 1 - depth, 1 + |m|
  {
    if m == map[] {
      pairs := NoPairs;
    } else {
      var k :| k in m;
      var less := m - {k};
      assert |less| == |m| - 1 by {
        assert less.Keys == m.Keys - {k} && |m.Keys| == |m| && |less.Keys| == |less|;
      }
      var before := WritesPairs(less, depth);
      var value := Writes(m[k], depth);
      KeyWrites(k, depth);
      pairs := Pair(before, WriteKey(k), value);
      assert m == less[k := m[k]];
    }
  }

  lemma {:induction false} MeaningExpressible(w: Wire, depth: nat)
    requires Supported(w, depth)
    ensures Expressible(Meaning(w), depth)
    decreases w
  {
    match w
    case WInt(_, _, _) =>
    case WString(_, _, _) => Pow256Values();
    case WArray(_, items) => MeaningsExpressible(items, depth + 1);
    case WMap(_, pairs) => EntriesAreExpressible(pairs, depth + 1);
  }

  lemma {:induction false} MeaningsExpressible(items: Items, depth: nat)
    requires AllSupported(items, depth)
    ensures forall i :: 0 <= i < Len(items) ==> Expressible(MeaningAll(items)[i], depth)
    decreases items
  {
    match items
    case NoItems =>
    case Item(before, last) =>
      MeaningsExpressible(before, depth);
      MeaningExpressible(last, depth);
  }

  lemma {:induction false} EntriesAreExpressible(pairs: Pairs, depth: nat)
    requires PairsSupported(pairs, depth)
    ensures |MeaningPairs(pairs)| <= LenPairs(pairs) && EntriesExpressible(MeaningPairs(pairs), depth)
    decreases pairs
  {
    match pairs
    case NoPairs =>
    case Pair(before, key, value) =>
      var m, m' := MeaningPairs(before), MeaningPairs(pairs);
      EntriesAreExpressible(before, depth);
      MeaningExpressible(key, depth);
      MeaningExpressible(value, depth);
      var k := KeyFor(Meaning(key)).value;
      assert m'.Keys == m.Keys + {k};
      assert |m'.Keys| == |m'| && |m.Keys| == |m|;
  }

  /** The decodable values are exactly those nested at most eight deep, with at
      most 64 items or entries at each level, integers of magnitude at most
      2^63 - 1 and strings shorter than 2^64. */
  lemma DecodableIffExpressible(v: Value)
    ensures (exists b :: Decode(b) == Some(v)) <==> Expressible(v, 0)
  {
    hide ValueAt, Serialize, Meaning, Supported, Expressible;
    if Expressible(v, 0) {
      var w := Writes(v, 0);
      ReadIffWritten(Serialize(w), v);
      assert Decode(Serialize(w)) == Some(v);
    }
    if b :| Decode(b) == Some(v) {
      ReadIffWritten(b, v);
      var w :| Supported(w, 0) && Serialize(w) == b && Meaning(w) == v;
      MeaningExpressible(w, 0);
    }
  }
}
