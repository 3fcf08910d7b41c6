/** The minimal CBOR reader: internal/webauthn/cbor.go, against section 3 of
    RFC 8949. */
module Cbor {
  import opened Common
  import opened BigEndian

  datatype MapKey = IntKey(i: int) | TextKey(s: seq<byte>)

  datatype Value =
    | IntV(i: int)
    | BytesV(b: seq<byte>)
    | TextV(s: seq<byte>)
    | ArrayV(items: seq<Value>)
    | MapV(entries: map<MapKey, Value>)

  datatype Read<+T> = Ok(value: T, pos: nat) | Malformed

  const MAX_DEPTH := 8
  const MAX_ITEMS := 64

  datatype HeadV = HeadV(major: nat, arg: nat)

  /** How many argument bytes follow a header, for info 24 to 27. */
  function ArgWidth(info: nat): nat
    requires 24 <= info <= 27
  {
    if info == 24 then 1 else if info == 25 then 2 else if info == 26 then 4 else 8
  }

  function HeadAt(b: seq<byte>, pos: nat): (r: Read<HeadV>)
    ensures r.Ok? ==> pos < r.pos <= |b| && r.value.major < 8
  {
    if pos >= |b| then Malformed
    else
      var major, info := b[pos] / 32, b[pos] % 32;
      if info < 24 then Ok(HeadV(major, info), pos + 1)
      else if info > 27 then Malformed
      else
        var n := ArgWidth(info);
        if pos + 1 + n > |b| then Malformed
        else Ok(HeadV(major, Number(b[pos + 1..pos + 1 + n])), pos + 1 + n)
  }

  function TakeAt(b: seq<byte>, pos: nat, n: nat): (r: Read<seq<byte>>)
    requires pos <= |b|
    ensures r.Ok? ==> pos <= r.pos <= |b|
  {
    if n > |b| - pos then Malformed else Ok(b[pos..pos + n], pos + n)
  }

  function KeyFor(v: Value): Option<MapKey> {
    match v
    case IntV(i) => Some(IntKey(i))
    case TextV(s) => Some(TextKey(s))
    case _ => None
  }

  /** One item, at a nesting depth. */
  function ValueAt(b: seq<byte>, pos: nat, depth: nat): (r: Read<Value>)
    requires depth <= MAX_DEPTH + 1
    ensures r.Ok? ==> pos < r.pos <= |b|
    decreases MAX_DEPTH + 1 - depth, 0, 1
  {
    if depth > MAX_DEPTH then Malformed
    else
      match HeadAt(b, pos)
      case Malformed => Malformed
      case Ok(h, at) => BodyAt(b, at, depth, h)
  }

  /** The rest of an item, after its header. */
  function BodyAt(b: seq<byte>, at: nat, depth: nat, h: HeadV): (r: Read<Value>)
    requires depth <= MAX_DEPTH && at <= |b|
    ensures r.Ok? ==> at <= r.pos <= |b|
    decreases MAX_DEPTH + 1 - depth, 0, 0
  {
    match h.major
    case 0 => if h.arg > MAX_INT64 then Malformed else Ok(IntV(h.arg), at)
    case 1 => if h.arg > MAX_INT64 - 1 then Malformed else Ok(IntV(-1 - h.arg), at)
    case 2 => (match TakeAt(b, at, h.arg) case Ok(s, p) => Ok(BytesV(s), p) case Malformed => Malformed)
    case 3 => (match TakeAt(b, at, h.arg) case Ok(s, p) => Ok(TextV(s), p) case Malformed => Malformed)
    case 4 =>
      if h.arg > MAX_ITEMS then Malformed
      else (match ItemsAt(b, at, depth + 1, h.arg) case Ok(vs, p) => Ok(ArrayV(vs), p) case Malformed => Malformed)
    case 5 =>
      if h.arg > MAX_ITEMS then Malformed
      else (match PairsAt(b, at, depth + 1, h.arg) case Ok(m, p) => Ok(MapV(m), p) case Malformed => Malformed)
    case _ => Malformed
  }

  /** n items, one after another. */
  function ItemsAt(b: seq<byte>, pos: nat, depth: nat, n: nat): (r: Read<seq<Value>>)
    requires depth <= MAX_DEPTH + 1 && pos <= |b|
    ensures r.Ok? ==> pos <= r.pos <= |b| && |r.value| == n
    decreases MAX_DEPTH + 1 - depth, n + 1, 0
  {
    if n == 0 then Ok([], pos)
    else
      match ItemsAt(b, pos, depth, n - 1)
      case Malformed => Malformed
      case Ok(vs, p) =>
        match ValueAt(b, p, depth)
        case Malformed => Malformed
        case Ok(v, p') => Ok(vs + [v], p')
  }

  /** n pairs; a repeated key keeps its last value. */
  function PairsAt(b: seq<byte>, pos: nat, depth: nat, n: nat): (r: Read<map<MapKey, Value>>)
    requires depth <= MAX_DEPTH + 1 && pos <= |b|
    ensures r.Ok? ==> pos <= r.pos <= |b|
    decreases MAX_DEPTH + 1 - depth, n + 1, 0
  {
    if n == 0 then Ok(map[], pos)
    else
      match PairsAt(b, pos, depth, n - 1)
      case Malformed => Malformed
      case Ok(m, p) =>
        match ValueAt(b, p, depth)
        case Malformed => Malformed
        case Ok(k, p') =>
          if KeyFor(k).None? then Malformed
          else
            match ValueAt(b, p', depth)
            case Malformed => Malformed
            case Ok(v, p'') => Ok(m[KeyFor(k).value := v], p'')
  }

  /** The reader object. */
  class CborReader {
    const b: seq<byte>
    var pos: nat

    constructor (b: seq<byte>)
      ensures this.b == b && pos == 0
    {
      this.b, pos := b, 0;
    }

    method Head() returns (h: Option<HeadV>)
      modifies this
      ensures match HeadAt(b, old(pos))
              case Ok(v, p) => h == Some(v) && pos == p
              case Malformed => h == None
    {
      if pos >= |b| {
        return None;
      }
      var first := b[pos];
      pos := pos + 1;
      var major, info := first / 32, first % 32;
      if info < 24 {
        return Some(HeadV(major, info));
      }
      if info <= 27 {
        var n := ArgWidth(info);
        if pos + n > |b| {
          return None;
        }
        var arg := ReadNumber(b[pos..pos + n]);
        pos := pos + n;
        return Some(HeadV(major, arg));
      }
      return None;
    }

    method Take(n: nat) returns (r: Option<seq<byte>>)
      requires pos <= |b|
      modifies this
      ensures match TakeAt(b, old(pos), n)
              case Ok(s, p) => r == Some(s) && pos == p
              case Malformed => r == None
    {
      if n > |b| - pos {
        return None;
      }
      r := Some(b[pos..pos + n]);
      pos := pos + n;
    }

    method ReadValue(depth: nat) returns (r: Option<Value>)
      requires depth <= MAX_DEPTH + 1
      modifies this
      ensures match ValueAt(b, old(pos), depth)
              case Ok(v, p) => r == Some(v) && pos == p
              case Malformed => r == None
      decreases MAX_DEPTH + 1 - depth, 0
    {
      if depth > MAX_DEPTH {
        return None;
      }
      var h := Head();
      if h.None? {
        return None;
      }
      assert ValueAt(b, old(pos), depth) == BodyAt(b, pos, depth, h.value);
      var major, arg := h.value.major, h.value.arg;
      if major == 0 {
        r := if arg > MAX_INT64 then None else Some(IntV(arg));
      } else if major == 1 {
        r := if arg > MAX_INT64 - 1 then None else Some(IntV(-1 - arg));
      } else if major == 2 {
        var s := Take(arg);
        r := if s.None? then None else Some(BytesV(s.value));
      } else if major == 3 {
        var s := Take(arg);
        r := if s.None? then None else Some(TextV(s.value));
      } else if major == 4 {
        if arg > MAX_ITEMS {
          return None;
        }
        var vs := ReadItems(depth + 1, arg);
        r := if vs.None? then None else Some(ArrayV(vs.value));
      } else if major == 5 {
        if arg > MAX_ITEMS {
          return None;
        }
        var m := ReadPairs(depth + 1, arg);
        r := if m.None? then None else Some(MapV(m.value));
      } else {
        r := None;
      }
    }

    method ReadItems(depth: nat, n: nat) returns (r: Option<seq<Value>>)
      requires depth <= MAX_DEPTH + 1 && pos <= |b|
      modifies this
      ensures match ItemsAt(b, old(pos), depth, n)
              case Ok(vs, p) => r == Some(vs) && pos == p
              case Malformed => r == None
      decreases MAX_DEPTH + 1 - depth, n + 1
    {
      var out: seq<Value> := [];
      for i := 0 to n
        invariant pos <= |b|
        invariant ItemsAt(b, old(pos), depth, i) == Ok(out, pos)
      {
        var v := ReadValue(depth);
        if v.None? {
          ItemsStuck(b, old(pos), depth, i + 1, n);
          return None;
        }
        out := out + [v.value];
      }
      r := Some(out);
    }

    method ReadPairs(depth: nat, n: nat) returns (r: Option<map<MapKey, Value>>)
      requires depth <= MAX_DEPTH + 1 && pos <= |b|
      modifies this
      ensures match PairsAt(b, old(pos), depth, n)
              case Ok(m, p) => r == Some(m) && pos == p
              case Malformed => r == None
      decreases MAX_DEPTH + 1 - depth, n + 1
    {
      var out: map<MapKey, Value> := map[];
      for i := 0 to n
        invariant pos <= |b|
        invariant PairsAt(b, old(pos), depth, i) == Ok(out, pos)
      {
        var k := ReadValue(depth);
        if k.None? || KeyFor(k.value).None? {
          PairsStuck(b, old(pos), depth, i + 1, n);
          return None;
        }
        var v := ReadValue(depth);
        if v.None? {
          PairsStuck(b, old(pos), depth, i + 1, n);
          return None;
        }
        out := out[KeyFor(k.value).value := v.value];
      }
      r := Some(out);
    }
  }

  /** Once an item is malformed nothing after it can be read. */
  lemma {:induction false} ItemsStuck(b: seq<byte>, pos: nat, depth: nat, i: nat, n: nat)
    requires depth <= MAX_DEPTH + 1 && pos <= |b| && i <= n && ItemsAt(b, pos, depth, i).Malformed?
    ensures ItemsAt(b, pos, depth, n).Malformed?
    decreases n
  {
    if i < n {
      ItemsStuck(b, pos, depth, i, n - 1);
    }
  }

  lemma {:induction false} PairsStuck(b: seq<byte>, pos: nat, depth: nat, i: nat, n: nat)
    requires depth <= MAX_DEPTH + 1 && pos <= |b| && i <= n && PairsAt(b, pos, depth, i).Malformed?
    ensures PairsAt(b, pos, depth, n).Malformed?
    decreases n
  {
    if i < n {
      PairsStuck(b, pos, depth, i, n - 1);
    }
  }

  /** One item and nothing after it. */
  function Decode(b: seq<byte>): Option<Value> {
    match ValueAt(b, 0, 0)
    case Ok(v, p) => if p == |b| then Some(v) else None
    case Malformed => None
  }

  /** One item and how many bytes it spans. */
  function DecodePrefix(b: seq<byte>): (r: Option<(Value, nat)>)
    ensures r.Some? ==> 0 < r.value.1 <= |b|
  {
    match ValueAt(b, 0, 0)
    case Ok(v, p) => Some((v, p))
    case Malformed => None
  }

  method DecodeCbor(b: seq<byte>) returns (r: Option<Value>)
    ensures r == Decode(b)
  {
    var reader := new CborReader(b);
    var v := reader.ReadValue(0);
    if v.None? || reader.pos != |b| {
      return None;
    }
    r := v;
  }
}
