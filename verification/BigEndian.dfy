/** Bytes, and unsigned numbers as bytes, most significant first. */
module BigEndian {
  type byte = b: int | 0 <= b < 256

  function Pow256(n: nat): (r: nat)
    ensures r >= 1
  {
    if n == 0 then 1 else 256 * Pow256(n - 1)
  }

  function Number(s: seq<byte>): nat {
    if s == [] then 0 else 256 * Number(s[..|s| - 1]) + s[|s| - 1]
  }

  function Bytes(n: nat, width: nat): (s: seq<byte>)
    ensures |s| == width
  {
    if width == 0 then [] else Bytes(n / 256, width - 1) + [n % 256]
  }

  lemma {:induction false} NumberOfBytes(n: nat, width: nat)
    requires n < Pow256(width)
    ensures Number(Bytes(n, width)) == n
    decreases width
  {
    if width > 0 {
      NumberOfBytes(n / 256, width - 1);
      var s := Bytes(n, width);
      assert s[..|s| - 1] == Bytes(n / 256, width - 1);
    }
  }

  lemma {:induction false} BytesOfNumber(s: seq<byte>)
    ensures Number(s) < Pow256(|s|)
    ensures Bytes(Number(s), |s|) == s
    decreases |s|
  {
    if s != [] {
      var init, last := s[..|s| - 1], s[|s| - 1];
      BytesOfNumber(init);
      assert Number(s) / 256 == Number(init) && Number(s) % 256 == last;
      assert s == init + [last];
    }
  }

  lemma Pow256Values()
    ensures Pow256(1) == 0x100
    ensures Pow256(2) == 0x1_0000
    ensures Pow256(4) == 0x1_0000_0000
    ensures Pow256(8) == 0x1_0000_0000_0000_0000
  {
    assert Pow256(3) == 256 * Pow256(2);
    assert Pow256(5) == 256 * Pow256(4);
    assert Pow256(6) == 256 * Pow256(5);
    assert Pow256(7) == 256 * Pow256(6);
  }

  /** Shifting bytes in from the right, as the program reads one. */
  method ReadNumber(s: seq<byte>) returns (n: nat)
    ensures n == Number(s)
  {
    n := 0;
    for i := 0 to |s|
      invariant n == Number(s[..i])
    {
      assert s[..i + 1][..i] == s[..i];
      n := 256 * n + s[i];
    }
    assert s[..|s|] == s;
  }
}
