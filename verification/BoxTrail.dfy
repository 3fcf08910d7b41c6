/** An incident's box evidence and its in-place thinning: addBox of
    internal/policy/incidents.go. */
module BoxTrail {
  import opened Policy

  const MAX_BOX_SAMPLES := 2048

  /** Every second sample, the first included. */
  function Thin<T>(s: seq<T>): seq<T> {
    seq((|s| + 1) / 2, i requires 0 <= i < (|s| + 1) / 2 => s[2 * i])
  }

  /** The samples kept once one more arrives. */
  function Kept<T>(s: seq<T>, b: T): seq<T> {
    (if |s| >= MAX_BOX_SAMPLES then Thin(s) else s) + [b]
  }

  /** The samples kept after a whole sequence of reports. */
  function Trail<T>(reports: seq<T>): seq<T> {
    if reports == [] then [] else Kept(Trail(reports[..|reports| - 1]), reports[|reports| - 1])
  }

  /** The buffer itself: a slice compacted in place when it is full. */
  class Boxes {
    const buf: array<BoxSample>
    var len: nat

    ghost predicate Valid()
      reads this
    {
      buf.Length == MAX_BOX_SAMPLES && len <= buf.Length
    }

    ghost function Contents(): seq<BoxSample>
      requires Valid()
      reads this, buf
    {
      buf[..len]
    }

    constructor (blank: BoxSample)
      ensures Valid() && fresh(buf) && Contents() == []
    {
      buf := new BoxSample[MAX_BOX_SAMPLES](_ => blank);
      len := 0;
    }

    /** Move every second sample of a full buffer to its front. */
    method Compact()
      requires Valid() && len == buf.Length
      modifies this, buf
      ensures Valid()
      ensures Contents() == Thin(old(Contents()))
    {
      ghost var was, thin := buf[..], Thin(buf[..]);
      var kept := 0;
      for i := 0 to len
        invariant len == buf.Length && |thin| == (len + 1) / 2
        invariant kept == (i + 1) / 2
        invariant buf[..kept] == thin[..kept]
        invariant buf[i..] == was[i..]
      {
        assert buf[i + 1..] == buf[i..][1..] == was[i + 1..];
        if i % 2 == 0 {
          assert buf[i] == buf[i..][0] == was[i] == thin[kept];
          buf[kept] := buf[i];
          assert buf[..kept + 1] == buf[..kept] + [buf[kept]] == thin[..kept + 1];
          kept := kept + 1;
        }
      }
      len := kept;
    }

    method AddBox(b: BoxSample)
      requires Valid()
      modifies this, buf
      ensures Valid()
      ensures Contents() == Kept(old(Contents()), b)
    {
      if len >= MAX_BOX_SAMPLES {
        Compact();
      }
      buf[len] := b;
      len := len + 1;
      assert Contents() == buf[..len - 1] + [b];
    }
  }

  /** Which reports, by position, are kept after n of them. */
  function KeptIndices(n: nat): seq<nat> {
    if n == 0 then [] else Kept<nat>(KeptIndices(n - 1), n - 1)
  }

  /** How often n reports made the buffer thin: once at the cap, then each time
      the freed half fills again. */
  function Thinnings(n: nat): nat {
    if n <= MAX_BOX_SAMPLES then 0 else (n - MAX_BOX_SAMPLES / 2 - 1) / (MAX_BOX_SAMPLES / 2)
  }

  function Pow2(k: nat): (r: nat)
    ensures r >= 1
  {
    if k == 0 then 1 else 2 * Pow2(k - 1)
  }

  /** The buffer thins at report n exactly when the n - 1 before it filled it. */
  lemma ThinningsStep(n: nat)
    requires n > 0
    ensures var left := n - 1 - Thinnings(n - 1) * (MAX_BOX_SAMPLES / 2);
            && 0 <= left <= MAX_BOX_SAMPLES
            && Thinnings(n) == Thinnings(n - 1) + (if left == MAX_BOX_SAMPLES then 1 else 0)
  {
    if n - 1 > MAX_BOX_SAMPLES {
      var q, r := (n - 2 - 1024) / 1024, (n - 2 - 1024) % 1024;
      assert n - 2 - 1024 == 1024 * q + r;
      assert (n - 1 - 1024) / 1024 == if r == 1023 then q + 1 else q;
    }
  }

  lemma LengthStep(n: nat, k: nat)
    requires n > 0 && k == n - 1 - Thinnings(n - 1) * (MAX_BOX_SAMPLES / 2)
    ensures var k' := (if k >= MAX_BOX_SAMPLES then (k + 1) / 2 else k) + 1;
            k' == n - Thinnings(n) * (MAX_BOX_SAMPLES / 2) && k' <= MAX_BOX_SAMPLES
  {
    ThinningsStep(n);
  }

  /** How many samples n reports leave. */
  lemma {:induction false} KeptLength(n: nat)
    ensures |KeptIndices(n)| <= MAX_BOX_SAMPLES
    ensures |KeptIndices(n)| == n - Thinnings(n) * (MAX_BOX_SAMPLES / 2)
  {
    if n > 0 {
      KeptLength(n - 1);
      LengthStep(n, |KeptIndices(n - 1)|);
    }
  }

  /** Kept positions climb from the first report to the latest in steps of at
      most 2 to the number of thinnings. */
  ghost predicate Covers(kept: seq<nat>, n: nat, step: nat) {
    && (n > 0 <==> kept != [])
    && (n > 0 ==> kept[0] == 0 && kept[|kept| - 1] == n - 1)
    && forall i, j :: 0 <= i && j == i + 1 && j < |kept| ==> kept[i] < kept[j] <= kept[i] + step
  }

  lemma ThinCovers(kept: seq<nat>, n: nat, step: nat)
    requires n > 0 && step > 0 && Covers(kept, n, step) && |kept| % 2 == 0
    ensures Covers(Thin(kept) + [n], n + 1, 2 * step)
  {
    var thin := Thin(kept);
    assert forall i :: 0 <= i < |thin| ==> thin[i] == kept[2 * i];
    forall i, j | 0 <= i && j == i + 1 && j < |thin| + 1
      ensures (thin + [n])[i] < (thin + [n])[j] <= (thin + [n])[i] + 2 * step
    {
      assert kept[2 * i] < kept[2 * i + 1] <= kept[2 * i] + step;
      if j < |thin| {
        assert kept[2 * i + 1] < kept[2 * i + 2] <= kept[2 * i + 1] + step;
      } else {
        assert 2 * i + 1 == |kept| - 1;
      }
    }
  }

  lemma {:induction false} KeptCovers(n: nat)
    ensures Covers(KeptIndices(n), n, Pow2(Thinnings(n)))
  {
    if n > 0 {
      KeptCovers(n - 1);
      KeptLength(n - 1);
      ThinningsStep(n);
      var kept := KeptIndices(n - 1);
      if |kept| >= MAX_BOX_SAMPLES {
        ThinCovers(kept, n - 1, Pow2(Thinnings(n - 1)));
        assert KeptIndices(n) == Thin<nat>(kept) + [n - 1];
      } else {
      }
    }
  }

  /** The kept samples are the reports at the kept positions. */
  lemma {:induction false} TrailIsSelection<T>(reports: seq<T>)
    ensures var kept := KeptIndices(|reports|);
            && |Trail(reports)| == |kept|
            && forall i :: 0 <= i < |kept| ==> kept[i] < |reports| && Trail(reports)[i] == reports[kept[i]]
    decreases |reports|
  {
    if reports != [] {
      TrailIsSelection(reports[..|reports| - 1]);
    }
  }

  /** Whatever is reported, in whatever number: at most MAX_BOX_SAMPLES are
      kept, in order, the first and the latest among them, and after k thinnings
      no two neighbours are more than 2^k reports apart. */
  lemma TrailCoversTimeline<T>(reports: seq<T>)
    ensures |Trail(reports)| <= MAX_BOX_SAMPLES
    ensures exists kept: seq<nat> ::
              && Covers(kept, |reports|, Pow2(Thinnings(|reports|)))
              && |kept| == |Trail(reports)|
              && forall i :: 0 <= i < |kept| ==> kept[i] < |reports| && Trail(reports)[i] == reports[kept[i]]
  {
    TrailIsSelection(reports);
    KeptCovers(|reports|);
    KeptLength(|reports|);
    assert Covers(KeptIndices(|reports|), |reports|, Pow2(Thinnings(|reports|)));
  }
}
