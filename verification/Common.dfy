/** Vocabulary shared by every component. */
module Common {

  /** An instant, in nanoseconds since Go's zero time.  The zero time is itself
      an instant, 0, and means "unset" wherever the program asks IsZero. */
  type Time = int

  const UNSET: Time := 0
  const SECOND := 1_000_000_000
  const MINUTE := 60 * SECOND
  const HOUR := 60 * MINUTE

  /** Nanoseconds from the zero time to the Unix epoch. */
  const UNIX_EPOCH := 62_135_596_800 * SECOND

  const MIN_INT64 := -0x8000_0000_0000_0000
  const MAX_INT64 := 0x7fff_ffff_ffff_ffff

  predicate IsInt64(n: int) {
    MIN_INT64 <= n <= MAX_INT64
  }

  /** Arithmetic on an int64 wraps around. */
  function Wrap64(n: int): (r: int)
    ensures IsInt64(r) && (IsInt64(n) ==> r == n)
  {
    (n + 0x8000_0000_0000_0000) % 0x1_0000_0000_0000_0000 - 0x8000_0000_0000_0000
  }

  datatype Option<+T> = None | Some(value: T)

  function Max(a: int, b: int): int {
    if a < b then b else a
  }

  /** Strings in the order first met, each once: what a loop that appends
      whatever is neither empty nor already there leaves behind. */
  function AddNew(seen: seq<string>, more: seq<string>): (r: seq<string>)
    ensures seen <= r
    ensures forall s :: s in r <==> s in seen || (s in more && s != "")
    ensures Distinct(seen) ==> Distinct(r)
    decreases |more|
  {
    if more == [] then seen
    else
      var seen' := if more[0] != "" && more[0] !in seen then seen + [more[0]] else seen;
      assert forall s :: s in more <==> s == more[0] || s in more[1..];
      AddNew(seen', more[1..])
  }

  ghost predicate Distinct<T>(s: seq<T>) {
    forall i, j :: 0 <= i < j < |s| ==> s[i] != s[j]
  }

  lemma {:induction false} SubsetSize<T>(a: set<T>, b: set<T>)
    requires a <= b
    ensures |a| <= |b|
    decreases a
  {
    if a != {} {
      var x :| x in a;
      SubsetSize(a - {x}, b - {x});
    }
  }

  lemma ProperSubsetSize<T>(a: set<T>, b: set<T>)
    requires a < b
    ensures |a| < |b|
  {
    var x :| x in b && x !in a;
    SubsetSize(a, b - {x});
  }
}
