/** How many of a label were on screen together: concurrent and liveEnd of
    internal/policy/incidents.go, and the per-label maximum build takes. */
module Headcount {
  import opened Common

  /** One Frigate object folded into an incident; end is UNSET while it lives. */
  datatype Member = Member(
    source: string,
    camera: string,
    labelName: string,
    start: Time,
    end: Time,
    zones: seq<string>,
    snapshot: bool,
    clip: bool)

  function LiveEnd(m: Member, at: Time): Time {
    if m.end == UNSET then at else m.end
  }

  /** The two members' lives share a stretch of at least overlap. */
  predicate LiveTogether(a: Member, b: Member, at: Time, overlap: int) {
    && LiveEnd(a, at) - Max(a.start, b.start) >= overlap
    && LiveEnd(b, at) - Max(a.start, b.start) >= overlap
  }

  /** S indexes members of one label on one camera, any two of them live
      together for at least overlap. */
  ghost predicate Together(ms: seq<Member>, S: set<nat>, what: string, at: Time, overlap: int) {
    && (forall i :: i in S ==> i < |ms| && ms[i].labelName == what)
    && (forall i, j :: i in S && j in S ==> ms[i].camera == ms[j].camera)
    && (forall i, j :: i in S && j in S && i != j ==> LiveTogether(ms[i], ms[j], at, overlap))
  }

  /** Who is live, among those that started no later than m, at the instant m
      has been live for overlap. */
  predicate Anchored(o: Member, m: Member, at: Time, overlap: int) {
    && o.camera == m.camera
    && o.labelName == m.labelName
    && o.start <= m.start
    && LiveEnd(o, at) >= m.start + overlap
  }

  ghost function AnchorSet(ms: seq<Member>, m: Member, n: nat, at: Time, overlap: int): set<nat>
    requires n <= |ms|
  {
    set i: nat | i < n && Anchored(ms[i], m, at, overlap)
  }

  ghost function Concurrent(ms: seq<Member>, m: Member, at: Time, overlap: int): nat {
    if LiveEnd(m, at) < m.start + overlap then 1
    else Max(|AnchorSet(ms, m, |ms|, at, overlap)|, 1)
  }

  method CountConcurrent(ms: seq<Member>, m: Member, at: Time, overlap: int) returns (n: nat)
    ensures n == Concurrent(ms, m, at, overlap)
  {
    var t := m.start + overlap;
    if LiveEnd(m, at) < t {
      return 1;
    }
    n := 0;
    for i := 0 to |ms|
      invariant n == |AnchorSet(ms, m, i, at, overlap)|
    {
      var o := ms[i];
      ghost var before := AnchorSet(ms, m, i, at, overlap);
      if Anchored(o, m, at, overlap) {
        assert AnchorSet(ms, m, i + 1, at, overlap) == before + {i as nat};
        n := n + 1;
      } else {
        assert AnchorSet(ms, m, i + 1, at, overlap) == before;
      }
    }
    n := Max(n, 1);
  }

  /** The Objects map after the first n members: per label, the largest
      anchored count so far. */
  ghost function Counts(ms: seq<Member>, n: nat, at: Time, overlap: int): map<string, nat>
    requires n <= |ms|
  {
    if n == 0 then map[]
    else
      var prev := Counts(ms, n - 1, at, overlap);
      var m := ms[n - 1];
      var c := Concurrent(ms, m, at, overlap);
      prev[m.labelName := if m.labelName in prev then Max(prev[m.labelName], c) else c]
  }

  /** Counts is the per-label maximum of Concurrent. */
  lemma {:induction false} CountsIsMaximum(ms: seq<Member>, n: nat, at: Time, overlap: int)
    requires n <= |ms|
    ensures var counts := Counts(ms, n, at, overlap);
            && (forall i :: 0 <= i < n ==>
                  ms[i].labelName in counts && Concurrent(ms, ms[i], at, overlap) <= counts[ms[i].labelName])
            && (forall l :: l in counts ==>
                  exists i :: 0 <= i < n && ms[i].labelName == l && Concurrent(ms, ms[i], at, overlap) == counts[l])
  {
    if n > 0 {
      CountsIsMaximum(ms, n - 1, at, overlap);
      var prev, counts := Counts(ms, n - 1, at, overlap), Counts(ms, n, at, overlap);
      forall l | l in counts
        ensures exists i :: 0 <= i < n && ms[i].labelName == l && Concurrent(ms, ms[i], at, overlap) == counts[l]
      {
        if l != ms[n - 1].labelName || (l in prev && counts[l] == prev[l]) {
          var i :| 0 <= i < n - 1 && ms[i].labelName == l && Concurrent(ms, ms[i], at, overlap) == prev[l];
        } else {
          assert Concurrent(ms, ms[n - 1], at, overlap) == counts[l];
        }
      }
    }
  }

  /** The member of S that started last: every other one is anchored to it. */
  lemma {:induction false} LatestStart(ms: seq<Member>, S: set<nat>) returns (k: nat)
    requires S != {} && forall i :: i in S ==> i < |ms|
    ensures k in S && forall i :: i in S ==> ms[i].start <= ms[k].start
    decreases S
  {
    k :| k in S;
    if S != {k} {
      var j := LatestStart(ms, S - {k});
      if ms[k].start < ms[j].start {
        k := j;
      }
    }
  }

  /** A set that was on screen together fits in the anchor set of its last
      arrival, so no such set is larger than the anchored count. */
  lemma TogetherIsAnchored(ms: seq<Member>, S: set<nat>, what: string, at: Time, overlap: int)
    returns (k: nat)
    requires S != {} && Together(ms, S, what, at, overlap)
    ensures k in S && |S| <= Concurrent(ms, ms[k], at, overlap)
  {
    k := LatestStart(ms, S);
    if S == {k} {
      assert |S| == 1;
    } else {
      var j :| j in S && j != k;
      assert LiveTogether(ms[j], ms[k], at, overlap);
      var A := AnchorSet(ms, ms[k], |ms|, at, overlap);
      forall i | i in S ensures i in A {
        if i != k {
          assert LiveTogether(ms[i], ms[k], at, overlap);
        }
      }
      SubsetSize(S, A);
    }
  }

  /** Conversely some set on screen together reaches each anchored count. */
  lemma AnchoredIsTogether(ms: seq<Member>, k: nat, at: Time, overlap: int) returns (S: set<nat>)
    requires k < |ms|
    ensures Together(ms, S, ms[k].labelName, at, overlap)
    ensures |S| == Concurrent(ms, ms[k], at, overlap)
  {
    S := {k};
    if LiveEnd(ms[k], at) >= ms[k].start + overlap {
      S := AnchorSet(ms, ms[k], |ms|, at, overlap);
      SubsetSize({k}, S);
    }
  }

  /** The count published for a label is exactly the size of the largest set of
      its members, on any one camera, any two of which were live together for
      overlap: looking only at the instants start + overlap loses nothing, and a
      chain of overlaps that never had three together counts two. */
  lemma CountIsLargestTogether(ms: seq<Member>, what: string, at: Time, overlap: int)
    ensures what in Counts(ms, |ms|, at, overlap) <==> exists i :: 0 <= i < |ms| && ms[i].labelName == what
    ensures what in Counts(ms, |ms|, at, overlap) ==>
              var n := Counts(ms, |ms|, at, overlap)[what];
              && (exists S: set<nat> :: Together(ms, S, what, at, overlap) && |S| == n)
              && (forall S: set<nat> :: Together(ms, S, what, at, overlap) ==> |S| <= n)
  {
    CountsIsMaximum(ms, |ms|, at, overlap);
    var counts := Counts(ms, |ms|, at, overlap);
    if what in counts {
      var k :| 0 <= k < |ms| && ms[k].labelName == what && Concurrent(ms, ms[k], at, overlap) == counts[what];
      var _ := AnchoredIsTogether(ms, k, at, overlap);
      forall S: set<nat> | Together(ms, S, what, at, overlap) ensures |S| <= counts[what] {
        if S != {} {
          var j := TogetherIsAnchored(ms, S, what, at, overlap);
        }
      }
    }
  }
}
