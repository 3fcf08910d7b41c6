/** The walkable camera graph of an incident engine: the symmetric closure
    NewIncidents makes and the reachable test (internal/policy/incidents.go). */
module Adjacency {
  import opened Common

  /** None: every camera adjoins every other.  A camera is known when it has an
      edge. */
  type Graph = Option<map<string, set<string>>>

  ghost predicate Listed(edges: map<string, seq<string>>, a: string, b: string) {
    a in edges && b in edges[a]
  }

  predicate Edge(g: map<string, set<string>>, a: string, b: string) {
    a in g && b in g[a]
  }

  function WithEdge(g: map<string, set<string>>, a: string, b: string): (r: map<string, set<string>>)
    ensures forall x, y :: Edge(r, x, y) <==> Edge(g, x, y) || (x == a && y == b)
    ensures (forall x :: x in g ==> g[x] != {}) ==> forall x :: x in r ==> r[x] != {}
  {
    g[a := (if a in g then g[a] else {}) + {b}]
  }

  /** Edges made symmetric however they were written; a camera listed without
      neighbours stays unknown. */
  method Closure(edges: map<string, seq<string>>) returns (g: Graph)
    ensures g.None? <==> edges == map[]
    ensures g.Some? ==> forall a, b :: Edge(g.value, a, b) <==> Listed(edges, a, b) || Listed(edges, b, a)
    ensures g.Some? ==> forall a :: a in g.value <==> exists b :: Edge(g.value, a, b)
  {
    if edges == map[] {
      return None;
    }
    var m: map<string, set<string>> := map[];
    var todo := edges.Keys;
    while todo != {}
      invariant todo <= edges.Keys
      invariant forall a, b :: Edge(m, a, b) <==>
                  (a !in todo && Listed(edges, a, b)) || (b !in todo && Listed(edges, b, a))
      invariant forall a :: a in m ==> m[a] != {}
    {
      var cam :| cam in todo;
      var ns := edges[cam];
      for i := 0 to |ns|
        invariant forall a, b :: Edge(m, a, b) <==>
                    || (a !in todo && Listed(edges, a, b))
                    || (b !in todo && Listed(edges, b, a))
                    || (a == cam && b in ns[..i])
                    || (b == cam && a in ns[..i])
        invariant forall a :: a in m ==> m[a] != {}
      {
        m := WithEdge(WithEdge(m, cam, ns[i]), ns[i], cam);
        assert ns[..i + 1] == ns[..i] + [ns[i]];
      }
      assert ns[..|ns|] == ns;
      todo := todo - {cam};
    }
    g := Some(m);
    forall a | a in m ensures exists b :: Edge(m, a, b) {
      var b :| b in m[a];
      assert Edge(m, a, b);
    }
  }

  ghost predicate Symmetric(g: Graph) {
    g.Some? ==> forall a, b :: Edge(g.value, a, b) ==> Edge(g.value, b, a)
  }

  /** An actor on camera b could have come from camera a. */
  predicate Linked(g: Graph, a: string, b: string) {
    g.None? || b !in g.value || a == b || a in g.value[b] || a !in g.value
  }

  ghost predicate Reachable(g: Graph, cams: seq<string>, camera: string) {
    g.None? || camera !in g.value || exists i :: 0 <= i < |cams| && Linked(g, cams[i], camera)
  }

  /** Whether an actor on camera could have walked out of any of these. */
  method Reaches(g: Graph, cams: seq<string>, camera: string) returns (r: bool)
    ensures r <==> Reachable(g, cams, camera)
  {
    if g.None? || camera !in g.value {
      return true;
    }
    for i := 0 to |cams|
      invariant forall k :: 0 <= k < i ==> !Linked(g, cams[k], camera)
    {
      if cams[i] == camera || cams[i] in g.value[camera] || cams[i] !in g.value {
        assert Linked(g, cams[i], camera);
        return true;
      }
    }
    return false;
  }

  /** Each camera after the first links to an earlier one: how an incident grew. */
  ghost predicate Chained(g: Graph, cams: seq<string>) {
    forall k :: 0 < k < |cams| ==> LinkedBefore(g, cams, k)
  }

  ghost predicate LinkedBefore(g: Graph, cams: seq<string>, k: nat)
    requires k < |cams|
  {
    exists j :: 0 <= j < k && Linked(g, cams[j], cams[k])
  }

  lemma ChainGrows(g: Graph, cams: seq<string>, c: string)
    requires Chained(g, cams) && (cams == [] || Reachable(g, cams, c))
    ensures Chained(g, cams + [c])
  {
    var cams' := cams + [c];
    forall k | 0 < k < |cams'| ensures LinkedBefore(g, cams', k) {
      if k < |cams| {
        assert LinkedBefore(g, cams, k);
        var j :| 0 <= j < k && Linked(g, cams[j], cams[k]);
        assert Linked(g, cams'[j], cams'[k]);
      } else if exists i :: 0 <= i < |cams| && Linked(g, cams[i], c) {
        var i :| 0 <= i < |cams| && Linked(g, cams[i], c);
        assert Linked(g, cams'[i], cams'[k]);
      } else {
        assert Linked(g, cams'[0], cams'[k]);
      }
    }
  }

  ghost predicate IsWalk(g: map<string, set<string>>, w: seq<string>) {
    w != [] && forall i, j :: 0 <= i && j == i + 1 && j < |w| ==> Edge(g, w[i], w[j])
  }

  ghost predicate Connected(g: map<string, set<string>>, a: string, b: string) {
    exists w :: IsWalk(g, w) && w[0] == a && w[|w| - 1] == b
  }

  lemma WalkOn(g: map<string, set<string>>, a: string, b: string, c: string)
    requires Connected(g, a, b) && Edge(g, b, c)
    ensures Connected(g, a, c)
  {
    var w :| IsWalk(g, w) && w[0] == a && w[|w| - 1] == b;
    assert IsWalk(g, w + [c]);
  }

  lemma StandStill(g: map<string, set<string>>, a: string)
    ensures Connected(g, a, a)
  {
    assert IsWalk(g, [a]);
  }

  lemma {:induction false} WalkBack(g: map<string, set<string>>, w: seq<string>)
    requires IsWalk(g, w)
    requires forall a, b :: Edge(g, a, b) ==> Edge(g, b, a)
    ensures Connected(g, w[|w| - 1], w[0])
    decreases |w|
  {
    StandStill(g, w[0]);
    if |w| > 1 {
      assert Edge(g, w[0], w[1]);
      WalkBack(g, w[1..]);
      WalkOn(g, w[|w| - 1], w[1], w[0]);
    }
  }

  lemma {:induction false} WalkThrough(g: map<string, set<string>>, a: string, w: seq<string>)
    requires IsWalk(g, w) && Connected(g, a, w[0])
    ensures Connected(g, a, w[|w| - 1])
    decreases |w|
  {
    if |w| > 1 {
      assert Edge(g, w[0], w[1]);
      WalkOn(g, a, w[0], w[1]);
      WalkThrough(g, a, w[1..]);
    }
  }

  lemma {:induction false} FromFirst(g: Graph, cams: seq<string>, k: nat)
    requires g.Some? && Symmetric(g) && Chained(g, cams)
    requires k < |cams| && forall i :: 0 <= i < |cams| ==> cams[i] in g.value
    ensures Connected(g.value, cams[0], cams[k])
    decreases k
  {
    StandStill(g.value, cams[0]);
    if k > 0 {
      assert LinkedBefore(g, cams, k);
      var j :| 0 <= j < k && Linked(g, cams[j], cams[k]);
      FromFirst(g, cams, j);
      if cams[j] != cams[k] {
        assert Edge(g.value, cams[k], cams[j]);
        WalkOn(g.value, cams[0], cams[j], cams[k]);
      }
    }
  }

  /** Cameras that grew by linking, all known to the graph, lie in one connected
      component of it. */
  lemma OneComponent(g: Graph, cams: seq<string>, i: nat, j: nat)
    requires g.Some? && Symmetric(g) && Chained(g, cams)
    requires i < |cams| && j < |cams| && forall i :: 0 <= i < |cams| ==> cams[i] in g.value
    ensures Connected(g.value, cams[i], cams[j])
  {
    FromFirst(g, cams, i);
    FromFirst(g, cams, j);
    var w :| IsWalk(g.value, w) && w[0] == cams[0] && w[|w| - 1] == cams[i];
    WalkBack(g.value, w);
    var w' :| IsWalk(g.value, w') && w'[0] == cams[0] && w'[|w'| - 1] == cams[j];
    WalkThrough(g.value, cams[i], w');
  }
}
