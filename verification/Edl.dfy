/** The scored edit decision list: internal/edl/edl.go. */
module Edl {
  import opened Common
  import opened Policy

  const STEP := 500_000_000
  const STALE := 5 * SECOND
  const MIN_SHOT := 2_500_000_000
  const ADVANTAGE := 1.3

  datatype Segment = Segment(camera: string, s: real, e: real)

  /** A duration in seconds, as segments are given. */
  function Secs(d: int): real {
    d as real / 1_000_000_000.0
  }

  type Dims = map<string, (int, int)>

  predicate Scorable(dims: Dims, cam: string) {
    cam in dims && dims[cam].0 > 0 && dims[cam].1 > 0
  }

  // ----- scoring -----

  /** One camera's samples, in the order they came. */
  function SamplesOf(boxes: seq<BoxSample>, cam: string): seq<BoxSample> {
    if boxes == [] then []
    else
      var b := boxes[|boxes| - 1];
      SamplesOf(boxes[..|boxes| - 1], cam) + (if b.camera == cam then [b] else [])
  }

  ghost predicate TimeOrdered(samples: seq<BoxSample>) {
    forall i, j :: 0 <= i < j < |samples| ==> samples[i].at <= samples[j].at
  }

  /** How far the latest sample at or before t is into the samples; 0 if none. */
  function Cursor(samples: seq<BoxSample>, t: Time): (i: nat)
    ensures i <= |samples|
    ensures i > 0 ==> samples[i - 1].at <= t
    ensures forall k :: i <= k < |samples| ==> samples[k].at > t
  {
    if samples == [] then 0
    else if samples[|samples| - 1].at <= t then |samples|
    else Cursor(samples[..|samples| - 1], t)
  }

  /** The prominence a sample gives its camera at t, or -1. */
  function Prominence(s: BoxSample, t: Time, d: (int, int)): real
    requires d.0 > 0 && d.1 > 0
  {
    var w, h := s.x2 - s.x1, s.y2 - s.y1;
    if t - s.at > STALE || w <= 0.0 || h <= 0.0 then -1.0
    else w * h / (d.0 * d.1) as real
  }

  /** The score of a camera: the latest sample at or before t, if fresh. */
  function ScoreOf(samples: seq<BoxSample>, t: Time, d: (int, int)): real
    requires d.0 > 0 && d.1 > 0
  {
    var i := Cursor(samples, t);
    if i == 0 then -1.0 else Prominence(samples[i - 1], t, d)
  }

  /** A sample no older than five seconds, of a box with an inside. */
  predicate IsFresh(s: BoxSample, t: Time) {
    t - s.at <= 5_000_000_000 && s.x1 < s.x2 && s.y1 < s.y2
  }

  /** The share of the frame that the box fills. */
  function ShareOf(s: BoxSample, d: (int, int)): real
    requires d.0 > 0 && d.1 > 0
  {
    (s.x2 - s.x1) * (s.y2 - s.y1) / (d.0 * d.1) as real
  }

  /** The first i samples are those at or before t, and the score is the share
      that the last of them fills if fresh. */
  ghost predicate IsScore(samples: seq<BoxSample>, i: nat, t: Time, d: (int, int), score: real)
    requires i <= |samples| && d.0 > 0 && d.1 > 0
  {
    && (forall k :: 0 <= k < |samples| ==> (samples[k].at <= t <==> k < i))
    && score == if i > 0 && IsFresh(samples[i - 1], t) then ShareOf(samples[i - 1], d) else -1.0
  }

  lemma ProminencePositive(s: BoxSample, t: Time, d: (int, int))
    requires d.0 > 0 && d.1 > 0
    ensures Prominence(s, t, d) == -1.0 || Prominence(s, t, d) > 0.0
  {
    var w, h := s.x2 - s.x1, s.y2 - s.y1;
    if w > 0.0 && h > 0.0 {
      assert w * h > 0.0;
      assert (d.0 * d.1) as real > 0.0;
    }
  }

  /** The moving index: samples passed once are never looked at again. */
  method Score(samples: seq<BoxSample>, from: nat, t: Time, d: (int, int)) returns (score: real, i: nat)
    requires from <= |samples| && d.0 > 0 && d.1 > 0
    ensures i <= |samples|
    ensures score == -1.0 || score > 0.0
    ensures TimeOrdered(samples) && from <= Cursor(samples, t) ==>
              i == Cursor(samples, t) && score == ScoreOf(samples, t, d)
    ensures TimeOrdered(samples) && from <= Cursor(samples, t) ==>
              IsScore(samples, i, t, d, score)
  {
    i := from;
    while i < |samples| && samples[i].at <= t
      invariant from <= i <= |samples|
      invariant from < i ==> samples[i - 1].at <= t
    {
      i := i + 1;
    }
    if i == 0 {
      return -1.0, i;
    }
    ProminenceIsShare(samples[i - 1], t, d);
    score := Prominence(samples[i - 1], t, d);
    hide Prominence, IsFresh, ShareOf;
  }

  // ----- the cut, step by step -----

  /** What is shown, and since when; "" before any evidence. */
  datatype Shot = Shot(camera: string, since: Time)

  /** A scene: the cameras that can be scored and how each scores at t. */
  datatype Scene = Scene(boxes: seq<BoxSample>, dims: Dims)

  predicate InScene(sc: Scene, cam: string) {
    Scorable(sc.dims, cam) && exists i :: 0 <= i < |sc.boxes| && sc.boxes[i].camera == cam
  }

  function SceneScore(sc: Scene, cam: string, t: Time): real {
    if Scorable(sc.dims, cam) then ScoreOf(SamplesOf(sc.boxes, cam), t, sc.dims[cam]) else -1.0
  }

  ghost predicate IsBest(sc: Scene, cam: string, t: Time) {
    && InScene(sc, cam) && SceneScore(sc, cam, t) >= 0.0
    && forall c :: InScene(sc, c) ==> SceneScore(sc, c, t) <= SceneScore(sc, cam, t)
  }

  ghost predicate Blind(sc: Scene, t: Time) {
    forall c :: InScene(sc, c) ==> SceneScore(sc, c, t) < 0.0
  }

  /** The rule of one step: hold through silence, open on a best view, and hand
      off to a best view that has the advantage once the eye has settled. */
  ghost predicate Decides(sc: Scene, t: Time, prev: Shot, next: Shot) {
    || (Blind(sc, t) && next == prev)
    || (exists best :: IsBest(sc, best, t) && next == Choice(sc, t, prev, best))
  }

  function Choice(sc: Scene, t: Time, prev: Shot, best: string): Shot {
    if prev.camera == "" then Shot(best, t)
    else if best != prev.camera && t - prev.since >= MIN_SHOT
            && SceneScore(sc, best, t) >= SceneScore(sc, prev.camera, t) * ADVANTAGE
    then Shot(best, t)
    else prev
  }

  const NOTHING := Shot("", UNSET)

  /** A whole cut: what is shown after each step of the clock. */
  ghost predicate IsCut(sc: Scene, clipStart: Time, cut: seq<Shot>) {
    forall i :: 0 <= i < |cut| ==> CutStep(sc, clipStart, cut, i)
  }

  ghost predicate CutStep(sc: Scene, clipStart: Time, cut: seq<Shot>, i: nat)
    requires i < |cut|
  {
    Decides(sc, clipStart + i * STEP, if i == 0 then NOTHING else cut[i - 1], cut[i])
  }

  // ----- the rule, told by the samples -----

  /** Sample k is the camera's last at or before t. */
  ghost predicate LastOf(boxes: seq<BoxSample>, cam: string, t: Time, k: nat) {
    && k < |boxes| && boxes[k].camera == cam && boxes[k].at <= t
    && forall j :: k < j < |boxes| && boxes[j].camera == cam ==> boxes[j].at > t
  }

  /** The camera's last sample is fresh and fills this share of its frame. */
  ghost predicate Fills(boxes: seq<BoxSample>, dims: Dims, cam: string, t: Time, share: real) {
    && cam in dims && dims[cam].0 > 0 && dims[cam].1 > 0
    && exists k: nat :: LastOf(boxes, cam, t, k) && IsFresh(boxes[k], t) && share == ShareOf(boxes[k], dims[cam])
  }

  /** No camera's frame is filled more. */
  ghost predicate IsWidest(boxes: seq<BoxSample>, dims: Dims, cam: string, t: Time) {
    exists share :: Fills(boxes, dims, cam, t, share) && forall c, s :: Fills(boxes, dims, c, t, s) ==> s <= share
  }

  /** The camera's share has the advantage over any that the incumbent has. */
  ghost predicate Beats(boxes: seq<BoxSample>, dims: Dims, cam: string, incumbent: string, t: Time) {
    forall s, p :: Fills(boxes, dims, cam, t, s) && Fills(boxes, dims, incumbent, t, p) ==> s >= 1.3 * p
  }

  /** One step: without a fresh sample anywhere nothing changes; otherwise some
      widest view opens the cut, or takes it from another camera that has held it
      for the least shot if it beats that one. */
  ghost predicate Rule(boxes: seq<BoxSample>, dims: Dims, t: Time, prev: Shot, next: Shot) {
    if forall c, s :: !Fills(boxes, dims, c, t, s) then next == prev
    else exists best :: IsWidest(boxes, dims, best, t) && next ==
           if prev.camera == ""
              || (best != prev.camera && t - prev.since >= 2_500_000_000 && Beats(boxes, dims, best, prev.camera, t))
           then Shot(best, t) else prev
  }

  ghost predicate RuleAt(boxes: seq<BoxSample>, dims: Dims, clipStart: Time, cut: seq<Shot>, i: nat)
    requires i < |cut|
  {
    Rule(boxes, dims, clipStart + i * 500_000_000, if i == 0 then Shot("", UNSET) else cut[i - 1], cut[i])
  }

  ghost predicate FollowsRule(boxes: seq<BoxSample>, dims: Dims, clipStart: Time, cut: seq<Shot>) {
    forall i :: 0 <= i < |cut| ==> RuleAt(boxes, dims, clipStart, cut, i)
  }

  /** The cursor into one camera's samples stands after its last at or before t. */
  ghost predicate CursorFinds(boxes: seq<BoxSample>, samples: seq<BoxSample>, i: nat, cam: string, t: Time)
    requires i <= |samples|
  {
    if i == 0 then forall k: nat :: !LastOf(boxes, cam, t, k)
    else exists k: nat :: LastOf(boxes, cam, t, k) && boxes[k] == samples[i - 1]
  }

  lemma {:induction false} CursorIsLast(boxes: seq<BoxSample>, cam: string, t: Time)
    ensures var samples := SamplesOf(boxes, cam);
            CursorFinds(boxes, samples, Cursor(samples, t), cam, t)
    decreases |boxes|
  {
    if boxes != [] {
      var n := |boxes| - 1;
      var b, samples := boxes[n], SamplesOf(boxes, cam);
      if b.camera == cam && b.at <= t {
        assert LastOf(boxes, cam, t, n);
      } else {
        CursorIsLast(boxes[..n], cam, t);
        assert b.camera == cam ==> samples[..|samples| - 1] == SamplesOf(boxes[..n], cam);
        FindsInInit(boxes, SamplesOf(boxes[..n], cam), samples, Cursor(samples, t), cam, t);
      }
    }
  }

  lemma FindsInInit(boxes: seq<BoxSample>, before: seq<BoxSample>, samples: seq<BoxSample>, i: nat, cam: string,
                    t: Time)
    requires boxes != [] && !(boxes[|boxes| - 1].camera == cam && boxes[|boxes| - 1].at <= t)
    requires before <= samples && i <= |before| && CursorFinds(boxes[..|boxes| - 1], before, i, cam, t)
    ensures CursorFinds(boxes, samples, i, cam, t)
  {
    hide LastOf;
    var init := boxes[..|boxes| - 1];
    forall k: nat
      ensures LastOf(boxes, cam, t, k) <==> LastOf(init, cam, t, k)
      ensures LastOf(init, cam, t, k) ==> k < |init|
    {
      LastOfInit(boxes, cam, t, k);
    }
    if i > 0 {
      var k: nat :| LastOf(init, cam, t, k) && init[k] == before[i - 1];
      assert boxes[k] == init[k];
    }
  }

  lemma LastOfInit(boxes: seq<BoxSample>, cam: string, t: Time, k: nat)
    requires boxes != [] && !(boxes[|boxes| - 1].camera == cam && boxes[|boxes| - 1].at <= t)
    ensures LastOf(boxes, cam, t, k) <==> LastOf(boxes[..|boxes| - 1], cam, t, k)
    ensures LastOf(boxes, cam, t, k) ==> k < |boxes| - 1
  {
    var init := boxes[..|boxes| - 1];
    assert forall j :: 0 <= j < |init| ==> init[j] == boxes[j];
  }

  lemma OneLast(boxes: seq<BoxSample>, cam: string, t: Time, k: nat)
    requires LastOf(boxes, cam, t, k)
    ensures forall j: nat :: LastOf(boxes, cam, t, j) ==> j == k
  {
  }

  lemma ProminenceIsShare(s: BoxSample, t: Time, d: (int, int))
    requires d.0 > 0 && d.1 > 0
    ensures Prominence(s, t, d) == if IsFresh(s, t) then ShareOf(s, d) else -1.0
    ensures IsFresh(s, t) ==> ShareOf(s, d) > 0.0
  {
    ProminencePositive(s, t, d);
  }

  /** A camera scores the share its last sample fills, and -1 if it fills none. */
  lemma ScoreIsShare(sc: Scene, cam: string, t: Time)
    ensures forall share :: Fills(sc.boxes, sc.dims, cam, t, share) ==> SceneScore(sc, cam, t) == share > 0.0
    ensures (forall share :: !Fills(sc.boxes, sc.dims, cam, t, share)) ==> SceneScore(sc, cam, t) == -1.0
    ensures SceneScore(sc, cam, t) >= 0.0 <==> Fills(sc.boxes, sc.dims, cam, t, SceneScore(sc, cam, t))
    ensures (exists share :: Fills(sc.boxes, sc.dims, cam, t, share)) ==> InScene(sc, cam)
  {
    hide SamplesOf, Cursor, Prominence, IsFresh, ShareOf;
    CursorIsLast(sc.boxes, cam, t);
    if Scorable(sc.dims, cam) {
      var samples := SamplesOf(sc.boxes, cam);
      var i := Cursor(samples, t);
      if i > 0 {
        var s, d := samples[i - 1], sc.dims[cam];
        ProminenceIsShare(s, t, d);
        var k: nat :| LastOf(sc.boxes, cam, t, k) && sc.boxes[k] == s;
        OneLast(sc.boxes, cam, t, k);
        if IsFresh(s, t) {
          assert Fills(sc.boxes, sc.dims, cam, t, ShareOf(s, d));
        }
      }
    }
  }

  lemma CutFollowsRule(sc: Scene, clipStart: Time, cut: seq<Shot>)
    requires IsCut(sc, clipStart, cut)
    ensures FollowsRule(sc.boxes, sc.dims, clipStart, cut)
  {
    forall i | 0 <= i < |cut| ensures RuleAt(sc.boxes, sc.dims, clipStart, cut, i) {
      assert CutStep(sc, clipStart, cut, i);
      DecisionFollowsRule(sc, clipStart + i * STEP, if i == 0 then NOTHING else cut[i - 1], cut[i]);
    }
  }

  lemma DecisionFollowsRule(sc: Scene, t: Time, prev: Shot, next: Shot)
    requires Decides(sc, t, prev, next)
    ensures Rule(sc.boxes, sc.dims, t, prev, next)
  {
    hide SceneScore, InScene, Fills;
    forall c, share | Fills(sc.boxes, sc.dims, c, t, share)
      ensures InScene(sc, c) && SceneScore(sc, c, t) == share > 0.0
    {
      ScoreIsShare(sc, c, t);
    }
    forall c | SceneScore(sc, c, t) >= 0.0 ensures Fills(sc.boxes, sc.dims, c, t, SceneScore(sc, c, t)) {
      ScoreIsShare(sc, c, t);
    }
    if !Blind(sc, t) {
      var best :| IsBest(sc, best, t) && next == Choice(sc, t, prev, best);
      assert IsWidest(sc.boxes, sc.dims, best, t);
    }
  }

  // ----- segments -----

  /** Segments that tile [0, end): contiguous, never twice the same camera in a
      row, each but the last holding the eye for the least shot. */
  ghost predicate Tiles(segs: seq<Segment>, end: real) {
    && segs != []
    && segs[0].s == 0.0 && segs[|segs| - 1].e == end
    && (forall i :: 0 <= i < |segs| ==> segs[i].s < segs[i].e)
    && (forall i, j :: 0 <= i && j == i + 1 && j < |segs| ==>
          segs[i].e == segs[j].s && segs[i].camera != segs[j].camera && segs[i].e - segs[i].s >= Secs(MIN_SHOT))
  }

  /** Every step that shows a camera lies in a segment of that camera, and the
      steps that show none in the opening one. */
  ghost predicate Shows(segs: seq<Segment>, cut: seq<Shot>) {
    forall i, k :: 0 <= i < |cut| && 0 <= k < |segs| && segs[k].s <= Secs(i * STEP) < segs[k].e ==>
      if cut[i].camera == "" then k == 0 else segs[k].camera == cut[i].camera
  }

  /** Where the next segment will start. */
  ghost predicate Rendered(segs: seq<Segment>, cut: seq<Shot>, shot: Shot, segStart: int) {
    && shot == (if cut == [] then NOTHING else cut[|cut| - 1])
    && (shot.camera == "" ==> segs == [] && segStart == 0 && forall i :: 0 <= i < |cut| ==> cut[i].camera == "")
    && (segs == [] ==> segStart == 0)
    && (segs != [] ==> segStart > 0 && Tiles(segs, Secs(segStart)) && Shows(segs, cut)
                       && segs[|segs| - 1].e - segs[|segs| - 1].s >= Secs(MIN_SHOT)
                       && segs[|segs| - 1].camera != shot.camera)
    && (forall i :: 0 <= i < |cut| && i * STEP >= segStart ==> cut[i].camera == "" || cut[i].camera == shot.camera)
    && (segs != [] ==> forall i :: 0 <= i < |cut| && i * STEP >= segStart ==> cut[i].camera != "")
  }

  // ----- building it -----

  /** perCam holds the samples of the cameras of the scene. */
  ghost predicate Gathered(perCam: map<string, seq<BoxSample>>, boxes: seq<BoxSample>, dims: Dims) {
    && (forall c :: c in perCam <==> InScene(Scene(boxes, dims), c))
    && (forall c :: c in perCam ==> perCam[c] == SamplesOf(boxes, c))
    && (forall c :: c !in perCam && Scorable(dims, c) ==> SamplesOf(boxes, c) == [])
  }

  method Gather(boxes: seq<BoxSample>, dims: Dims) returns (perCam: map<string, seq<BoxSample>>)
    ensures forall c :: c in perCam <==> InScene(Scene(boxes, dims), c)
    ensures forall c :: c in perCam ==> perCam[c] == SamplesOf(boxes, c)
  {
    perCam := map[];
    for i := 0 to |boxes|
      invariant Gathered(perCam, boxes[..i], dims)
    {
      hide Gathered;
      GatheredOne(perCam, boxes, dims, i);
      var b := boxes[i];
      if Scorable(dims, b.camera) {
        perCam := perCam[b.camera := (if b.camera in perCam then perCam[b.camera] else []) + [b]];
      }
    }
    assert boxes[..|boxes|] == boxes;
  }

  lemma GatheredOne(perCam: map<string, seq<BoxSample>>, boxes: seq<BoxSample>, dims: Dims, i: nat)
    requires i < |boxes| && Gathered(perCam, boxes[..i], dims)
    ensures var b := boxes[i];
            Gathered(if Scorable(dims, b.camera)
                     then perCam[b.camera := (if b.camera in perCam then perCam[b.camera] else []) + [b]] else perCam,
                     boxes[..i + 1], dims)
  {
    assert boxes[i].camera in perCam ==> Scorable(dims, boxes[i].camera);
    hide InScene, Scorable;
    SceneGrows(boxes, dims, i);
    SamplesGrow(boxes, i);
    hide SamplesOf;
  }

  lemma SamplesGrow(boxes: seq<BoxSample>, i: nat)
    requires i < |boxes|
    ensures forall c :: c != boxes[i].camera ==> SamplesOf(boxes[..i + 1], c) == SamplesOf(boxes[..i], c)
    ensures var c := boxes[i].camera; SamplesOf(boxes[..i + 1], c) == SamplesOf(boxes[..i], c) + [boxes[i]]
  {
    assert boxes[..i + 1][..i] == boxes[..i];
  }

  lemma SceneGrows(boxes: seq<BoxSample>, dims: Dims, i: nat)
    requires i < |boxes|
    ensures forall c :: InScene(Scene(boxes[..i + 1], dims), c) <==>
              InScene(Scene(boxes[..i], dims), c) || (Scorable(dims, c) && c == boxes[i].camera)
  {
    forall c | InScene(Scene(boxes[..i], dims), c) ensures InScene(Scene(boxes[..i + 1], dims), c) {
      var k :| 0 <= k < i && boxes[..i][k].camera == c;
      assert boxes[..i + 1][k].camera == c;
    }
    forall c | Scorable(dims, c) && c == boxes[i].camera ensures InScene(Scene(boxes[..i + 1], dims), c) {
      assert boxes[..i + 1][i].camera == c;
    }
    forall c | InScene(Scene(boxes[..i + 1], dims), c) && c != boxes[i].camera
      ensures InScene(Scene(boxes[..i], dims), c)
    {
      var k :| 0 <= k < i + 1 && boxes[..i + 1][k].camera == c;
      assert boxes[..i][k].camera == c;
    }
  }

  lemma {:induction false} SamplesOrdered(boxes: seq<BoxSample>, cam: string)
    requires TimeOrdered(boxes)
    ensures TimeOrdered(SamplesOf(boxes, cam))
    ensures forall s :: s in SamplesOf(boxes, cam) ==> s in boxes
    decreases |boxes|
  {
    if boxes != [] {
      var init, b := boxes[..|boxes| - 1], boxes[|boxes| - 1];
      SamplesOrdered(init, cam);
      var before := SamplesOf(init, cam);
      forall k | 0 <= k < |before| ensures before[k].at <= b.at {
        assert before[k] in before;
        var j :| 0 <= j < |init| && init[j] == before[k];
        assert boxes[j] == init[j];
      }
    }
  }

  /** The cursors have not been moved past t. */
  ghost predicate Behind(perCam: map<string, seq<BoxSample>>, idx: map<string, nat>, t: Time) {
    && idx.Keys == perCam.Keys
    && forall c :: c in perCam ==> idx[c] <= Cursor(perCam[c], t) && TimeOrdered(perCam[c])
  }

  ghost predicate InBounds(perCam: map<string, seq<BoxSample>>, idx: map<string, nat>) {
    idx.Keys == perCam.Keys && forall c :: c in perCam ==> idx[c] <= |perCam[c]|
  }

  function CamScore(perCam: map<string, seq<BoxSample>>, dims: Dims, c: string, t: Time): real {
    if c in perCam && Scorable(dims, c) then ScoreOf(perCam[c], t, dims[c]) else -1.0
  }

  ghost predicate IsTop(perCam: map<string, seq<BoxSample>>, dims: Dims, t: Time, among: set<string>, best: string,
                        score: real)
  {
    && (forall c :: c in among ==> CamScore(perCam, dims, c, t) <= score)
    && (best == "" ==> score == -1.0)
    && (best != "" ==> best in among && score == CamScore(perCam, dims, best, t) && score > 0.0)
  }

  /** The best view at t, over the cameras in any order. */
  method FindBest(perCam: map<string, seq<BoxSample>>, dims: Dims, before: map<string, nat>, t: Time)
    returns (best: string, bestScore: real, idx: map<string, nat>)
    requires forall c :: c in perCam ==> Scorable(dims, c) && c != ""
    requires InBounds(perCam, before)
    ensures InBounds(perCam, idx)
    ensures best == "" ==> bestScore == -1.0
    ensures best != "" ==> best in perCam && bestScore > 0.0
    ensures Behind(perCam, before, t) ==> Behind(perCam, idx, t) && IsTop(perCam, dims, t, perCam.Keys, best, bestScore)
  {
    hide Cursor, ScoreOf, TimeOrdered, IsScore;
    best, bestScore, idx := "", -1.0, before;
    assert IsTop(perCam, dims, t, {}, best, bestScore);
    hide IsTop;
    var todo := perCam.Keys;
    assert perCam.Keys - todo == {};
    while todo != {}
      invariant todo <= perCam.Keys && InBounds(perCam, idx)
      invariant best == "" ==> bestScore == -1.0
      invariant best != "" ==> best in perCam && bestScore > 0.0
      invariant Behind(perCam, before, t) ==>
                  Behind(perCam, idx, t) && IsTop(perCam, dims, t, perCam.Keys - todo, best, bestScore)
    {
      var cam :| cam in todo;
      var sc, i := Score(perCam[cam], idx[cam], t, dims[cam]);
      if Behind(perCam, before, t) {
        assert sc == CamScore(perCam, dims, cam, t);
        TopGrows(perCam, dims, t, perCam.Keys - todo, best, bestScore, cam);
        assert perCam.Keys - (todo - {cam}) == perCam.Keys - todo + {cam};
      }
      todo := todo - {cam};
      idx := idx[cam := i];
      if sc > bestScore {
        best, bestScore := cam, sc;
      }
    }
  }

  lemma TopGrows(perCam: map<string, seq<BoxSample>>, dims: Dims, t: Time, among: set<string>, best: string,
                 score: real, cam: string)
    requires IsTop(perCam, dims, t, among, best, score) && cam != ""
    requires CamScore(perCam, dims, cam, t) == -1.0 || CamScore(perCam, dims, cam, t) > 0.0
    ensures var sc := CamScore(perCam, dims, cam, t);
            IsTop(perCam, dims, t, among + {cam}, if sc > score then cam else best, if sc > score then sc else score)
  {
    hide CamScore;
  }

  function Emitted(segs: seq<Segment>, camera: string, s: real, e: real): seq<Segment> {
    if segs != [] && segs[|segs| - 1].camera == camera
    then segs[|segs| - 1 := segs[|segs| - 1].(e := e)]
    else segs + [Segment(camera, s, e)]
  }

  method Emit(before: seq<Segment>, camera: string, clipStart: Time, from: Time, to: Time) returns (segs: seq<Segment>)
    ensures segs == if camera == "" || to <= from then before
                    else Emitted(before, camera, Secs(from - clipStart), Secs(to - clipStart))
  {
    segs := before;
    if camera == "" || to <= from {
      return;
    }
    var s, e := Secs(from - clipStart), Secs(to - clipStart);
    var n := |segs|;
    if n > 0 && segs[n - 1].camera == camera {
      segs := segs[n - 1 := segs[n - 1].(e := e)];
      return;
    }
    segs := segs + [Segment(camera, s, e)];
  }

  /** Segments so far, and where the shot now running began, in nanoseconds from
      the clip's start. */
  lemma RenderKept(segs: seq<Segment>, cut: seq<Shot>, shot: Shot, segStart: int)
    requires Rendered(segs, cut, shot, segStart) && segStart <= |cut| * STEP
    ensures Rendered(segs, cut + [shot], shot, segStart)
  {
    assert (cut + [shot])[|cut|] == shot;
    if segs != [] {
      ShowsMore(segs, cut, shot, segStart);
    }
  }

  /** A step past the last segment shows in none of them. */
  lemma ShowsMore(segs: seq<Segment>, cut: seq<Shot>, shot: Shot, segStart: int)
    requires Tiles(segs, Secs(segStart)) && Shows(segs, cut) && segStart <= |cut| * STEP
    ensures Shows(segs, cut + [shot])
  {
    var cut' := cut + [shot];
    forall i, k | 0 <= i < |cut'| && 0 <= k < |segs| && segs[k].s <= Secs(i * STEP) < segs[k].e
      ensures if cut'[i].camera == "" then k == 0 else segs[k].camera == cut'[i].camera
    {
      EndsBy(segs, Secs(segStart), k);
      assert i < |cut|;
      assert cut'[i] == cut[i];
    }
  }

  lemma {:induction false} EndsBy(segs: seq<Segment>, end: real, k: nat)
    requires Tiles(segs, end) && k < |segs|
    ensures segs[k].e <= end
    decreases |segs| - k
  {
    if k < |segs| - 1 {
      EndsBy(segs, end, k + 1);
      assert segs[k].e == segs[k + 1].s;
    }
  }

  /** Putting out the running shot tiles the clip up to its end. */
  lemma RenderShot(segs: seq<Segment>, cut: seq<Shot>, shot: Shot, segStart: int, to: int)
    requires Rendered(segs, cut, shot, segStart) && shot.camera != "" && segStart < to
    ensures var segs' := Emitted(segs, shot.camera, Secs(segStart), Secs(to));
            && Tiles(segs', Secs(to)) && Shows(segs', cut)
            && segs' == segs + [Segment(shot.camera, Secs(segStart), Secs(to))]
  {
    RenderTiles(segs, cut, shot, segStart, to);
    RenderShows(segs, cut, shot, segStart, to);
    hide Rendered, Tiles, Shows;
  }

  lemma RenderTiles(segs: seq<Segment>, cut: seq<Shot>, shot: Shot, segStart: int, to: int)
    requires Rendered(segs, cut, shot, segStart) && shot.camera != "" && segStart < to
    ensures var segs' := segs + [Segment(shot.camera, Secs(segStart), Secs(to))];
            Tiles(segs', Secs(to)) && Emitted(segs, shot.camera, Secs(segStart), Secs(to)) == segs'
  {
    hide Shows, Secs;
    SecsGrow(segStart, to);
  }

  lemma SecsGrow(a: int, b: int)
    requires a < b
    ensures Secs(a) < Secs(b) && Secs(0) == 0.0
  {
  }

  lemma RenderShows(segs: seq<Segment>, cut: seq<Shot>, shot: Shot, segStart: int, to: int)
    requires Rendered(segs, cut, shot, segStart) && shot.camera != ""
    ensures Shows(segs + [Segment(shot.camera, Secs(segStart), Secs(to))], cut)
  {
    hide Tiles;
    var segs' := segs + [Segment(shot.camera, Secs(segStart), Secs(to))];
    forall i, k | 0 <= i < |cut| && 0 <= k < |segs'| && segs'[k].s <= Secs(i * STEP) < segs'[k].e
      ensures if cut[i].camera == "" then k == 0 else segs'[k].camera == cut[i].camera
    {
      if k < |segs| {
        assert segs'[k] == segs[k];
      } else {
        assert i * STEP >= segStart;
      }
    }
  }

  /** The opening shot reaches back to the top. */
  lemma RenderOpening(segs: seq<Segment>, cut: seq<Shot>, shot: Shot, segStart: int, next: Shot)
    requires Rendered(segs, cut, shot, segStart) && shot.camera == "" && next.camera != ""
    ensures Rendered(segs, cut + [next], next, segStart)
  {
  }

  /** A hand-off: the running shot ends at this step and the next begins. */
  lemma RenderHandOff(segs: seq<Segment>, cut: seq<Shot>, shot: Shot, segStart: int, next: Shot)
    requires Rendered(segs, cut, shot, segStart) && shot.camera != "" && next.camera !in {"", shot.camera}
    requires |cut| * STEP - segStart >= MIN_SHOT
    ensures Rendered(Emitted(segs, shot.camera, Secs(segStart), Secs(|cut| * STEP)), cut + [next], next, |cut| * STEP)
  {
    hide Tiles, Shows;
    var to := |cut| * STEP;
    RenderShot(segs, cut, shot, segStart, to);
    var segs' := segs + [Segment(shot.camera, Secs(segStart), Secs(to))];
    ShowsMore(segs', cut, next, to);
    assert (cut + [next])[|cut|] == next;
  }

  /** What the best view found makes of the cut is the rule's decision. */
  lemma DecidedBy(sc: Scene, perCam: map<string, seq<BoxSample>>, t: Time, prev: Shot, best: string, bestScore: real,
                  next: Shot)
    requires forall c :: c in perCam <==> InScene(sc, c)
    requires forall c :: c in perCam ==> perCam[c] == SamplesOf(sc.boxes, c)
    requires IsTop(perCam, sc.dims, t, perCam.Keys, best, bestScore)
    requires next == if best == "" then prev else Choice(sc, t, prev, best)
    ensures Decides(sc, t, prev, next)
  {
    forall c | InScene(sc, c)
      ensures SceneScore(sc, c, t) == CamScore(perCam, sc.dims, c, t) && SceneScore(sc, c, t) <= bestScore
    {
      assert c in perCam.Keys;
    }
    if best != "" {
      assert IsBest(sc, best, t);
    }
  }

  lemma CutGrows(sc: Scene, clipStart: Time, cut: seq<Shot>, next: Shot)
    requires IsCut(sc, clipStart, cut)
    requires Decides(sc, clipStart + |cut| * STEP, if cut == [] then NOTHING else cut[|cut| - 1], next)
    ensures IsCut(sc, clipStart, cut + [next])
  {
    hide Decides;
    var cut' := cut + [next];
    forall i | 0 <= i < |cut'| ensures CutStep(sc, clipStart, cut', i) {
      if i < |cut| {
        assert CutStep(sc, clipStart, cut, i);
      }
    }
  }

  /** One step of the clock: decide, and put out the shot that ended if any. */
  method Step(perCam: map<string, seq<BoxSample>>, dims: Dims, before: map<string, nat>, t: Time, shot: Shot)
    returns (next: Shot, idx: map<string, nat>)
    requires forall c :: c in perCam ==> Scorable(dims, c) && c != ""
    requires InBounds(perCam, before) && (shot.camera != "" ==> shot.camera in perCam)
    ensures InBounds(perCam, idx)
    ensures next == shot || (next.camera in perCam && next.camera != "" && next.since == t &&
                             next.camera != shot.camera)
    ensures shot.camera != "" && next != shot ==> t - shot.since >= MIN_SHOT
    ensures Behind(perCam, before, t) ==>
              Behind(perCam, idx, t) && Stepped(perCam, dims, t, shot, next)
  {
    var best, bestScore;
    best, bestScore, idx := FindBest(perCam, dims, before, t);
    next := shot;
    if bestScore < 0.0 {
    } else if shot.camera == "" {
      next := Shot(best, t);
    } else if best != shot.camera && t - shot.since >= MIN_SHOT {
      var incumbent, i := Score(perCam[shot.camera], idx[shot.camera], t, dims[shot.camera]);
      idx := idx[shot.camera := i];
      if bestScore >= incumbent * ADVANTAGE {
        next := Shot(best, t);
      }
    }
    assert Behind(perCam, before, t) ==> SteppedBy(perCam, dims, t, shot, next, best, bestScore);
  }

  ghost predicate SteppedBy(perCam: map<string, seq<BoxSample>>, dims: Dims, t: Time, shot: Shot, next: Shot,
                            best: string, bestScore: real)
  {
    && IsTop(perCam, dims, t, perCam.Keys, best, bestScore)
    && next == if best == "" then shot
               else if shot.camera == "" then Shot(best, t)
               else if best != shot.camera && t - shot.since >= MIN_SHOT
                       && bestScore >= CamScore(perCam, dims, shot.camera, t) * ADVANTAGE
               then Shot(best, t)
               else shot
  }

  ghost predicate Stepped(perCam: map<string, seq<BoxSample>>, dims: Dims, t: Time, shot: Shot, next: Shot) {
    exists best, bestScore :: SteppedBy(perCam, dims, t, shot, next, best, bestScore)
  }

  lemma SteppedFollows(sc: Scene, perCam: map<string, seq<BoxSample>>, clipStart: Time, cut: seq<Shot>, shot: Shot,
                       next: Shot)
    requires forall c :: c in perCam <==> InScene(sc, c)
    requires forall c :: c in perCam ==> perCam[c] == SamplesOf(sc.boxes, c)
    requires shot.camera != "" ==> shot.camera in perCam
    requires shot == if cut == [] then NOTHING else cut[|cut| - 1]
    requires IsCut(sc, clipStart, cut) && Stepped(perCam, sc.dims, clipStart + |cut| * STEP, shot, next)
    ensures IsCut(sc, clipStart, cut + [next])
  {
    var t := clipStart + |cut| * STEP;
    var best, bestScore :| SteppedBy(perCam, sc.dims, t, shot, next, best, bestScore);
    DecidedBy(sc, perCam, t, shot, best, bestScore, next);
    CutGrows(sc, clipStart, cut, next);
  }

  /** Put out the running shot if the step handed off. */
  method HandOff(before: seq<Segment>, ghost cut: seq<Shot>, shot: Shot, next: Shot, clipStart: Time, from: Time,
                 t: Time)
    returns (segs: seq<Segment>, segStart: Time)
    requires t == clipStart + |cut| * STEP && Rendered(before, cut, shot, from - clipStart) && from <= t
    requires next == shot || next.camera !in {"", shot.camera}
    requires shot.camera != "" && next != shot ==> t - from >= MIN_SHOT
    ensures Rendered(segs, cut + [next], next, segStart - clipStart)
    ensures segStart == if next != shot && shot.camera != "" then t else from
  {
    hide Rendered, Secs, Emitted;
    segs, segStart := before, from;
    if next == shot {
      RenderKept(before, cut, shot, from - clipStart);
    } else if shot.camera == "" {
      RenderOpening(before, cut, shot, from - clipStart, next);
    } else {
      RenderHandOff(before, cut, shot, from - clipStart, next);
      segs := Emit(segs, shot.camera, clipStart, segStart, t);
      segStart := t;
    }
  }

  /** The steps of the clock over a clip of this length. */
  ghost predicate Spans(cut: seq<Shot>, length: int) {
    |cut| * STEP >= length && (cut != [] ==> (|cut| - 1) * STEP < length)
  }

  /** Build: nothing, or segments that tile the clip exactly.  The ghost cut is
      what is shown after each half-second step; for samples in time order it
      follows the rule at every step, whatever order the cameras are visited in,
      and the segments show exactly it. */
  method Build(boxes: seq<BoxSample>, clipStart: Time, clipEnd: Time, dims: Dims)
    returns (segs: seq<Segment>, ghost cut: seq<Shot>)
    requires forall b :: b in boxes ==> b.camera != ""
    ensures segs == [] || Tiles(segs, Secs(clipEnd - clipStart))
    ensures segs == [] <==> forall i :: 0 <= i < |cut| ==> cut[i].camera == ""
    ensures Shows(segs, cut)
    ensures Spans(cut, clipEnd - clipStart)
    ensures TimeOrdered(boxes) ==> IsCut(Scene(boxes, dims), clipStart, cut)
    ensures TimeOrdered(boxes) ==> FollowsRule(boxes, dims, clipStart, cut)
  {
    hide FollowsRule;
    var perCam := Gather(boxes, dims);
    if perCam == map[] {
      segs := [];
      cut := BlindCut(Scene(boxes, dims), clipStart, clipEnd);
      CutFollowsRule(Scene(boxes, dims), clipStart, cut);
      return;
    }
    var shot, segStart;
    segs, shot, segStart, cut := Cut(Scene(boxes, dims), perCam, clipStart, clipEnd);
    segs := Finish(segs, cut, shot, clipStart, segStart, clipEnd);
    if TimeOrdered(boxes) {
      CutFollowsRule(Scene(boxes, dims), clipStart, cut);
    }
  }

  /** The loop over the clip. */
  method Cut(sc: Scene, perCam: map<string, seq<BoxSample>>, clipStart: Time, clipEnd: Time)
    returns (segs: seq<Segment>, shot: Shot, segStart: Time, ghost cut: seq<Shot>)
    requires forall b :: b in sc.boxes ==> b.camera != ""
    requires forall c :: c in perCam <==> InScene(sc, c)
    requires forall c :: c in perCam ==> perCam[c] == SamplesOf(sc.boxes, c)
    ensures Rendered(segs, cut, shot, segStart - clipStart)
    ensures cut != [] ==> segStart < clipEnd
    ensures Spans(cut, clipEnd - clipStart)
    ensures TimeOrdered(sc.boxes) ==> IsCut(sc, clipStart, cut)
  {
    hide Rendered, Going, InScene, SamplesOf, Spans, IsCut, Scorable, TimeOrdered;
    segs, cut := [], [];
    var idx: map<string, nat> := map c | c in perCam :: 0;
    shot, segStart := NOTHING, clipStart;
    var t := clipStart;
    GoingAtStart(sc, perCam, idx, clipStart);
    while t < clipEnd
      invariant t == clipStart + |cut| * STEP && segStart <= t
      invariant shot == if cut == [] then NOTHING else cut[|cut| - 1]
      invariant cut != [] ==> t - STEP < clipEnd && segStart < clipEnd
      invariant Going(sc, perCam, idx, t, shot, clipStart, segStart, cut)
      invariant Rendered(segs, cut, shot, segStart - clipStart)
      decreases clipEnd - t
    {
      var next;
      next, idx := StepCut(sc, perCam, idx, t, shot, clipStart, segStart, cut);
      segs, segStart := HandOff(segs, cut, shot, next, clipStart, segStart, t);
      shot := next;
      cut := cut + [next];
      t := t + STEP;
    }
    GoingCut(sc, perCam, idx, t, shot, clipStart, segStart, cut, clipEnd);
  }

  lemma GoingAtStart(sc: Scene, perCam: map<string, seq<BoxSample>>, idx: map<string, nat>, clipStart: Time)
    requires forall c :: c in perCam ==> perCam[c] == SamplesOf(sc.boxes, c)
    requires idx == map c | c in perCam :: 0
    ensures Going(sc, perCam, idx, clipStart, NOTHING, clipStart, clipStart, []) && Rendered([], [], NOTHING, 0)
  {
    if TimeOrdered(sc.boxes) {
      forall c | c in perCam ensures TimeOrdered(perCam[c]) {
        SamplesOrdered(sc.boxes, c);
      }
    }
  }

  lemma GoingCut(sc: Scene, perCam: map<string, seq<BoxSample>>, idx: map<string, nat>, t: Time, shot: Shot,
                 clipStart: Time, segStart: Time, cut: seq<Shot>, clipEnd: Time)
    requires Going(sc, perCam, idx, t, shot, clipStart, segStart, cut)
    requires t == clipStart + |cut| * STEP && t >= clipEnd && (cut != [] ==> t - STEP < clipEnd)
    ensures Spans(cut, clipEnd - clipStart) && (TimeOrdered(sc.boxes) ==> IsCut(sc, clipStart, cut))
  {
    hide IsCut;
  }

  ghost predicate Going(sc: Scene, perCam: map<string, seq<BoxSample>>, idx: map<string, nat>, t: Time, shot: Shot,
                        clipStart: Time, segStart: Time, cut: seq<Shot>)
  {
    && InBounds(perCam, idx)
    && segStart <= t && (shot.camera != "" ==> shot.camera in perCam && segStart <= shot.since)
    && (TimeOrdered(sc.boxes) ==> Behind(perCam, idx, t) && IsCut(sc, clipStart, cut))
  }

  method StepCut(sc: Scene, perCam: map<string, seq<BoxSample>>, before: map<string, nat>, t: Time, shot: Shot,
                 clipStart: Time, segStart: Time, ghost cut: seq<Shot>)
    returns (next: Shot, idx: map<string, nat>)
    requires forall b :: b in sc.boxes ==> b.camera != ""
    requires forall c :: c in perCam <==> InScene(sc, c)
    requires forall c :: c in perCam ==> perCam[c] == SamplesOf(sc.boxes, c)
    requires t == clipStart + |cut| * STEP && shot == if cut == [] then NOTHING else cut[|cut| - 1]
    requires Going(sc, perCam, before, t, shot, clipStart, segStart, cut)
    ensures next == shot || next.camera !in {"", shot.camera}
    ensures shot.camera != "" && next != shot ==> t - segStart >= MIN_SHOT
    ensures Going(sc, perCam, idx, t + STEP, next, clipStart,
                  if next != shot && shot.camera != "" then t else segStart, cut + [next])
  {
    next, idx := Step(perCam, sc.dims, before, t, shot);
    if TimeOrdered(sc.boxes) {
      SteppedFollows(sc, perCam, clipStart, cut, shot, next);
    }
  }

  /** The last shot runs to the end of the clip. */
  method Finish(before: seq<Segment>, ghost cut: seq<Shot>, shot: Shot, clipStart: Time, segStart: Time, clipEnd: Time)
    returns (segs: seq<Segment>)
    requires Rendered(before, cut, shot, segStart - clipStart)
    requires cut != [] ==> segStart < clipEnd
    ensures segs == [] || Tiles(segs, Secs(clipEnd - clipStart))
    ensures segs == [] <==> forall i :: 0 <= i < |cut| ==> cut[i].camera == ""
    ensures Shows(segs, cut)
  {
    hide Rendered, Tiles, Shows, Secs, Emitted;
    RenderedShot(before, cut, shot, segStart - clipStart);
    if shot.camera != "" {
      RenderShot(before, cut, shot, segStart - clipStart, clipEnd - clipStart);
      assert !(forall i :: 0 <= i < |cut| ==> cut[i].camera == "");
    }
    segs := Emit(before, shot.camera, clipStart, segStart, clipEnd);
  }

  /** The running shot is the last of the cut; without one nothing was ever shown. */
  lemma RenderedShot(segs: seq<Segment>, cut: seq<Shot>, shot: Shot, segStart: int)
    requires Rendered(segs, cut, shot, segStart)
    ensures shot.camera != "" ==> cut != [] && cut[|cut| - 1].camera != ""
    ensures shot.camera == "" ==> segs == [] && Shows(segs, cut) && forall i :: 0 <= i < |cut| ==> cut[i].camera == ""
  {
  }

  /** With no camera to score, every step holds nothing. */
  ghost method BlindCut(sc: Scene, clipStart: Time, clipEnd: Time) returns (cut: seq<Shot>)
    requires forall c :: !InScene(sc, c)
    ensures forall i :: 0 <= i < |cut| ==> cut[i].camera == ""
    ensures IsCut(sc, clipStart, cut)
    ensures Spans(cut, clipEnd - clipStart)
  {
    cut := [];
    while |cut| * STEP < clipEnd - clipStart
      invariant forall i :: 0 <= i < |cut| ==> cut[i] == NOTHING
      invariant IsCut(sc, clipStart, cut)
      invariant cut != [] ==> (|cut| - 1) * STEP < clipEnd - clipStart
      decreases clipEnd - clipStart - |cut| * STEP
    {
      CutGrows(sc, clipStart, cut, NOTHING);
      cut := cut + [NOTHING];
    }
  }

  // ----- what the stitched video relies on -----

  function Duration(segs: seq<Segment>): real {
    if segs == [] then 0.0
    else Duration(segs[..|segs| - 1]) + (segs[|segs| - 1].e - segs[|segs| - 1].s)
  }

  /** Shots cut from each camera at [s, e) and laid end to end keep clip time:
      each begins on the stitched timeline where it was cut from, so the moment
      at stitched time x is the moment at clip time x. */
  lemma {:induction false} StitchedTimeIsClipTime(segs: seq<Segment>, end: real, k: nat)
    requires Tiles(segs, end) && k < |segs|
    ensures Duration(segs[..k]) == segs[k].s
    ensures Duration(segs[..k + 1]) == segs[k].e
    decreases k
  {
    assert segs[..k + 1][..k] == segs[..k];
    if k > 0 {
      StitchedTimeIsClipTime(segs, end, k - 1);
      assert segs[k - 1].e == segs[k].s;
    }
  }

  /** Every instant of the clip is in exactly one segment. */
  lemma {:induction false} TilesCover(segs: seq<Segment>, end: real, x: real)
    requires Tiles(segs, end) && 0.0 <= x < end
    ensures exists k :: 0 <= k < |segs| && segs[k].s <= x < segs[k].e
    ensures forall i, j :: 0 <= i < j < |segs| ==> !(segs[i].s <= x < segs[i].e && segs[j].s <= x < segs[j].e)
  {
    var k := 0;
    while segs[k].e <= x
      invariant 0 <= k < |segs| && segs[k].s <= x
      decreases |segs| - k
    {
      assert segs[k].e == segs[k + 1].s;
      k := k + 1;
    }
    forall i, j | 0 <= i < j < |segs| ensures segs[i].e <= segs[j].s {
      EndsBefore(segs, end, i, j);
    }
  }

  lemma {:induction false} EndsBefore(segs: seq<Segment>, end: real, i: nat, j: nat)
    requires Tiles(segs, end) && i < j < |segs|
    ensures segs[i].e <= segs[j].s
    decreases j
  {
    if i < j - 1 {
      EndsBefore(segs, end, i, j - 1);
    }
    assert segs[j - 1].e == segs[j].s;
  }
}
