// VideoLearner.cpp: cutting the per-frame cursor displacements of a
// recorded video into movement patterns.

module Learner {
  import opened Geometry
  import opened Humanization

  /** What one video frame after the first contributes: the cursor
      displacement optical flow found against the previous frame, the
      milliseconds since the previous frame was read, and whether the
      mining detector fired on it. */
  datatype Observation = Observation(movement: Point, timeDelta: int, mining: bool)

  /** Displacements of length at most this are noise. */
  const MIN_MOVEMENT: real := 1.0

  /** A mining frame closes a trail longer than this. */
  const MINING_SEGMENT: nat := 5

  /** Any trail longer than this is closed. */
  const MAX_SEGMENT: nat := 50

  /** A closed trail needs this many movements to become a pattern. */
  const MIN_PATTERN: nat := 3

  /** ... and a naturalness score above this. */
  const KEEP_SCORE: real := 0.3

  /** The state of the segmentation loop: the open trail with its timings and
      the patterns extracted so far. */
  datatype Segmenter = Segmenter(trail: seq<Point>, timings: seq<int>, patterns: seq<MovementPattern>)

  const Start := Segmenter([], [], [])

  /** The pattern a trail forms, scored by CalculateNaturalness. */
  function Candidate(trail: seq<Point>, timings: seq<int>, sqrt: real -> real): MovementPattern
    requires IsSqrt(sqrt)
  {
    var p := MovementPattern(trail, timings, 0.0);
    p.(naturalnessScore := Naturalness(p, sqrt))
  }

  /** What closing a trail adds: its pattern when the trail has at least
      three movements and scores above 0.3, nothing otherwise. */
  function Keep(trail: seq<Point>, timings: seq<int>, sqrt: real -> real): seq<MovementPattern>
    requires IsSqrt(sqrt)
  {
    if |trail| >= MIN_PATTERN && Candidate(trail, timings, sqrt).naturalnessScore > KEEP_SCORE
    then [Candidate(trail, timings, sqrt)]
    else []
  }

  /** Movements longer than 1 extend the trail; a mining frame with more than
      5 movements, or more than 50 movements, closes it. */
  function Step(st: Segmenter, o: Observation, sqrt: real -> real): Segmenter
    requires IsSqrt(sqrt)
  {
    var significant := Norm(o.movement, sqrt) > MIN_MOVEMENT;
    var trail := if significant then st.trail + [o.movement] else st.trail;
    var timings := if significant then st.timings + [o.timeDelta] else st.timings;
    if (o.mining && |trail| > MINING_SEGMENT) || |trail| > MAX_SEGMENT then
      Segmenter([], [], st.patterns + Keep(trail, timings, sqrt))
    else
      Segmenter(trail, timings, st.patterns)
  }

  /** The loop state after the given frames. */
  function Run(obs: seq<Observation>, sqrt: real -> real): Segmenter
    requires IsSqrt(sqrt)
  {
    if obs == [] then Start else Step(Run(obs[..|obs| - 1], sqrt), obs[|obs| - 1], sqrt)
  }

  /** Every pattern extraction yields: the closed segments' patterns, then the
      pattern of the trail left open at the end of the video. */
  function Extracted(obs: seq<Observation>, sqrt: real -> real): seq<MovementPattern>
    requires IsSqrt(sqrt)
  {
    var st := Run(obs, sqrt);
    st.patterns + Keep(st.trail, st.timings, sqrt)
  }

  /** A pattern as extraction produces it: 3 to 51 movements, each longer
      than 1, one timing per movement and a score in (0.3, 1]. */
  ghost predicate WellFormed(p: MovementPattern, sqrt: real -> real)
    requires IsSqrt(sqrt)
  {
    && MIN_PATTERN <= |p.mouseMovements| <= MAX_SEGMENT + 1
    && |p.timings| == |p.mouseMovements|
    && KEEP_SCORE < p.naturalnessScore <= 1.0
    && forall i :: 0 <= i < |p.mouseMovements| ==> Norm(p.mouseMovements[i], sqrt) > MIN_MOVEMENT
  }

  ghost predicate AllWellFormed(ps: seq<MovementPattern>, sqrt: real -> real)
    requires IsSqrt(sqrt)
  {
    forall i :: 0 <= i < |ps| ==> WellFormed(ps[i], sqrt)
  }

  /** What every loop state satisfies: the open trail has at most 50
      movements, each longer than 1, with one timing each, and the patterns
      so far are well formed. */
  ghost predicate Consistent(st: Segmenter, sqrt: real -> real)
    requires IsSqrt(sqrt)
  {
    && |st.trail| == |st.timings| <= MAX_SEGMENT
    && (forall i :: 0 <= i < |st.trail| ==> Norm(st.trail[i], sqrt) > MIN_MOVEMENT)
    && AllWellFormed(st.patterns, sqrt)
  }

  /** Closing a trail of at most 51 significant movements adds only
      well-formed patterns. */
  lemma KeepWellFormed(trail: seq<Point>, timings: seq<int>, sqrt: real -> real)
    requires IsSqrt(sqrt)
    requires |trail| == |timings| <= MAX_SEGMENT + 1
    requires forall i :: 0 <= i < |trail| ==> Norm(trail[i], sqrt) > MIN_MOVEMENT
    ensures AllWellFormed(Keep(trail, timings, sqrt), sqrt)
  {
    var k := Keep(trail, timings, sqrt);
    if k != [] {
      assert k[0] == Candidate(trail, timings, sqrt);
    }
  }

  lemma AppendWellFormed(a: seq<MovementPattern>, b: seq<MovementPattern>, sqrt: real -> real)
    requires IsSqrt(sqrt) && AllWellFormed(a, sqrt) && AllWellFormed(b, sqrt)
    ensures AllWellFormed(a + b, sqrt)
  {
    forall i | 0 <= i < |a + b| ensures WellFormed((a + b)[i], sqrt) {
      if i < |a| {
        assert (a + b)[i] == a[i];
      } else {
        assert (a + b)[i] == b[i - |a|];
      }
    }
  }

  /** One frame keeps the loop state consistent. */
  lemma StepConsistent(st: Segmenter, o: Observation, sqrt: real -> real)
    requires IsSqrt(sqrt) && Consistent(st, sqrt)
    ensures Consistent(Step(st, o, sqrt), sqrt)
  {
    var significant := Norm(o.movement, sqrt) > MIN_MOVEMENT;
    var trail := if significant then st.trail + [o.movement] else st.trail;
    var timings := if significant then st.timings + [o.timeDelta] else st.timings;
    assert forall i :: 0 <= i < |trail| ==> Norm(trail[i], sqrt) > MIN_MOVEMENT by {
      forall i | 0 <= i < |trail| ensures Norm(trail[i], sqrt) > MIN_MOVEMENT {
        if i < |st.trail| {
          assert trail[i] == st.trail[i];
        }
      }
    }
    if (o.mining && |trail| > MINING_SEGMENT) || |trail| > MAX_SEGMENT {
      KeepWellFormed(trail, timings, sqrt);
      AppendWellFormed(st.patterns, Keep(trail, timings, sqrt), sqrt);
    }
  }

  lemma {:induction false} RunConsistent(obs: seq<Observation>, sqrt: real -> real)
    requires IsSqrt(sqrt)
    ensures Consistent(Run(obs, sqrt), sqrt)
  {
    if obs != [] {
      RunConsistent(obs[..|obs| - 1], sqrt);
      StepConsistent(Run(obs[..|obs| - 1], sqrt), obs[|obs| - 1], sqrt);
    }
  }

  /** Every extracted pattern has 3 to 51 movements, each longer than 1, as
      many timings as movements, and a score above 0.3 and at most 1. */
  lemma ExtractedWellFormed(obs: seq<Observation>, sqrt: real -> real)
    requires IsSqrt(sqrt)
    ensures AllWellFormed(Extracted(obs, sqrt), sqrt)
  {
    var st := Run(obs, sqrt);
    RunConsistent(obs, sqrt);
    KeepWellFormed(st.trail, st.timings, sqrt);
    AppendWellFormed(st.patterns, Keep(st.trail, st.timings, sqrt), sqrt);
  }

  /** Frames without a displacement longer than 1 extract nothing: the trail
      never grows, so no segment closes and none is left over. */
  lemma {:induction false} StillVideoExtractsNothing(obs: seq<Observation>, sqrt: real -> real)
    requires IsSqrt(sqrt)
    requires forall i :: 0 <= i < |obs| ==> Norm(obs[i].movement, sqrt) <= MIN_MOVEMENT
    ensures Run(obs, sqrt) == Start
    ensures Extracted(obs, sqrt) == []
  {
    if obs != [] {
      StillVideoExtractsNothing(obs[..|obs| - 1], sqrt);
    }
  }

  /** A mining frame that closes a trail closes one of more than five
      movements, so a pattern cut by mining has at least six. */
  lemma MiningCutNeedsSix(st: Segmenter, o: Observation, sqrt: real -> real)
    requires IsSqrt(sqrt)
    requires Step(st, o, sqrt).trail == [] && |Step(st, o, sqrt).patterns| > |st.patterns|
    requires |st.trail| < MAX_SEGMENT
    ensures |Step(st, o, sqrt).patterns[|st.patterns|].mouseMovements| > MINING_SEGMENT
  {
    var significant := Norm(o.movement, sqrt) > MIN_MOVEMENT;
    var trail := if significant then st.trail + [o.movement] else st.trail;
    var timings := if significant then st.timings + [o.timeDelta] else st.timings;
    assert (o.mining && |trail| > MINING_SEGMENT) || |trail| > MAX_SEGMENT;
    assert Step(st, o, sqrt).patterns == st.patterns + Keep(trail, timings, sqrt);
  }

  /** The video learner: whether a video is open, and the patterns extracted
      from it. */
  class VideoLearner {
    var videoOpened: bool
    var extractedPatterns: seq<MovementPattern>

    constructor()
      ensures !videoOpened && extractedPatterns == []
    {
      videoOpened := false;
      extractedPatterns := [];
    }

    /** LoadVideo, with `opens` whether the capture could open the file: the
        previous video is released either way, and the result says whether a
        video is now open. */
    method LoadVideo(opens: bool) returns (ok: bool)
      modifies this
      ensures ok == opens && videoOpened == opens
      ensures extractedPatterns == old(extractedPatterns)
    {
      videoOpened := false;
      if !opens {
        return false;
      }
      videoOpened := true;
      return true;
    }

    /** ExtractMovementPatterns. `firstFrameRead` says whether the first frame
        could be read; `obs` describes each later frame, in order. Without
        an open video nothing changes; otherwise the previous patterns are
        discarded, and when the first frame is readable the patterns of
        `obs` are extracted. */
    method ExtractMovementPatterns(firstFrameRead: bool, obs: seq<Observation>, sqrt: real -> real)
      requires IsSqrt(sqrt)
      modifies this
      ensures videoOpened == old(videoOpened)
      ensures !videoOpened ==> extractedPatterns == old(extractedPatterns)
      ensures videoOpened && !firstFrameRead ==> extractedPatterns == []
      ensures videoOpened && firstFrameRead ==> extractedPatterns == Extracted(obs, sqrt)
    {
      if !videoOpened {
        return;
      }
      extractedPatterns := [];
      if !firstFrameRead {
        return;
      }
      var patterns: seq<MovementPattern> := [];
      var mouseTrail: seq<Point> := [];
      var timings: seq<int> := [];
      var i := 0;
      while i < |obs|
        invariant 0 <= i <= |obs|
        invariant Run(obs[..i], sqrt) == Segmenter(mouseTrail, timings, patterns)
        invariant videoOpened
      {
        var o := obs[i];
        if Norm(o.movement, sqrt) > MIN_MOVEMENT {
          mouseTrail := mouseTrail + [o.movement];
          timings := timings + [o.timeDelta];
        }
        if (o.mining && |mouseTrail| > MINING_SEGMENT) || |mouseTrail| > MAX_SEGMENT {
          if |mouseTrail| >= MIN_PATTERN {
            var score := CalculateNaturalness(MovementPattern(mouseTrail, timings, 0.0), sqrt);
            var pattern := MovementPattern(mouseTrail, timings, score);
            if score > KEEP_SCORE {
              patterns := patterns + [pattern];
            }
          }
          mouseTrail := [];
          timings := [];
        }
        assert obs[..i + 1][..i] == obs[..i];
        i := i + 1;
      }
      assert obs[..i] == obs;
      if |mouseTrail| >= MIN_PATTERN {
        var score := CalculateNaturalness(MovementPattern(mouseTrail, timings, 0.0), sqrt);
        var pattern := MovementPattern(mouseTrail, timings, score);
        if score > KEEP_SCORE {
          patterns := patterns + [pattern];
        }
      }
      extractedPatterns := patterns;
    }
  }
}
