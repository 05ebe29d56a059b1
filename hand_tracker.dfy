/**
 * The stereo hand tracker of modules/hand_tracker_3d.py: pairing each hand
 * seen by the left camera with a hand seen by the right camera, triangulating
 * the landmark pairs through the reprojection matrix Q, and the fixed-index
 * landmark selectors. Mediapipe's detections arrive as inputs (landmark
 * lists and the first handedness classification); image rectification,
 * colour conversion and drawing are not modelled.
 */
module HandTracker {
  import opened Wrappers
  import opened Geometry

  /** A Mediapipe landmark: x and y normalised to the image size. */
  datatype Landmark = Landmark(x: real, y: real, z: real)

  /** The 21 landmarks of one detected hand, in Mediapipe order. */
  type HandLandmarks = seq<Landmark>

  /** The first handedness classification of a detected hand. */
  datatype Classification = Classification(name: string, score: real)

  /** `image.shape[:2]`. */
  datatype ImageShape = ImageShape(height: nat, width: nat)

  datatype Pixel = Pixel(x: real, y: real)

  /** One record of `process_frame`'s result. */
  datatype HandData = HandData(handedness: string, landmarks3d: seq<Point3>,
                               landmarks2dLeft: seq<Pixel>, landmarks2dRight: seq<Pixel>, confidence: real)

  /** `landmark_names`, the Mediapipe landmark order. */
  const LandmarkNames: seq<string> := [
    "WRIST",
    "THUMB_CMC", "THUMB_MCP", "THUMB_IP", "THUMB_TIP",
    "INDEX_FINGER_MCP", "INDEX_FINGER_PIP", "INDEX_FINGER_DIP", "INDEX_FINGER_TIP",
    "MIDDLE_FINGER_MCP", "MIDDLE_FINGER_PIP", "MIDDLE_FINGER_DIP", "MIDDLE_FINGER_TIP",
    "RING_FINGER_MCP", "RING_FINGER_PIP", "RING_FINGER_DIP", "RING_FINGER_TIP",
    "PINKY_MCP", "PINKY_PIP", "PINKY_DIP", "PINKY_TIP"]

  /** Largest accepted wrist row difference (normalised units, strict). */
  const MatchTolerance: real := 0.1

  /** Smallest usable disparity in pixels (strict). */
  const MinDisparity: real := 1.0

  function Min(a: int, b: int): int {
    if a <= b then a else b
  }

  /** Every hand has at least its wrist landmark. */
  predicate AllHaveWrist(hands: seq<HandLandmarks>) {
    forall i :: 0 <= i < |hands| ==> |hands[i]| > 0
  }

  // ---------------------------------------------------------------- pixels

  /** A normalised coordinate scaled to an image dimension of `size` pixels. */
  function Scale(v: real, size: nat): real {
    v * size as real
  }

  /** A landmark scaled to pixel coordinates. */
  function ToPixel(l: Landmark, shape: ImageShape): Pixel {
    Pixel(Scale(l.x, shape.width), Scale(l.y, shape.height))
  }

  function ToPixels(hand: HandLandmarks, shape: ImageShape): seq<Pixel> {
    seq(|hand|, i requires 0 <= i < |hand| => ToPixel(hand[i], shape))
  }

  /** `_extract_2d_landmarks`: one pixel per landmark, in order. */
  method Extract2DLandmarks(hand: HandLandmarks, shape: ImageShape) returns (pixels: seq<Pixel>)
    ensures |pixels| == |hand|
    ensures forall i :: 0 <= i < |hand| ==> pixels[i] == ToPixel(hand[i], shape)
    ensures pixels == ToPixels(hand, shape)
  {
    pixels := [];
    for i := 0 to |hand|
      invariant |pixels| == i
      invariant forall k :: 0 <= k < i ==> pixels[k] == ToPixel(hand[k], shape)
    {
      pixels := pixels + [Pixel(Scale(hand[i].x, shape.width), Scale(hand[i].y, shape.height))];
    }
  }

  /** Pixel scaling is undone by dividing by the image size: no landmark information is lost. */
  lemma ToPixelInvertible(l: Landmark, shape: ImageShape)
    requires shape.width > 0 && shape.height > 0
    ensures ToPixel(l, shape).x / shape.width as real == l.x
    ensures ToPixel(l, shape).y / shape.height as real == l.y
  {
  }

  // ---------------------------------------------------------------- pairing

  /** |wrist row of the left hand - wrist row of the right hand|. */
  function WristGap(left: HandLandmarks, right: HandLandmarks): real
    requires |left| > 0 && |right| > 0
  {
    Abs(left[0].y - right[0].y)
  }

  /** Index of the first smallest wrist gap among the first `n` right hands. */
  function FirstMinIndex(left: HandLandmarks, rights: seq<HandLandmarks>, n: nat): (m: nat)
    requires |left| > 0 && AllHaveWrist(rights) && 0 < n <= |rights|
    ensures m < n
    ensures forall j :: 0 <= j < n ==> WristGap(left, rights[m]) <= WristGap(left, rights[j])
    ensures forall j :: 0 <= j < m ==> WristGap(left, rights[m]) < WristGap(left, rights[j])
  {
    if n == 1 then 0
    else
      var m := FirstMinIndex(left, rights, n - 1);
      if WristGap(left, rights[n - 1]) < WristGap(left, rights[m]) then n - 1 else m
  }

  /**
   * The right hand paired with `left`: the one with the smallest wrist gap,
   * the lowest index among equals, accepted only below the tolerance.
   */
  function BestMatch(left: HandLandmarks, rights: seq<HandLandmarks>): (r: Option<nat>)
    requires |left| > 0 && AllHaveWrist(rights)
    ensures r.Some? ==> r.value < |rights| && WristGap(left, rights[r.value]) < MatchTolerance
    ensures r.Some? ==> forall j :: 0 <= j < |rights| ==> WristGap(left, rights[r.value]) <= WristGap(left, rights[j])
    ensures r.Some? ==> forall j :: 0 <= j < r.value ==> WristGap(left, rights[r.value]) < WristGap(left, rights[j])
    ensures r.None? <==> forall j :: 0 <= j < |rights| ==> WristGap(left, rights[j]) >= MatchTolerance
    ensures rights == [] ==> r.None?
  {
    if |rights| == 0 then None
    else
      var m := FirstMinIndex(left, rights, |rights|);
      if WristGap(left, rights[m]) < MatchTolerance then Some(m) else None
  }

  /** `_find_matching_hand`: the greedy minimum search over the right hands. */
  method FindMatchingHand(handLeft: HandLandmarks, handsRight: seq<HandLandmarks>) returns (best: Option<nat>)
    requires |handLeft| > 0 && AllHaveWrist(handsRight)
    ensures best == BestMatch(handLeft, handsRight)
  {
    if |handsRight| == 0 {
      return None;
    }
    var wristYLeft := handLeft[0].y;
    // minDiff means float("inf") until bestIdx is set
    var minDiff: real := 0.0;
    var bestIdx: Option<nat> := None;
    for idx := 0 to |handsRight|
      invariant idx == 0 <==> bestIdx.None?
      invariant idx > 0 ==> bestIdx == Some(FirstMinIndex(handLeft, handsRight, idx))
      invariant idx > 0 ==> minDiff == WristGap(handLeft, handsRight[bestIdx.value])
    {
      var diff := Abs(wristYLeft - handsRight[idx][0].y);
      if bestIdx.None? || diff < minDiff {
        minDiff := diff;
        bestIdx := Some(idx);
      }
    }
    if minDiff < MatchTolerance {
      return bestIdx;
    }
    return None;
  }

  // ---------------------------------------------------------- triangulation

  /**
   * The 3-D point of one landmark pair from its pixel coordinates: xL, yL on
   * the left image and xR on the right one, with disparity d = xL - xR. It
   * is the origin when |d| is below one pixel or the homogeneous weight W is
   * zero, otherwise the point whose homogeneous coordinates are
   * Q * (xL, yL, d, 1).
   */
  function TriangulatePixels(q: Mat4, xLeft: real, yLeft: real, xRight: real): (p: Point3)
    ensures Abs(xLeft - xRight) < MinDisparity ==> p == Origin
    ensures Apply(q, Vec4(xLeft, yLeft, xLeft - xRight, 1.0)).w == 0.0 ==> p == Origin
  {
    var d := xLeft - xRight;
    if Abs(d) < MinDisparity then Origin
    else
      var hp := Apply(q, Vec4(xLeft, yLeft, d, 1.0));
      if hp.w != 0.0 then Point3(hp.x / hp.w, hp.y / hp.w, hp.z / hp.w) else Origin
  }

  /** The 3-D point of one landmark pair, its normalised coordinates scaled to pixels. */
  function TriangulatePoint(q: Mat4, l: Landmark, r: Landmark, shape: ImageShape): (p: Point3)
    ensures Abs(Scale(l.x, shape.width) - Scale(r.x, shape.width)) < MinDisparity ==> p == Origin
  {
    TriangulatePixels(q, ToPixel(l, shape).x, ToPixel(l, shape).y, ToPixel(r, shape).x)
  }

  /** `(a / b) * b == a` for a non-zero `b`. */
  lemma DivTimes(a: real, b: real)
    requires b != 0.0
    ensures (a / b) * b == a
  {
  }

  /**
   * Away from the sentinel cases the point is the one whose homogeneous
   * coordinates are Q * (xL, yL, d, 1): scaling it by W gives back X, Y and Z.
   */
  lemma TriangulateHomogeneous(q: Mat4, xLeft: real, yLeft: real, xRight: real)
    requires Abs(xLeft - xRight) >= MinDisparity && Apply(q, Vec4(xLeft, yLeft, xLeft - xRight, 1.0)).w != 0.0
    ensures var p := TriangulatePixels(q, xLeft, yLeft, xRight);
            var hp := Apply(q, Vec4(xLeft, yLeft, xLeft - xRight, 1.0));
            p.x * hp.w == hp.x && p.y * hp.w == hp.y && p.z * hp.w == hp.z
  {
    var hp := Apply(q, Vec4(xLeft, yLeft, xLeft - xRight, 1.0));
    DivTimes(hp.x, hp.w);
    DivTimes(hp.y, hp.w);
    DivTimes(hp.z, hp.w);
  }

  /** The right landmark's row and depth never matter, only its column. */
  lemma RightRowIgnored(q: Mat4, l: Landmark, r: Landmark, y: real, z: real, shape: ImageShape)
    ensures TriangulatePoint(q, l, r, shape) == TriangulatePoint(q, l, Landmark(r.x, y, z), shape)
  {
  }

  /**
   * `cv2.perspectiveTransform` applied to one 3-channel point (x, y, d) with
   * a 4x4 matrix: three components, already divided by W, zeros when W is 0.
   */
  function PerspectiveTransform(q: Mat4, x: real, y: real, d: real): (out: seq<real>)
    ensures |out| == 3
  {
    var hp := Apply(q, Vec4(x, y, d, 1.0));
    if hp.w != 0.0 then [hp.x / hp.w, hp.y / hp.w, hp.z / hp.w] else [0.0, 0.0, 0.0]
  }

  /**
   * The triangulation step as the source writes it: the result of
   * perspectiveTransform is indexed at `[3]`, which does not exist, so every
   * pair whose disparity is usable raises IndexError (None here).
   */
  function TriangulatePointAsWritten(q: Mat4, l: Landmark, r: Landmark, shape: ImageShape): (p: Option<Point3>)
    ensures Abs(Scale(l.x, shape.width) - Scale(r.x, shape.width)) < MinDisparity ==> p == Some(Origin)
  {
    var d := Scale(l.x, shape.width) - Scale(r.x, shape.width);
    if Abs(d) < MinDisparity then Some(Origin)
    else
      var p := PerspectiveTransform(q, Scale(l.x, shape.width), Scale(l.y, shape.height), d);
      match (PyIndex(p, 3), PyIndex(p, 0), PyIndex(p, 1), PyIndex(p, 2))
      case (Some(pw), Some(px), Some(py), Some(pz)) =>
        if pw != 0.0 then Some(Point3(Quotient(px, pw), Quotient(py, pw), Quotient(pz, pw))) else Some(Origin)
      case _ => None
  }

  /** Python's `s[i]` for a non-negative index: None stands for IndexError. */
  function PyIndex(s: seq<real>, i: nat): (r: Option<real>)
    ensures r.Some? <==> i < |s|
    ensures r.Some? ==> r.value == s[i]
  {
    if i < |s| then Some(s[i]) else None
  }

  /** `a / b`, taken only where the source has checked `b != 0`. */
  function Quotient(a: real, b: real): real {
    if b == 0.0 then 0.0 else a / b
  }

  /** As written, no landmark pair with a usable disparity produces a point. */
  lemma AsWrittenRaisesOnUsableDisparity(q: Mat4, l: Landmark, r: Landmark, shape: ImageShape)
    requires Abs(ToPixel(l, shape).x - ToPixel(r, shape).x) >= MinDisparity
    ensures TriangulatePointAsWritten(q, l, r, shape) == None
  {
  }

  /** The corrected step is exactly what perspectiveTransform computes. */
  lemma TriangulateIsPerspectiveTransform(q: Mat4, xLeft: real, yLeft: real, xRight: real)
    requires Abs(xLeft - xRight) >= MinDisparity
    ensures var p := PerspectiveTransform(q, xLeft, yLeft, xLeft - xRight);
            TriangulatePixels(q, xLeft, yLeft, xRight) == Point3(p[0], p[1], p[2])
  {
  }

  /** One point per zipped landmark pair. */
  function TriangulateAll(q: Mat4, left: HandLandmarks, right: HandLandmarks, shape: ImageShape): (points: seq<Point3>)
    ensures |points| == Min(|left|, |right|)
    ensures forall i :: 0 <= i < |points| ==> points[i] == TriangulatePoint(q, left[i], right[i], shape)
  {
    seq(Min(|left|, |right|), i requires 0 <= i < Min(|left|, |right|) => TriangulatePoint(q, left[i], right[i], shape))
  }

  /** `_triangulate_landmarks`: None without Q, otherwise one point per zipped pair, in order. */
  method TriangulateLandmarks(q: Option<Mat4>, left: HandLandmarks, right: HandLandmarks, shape: ImageShape)
    returns (points: Option<seq<Point3>>)
    ensures q.None? <==> points.None?
    ensures points.Some? ==> |points.value| == Min(|left|, |right|)
    ensures points.Some? ==> forall i :: 0 <= i < |points.value| ==>
              points.value[i] == TriangulatePoint(q.value, left[i], right[i], shape)
    ensures points.Some? ==> points.value == TriangulateAll(q.value, left, right, shape)
  {
    if q.None? {
      return None;
    }
    var m := q.value;
    var pts: seq<Point3> := [];
    var n := Min(|left|, |right|);
    for i := 0 to n
      invariant |pts| == i
      invariant forall k :: 0 <= k < i ==> pts[k] == TriangulatePoint(m, left[k], right[k], shape)
    {
      var xLeft := Scale(left[i].x, shape.width);
      var yLeft := Scale(left[i].y, shape.height);
      var xRight := Scale(right[i].x, shape.width);
      var disparity := xLeft - xRight;
      if Abs(disparity) < MinDisparity {
        pts := pts + [Origin];
      } else {
        var hp := Apply(m, Vec4(xLeft, yLeft, disparity, 1.0));
        if hp.w != 0.0 {
          pts := pts + [Point3(hp.x / hp.w, hp.y / hp.w, hp.z / hp.w)];
        } else {
          pts := pts + [Origin];
        }
      }
    }
    return Some(pts);
  }

  // ------------------------------------------------------------ whole frame

  /** The record `process_frame` emits for left hand `i`, when it finds a partner. */
  function HandRecord(q: Mat4, leftHands: seq<HandLandmarks>, leftHandedness: seq<Classification>,
                      rightHands: seq<HandLandmarks>, shapeLeft: ImageShape, shapeRight: ImageShape,
                      i: nat, m: nat): HandData
    requires i < |leftHands| && i < |leftHandedness| && m < |rightHands|
  {
    HandData(leftHandedness[i].name, TriangulateAll(q, leftHands[i], rightHands[m], shapeLeft),
             ToPixels(leftHands[i], shapeLeft), ToPixels(rightHands[m], shapeRight), leftHandedness[i].score)
  }

  /** `h` is the record left hand `i` produces: Q is present, `i` has a partner, and `h` is built from the pair. */
  predicate RecordFrom(q: Option<Mat4>, leftHands: seq<HandLandmarks>, leftHandedness: seq<Classification>,
                       rightHands: seq<HandLandmarks>, shapeLeft: ImageShape, shapeRight: ImageShape,
                       i: nat, h: HandData)
    requires AllHaveWrist(leftHands) && AllHaveWrist(rightHands)
  {
    i < |leftHands| && i < |leftHandedness| &&
    q.Some? && BestMatch(leftHands[i], rightHands).Some? &&
    h == HandRecord(q.value, leftHands, leftHandedness, rightHands, shapeLeft, shapeRight,
                    i, BestMatch(leftHands[i], rightHands).value)
  }

  /** What left hand `i` contributes: its record when paired and Q is present, else nothing. */
  function Contribution(q: Option<Mat4>, leftHands: seq<HandLandmarks>, leftHandedness: seq<Classification>,
                        rightHands: seq<HandLandmarks>, shapeLeft: ImageShape, shapeRight: ImageShape,
                        i: nat): (c: seq<HandData>)
    requires AllHaveWrist(leftHands) && AllHaveWrist(rightHands)
    requires i < |leftHands| && i < |leftHandedness|
    ensures |c| <= 1
    ensures |c| == 1 <==> q.Some? && BestMatch(leftHands[i], rightHands).Some?
    ensures |c| == 1 ==> RecordFrom(q, leftHands, leftHandedness, rightHands, shapeLeft, shapeRight, i, c[0])
  {
    match BestMatch(leftHands[i], rightHands)
    case Some(m) => if q.Some? then [HandRecord(q.value, leftHands, leftHandedness, rightHands, shapeLeft, shapeRight, i, m)] else []
    case None => []
  }

  /** What each zipped left hand contributes, in detection order. */
  function Contributions(q: Option<Mat4>, leftHands: seq<HandLandmarks>, leftHandedness: seq<Classification>,
                         rightHands: seq<HandLandmarks>, shapeLeft: ImageShape, shapeRight: ImageShape): (cs: seq<seq<HandData>>)
    requires AllHaveWrist(leftHands) && AllHaveWrist(rightHands)
    ensures |cs| == Min(|leftHands|, |leftHandedness|)
    ensures forall i :: 0 <= i < |cs| ==> cs[i] == Contribution(q, leftHands, leftHandedness, rightHands, shapeLeft, shapeRight, i)
  {
    seq(Min(|leftHands|, |leftHandedness|), i requires 0 <= i < Min(|leftHands|, |leftHandedness|) =>
      Contribution(q, leftHands, leftHandedness, rightHands, shapeLeft, shapeRight, i))
  }

  /** The first `k` lists, concatenated. */
  function Flatten<T>(cs: seq<seq<T>>, k: nat): seq<T>
    requires k <= |cs|
  {
    if k == 0 then [] else Flatten(cs, k - 1) + cs[k - 1]
  }

  /** The records for the first `k` zipped left hands. */
  function FrameHandsUpTo(q: Option<Mat4>, leftHands: seq<HandLandmarks>, leftHandedness: seq<Classification>,
                          rightHands: seq<HandLandmarks>, shapeLeft: ImageShape, shapeRight: ImageShape,
                          k: nat): seq<HandData>
    requires AllHaveWrist(leftHands) && AllHaveWrist(rightHands)
    requires k <= |leftHands| && k <= |leftHandedness|
  {
    Flatten(Contributions(q, leftHands, leftHandedness, rightHands, shapeLeft, shapeRight), k)
  }

  /** One more left hand adds its contribution at the end. */
  lemma FrameHandsStep(q: Option<Mat4>, leftHands: seq<HandLandmarks>, leftHandedness: seq<Classification>,
                       rightHands: seq<HandLandmarks>, shapeLeft: ImageShape, shapeRight: ImageShape, k: nat)
    requires AllHaveWrist(leftHands) && AllHaveWrist(rightHands)
    requires k < |leftHands| && k < |leftHandedness|
    ensures FrameHandsUpTo(q, leftHands, leftHandedness, rightHands, shapeLeft, shapeRight, k + 1)
            == FrameHandsUpTo(q, leftHands, leftHandedness, rightHands, shapeLeft, shapeRight, k)
               + Contribution(q, leftHands, leftHandedness, rightHands, shapeLeft, shapeRight, k)
  {
    var cs := Contributions(q, leftHands, leftHandedness, rightHands, shapeLeft, shapeRight);
    assert cs[k] == Contribution(q, leftHands, leftHandedness, rightHands, shapeLeft, shapeRight, k);
  }

  /** The hands `process_frame` reports for one pair of detections. */
  function FrameHands(q: Option<Mat4>, leftHands: seq<HandLandmarks>, leftHandedness: seq<Classification>,
                      rightHands: seq<HandLandmarks>, shapeLeft: ImageShape, shapeRight: ImageShape): (hands: seq<HandData>)
    requires AllHaveWrist(leftHands) && AllHaveWrist(rightHands)
    ensures |leftHands| == 0 || |rightHands| == 0 ==> hands == []
    ensures |hands| <= Min(|leftHands|, |leftHandedness|)
  {
    if |leftHands| > 0 && |rightHands| > 0 then
      var k := Min(|leftHands|, |leftHandedness|);
      MatchedIncreasing(q, leftHands, leftHandedness, rightHands, k);
      FrameHandsFromLeftHands(q, leftHands, leftHandedness, rightHands, shapeLeft, shapeRight, k);
      FrameHandsUpTo(q, leftHands, leftHandedness, rightHands, shapeLeft, shapeRight, k)
    else []
  }

  /**
   * The pairing loop of `process_frame`: `leftHands`/`leftHandedness` are the
   * left camera's landmark lists and classifications (zipped), `rightHands`
   * the right camera's landmark lists, `q` the calibration's Q matrix.
   */
  method ProcessFrame(q: Option<Mat4>, leftHands: seq<HandLandmarks>, leftHandedness: seq<Classification>,
                      rightHands: seq<HandLandmarks>, shapeLeft: ImageShape, shapeRight: ImageShape)
    returns (hands: seq<HandData>)
    requires AllHaveWrist(leftHands) && AllHaveWrist(rightHands)
    ensures hands == FrameHands(q, leftHands, leftHandedness, rightHands, shapeLeft, shapeRight)
  {
    hands := [];
    if |leftHands| > 0 && |rightHands| > 0 {
      var n := Min(|leftHands|, |leftHandedness|);
      for idxLeft := 0 to n
        invariant hands == FrameHandsUpTo(q, leftHands, leftHandedness, rightHands, shapeLeft, shapeRight, idxLeft)
      {
        FrameHandsStep(q, leftHands, leftHandedness, rightHands, shapeLeft, shapeRight, idxLeft);
        var best := FindMatchingHand(leftHands[idxLeft], rightHands);
        if best.Some? {
          var landmarks3d := TriangulateLandmarks(q, leftHands[idxLeft], rightHands[best.value], shapeLeft);
          if landmarks3d.Some? {
            var left2d := Extract2DLandmarks(leftHands[idxLeft], shapeLeft);
            var right2d := Extract2DLandmarks(rightHands[best.value], shapeRight);
            hands := hands + [HandData(leftHandedness[idxLeft].name, landmarks3d.value, left2d, right2d,
                                       leftHandedness[idxLeft].score)];
          }
        }
      }
    }
  }

  /** For every left hand, whether it produces a record: Q is present and a partner is found. */
  function PairedFlags(q: Option<Mat4>, leftHands: seq<HandLandmarks>, rightHands: seq<HandLandmarks>): (flags: seq<bool>)
    requires AllHaveWrist(leftHands) && AllHaveWrist(rightHands)
    ensures |flags| == |leftHands|
    ensures forall i :: 0 <= i < |leftHands| ==> flags[i] == (q.Some? && BestMatch(leftHands[i], rightHands).Some?)
  {
    seq(|leftHands|, i requires 0 <= i < |leftHands| => q.Some? && BestMatch(leftHands[i], rightHands).Some?)
  }

  /** The positions among the first `k` flags that are set, in order. */
  function SetPositions(flags: seq<bool>, k: nat): seq<nat>
    requires k <= |flags|
  {
    if k == 0 then []
    else SetPositions(flags, k - 1) + (if flags[k - 1] then [k - 1] else [])
  }

  /** The left hands (among the first `k`) that produce a record, in detection order. */
  function MatchedUpTo(q: Option<Mat4>, leftHands: seq<HandLandmarks>, leftHandedness: seq<Classification>,
                       rightHands: seq<HandLandmarks>, k: nat): seq<nat>
    requires AllHaveWrist(leftHands) && AllHaveWrist(rightHands)
    requires k <= |leftHands| && k <= |leftHandedness|
  {
    SetPositions(PairedFlags(q, leftHands, rightHands), k)
  }

  /** The set positions are exactly the set flags, increasing and below `k`. */
  lemma {:induction false} SetPositionsIncreasing(flags: seq<bool>, k: nat)
    requires k <= |flags|
    ensures var idx := SetPositions(flags, k);
            |idx| <= k && (forall t :: 0 <= t < |idx| ==> idx[t] < k && flags[idx[t]]) &&
            (forall s, t :: 0 <= s < t < |idx| ==> idx[s] < idx[t])
    ensures forall i :: 0 <= i < k && flags[i] ==> i in SetPositions(flags, k)
  {
    if k > 0 {
      SetPositionsIncreasing(flags, k - 1);
      var prev := SetPositions(flags, k - 1);
      var idx := SetPositions(flags, k);
      if flags[k - 1] {
        assert idx == prev + [k - 1];
        assert idx[|prev|] == k - 1;
      } else {
        assert idx == prev;
      }
      forall i | 0 <= i < k && flags[i] ensures i in idx {
        if i < k - 1 {
          var t :| 0 <= t < |prev| && prev[t] == i;
          assert idx[t] == i;
        } else {
          assert idx[|prev|] == i;
        }
      }
    }
  }

  /**
   * The matched left hands are distinct, increasing and among the first `k`;
   * they are exactly the ones that have a partner while Q is present.
   */
  lemma MatchedIncreasing(q: Option<Mat4>, leftHands: seq<HandLandmarks>,
                          leftHandedness: seq<Classification>, rightHands: seq<HandLandmarks>, k: nat)
    requires AllHaveWrist(leftHands) && AllHaveWrist(rightHands)
    requires k <= |leftHands| && k <= |leftHandedness|
    ensures var idx := MatchedUpTo(q, leftHands, leftHandedness, rightHands, k);
            |idx| <= k && (forall t :: 0 <= t < |idx| ==> idx[t] < k) &&
            (forall s, t :: 0 <= s < t < |idx| ==> idx[s] < idx[t])
    ensures forall i :: 0 <= i < k ==>
              (i in MatchedUpTo(q, leftHands, leftHandedness, rightHands, k) <==>
               q.Some? && BestMatch(leftHands[i], rightHands).Some?)
  {
    var flags := PairedFlags(q, leftHands, rightHands);
    SetPositionsIncreasing(flags, k);
    forall i | 0 <= i < k
      ensures i in SetPositions(flags, k) <==> flags[i]
    {
      if i in SetPositions(flags, k) {
        var t :| 0 <= t < |SetPositions(flags, k)| && SetPositions(flags, k)[t] == i;
      }
    }
  }

  /**
   * Concatenating lists of length one or zero, as `flags` says, lines item
   * `t` of the result up with the `t`-th set flag.
   */
  lemma {:induction false} FlattenSingletons<T>(cs: seq<seq<T>>, flags: seq<bool>, k: nat)
    requires k <= |cs| && k <= |flags|
    requires forall i :: 0 <= i < k ==> |cs[i]| == (if flags[i] then 1 else 0)
    ensures |Flatten(cs, k)| == |SetPositions(flags, k)|
    ensures forall t :: 0 <= t < |SetPositions(flags, k)| ==>
              SetPositions(flags, k)[t] < k && flags[SetPositions(flags, k)[t]]
    ensures forall t :: 0 <= t < |Flatten(cs, k)| ==> Flatten(cs, k)[t] == cs[SetPositions(flags, k)[t]][0]
  {
    SetPositionsIncreasing(flags, k);
    if k > 0 {
      FlattenSingletons(cs, flags, k - 1);
      var prev := Flatten(cs, k - 1);
      var prevIdx := SetPositions(flags, k - 1);
      var items := Flatten(cs, k);
      var idx := SetPositions(flags, k);
      assert items == prev + cs[k - 1];
      if flags[k - 1] {
        assert idx == prevIdx + [k - 1];
      } else {
        assert idx == prevIdx && cs[k - 1] == [];
      }
      forall t | 0 <= t < |items| ensures items[t] == cs[idx[t]][0] {
        if t < |prev| {
          assert items[t] == prev[t] && idx[t] == prevIdx[t];
        } else {
          assert items[t] == cs[k - 1][0] && idx[t] == k - 1;
        }
      }
    }
  }

  /**
   * At most one record per left hand, in left-detection order: record `t`
   * comes from the `t`-th left hand that found a partner, carries that left
   * hand's handedness and confidence, and is triangulated against its best
   * right hand.
   */
  lemma FrameHandsFromLeftHands(q: Option<Mat4>, leftHands: seq<HandLandmarks>,
                                leftHandedness: seq<Classification>, rightHands: seq<HandLandmarks>,
                                shapeLeft: ImageShape, shapeRight: ImageShape, k: nat)
    requires AllHaveWrist(leftHands) && AllHaveWrist(rightHands)
    requires k <= |leftHands| && k <= |leftHandedness|
    ensures var idx := MatchedUpTo(q, leftHands, leftHandedness, rightHands, k);
            |FrameHandsUpTo(q, leftHands, leftHandedness, rightHands, shapeLeft, shapeRight, k)| == |idx|
    ensures var hands := FrameHandsUpTo(q, leftHands, leftHandedness, rightHands, shapeLeft, shapeRight, k);
            var idx := MatchedUpTo(q, leftHands, leftHandedness, rightHands, k);
            forall t :: 0 <= t < |idx| ==>
              RecordFrom(q, leftHands, leftHandedness, rightHands, shapeLeft, shapeRight, idx[t], hands[t])
  {
    var cs := Contributions(q, leftHands, leftHandedness, rightHands, shapeLeft, shapeRight);
    var flags := PairedFlags(q, leftHands, rightHands);
    forall i | 0 <= i < k ensures |cs[i]| == (if flags[i] then 1 else 0) {
      assert cs[i] == Contribution(q, leftHands, leftHandedness, rightHands, shapeLeft, shapeRight, i);
    }
    FlattenSingletons(cs, flags, k);
    var hands := Flatten(cs, k);
    var idx := SetPositions(flags, k);
    forall t | 0 <= t < |idx|
      ensures RecordFrom(q, leftHands, leftHandedness, rightHands, shapeLeft, shapeRight, idx[t], hands[t])
    {
      var i := idx[t];
      assert flags[i] && |cs[i]| == 1;
      assert hands[t] == cs[i][0];
      assert cs[i] == Contribution(q, leftHands, leftHandedness, rightHands, shapeLeft, shapeRight, i);
    }
  }

  /** Without Q no hand is reported. */
  lemma {:induction false} NoCalibrationNoHands(leftHands: seq<HandLandmarks>, leftHandedness: seq<Classification>,
                                               rightHands: seq<HandLandmarks>, shapeLeft: ImageShape, shapeRight: ImageShape)
    requires AllHaveWrist(leftHands) && AllHaveWrist(rightHands)
    ensures FrameHands(None, leftHands, leftHandedness, rightHands, shapeLeft, shapeRight) == []
  {
    if |leftHands| > 0 && |rightHands| > 0 {
      NoCalibrationUpTo(leftHands, leftHandedness, rightHands, shapeLeft, shapeRight, Min(|leftHands|, |leftHandedness|));
    }
  }

  lemma {:induction false} NoCalibrationUpTo(leftHands: seq<HandLandmarks>, leftHandedness: seq<Classification>,
                                            rightHands: seq<HandLandmarks>, shapeLeft: ImageShape, shapeRight: ImageShape,
                                            k: nat)
    requires AllHaveWrist(leftHands) && AllHaveWrist(rightHands)
    requires k <= |leftHands| && k <= |leftHandedness|
    ensures FrameHandsUpTo(None, leftHands, leftHandedness, rightHands, shapeLeft, shapeRight, k) == []
  {
    if k > 0 {
      NoCalibrationUpTo(leftHands, leftHandedness, rightHands, shapeLeft, shapeRight, k - 1);
    }
  }

  /**
   * A right hand is never taken out of the candidates: two left hands whose
   * wrists are both near the one right wrist are both paired with it.
   */
  lemma SharedRightHand(q: Mat4, shape: ImageShape)
    ensures var lefts := [[Landmark(0.3, 0.50, 0.0)], [Landmark(0.6, 0.55, 0.0)]];
            var labels := [Classification("Left", 0.9), Classification("Right", 0.8)];
            var rights := [[Landmark(0.2, 0.52, 0.0)]];
            var hands := FrameHands(Some(q), lefts, labels, rights, shape, shape);
            |hands| == 2 && hands[0].landmarks2dRight == hands[1].landmarks2dRight
            && hands[0].handedness == "Left" && hands[1].handedness == "Right"
  {
    var lefts := [[Landmark(0.3, 0.50, 0.0)], [Landmark(0.6, 0.55, 0.0)]];
    var rights := [[Landmark(0.2, 0.52, 0.0)]];
    var labels := [Classification("Left", 0.9), Classification("Right", 0.8)];
    assert AllHaveWrist(lefts) && AllHaveWrist(rights);
    assert BestMatch(lefts[0], rights) == Some(0);
    assert BestMatch(lefts[1], rights) == Some(0);
    var c0 := Contribution(Some(q), lefts, labels, rights, shape, shape, 0);
    var c1 := Contribution(Some(q), lefts, labels, rights, shape, shape, 1);
    FrameHandsStep(Some(q), lefts, labels, rights, shape, shape, 0);
    FrameHandsStep(Some(q), lefts, labels, rights, shape, shape, 1);
    assert FrameHands(Some(q), lefts, labels, rights, shape, shape) == [] + c0 + c1;
  }

  // -------------------------------------------------------------- selectors

  /** The landmark name prefix of each finger. */
  const FingerPrefix: map<string, string> :=
    map["THUMB" := "THUMB", "INDEX" := "INDEX_FINGER", "MIDDLE" := "MIDDLE_FINGER",
        "RING" := "RING_FINGER", "PINKY" := "PINKY"]

  /** `get_fingertip_positions`' table, in its iteration order. */
  const FingertipIndices: seq<(string, nat)> := [("THUMB", 4), ("INDEX", 8), ("MIDDLE", 12), ("RING", 16), ("PINKY", 20)]

  /** `is_finger_extended`'s joint table: base joint first, tip last. */
  const FingerJoints: map<string, seq<nat>> :=
    map["THUMB" := [1, 2, 3, 4], "INDEX" := [5, 6, 7, 8], "MIDDLE" := [9, 10, 11, 12],
        "RING" := [13, 14, 15, 16], "PINKY" := [17, 18, 19, 20]]

  /** Every fingertip index names that finger's TIP landmark. */
  lemma FingertipsAreTips()
    ensures forall k :: 0 <= k < |FingertipIndices| ==>
              FingertipIndices[k].0 in FingerPrefix && FingertipIndices[k].1 < |LandmarkNames| &&
              LandmarkNames[FingertipIndices[k].1] == FingerPrefix[FingertipIndices[k].0] + "_TIP"
  {
    forall k | 0 <= k < |FingertipIndices|
      ensures FingertipIndices[k].0 in FingerPrefix && FingertipIndices[k].1 < |LandmarkNames|
      ensures LandmarkNames[FingertipIndices[k].1] == FingerPrefix[FingertipIndices[k].0] + "_TIP"
    {
    }
  }

  /** Each joint list runs from the finger's base joint (CMC for the thumb, MCP otherwise) to its tip. */
  lemma JointsRunBaseToTip()
    ensures forall f :: f in FingerJoints ==>
              (f in FingerPrefix && |FingerJoints[f]| == 4 &&
               FingerJoints[f][0] < |LandmarkNames| && FingerJoints[f][3] < |LandmarkNames| &&
               LandmarkNames[FingerJoints[f][0]] == FingerPrefix[f] + (if f == "THUMB" then "_CMC" else "_MCP") &&
               LandmarkNames[FingerJoints[f][3]] == FingerPrefix[f] + "_TIP")
  {
    forall f | f in FingerJoints
      ensures f in FingerPrefix && |FingerJoints[f]| == 4
      ensures FingerJoints[f][0] < |LandmarkNames| && FingerJoints[f][3] < |LandmarkNames|
      ensures LandmarkNames[FingerJoints[f][0]] == FingerPrefix[f] + (if f == "THUMB" then "_CMC" else "_MCP")
      ensures LandmarkNames[FingerJoints[f][3]] == FingerPrefix[f] + "_TIP"
    {
      assert f in {"THUMB", "INDEX", "MIDDLE", "RING", "PINKY"};
      if f == "THUMB" {
        assert LandmarkNames[1] == "THUMB" + "_CMC" && LandmarkNames[4] == "THUMB" + "_TIP";
      } else if f == "INDEX" {
        assert LandmarkNames[5] == "INDEX_FINGER" + "_MCP" && LandmarkNames[8] == "INDEX_FINGER" + "_TIP";
      } else if f == "MIDDLE" {
        assert LandmarkNames[9] == "MIDDLE_FINGER" + "_MCP" && LandmarkNames[12] == "MIDDLE_FINGER" + "_TIP";
      } else if f == "RING" {
        assert LandmarkNames[13] == "RING_FINGER" + "_MCP" && LandmarkNames[16] == "RING_FINGER" + "_TIP";
      } else {
        assert LandmarkNames[17] == "PINKY" + "_MCP" && LandmarkNames[20] == "PINKY" + "_TIP";
      }
    }
  }

  /** `get_fingertip_positions`: one entry per finger, its tip landmark's 3-D point. */
  method GetFingertipPositions(hand: HandData) returns (tips: map<string, Point3>)
    requires |hand.landmarks3d| > 20
    ensures tips.Keys == {"THUMB", "INDEX", "MIDDLE", "RING", "PINKY"}
    ensures forall k :: 0 <= k < |FingertipIndices| ==> tips[FingertipIndices[k].0] == hand.landmarks3d[FingertipIndices[k].1]
  {
    tips := map[];
    for i := 0 to |FingertipIndices|
      invariant tips.Keys == set k | 0 <= k < i :: FingertipIndices[k].0
      invariant forall k :: 0 <= k < i ==> tips[FingertipIndices[k].0] == hand.landmarks3d[FingertipIndices[k].1]
    {
      var (fingerName, idx) := FingertipIndices[i];
      tips := tips[fingerName := hand.landmarks3d[idx]];
    }
    assert (set k | 0 <= k < 5 :: FingertipIndices[k].0) == {"THUMB", "INDEX", "MIDDLE", "RING", "PINKY"} by {
      assert FingertipIndices[0].0 == "THUMB" && FingertipIndices[1].0 == "INDEX";
      assert FingertipIndices[2].0 == "MIDDLE" && FingertipIndices[3].0 == "RING" && FingertipIndices[4].0 == "PINKY";
    }
  }

  /** `get_wrist_position`: the landmark named WRIST. */
  function GetWristPosition(hand: HandData): (p: Point3)
    requires |hand.landmarks3d| > 0
    ensures LandmarkNames[0] == "WRIST" && p == hand.landmarks3d[0]
  {
    hand.landmarks3d[0]
  }

  /**
   * `is_finger_extended`: false for an unknown finger name; the thumb
   * compares its tip's x with its CMC's according to handedness; any other
   * finger is extended when its tip is above (smaller y than) its MCP.
   */
  function IsFingerExtended(hand: HandData, finger: string): (extended: bool)
    requires finger in FingerJoints ==> |hand.landmarks3d| > 20
    ensures finger !in {"THUMB", "INDEX", "MIDDLE", "RING", "PINKY"} ==> !extended
    ensures finger == "THUMB" ==>
              (extended <==> if hand.handedness == "Right" then hand.landmarks3d[4].x > hand.landmarks3d[1].x
                                                           else hand.landmarks3d[4].x < hand.landmarks3d[1].x)
    ensures finger == "INDEX" ==> (extended <==> hand.landmarks3d[8].y < hand.landmarks3d[5].y)
    ensures finger == "MIDDLE" ==> (extended <==> hand.landmarks3d[12].y < hand.landmarks3d[9].y)
    ensures finger == "RING" ==> (extended <==> hand.landmarks3d[16].y < hand.landmarks3d[13].y)
    ensures finger == "PINKY" ==> (extended <==> hand.landmarks3d[20].y < hand.landmarks3d[17].y)
  {
    if finger !in FingerJoints then false
    else
      var indices := FingerJoints[finger];
      var lms := hand.landmarks3d;
      if finger == "THUMB" then
        var tipX := lms[indices[|indices| - 1]].x;
        var baseX := lms[indices[0]].x;
        if hand.handedness == "Right" then tipX > baseX else tipX < baseX
      else
        lms[indices[|indices| - 1]].y < lms[indices[0]].y
  }
}
