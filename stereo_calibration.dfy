/**
 * The stereo calibration of modules/stereo_calibration.py: the chessboard's
 * object-point grid, the guards around the OpenCV calibration, and the
 * fields saved to and restored from the calibration file. Corner detection,
 * the OpenCV solvers, `cv2.remap` and `np.linalg.norm` are parameters; the
 * pickle file is the record that was written, or None when it is absent.
 */
module StereoCalibration {
  import opened Wrappers
  import opened Geometry

  /** `chessboard_size`: inner corners per row (columns) and per column (rows). */
  datatype BoardSize = BoardSize(cols: nat, rows: nat)

  /** A numpy array (camera matrix, distortion vector, rotation, rectification map, corner list, image). */
  type Matrix = seq<seq<real>>

  /** A grey-scale image. */
  type Image = Matrix

  /** `a * n < b * n` with a positive `n` means `a < b`. */
  lemma LessTimes(a: int, b: int, n: int)
    requires n > 0 && a * n < b * n
    ensures a < b
  {
    assert b * n - a * n == (b - a) * n;
  }

  /** Multiplying by a natural number keeps the order. */
  lemma TimesMonotone(a: nat, b: nat, n: nat)
    requires a <= b
    ensures a * n <= b * n
  {
    var d: nat := b - a;
    assert b * n == a * n + d * n;
  }

  /** Division by `cols` recovers the row and the column of a row-major index. */
  lemma RowMajor(row: int, col: int, cols: int)
    requires cols > 0 && 0 <= col < cols && row >= 0
    ensures (row * cols + col) / cols == row && (row * cols + col) % cols == col
  {
    var k := row * cols + col;
    var q, m := k / cols, k % cols;
    assert k == q * cols + m;
    assert (q + 1) * cols == q * cols + cols && (row + 1) * cols == row * cols + cols;
    LessTimes(q, row + 1, cols);
    LessTimes(row, q + 1, cols);
  }

  /** The board coordinate of the `n`-th corner along an axis, squares being `squareSize` apart. */
  function Along(n: nat, squareSize: real): real {
    n as real * squareSize
  }

  /** With a non-zero square size, different corners along an axis have different coordinates. */
  lemma AlongInjective(m: nat, n: nat, squareSize: real)
    requires squareSize != 0.0 && m != n
    ensures Along(m, squareSize) != Along(n, squareSize)
  {
    assert Along(m, squareSize) - Along(n, squareSize) == (m - n) as real * squareSize;
  }

  /**
   * `_create_object_points`: the board's corners in the board's own plane,
   * row by row: point `k` lies in column `k % cols` and row `k / cols`, one
   * square apart, at depth 0.
   */
  function ObjectPoints(size: BoardSize, squareSize: real): (r: seq<Point3>)
    ensures |r| == size.cols * size.rows
    ensures forall k :: 0 <= k < |r| ==> r[k].z == 0.0
  {
    seq(size.cols * size.rows,
        k requires 0 <= k < size.cols * size.rows =>
          Point3(Along(k % size.cols, squareSize), Along(k / size.cols, squareSize), 0.0))
  }

  /** The corner in row `row` and column `col` of the board is point `row * cols + col`. */
  lemma ObjectPointAt(size: BoardSize, squareSize: real, row: nat, col: nat)
    requires row < size.rows && col < size.cols
    ensures row * size.cols + col < |ObjectPoints(size, squareSize)|
    ensures ObjectPoints(size, squareSize)[row * size.cols + col] ==
              Point3(Along(col, squareSize), Along(row, squareSize), 0.0)
  {
    RowMajor(row, col, size.cols);
    assert (row + 1) * size.cols == row * size.cols + size.cols;
    TimesMonotone(row + 1, size.rows, size.cols);
  }

  /** With a non-zero square size, no two corners coincide. */
  lemma ObjectPointsDistinct(size: BoardSize, squareSize: real, i: nat, j: nat)
    requires squareSize != 0.0 && i < j < |ObjectPoints(size, squareSize)|
    ensures ObjectPoints(size, squareSize)[i] != ObjectPoints(size, squareSize)[j]
  {
    var cols := size.cols;
    assert cols > 0;
    assert i == (i / cols) * cols + i % cols && j == (j / cols) * cols + j % cols;
    if i % cols == j % cols {
      AlongInjective(i / cols, j / cols, squareSize);
    } else {
      AlongInjective(i % cols, j % cols, squareSize);
    }
  }

  /** The image points and object points of the pairs whose corners were found in both images. */
  datatype Observations = Observations(objectPoints: seq<seq<Point3>>, cornersLeft: seq<Matrix>, cornersRight: seq<Matrix>)

  /** `img_size`: `images_left[0].shape[::-1]`, i.e. (width, height). */
  datatype ImageSize = ImageSize(width: nat, height: nat)

  function SizeOf(image: Image): ImageSize {
    ImageSize(if |image| == 0 then 0 else |image[0]|, |image|)
  }

  /**
   * What the OpenCV solvers return: the two intrinsic calibrations, the
   * stereo extrinsics, the stereo RMS error, and the rectification maps
   * and reprojection matrix.
   */
  datatype StereoSolution = StereoSolution(
    cameraMatrixLeft: Matrix, distCoeffsLeft: Matrix, cameraMatrixRight: Matrix, distCoeffsRight: Matrix,
    r: Matrix, t: Matrix, e: Matrix, f: Matrix, rms: real,
    map1Left: Matrix, map2Left: Matrix, map1Right: Matrix, map2Right: Matrix, q: Mat4)

  /**
   * The observations gathered from the first `k` image pairs of the zip:
   * a pair contributes the grid and its two corner lists exactly when
   * corners were found in both images.
   */
  function ObservedUpTo(left: seq<Image>, right: seq<Image>, detect: Image -> Option<Matrix>,
                        grid: seq<Point3>, k: nat): (o: Observations)
    requires k <= |left| && k <= |right|
    ensures |o.objectPoints| == |o.cornersLeft| == |o.cornersRight| <= k
    ensures forall i :: 0 <= i < |o.objectPoints| ==> o.objectPoints[i] == grid
  {
    if k == 0 then Observations([], [], [])
    else
      var o := ObservedUpTo(left, right, detect, grid, k - 1);
      var l, r := detect(left[k - 1]), detect(right[k - 1]);
      if l.Some? && r.Some? then
        Observations(o.objectPoints + [grid], o.cornersLeft + [l.value], o.cornersRight + [r.value])
      else o
  }

  /** How many of the first `k` pairs have corners in both images. */
  function UsablePairs(left: seq<Image>, right: seq<Image>, detect: Image -> Option<Matrix>, k: nat): nat
    requires k <= |left| && k <= |right|
  {
    if k == 0 then 0
    else UsablePairs(left, right, detect, k - 1) + if detect(left[k - 1]).Some? && detect(right[k - 1]).Some? then 1 else 0
  }

  /** One observation per usable pair: a pair without corners on either side contributes nothing. */
  lemma {:induction false} ObservedCountsUsablePairs(left: seq<Image>, right: seq<Image>, detect: Image -> Option<Matrix>,
                                                      grid: seq<Point3>, k: nat)
    requires k <= |left| && k <= |right|
    ensures |ObservedUpTo(left, right, detect, grid, k).objectPoints| == UsablePairs(left, right, detect, k)
  {
    if k > 0 {
      ObservedCountsUsablePairs(left, right, detect, grid, k - 1);
    }
  }

  /** The 15 entries of the calibration file. */
  datatype CalibrationRecord = CalibrationRecord(
    cameraMatrixLeft: Option<Matrix>, distCoeffsLeft: Option<Matrix>,
    cameraMatrixRight: Option<Matrix>, distCoeffsRight: Option<Matrix>,
    r: Option<Matrix>, t: Option<Matrix>, e: Option<Matrix>, f: Option<Matrix>,
    map1Left: Option<Matrix>, map2Left: Option<Matrix>, map1Right: Option<Matrix>, map2Right: Option<Matrix>,
    q: Option<Mat4>, chessboardSize: BoardSize, squareSize: real)

  function Min(a: nat, b: nat): nat { if a <= b then a else b }

  /** Fewer usable pairs than this and the calibration is refused. */
  const MinUsablePairs := 10

  class StereoCalibrator {
    var chessboardSize: BoardSize
    var squareSize: real
    const saveDir: string
    var cameraMatrixLeft: Option<Matrix>
    var distCoeffsLeft: Option<Matrix>
    var cameraMatrixRight: Option<Matrix>
    var distCoeffsRight: Option<Matrix>
    var r: Option<Matrix>
    var t: Option<Matrix>
    var e: Option<Matrix>
    var f: Option<Matrix>
    var map1Left: Option<Matrix>
    var map2Left: Option<Matrix>
    var map1Right: Option<Matrix>
    var map2Right: Option<Matrix>
    var q: Option<Mat4>
    /** `_object_points`, computed once at construction. */
    var objectPoints: seq<Point3>

    /** The fields `save_calibration` writes, as a record. */
    function Snapshot(): CalibrationRecord
      reads this
    {
      CalibrationRecord(cameraMatrixLeft, distCoeffsLeft, cameraMatrixRight, distCoeffsRight,
                        r, t, e, f, map1Left, map2Left, map1Right, map2Right, q, chessboardSize, squareSize)
    }

    /** Nothing calibrated yet; the object points follow the board. */
    constructor (chessboardSize: BoardSize, squareSize: real, saveDir: string)
      ensures this.chessboardSize == chessboardSize && this.squareSize == squareSize && this.saveDir == saveDir
      ensures cameraMatrixLeft == None && distCoeffsLeft == None && cameraMatrixRight == None && distCoeffsRight == None
      ensures r == None && t == None && e == None && f == None
      ensures map1Left == None && map2Left == None && map1Right == None && map2Right == None && q == None
      ensures objectPoints == ObjectPoints(chessboardSize, squareSize)
    {
      this.chessboardSize := chessboardSize;
      this.squareSize := squareSize;
      this.saveDir := saveDir;
      cameraMatrixLeft, distCoeffsLeft, cameraMatrixRight, distCoeffsRight := None, None, None, None;
      r, t, e, f := None, None, None, None;
      map1Left, map2Left, map1Right, map2Right, q := None, None, None, None, None;
      objectPoints := ObjectPoints(chessboardSize, squareSize);
    }

    /**
     * `calibrate_cameras`. Refused, with nothing changed, when either list is
     * empty or fewer than 10 pairs have corners in both images. Otherwise
     * the intrinsics and extrinsics are stored; the rectification maps and
     * `Q` only when the stereo RMS error is non-zero, which is also the
     * result. `detect` is the corner search with sub-pixel refinement and
     * `solve` the OpenCV calibration, rectification and map building.
     */
    method CalibrateCameras(imagesLeft: seq<Image>, imagesRight: seq<Image>, detect: Image -> Option<Matrix>,
                            solve: (Observations, ImageSize) -> StereoSolution) returns (ok: bool)
      modifies this`cameraMatrixLeft, this`distCoeffsLeft, this`cameraMatrixRight, this`distCoeffsRight
      modifies this`r, this`t, this`e, this`f
      modifies this`map1Left, this`map2Left, this`map1Right, this`map2Right, this`q
      ensures |imagesLeft| == 0 || |imagesRight| == 0 ==> !ok && unchanged(this)
      ensures |imagesLeft| > 0 && |imagesRight| > 0 &&
              UsablePairs(imagesLeft, imagesRight, detect, Min(|imagesLeft|, |imagesRight|)) < MinUsablePairs ==>
                !ok && unchanged(this)
      ensures ok ==> UsablePairs(imagesLeft, imagesRight, detect, Min(|imagesLeft|, |imagesRight|)) >= MinUsablePairs
      ensures |imagesLeft| > 0 && |imagesRight| > 0 &&
              UsablePairs(imagesLeft, imagesRight, detect, Min(|imagesLeft|, |imagesRight|)) >= MinUsablePairs ==>
                var s := solve(ObservedUpTo(imagesLeft, imagesRight, detect, old(objectPoints), Min(|imagesLeft|, |imagesRight|)),
                               SizeOf(imagesLeft[0]));
                (ok <==> s.rms != 0.0) &&
                cameraMatrixLeft == Some(s.cameraMatrixLeft) && distCoeffsLeft == Some(s.distCoeffsLeft) &&
                cameraMatrixRight == Some(s.cameraMatrixRight) && distCoeffsRight == Some(s.distCoeffsRight) &&
                r == Some(s.r) && t == Some(s.t) && e == Some(s.e) && f == Some(s.f) &&
                (ok ==> map1Left == Some(s.map1Left) && map2Left == Some(s.map2Left) &&
                        map1Right == Some(s.map1Right) && map2Right == Some(s.map2Right) && q == Some(s.q)) &&
                (!ok ==> map1Left == old(map1Left) && map2Left == old(map2Left) &&
                         map1Right == old(map1Right) && map2Right == old(map2Right) && q == old(q))
    {
      if |imagesLeft| == 0 || |imagesRight| == 0 {
        return false;
      }
      var observed := CollectObservations(imagesLeft, imagesRight, detect);
      if |observed.objectPoints| < MinUsablePairs {
        return false;
      }
      var s := solve(observed, SizeOf(imagesLeft[0]));
      StoreCalibration(s);
      if s.rms != 0.0 {
        StoreRectification(s);
        return true;
      }
      return false;
    }

    /**
     * The corner search loop of `calibrate_cameras` over the zipped image
     * pairs: one observation per pair whose corners were found on both sides.
     */
    method CollectObservations(imagesLeft: seq<Image>, imagesRight: seq<Image>, detect: Image -> Option<Matrix>)
      returns (observed: Observations)
      ensures observed == ObservedUpTo(imagesLeft, imagesRight, detect, objectPoints, Min(|imagesLeft|, |imagesRight|))
      ensures |observed.objectPoints| == UsablePairs(imagesLeft, imagesRight, detect, Min(|imagesLeft|, |imagesRight|))
    {
      var pairs := Min(|imagesLeft|, |imagesRight|);
      var objPoints: seq<seq<Point3>> := [];
      var pointsLeft: seq<Matrix> := [];
      var pointsRight: seq<Matrix> := [];
      var i := 0;
      while i < pairs
        invariant 0 <= i <= pairs
        invariant Observations(objPoints, pointsLeft, pointsRight) == ObservedUpTo(imagesLeft, imagesRight, detect, objectPoints, i)
      {
        var cornersLeft := detect(imagesLeft[i]);
        var cornersRight := detect(imagesRight[i]);
        if cornersLeft.Some? && cornersRight.Some? {
          objPoints := objPoints + [objectPoints];
          pointsLeft := pointsLeft + [cornersLeft.value];
          pointsRight := pointsRight + [cornersRight.value];
        }
        i := i + 1;
      }
      observed := Observations(objPoints, pointsLeft, pointsRight);
      ObservedCountsUsablePairs(imagesLeft, imagesRight, detect, objectPoints, pairs);
    }

    /** The intrinsics and extrinsics of a solved calibration; nothing else changes. */
    method StoreCalibration(s: StereoSolution)
      modifies this`cameraMatrixLeft, this`distCoeffsLeft, this`cameraMatrixRight, this`distCoeffsRight
      modifies this`r, this`t, this`e, this`f
      ensures cameraMatrixLeft == Some(s.cameraMatrixLeft) && distCoeffsLeft == Some(s.distCoeffsLeft)
      ensures cameraMatrixRight == Some(s.cameraMatrixRight) && distCoeffsRight == Some(s.distCoeffsRight)
      ensures r == Some(s.r) && t == Some(s.t) && e == Some(s.e) && f == Some(s.f)
    {
      cameraMatrixLeft, distCoeffsLeft := Some(s.cameraMatrixLeft), Some(s.distCoeffsLeft);
      cameraMatrixRight, distCoeffsRight := Some(s.cameraMatrixRight), Some(s.distCoeffsRight);
      r, t, e, f := Some(s.r), Some(s.t), Some(s.e), Some(s.f);
    }

    /** The rectification maps and `Q` of a solved calibration; nothing else changes. */
    method StoreRectification(s: StereoSolution)
      modifies this`map1Left, this`map2Left, this`map1Right, this`map2Right, this`q
      ensures map1Left == Some(s.map1Left) && map2Left == Some(s.map2Left)
      ensures map1Right == Some(s.map1Right) && map2Right == Some(s.map2Right) && q == Some(s.q)
    {
      q := Some(s.q);
      map1Left, map2Left := Some(s.map1Left), Some(s.map2Left);
      map1Right, map2Right := Some(s.map1Right), Some(s.map2Right);
    }

    /**
     * `save_calibration`: without a left camera matrix nothing is written;
     * otherwise the record of all 15 entries is written when the file write
     * succeeds (`writeOk`). A failed `open` or `pickle.dump` gives False
     * and is modelled as leaving no readable record (an older file that
     * survives a failed `open` is not modelled).
     */
    method SaveCalibration(writeOk: bool) returns (ok: bool, written: Option<CalibrationRecord>)
      ensures written == if cameraMatrixLeft != None && writeOk then Some(Snapshot()) else None
      ensures ok <==> written.Some?
    {
      if cameraMatrixLeft == None {
        return false, None;
      }
      if !writeOk {
        return false, None;
      }
      written := Some(Snapshot());
      ok := true;
    }

    /**
     * `load_calibration`: `stored` is the file's record, None when the file
     * does not exist or `pickle.load` fails on it (then nothing changes). A loaded record replaces all 15
     * entries; the object points are not recomputed for the loaded board.
     */
    method LoadCalibration(stored: Option<CalibrationRecord>) returns (ok: bool)
      modifies this
      ensures ok <==> stored.Some?
      ensures ok ==> Snapshot() == stored.value
      ensures !ok ==> unchanged(this)
      ensures objectPoints == old(objectPoints)
    {
      if stored.None? {
        return false;
      }
      Restore(stored.value);
      ok := true;
    }

    /** The assignments of `load_calibration`: every entry of the record, nothing else. */
    method Restore(d: CalibrationRecord)
      modifies this`cameraMatrixLeft, this`distCoeffsLeft, this`cameraMatrixRight, this`distCoeffsRight
      modifies this`r, this`t, this`e, this`f
      modifies this`map1Left, this`map2Left, this`map1Right, this`map2Right, this`q
      modifies this`chessboardSize, this`squareSize
      ensures Snapshot() == d
    {
      RestoreCameras(d);
      RestoreRectification(d);
      chessboardSize, squareSize := d.chessboardSize, d.squareSize;
    }

    /** The camera entries of a loaded record. */
    method RestoreCameras(d: CalibrationRecord)
      modifies this`cameraMatrixLeft, this`distCoeffsLeft, this`cameraMatrixRight, this`distCoeffsRight
      modifies this`r, this`t, this`e, this`f
      ensures cameraMatrixLeft == d.cameraMatrixLeft && distCoeffsLeft == d.distCoeffsLeft
      ensures cameraMatrixRight == d.cameraMatrixRight && distCoeffsRight == d.distCoeffsRight
      ensures r == d.r && t == d.t && e == d.e && f == d.f
    {
      cameraMatrixLeft, distCoeffsLeft := d.cameraMatrixLeft, d.distCoeffsLeft;
      cameraMatrixRight, distCoeffsRight := d.cameraMatrixRight, d.distCoeffsRight;
      r, t, e, f := d.r, d.t, d.e, d.f;
    }

    /** The rectification entries of a loaded record. */
    method RestoreRectification(d: CalibrationRecord)
      modifies this`map1Left, this`map2Left, this`map1Right, this`map2Right, this`q
      ensures map1Left == d.map1Left && map2Left == d.map2Left && map1Right == d.map1Right && map2Right == d.map2Right
      ensures q == d.q
    {
      map1Left, map2Left := d.map1Left, d.map2Left;
      map1Right, map2Right := d.map1Right, d.map2Right;
      q := d.q;
    }

    /**
     * `rectify_images`: both images unchanged without a left rectification
     * map; otherwise each image remapped with its own camera's maps.
     */
    method RectifyImages(imageLeft: Image, imageRight: Image, remap: (Image, Option<Matrix>, Option<Matrix>) -> Image)
      returns (rectLeft: Image, rectRight: Image)
      ensures map1Left == None ==> rectLeft == imageLeft && rectRight == imageRight
      ensures map1Left != None ==> rectLeft == remap(imageLeft, map1Left, map2Left) &&
                                   rectRight == remap(imageRight, map1Right, map2Right)
    {
      if map1Left == None {
        return imageLeft, imageRight;
      }
      rectLeft := remap(imageLeft, map1Left, map2Left);
      rectRight := remap(imageRight, map1Right, map2Right);
    }

    /** `get_baseline`: 0.0 before any calibration, else the norm of the translation `T`. */
    method GetBaseline(norm: Matrix -> real) returns (baseline: real)
      ensures t == None ==> baseline == 0.0
      ensures t != None ==> baseline == norm(t.value)
    {
      if t == None {
        return 0.0;
      }
      baseline := norm(t.value);
    }
  }

  /**
   * A record saved by one calibrator and loaded by another restores every
   * one of the 15 entries on the second, exactly when the save succeeded.
   */
  method SaveThenLoad(source: StereoCalibrator, target: StereoCalibrator, writeOk: bool) returns (restored: bool)
    modifies target
    ensures restored <==> source.cameraMatrixLeft != None && writeOk
    ensures restored ==> target.Snapshot() == source.Snapshot()
    ensures !restored ==> unchanged(target)
  {
    var saved, written := source.SaveCalibration(writeOk);
    restored := target.LoadCalibration(written);
  }
}
