/** Occlusion geometry of the obstacle plugin: which thetas and phis the
    obstacle covers, which slice of the obstacle image each covered view
    shows, and where the slice is drawn. Pixel sizes derived from the
    fractional margins are taken as given integers. */
module Occlusion {
  import opened Common

  /** `Range(a, b, 1, 'n')`: the ascending integers of [a, b). */
  function Range(a: int, b: int): (r: seq<int>)
    ensures |r| == if a < b then b - a else 0
    ensures forall k :: 0 <= k < |r| ==> r[k] == a + k
    decreases b - a
  {
    if a < b then [a] + Range(a + 1, b) else []
  }

  /** The thetas the obstacle covers, from its left to its right margin
      index; when both indices coincide the fractional margins decide
      between one view, the whole circle, or nothing. */
  function CoveredThetas(left: int, right: int, leftMargin: real, rightMargin: real, J: int): seq<int> {
    if left < right then Range(left, right + 1)
    else if left > right then Range(left, J) + Range(0, right + 1)
    else if leftMargin < rightMargin then Range(left, right + 1)
    else if rightMargin < leftMargin then Range(left, J) + Range(0, right + 1)
    else []
  }

  /** How many thetas are covered. */
  function CoveredThetaCount(left: int, right: int, leftMargin: real, rightMargin: real, J: int): nat
    requires 0 <= left < J && 0 <= right < J
  {
    if left < right then right - left + 1
    else if left > right then J - left + right + 1
    else if leftMargin < rightMargin then 1
    else if rightMargin < leftMargin then J + 1
    else 0
  }

  /** The covered thetas walk rightwards from the left margin index,
      wrapping from J - 1 to 0, and stop at the right margin index. */
  lemma CoveredThetasWalk(left: int, right: int, leftMargin: real, rightMargin: real, J: int)
    requires 0 <= left < J && 0 <= right < J
    ensures var r := CoveredThetas(left, right, leftMargin, rightMargin, J);
            && |r| == CoveredThetaCount(left, right, leftMargin, rightMargin, J)
            && (forall k :: 0 <= k < |r| ==> r[k] == (left + k) % J)
            && (r != [] ==> r[0] == left && r[|r| - 1] == right)
  {
    var r := CoveredThetas(left, right, leftMargin, rightMargin, J);
    forall k | 0 <= k < |r|
      ensures r[k] == (left + k) % J
    {
      if left + k < J {
        ModUnique(left + k, J, 0, left + k);
      } else {
        ModUnique(left + k, J, 1, left + k - J);
      }
    }
  }

  /** Membership in the covered thetas, case by case. */
  lemma CoveredThetasMembers(left: int, right: int, leftMargin: real, rightMargin: real, J: int, x: int)
    requires 0 <= left < J && 0 <= right < J
    ensures x in CoveredThetas(left, right, leftMargin, rightMargin, J) <==>
      if left < right || (left == right && leftMargin < rightMargin) then left <= x <= right
      else if left > right || rightMargin < leftMargin then (left <= x < J || 0 <= x <= right)
      else false
  {
    var r := CoveredThetas(left, right, leftMargin, rightMargin, J);
    if left <= x < J && (left > right || (left == right && rightMargin < leftMargin)) {
      assert r[x - left] == x;
    }
    if 0 <= x <= right && (left > right || (left == right && rightMargin < leftMargin)) {
      assert r[J - left + x] == x;
    }
    if left <= x <= right && (left < right || (left == right && leftMargin < rightMargin)) {
      assert r[x - left] == x;
    }
  }

  /** The covered phis: top to bottom, ascending, no wrap-around. */
  function CoveredPhis(top: int, bottom: int): (r: seq<int>)
    ensures |r| == if top <= bottom then bottom - top + 1 else 0
    ensures forall k :: 0 <= k < |r| ==> r[k] == top + k
  {
    Range(top, bottom + 1)
  }

  /** `findIndex`: the first position of x in s, or -1. */
  function FindIndex(s: seq<int>, x: int): (e: int)
    ensures -1 <= e < |s|
    ensures e == -1 <==> x !in s
    ensures e >= 0 ==> s[e] == x && x !in s[..e]
  {
    if s == [] then -1
    else if s[0] == x then 0
    else
      var eRest := FindIndex(s[1..], x);
      if eRest == -1 then -1
      else
        assert s[..eRest + 1] == [s[0]] + s[1..][..eRest];
        eRest + 1
  }

  /** The source offsets of the slices, one per covered index (at least
      one): 0 first, then -start + step, growing by step. */
  function Offsets(start: int, step: int, count: nat): (r: seq<int>)
    ensures |r| == Max(count, 1)
  {
    seq(Max(count, 1), e => if e == 0 then 0 else -start + e * step)
  }

  /** The offsets follow the recurrence the push loop builds. */
  lemma OffsetsRecurrence(start: int, step: int, count: nat)
    ensures var r := Offsets(start, step, count);
            && r[0] == 0
            && (|r| > 1 ==> r[1] == -start + step)
            && (forall e :: 2 <= e < |r| ==> r[e] == r[e - 1] + step)
  {
    var r := Offsets(start, step, count);
    forall e | 2 <= e < |r|
      ensures r[e] == r[e - 1] + step
    {
      assert e * step == (e - 1) * step + step;
    }
  }

  /** The push loop for `sx_obstacle` / `sy_obstacle`: start from -start,
      add step per covered index, then overwrite the first entry with 0. */
  method SourceOffsets(start: int, step: int, count: nat) returns (offsets: seq<int>)
    ensures offsets == Offsets(start, step, count)
  {
    offsets := [-start];
    var e := 1;
    while e < count
      invariant 1 <= e == |offsets|
      invariant e <= Max(count, 1)
      invariant forall k :: 0 <= k < e ==> offsets[k] == -start + k * step
    {
      assert (e - 1) * step + step == e * step;
      offsets := offsets + [offsets[e - 1] + step];
      e := e + 1;
    }
    offsets := offsets[0 := 0];
  }

  /** One axis of the obstacle: the covered indices, the near (left / top)
      and far (right / bottom) margin indices, the source sizes of the full,
      near and far slices, the destination positions and sizes, and the
      per-index source offsets. */
  datatype Axis = Axis(
    covered: seq<int>, near: int, far: int,
    sFull: int, sNear: int, sFar: int,
    dNear: int, dFar: int, dSizeNear: int, dSizeFar: int, dFull: int,
    offsets: seq<int>)
  {
    predicate Valid() {
      |offsets| == Max(|covered|, 1)
    }
  }

  /** The integer pixel quantities an axis is built from. */
  datatype AxisPixels = AxisPixels(
    sFull: int, sNear: int, sFar: int,
    dNear: int, dFar: int, dSizeNear: int, dSizeFar: int, dFull: int,
    step: int)

  function MakeAxis(covered: seq<int>, near: int, far: int, px: AxisPixels): (a: Axis)
    ensures a.Valid() && a.covered == covered && a.near == near && a.far == far
    ensures a.offsets == Offsets(px.sFull - px.sNear, px.step, |covered|)
  {
    Axis(covered, near, far, px.sFull, px.sNear, px.sFar,
         px.dNear, px.dFar, px.dSizeNear, px.dSizeFar, px.dFull,
         Offsets(px.sFull - px.sNear, px.step, |covered|))
  }

  datatype Slice = NearEdge | FarEdge | Interior

  /** The near margin is checked first, then the far one. */
  function SliceOf(a: Axis, x: int): Slice {
    if x == a.near then NearEdge else if x == a.far then FarEdge else Interior
  }

  /** Source size, destination position and destination size of a slice;
      an interior slice is drawn at the far edge's position. */
  datatype Span = Span(sSize: int, d: int, dSize: int)

  function SpanOf(a: Axis, s: Slice): Span {
    match s
    case NearEdge => Span(a.sNear, a.dNear, a.dSizeNear)
    case FarEdge => Span(a.sFar, a.dFar, a.dSizeFar)
    case Interior => Span(a.sFull, a.dFar, a.dFull)
  }

  /** One `drawImage(img_obstacle, sx, sy, sWidth, sHeight, dx, dy, dWidth, dHeight)`. */
  datatype Draw = Draw(sx: int, sy: int, sWidth: int, sHeight: int,
                       dx: int, dy: int, dWidth: int, dHeight: int)

  /** The degenerate case in which the obstacle wraps the whole circle and
      both margins fall in one theta view. */
  predicate WrapsInOneView(theta: Axis, j: int, leftMargin: real, rightMargin: real) {
    j == theta.near && j == theta.far && rightMargin < leftMargin
  }

  /** The overlay drawn over view (j, i) at frame t. */
  function OverlayDraws(withObstacle: bool, theta: Axis, phi: Axis, leftMargin: real, rightMargin: real,
                        t: Option<int>, j: int, i: int): (r: seq<Draw>)
    requires theta.Valid() && phi.Valid()
    ensures |r| <= 2
    ensures r != [] <==> withObstacle && t.Some? && j in theta.covered && i in phi.covered
    ensures |r| == 2 <==> r != [] && WrapsInOneView(theta, j, leftMargin, rightMargin)
  {
    if !withObstacle || t.None? then []
    else
      var e := FindIndex(theta.covered, j);
      var v := FindIndex(phi.covered, i);
      if e == -1 || v == -1 then []
      else
        var h := SpanOf(theta, SliceOf(theta, j));
        var w := SpanOf(phi, SliceOf(phi, i));
        var first := Draw(theta.offsets[e], phi.offsets[v], h.sSize, w.sSize, h.d, w.d, h.dSize, w.dSize);
        if WrapsInOneView(theta, j, leftMargin, rightMargin) then
          var g := SpanOf(theta, FarEdge);
          [first, Draw(theta.offsets[|theta.offsets| - 1], phi.offsets[v], g.sSize, w.sSize, g.d, w.d, g.dSize, w.dSize)]
        else
          [first]
  }

  /** The first draw of an occluded view uses the left-edge rectangle when
      j is the left margin index (even if it is also the right one), the
      right-edge rectangle when j is only the right margin index, and the
      interior rectangle otherwise; phi likewise with top before bottom.
      Its source offsets are those of the first covered position of j and i. */
  lemma OverlaySliceChoice(withObstacle: bool, theta: Axis, phi: Axis, leftMargin: real, rightMargin: real,
                           t: Option<int>, j: int, i: int)
    requires theta.Valid() && phi.Valid()
    requires withObstacle && t.Some? && j in theta.covered && i in phi.covered
    ensures var r := OverlayDraws(withObstacle, theta, phi, leftMargin, rightMargin, t, j, i);
            var e := FindIndex(theta.covered, j);
            var v := FindIndex(phi.covered, i);
            && r[0].sx == theta.offsets[e] && r[0].sy == phi.offsets[v]
            && (j == theta.near ==> r[0].sWidth == theta.sNear && r[0].dx == theta.dNear && r[0].dWidth == theta.dSizeNear)
            && (j != theta.near && j == theta.far ==> r[0].sWidth == theta.sFar && r[0].dx == theta.dFar && r[0].dWidth == theta.dSizeFar)
            && (j != theta.near && j != theta.far ==> r[0].sWidth == theta.sFull && r[0].dx == theta.dFar && r[0].dWidth == theta.dFull)
            && (i == phi.near ==> r[0].sHeight == phi.sNear && r[0].dy == phi.dNear && r[0].dHeight == phi.dSizeNear)
            && (i != phi.near && i == phi.far ==> r[0].sHeight == phi.sFar && r[0].dy == phi.dFar && r[0].dHeight == phi.dSizeFar)
            && (i != phi.near && i != phi.far ==> r[0].sHeight == phi.sFull && r[0].dy == phi.dFar && r[0].dHeight == phi.dFull)
  {
  }

  /** In the whole-circle case the second draw is the right-edge rectangle
      at the last source offset, on the same phi slice as the first. */
  lemma OverlaySecondSlice(withObstacle: bool, theta: Axis, phi: Axis, leftMargin: real, rightMargin: real,
                           t: Option<int>, j: int, i: int)
    requires theta.Valid() && phi.Valid()
    requires withObstacle && t.Some? && j in theta.covered && i in phi.covered
    requires WrapsInOneView(theta, j, leftMargin, rightMargin)
    ensures var r := OverlayDraws(withObstacle, theta, phi, leftMargin, rightMargin, t, j, i);
            && |r| == 2
            && r[1].sx == theta.offsets[|theta.offsets| - 1]
            && r[1].sWidth == theta.sFar && r[1].dx == theta.dFar && r[1].dWidth == theta.dSizeFar
            && r[1].sy == r[0].sy && r[1].sHeight == r[0].sHeight && r[1].dy == r[0].dy && r[1].dHeight == r[0].dHeight
  {
  }

  /** The obstacle parameters of a trial; `None` stands for a `null` parameter. */
  datatype ObstacleParams = ObstacleParams(
    obstacle: Option<string>,
    thetaLeft: Option<int>, thetaRight: Option<int>, phiBottom: Option<int>, phiTop: Option<int>,
    leftMargin: real, rightMargin: real,
    thetaPixels: AxisPixels, phiPixels: AxisPixels)

  /** A trial draws the obstacle when the image and all four margin
      indices are given. */
  predicate TrialWithObstacle(p: ObstacleParams) {
    p.obstacle.Some? && p.thetaLeft.Some? && p.thetaRight.Some? && p.phiBottom.Some? && p.phiTop.Some?
  }

  datatype Geometry = Geometry(theta: Axis, phi: Axis)

  function BuildGeometry(p: ObstacleParams, J: int): (g: Geometry)
    requires p.thetaLeft.Some? && p.thetaRight.Some? && p.phiBottom.Some? && p.phiTop.Some?
    ensures g.theta.Valid() && g.phi.Valid()
  {
    var left, right := p.thetaLeft.value, p.thetaRight.value;
    var top, bottom := p.phiTop.value, p.phiBottom.value;
    Geometry(
      MakeAxis(CoveredThetas(left, right, p.leftMargin, p.rightMargin, J), left, right, p.thetaPixels),
      MakeAxis(CoveredPhis(top, bottom), top, bottom, p.phiPixels))
  }

  /** The set-up as written: the geometry block runs only when no obstacle
      image is given (and is reached here only when the margin indices are). */
  function SetUpAsWritten(p: ObstacleParams, J: int): Option<Geometry> {
    if p.obstacle.None? && p.thetaLeft.Some? && p.thetaRight.Some? && p.phiBottom.Some? && p.phiTop.Some?
    then Some(BuildGeometry(p, J)) else None
  }

  /** The set-up as intended: the geometry exists exactly for trials that
      draw the obstacle. */
  function SetUp(p: ObstacleParams, J: int): (g: Option<Geometry>)
    ensures g.Some? <==> TrialWithObstacle(p)
  {
    if TrialWithObstacle(p) then Some(BuildGeometry(p, J)) else None
  }

  datatype Render = Drawn(draws: seq<Draw>) | TypeError

  /** One frame's overlay step: reading the covered lists of a geometry
      that was never built fails. */
  function RenderOverlay(withObstacle: bool, g: Option<Geometry>, leftMargin: real, rightMargin: real,
                         t: Option<int>, j: int, i: int): Render
  {
    if !withObstacle || t.None? then Drawn([])
    else if g.None? || !g.value.theta.Valid() || !g.value.phi.Valid() then TypeError
    else Drawn(OverlayDraws(true, g.value.theta, g.value.phi, leftMargin, rightMargin, t, j, i))
  }

  /** As written, every trial that has an obstacle fails on its first frame. */
  lemma AsWrittenObstacleTrialFails(p: ObstacleParams, J: int, t: Option<int>, j: int, i: int)
    requires TrialWithObstacle(p) && t.Some?
    ensures RenderOverlay(true, SetUpAsWritten(p, J), p.leftMargin, p.rightMargin, t, j, i) == TypeError
  {
  }

  /** With the intended guard every frame renders, and a view gets an
      overlay exactly when it is covered in theta and in phi. */
  lemma SetUpRendersEveryFrame(p: ObstacleParams, J: int, t: Option<int>, j: int, i: int)
    ensures var r := RenderOverlay(TrialWithObstacle(p), SetUp(p, J), p.leftMargin, p.rightMargin, t, j, i);
            && r.Drawn?
            && (r.draws != [] <==>
                  (TrialWithObstacle(p) && t.Some?
                   && j in SetUp(p, J).value.theta.covered && i in SetUp(p, J).value.phi.covered))
  {
  }
}
