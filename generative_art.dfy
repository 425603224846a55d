/** The generative-art point engine: geometry helpers, the point generators,
    the per-frame scene steps, the scene factory table and the frame-id
    bookkeeping that gates animation on visibility.  Random draws are passed in
    as sequences of reals (each `Math.random()` result, in [0, 1)); the circle
    layouts and the sine easing, which need trigonometry, are not modelled. */
module GenerativeArt {
  import opened Optional

  datatype Point = Point(x: real, y: real)

  datatype Boundary = Boundary(
    xMin: real, xMax: real, yMin: real, yMax: real, yMid: real, xMid: real,
    xl: real, xr: real, yb: real, yt: real)

  /** What the host offers: no window at all (server rendering), or a window with
      its inner size. */
  datatype Viewport = NoWindow | Window(innerWidth: real, innerHeight: real)

  /** getCanvasSize: 800 x 600 without a window, else the window less a 60 px
      margin, at least 320 wide, and 60% of its height, at least 400 high. */
  function CanvasSize(v: Viewport): (size: (real, real))
    ensures v.NoWindow? ==> size == (800.0, 600.0)
    ensures v.Window? ==>
      size.0 >= 320.0 && size.0 >= v.innerWidth - 60.0 && (size.0 == 320.0 || size.0 == v.innerWidth - 60.0)
    ensures v.Window? ==>
      size.1 >= 400.0 && size.1 >= 0.6 * v.innerHeight && (size.1 == 400.0 || size.1 == 0.6 * v.innerHeight)
  {
    match v
    case NoWindow => (800.0, 600.0)
    case Window(w, h) =>
      (if w - 60.0 >= 320.0 then w - 60.0 else 320.0,
       if 0.6 * h >= 400.0 then 0.6 * h else 400.0)
  }

  /** isInViewport: the vertical midpoint of the element lies strictly inside the
      viewport band; `innerHeight || clientHeight` falls back on the document's
      client height when the window reports 0. */
  predicate IsInViewport(rectTop: real, rectBottom: real, innerHeight: real, clientHeight: real)
  {
    var mid := 0.5 * (rectBottom + rectTop);
    var band := if innerHeight != 0.0 then innerHeight else clientHeight;
    mid > 0.0 && mid < band
  }

  /** A container lying wholly inside the window band is in view, one wholly
      above its top or wholly below its bottom is not; a zero `innerHeight`
      falls back to the document's client height. */
  lemma ViewportBand(rectTop: real, rectBottom: real, innerHeight: real, clientHeight: real)
    requires rectTop <= rectBottom
    ensures var band := if innerHeight != 0.0 then innerHeight else clientHeight;
      (0.0 < rectTop && rectBottom < band ==> IsInViewport(rectTop, rectBottom, innerHeight, clientHeight)) &&
      (rectBottom <= 0.0 || rectTop >= band ==> !IsInViewport(rectTop, rectBottom, innerHeight, clientHeight))
    ensures innerHeight == 0.0 ==>
      (IsInViewport(rectTop, rectBottom, innerHeight, clientHeight) <==> IsInViewport(rectTop, rectBottom, clientHeight, clientHeight))
  {
  }

  /** getBoundary: the canvas edges and an inner box inset by 5% horizontally and
      20% vertically, with its midpoints. */
  function GetBoundary(width: real, height: real): (b: Boundary)
    ensures b.xl == 0.0 && b.xr == width && b.yt == 0.0 && b.yb == height
    ensures b.xMin == 0.05 * width && b.xMax == 0.95 * width && b.xMid == width / 2.0
    ensures b.yMin == 0.2 * height && b.yMax == 0.8 * height && b.yMid == height / 2.0
    ensures width >= 0.0 ==> b.xl <= b.xMin <= b.xMid <= b.xMax <= b.xr
    ensures height >= 0.0 ==> b.yt <= b.yMin <= b.yMid <= b.yMax <= b.yb
  {
    var edgeX := (5.0 * width) / 100.0;
    var edgeTopY := 0.2 * height;
    var edgeBottomY := 0.2 * height;
    Boundary(
      xMin := edgeX, xMax := width - edgeX,
      yMin := edgeTopY, yMax := height - edgeBottomY,
      yMid := 0.5 * (height - edgeBottomY + edgeTopY),
      xMid := 0.5 * (width - edgeX + edgeX),
      xl := 0.0, xr := width, yb := height, yt := 0.0)
  }

  /** getNs: `n` copies of `v`. */
  function GetNs(n: nat, v: real): (r: seq<real>)
    ensures |r| == n && forall i :: 0 <= i < n ==> r[i] == v
  {
    seq(n, _ => v)
  }

  /** The spacing `(hi - lo) / n` of an n-point linspace (unused when n = 0). */
  function Step(lo: real, hi: real, n: nat): (st: real)
    ensures n > 0 ==> st * (n as real) == hi - lo
    ensures lo == hi ==> st == 0.0
    ensures n > 0 && lo < hi ==> st > 0.0
  {
    if n == 0 then 0.0 else (hi - lo) / n as real
  }

  /** The n points the linspace generator produces: point k is k steps from
      (xMin, yMin). */
  ghost function Linspace(n: nat, xMin: real, xMax: real, yMin: real, yMax: real): (ps: seq<Point>)
    ensures |ps| == n
  {
    seq(n, k requires 0 <= k < n =>
      Point(xMin + k as real * Step(xMin, xMax, n), yMin + k as real * Step(yMin, yMax, n)))
  }

  /** The n points the random-y generator produces from the draws. */
  ghost function RndYLinspace(n: nat, xMin: real, xMax: real, yMin: real, yMax: real,
                              draws: seq<real>): (ps: seq<Point>)
    requires |draws| == n
    ensures |ps| == n
  {
    seq(n, k requires 0 <= k < n =>
      Point(xMin + k as real * Step(xMin, xMax, n), ScaledDraw(draws[k], yMin, yMax)))
  }

  /** getLinspaceYLinspaceX: accumulates x and y by their steps. */
  method GetLinspaceYLinspaceX(n: nat, xMin: real, xMax: real, yMin: real, yMax: real)
    returns (res: seq<Point>)
    ensures res == Linspace(n, xMin, xMax, yMin, yMax)
  {
    ghost var ps := Linspace(n, xMin, xMax, yMin, yMax);
    var sX := Step(xMin, xMax, n);
    var sY := Step(yMin, yMax, n);
    var x, y := xMin, yMin;
    res := [];
    var i := 0;
    while i < n
      invariant 0 <= i <= n && |res| == i
      invariant x == xMin + i as real * sX && y == yMin + i as real * sY
      invariant forall k :: 0 <= k < i ==> res[k] == ps[k]
    {
      assert Point(x, y) == ps[i];
      res := res + [Point(x, y)];
      assert (i + 1) as real * sX == i as real * sX + sX;
      assert (i + 1) as real * sY == i as real * sY + sY;
      x := x + sX;
      y := y + sY;
      i := i + 1;
    }
  }

  /** `yMin + Math.random() * (yMax - yMin)` for the draw r. */
  function ScaledDraw(r: real, lo: real, hi: real): (y: real)
    ensures lo < hi && 0.0 <= r < 1.0 ==> lo <= y < hi
  {
    ScaledDrawBounds(r, lo, hi);
    lo + r * (hi - lo)
  }

  /** getRndYLinspaceX: x as in the linspace, y = yMin + r * (yMax - yMin) for the
      i-th draw r. */
  method GetRndYLinspaceX(n: nat, xMin: real, xMax: real, yMin: real, yMax: real, draws: seq<real>)
    returns (res: seq<Point>)
    requires |draws| == n
    ensures res == RndYLinspace(n, xMin, xMax, yMin, yMax, draws)
  {
    ghost var ps := RndYLinspace(n, xMin, xMax, yMin, yMax, draws);
    var s := Step(xMin, xMax, n);
    var x := xMin;
    res := [];
    var i := 0;
    while i < n
      invariant 0 <= i <= n && |res| == i
      invariant x == xMin + i as real * s
      invariant forall k :: 0 <= k < i ==> res[k] == ps[k]
    {
      res := res + [Point(x, ScaledDraw(draws[i], yMin, yMax))];
      assert (i + 1) as real * s == i as real * s + s;
      x := x + s;
      i := i + 1;
    }
  }

  /** With yMin = yMax every linspace point has that y. */
  lemma LinspaceFlat(n: nat, xMin: real, xMax: real, y: real)
    ensures forall k :: 0 <= k < n ==> Linspace(n, xMin, xMax, y, y)[k].y == y
  {
    var ps := Linspace(n, xMin, xMax, y, y);
    forall k | 0 <= k < n ensures ps[k].y == y {
      assert ps[k].y == y + k as real * Step(y, y, n);
    }
  }

  /** The last point stops one step short of xMax. */
  lemma LinspaceLast(n: nat, xMin: real, xMax: real, yMin: real, yMax: real)
    requires n > 0
    ensures Linspace(n, xMin, xMax, yMin, yMax)[n - 1].x == xMax - Step(xMin, xMax, n)
  {
    var st, nr := Step(xMin, xMax, n), n as real;
    assert st * nr == xMax - xMin;
    assert (nr - 1.0) * st == st * nr - st;
  }

  /** With xMin < xMax the x coordinates rise strictly and stay in [xMin, xMax). */
  lemma {:induction false} LinspaceXIncreasing(n: nat, xMin: real, xMax: real, yMin: real, yMax: real)
    requires xMin < xMax
    ensures var ps := Linspace(n, xMin, xMax, yMin, yMax);
      (forall i :: 0 <= i < n ==> xMin <= ps[i].x < xMax) &&
      (forall i, j :: 0 <= i < j < n ==> ps[i].x < ps[j].x)
  {
    var ps := Linspace(n, xMin, xMax, yMin, yMax);
    if n > 0 {
      var st := Step(xMin, xMax, n);
      assert st > 0.0;
      LinspaceLast(n, xMin, xMax, yMin, yMax);
      forall i, j | 0 <= i < j < n ensures ps[i].x < ps[j].x {
        LinspacePairX(n, xMin, xMax, yMin, yMax, i, j);
      }
      forall i | 0 <= i < n ensures xMin <= ps[i].x < xMax {
        assert ps[i].x == xMin + i as real * st;
        if i < n - 1 {
          StepMonotone(i, n - 1, st);
        }
        assert 0.0 <= (i as real) * st;
      }
    }
  }

  lemma LinspacePairX(n: nat, xMin: real, xMax: real, yMin: real, yMax: real, i: nat, j: nat)
    requires xMin < xMax && i < j < n
    ensures Linspace(n, xMin, xMax, yMin, yMax)[i].x < Linspace(n, xMin, xMax, yMin, yMax)[j].x
  {
    StepMonotone(i, j, Step(xMin, xMax, n));
  }

  lemma StepMonotone(i: int, j: int, st: real)
    requires i < j && st > 0.0
    ensures (i as real) * st < (j as real) * st
  {
    assert (j as real) * st - (i as real) * st == ((j - i) as real) * st;
  }

  /** Draws in [0, 1) put every random y in [yMin, yMax) when yMin < yMax. */
  lemma {:induction false} RndYInRange(n: nat, xMin: real, xMax: real, yMin: real, yMax: real,
                                        draws: seq<real>)
    requires |draws| == n && yMin < yMax
    requires forall k :: 0 <= k < n ==> 0.0 <= draws[k] < 1.0
    ensures forall k :: 0 <= k < n ==>
      yMin <= RndYLinspace(n, xMin, xMax, yMin, yMax, draws)[k].y < yMax
  {
    var ps := RndYLinspace(n, xMin, xMax, yMin, yMax, draws);
    forall k | 0 <= k < n
      ensures yMin <= ps[k].y < yMax
    {
      assert ps[k].y == ScaledDraw(draws[k], yMin, yMax);
    }
  }

  /** A draw r in [0, 1) scales into [lo, hi). */
  lemma ScaledDrawBounds(r: real, lo: real, hi: real)
    ensures lo < hi && 0.0 <= r < 1.0 ==> lo <= lo + r * (hi - lo) < hi
  {
    if lo < hi && 0.0 <= r < 1.0 {
      ScaledDrawBelow(r, lo, hi);
      ScaledDrawAbove(r, lo, hi);
    }
  }

  lemma ScaledDrawBelow(r: real, lo: real, hi: real)
    requires lo < hi && 0.0 <= r < 1.0
    ensures lo + r * (hi - lo) < hi
  {
    if lo + r * (hi - lo) >= hi {
      // then (1 - r) (hi - lo) would not be positive
      PositiveProduct(1.0 - r, hi - lo);
    }
  }

  lemma PositiveProduct(a: real, b: real)
    requires a > 0.0 && b > 0.0
    ensures a * b > 0.0
  {
  }

  lemma ScaledDrawAbove(r: real, lo: real, hi: real)
    requires lo < hi && 0.0 <= r < 1.0
    ensures lo <= lo + r * (hi - lo)
  {
  }

  /** permute: every value moves by (1 - 2r) * noise for its draw r; with draws
      in [0, 1) and noise >= 0, by at most noise. */
  function Permute(arr: seq<real>, noise: real, draws: seq<real>): (r: seq<real>)
    requires |draws| == |arr|
    ensures |r| == |arr|
    ensures (noise >= 0.0 && forall k :: 0 <= k < |draws| ==> 0.0 <= draws[k] < 1.0) ==>
      forall i :: 0 <= i < |arr| ==> arr[i] - noise <= r[i] <= arr[i] + noise
  {
    var res := seq(|arr|, i requires 0 <= i < |arr| => arr[i] + (1.0 - 2.0 * draws[i]) * noise);
    assert (noise >= 0.0 && forall k :: 0 <= k < |draws| ==> 0.0 <= draws[k] < 1.0) ==>
      forall i :: 0 <= i < |arr| ==> arr[i] - noise <= res[i] <= arr[i] + noise by {
      if noise >= 0.0 && forall k :: 0 <= k < |draws| ==> 0.0 <= draws[k] < 1.0 {
        forall i | 0 <= i < |arr| ensures arr[i] - noise <= res[i] <= arr[i] + noise {
          NoiseBound(draws[i], noise);
        }
      }
    }
    res
  }

  lemma NoiseBound(r: real, noise: real)
    requires 0.0 <= r < 1.0 && noise >= 0.0
    ensures -noise <= (1.0 - 2.0 * r) * noise <= noise
  {
    assert noise - (1.0 - 2.0 * r) * noise == 2.0 * r * noise;
    assert (1.0 - 2.0 * r) * noise + noise == 2.0 * (1.0 - r) * noise;
  }

  /** permuteY: x is kept, y moves as in permute. */
  function PermuteY(path: seq<Point>, noise: real, draws: seq<real>): (r: seq<Point>)
    requires |draws| == |path|
    ensures |r| == |path|
    ensures forall i :: 0 <= i < |path| ==> r[i].x == path[i].x
    ensures (noise >= 0.0 && forall k :: 0 <= k < |draws| ==> 0.0 <= draws[k] < 1.0) ==>
      forall i :: 0 <= i < |path| ==> path[i].y - noise <= r[i].y <= path[i].y + noise
  {
    var ys := Permute(seq(|path|, i requires 0 <= i < |path| => path[i].y), noise, draws);
    seq(|path|, i requires 0 <= i < |path| => Point(path[i].x, ys[i]))
  }

  /** limit(v, ma, mi) = max(min(v, ma), mi). */
  function Limit(v: real, ma: real, mi: real): (r: real)
    ensures mi <= ma ==> mi <= r <= ma
    ensures mi <= v <= ma ==> r == v
    ensures v > ma && mi <= ma ==> r == ma
    ensures v < mi ==> r == mi
    ensures mi > ma ==> r == mi
  {
    var m := if v <= ma then v else ma;
    if m >= mi then m else mi
  }

  /** Sum of the first k velocities: the running `s` after k points. */
  function PrefixSum(v: seq<real>, k: nat): real
    requires k <= |v|
  {
    if k == 0 then 0.0 else PrefixSum(v, k - 1) + v[k - 1]
  }

  /** The 1-D velocity-exposure rule: point i moves down by the sum of the first
      i + 1 velocities and is clamped to [yt, yb]; x is kept. */
  ghost function ExposeY(path: seq<Point>, vel: seq<real>, b: Boundary): (r: seq<Point>)
    requires |vel| == |path|
    ensures |r| == |path|
  {
    seq(|path|, i requires 0 <= i < |path| =>
      Point(path[i].x, Limit(path[i].y + PrefixSum(vel, i + 1), b.yb, b.yt)))
  }

  /** The 2-D rule: x and y each move by their running sums, clamped to the canvas. */
  ghost function ExposeXY(path: seq<Point>, velx: seq<real>, vely: seq<real>, b: Boundary): (r: seq<Point>)
    requires |velx| == |path| && |vely| == |path|
    ensures |r| == |path|
  {
    seq(|path|, i requires 0 <= i < |path| =>
      Point(Limit(path[i].x + PrefixSum(velx, i + 1), b.xr, b.xl),
            Limit(path[i].y + PrefixSum(vely, i + 1), b.yb, b.yt)))
  }

  /** The `path.map` of the 1-D walk, with its running sum `s`. */
  method MapExposeY(path: seq<Point>, vel: seq<real>, b: Boundary) returns (res: seq<Point>)
    requires |vel| == |path|
    ensures res == ExposeY(path, vel, b)
  {
    var s := 0.0;
    res := [];
    var i := 0;
    while i < |path|
      invariant 0 <= i <= |path| && |res| == i
      invariant s == PrefixSum(vel, i)
      invariant forall k :: 0 <= k < i ==> res[k] == ExposeY(path, vel, b)[k]
    {
      s := s + vel[i];
      res := res + [Point(path[i].x, Limit(path[i].y + s, b.yb, b.yt))];
      i := i + 1;
    }
  }

  /** The `path.map` of the 2-D walks, with running sums `sx` and `sy`. */
  method MapExposeXY(path: seq<Point>, velx: seq<real>, vely: seq<real>, b: Boundary)
    returns (res: seq<Point>)
    requires |velx| == |path| && |vely| == |path|
    ensures res == ExposeXY(path, velx, vely, b)
  {
    var sx, sy := 0.0, 0.0;
    res := [];
    var i := 0;
    while i < |path|
      invariant 0 <= i <= |path| && |res| == i
      invariant sx == PrefixSum(velx, i) && sy == PrefixSum(vely, i)
      invariant forall k :: 0 <= k < i ==> res[k] == ExposeXY(path, velx, vely, b)[k]
    {
      sx := sx + velx[i];
      sy := sy + vely[i];
      res := res + [Point(Limit(path[i].x + sx, b.xr, b.xl), Limit(path[i].y + sy, b.yb, b.yt))];
      i := i + 1;
    }
  }

  /** The 1-D walk keeps the length and every x, and puts every y in [0, height]. */
  lemma ExposeYStaysOnCanvas(path: seq<Point>, vel: seq<real>, width: real, height: real)
    requires |vel| == |path| && height >= 0.0
    ensures var r := ExposeY(path, vel, GetBoundary(width, height));
      |r| == |path| &&
      forall i :: 0 <= i < |path| ==> r[i].x == path[i].x && 0.0 <= r[i].y <= height
  {
  }

  /** The 2-D walks keep the length and put every point on the canvas. */
  lemma ExposeXYStaysOnCanvas(path: seq<Point>, velx: seq<real>, vely: seq<real>, width: real, height: real)
    requires |velx| == |path| && |vely| == |path| && width >= 0.0 && height >= 0.0
    ensures var r := ExposeXY(path, velx, vely, GetBoundary(width, height));
      |r| == |path| &&
      forall i :: 0 <= i < |path| ==> 0.0 <= r[i].x <= width && 0.0 <= r[i].y <= height
  {
  }

  /** A point already on the canvas whose running sums are zero does not move. */
  lemma ExposeXYAtRest(path: seq<Point>, velx: seq<real>, vely: seq<real>, b: Boundary, i: nat)
    requires |velx| == |path| && |vely| == |path| && i < |path|
    requires PrefixSum(velx, i + 1) == 0.0 && PrefixSum(vely, i + 1) == 0.0
    requires b.xl <= path[i].x <= b.xr && b.yt <= path[i].y <= b.yb
    ensures ExposeXY(path, velx, vely, b)[i] == path[i]
  {
  }

  // ----------------------------------------------------------------------
  // Scenes

  /** Floor of a nonnegative real, as `Math.floor` gives it. */
  function FloorNat(v: real): (n: nat)
    requires v >= 0.0
    ensures n as real <= v < n as real + 1.0
  {
    v.Floor
  }

  /** The two uniform scenes ("introduction": one point at the centre, 30 frames
      per cycle; "multiple": width/20 points, 120 frames per cycle).  Every call
      advances `itt`; on each multiple of `frames` the target becomes the start
      and a fresh random target is drawn.  The eased point drawn in between needs
      `Math.sin` and is only handed to a drawing routine that draws nothing. */
  class UniformScene {
    const num: nat
    const frames: nat
    const boundary: Boundary
    const xLo: real
    const xHi: real
    var path1: seq<Point>
    var path2: seq<Point>
    var itt: nat

    ghost predicate Valid()
      reads this
    {
      frames > 0 && |path1| == num && |path2| == num
    }

    /** createSceneUniformSingle */
    constructor Single(width: real, height: real, draws: seq<real>)
      requires |draws| == 1
      ensures Valid() && num == 1 && frames == 30 && itt == 0
      ensures boundary == GetBoundary(width, height) && xLo == boundary.xMid && xHi == boundary.xMid
      ensures path1 == Linspace(1, xLo, xHi, boundary.yMid, boundary.yMid)
      ensures path2 == RndYLinspace(1, xLo, xHi, boundary.yMin, boundary.yMax, draws)
    {
      var b := GetBoundary(width, height);
      num, frames, boundary, xLo, xHi := 1, 30, b, b.xMid, b.xMid;
      new;
      path1 := GetLinspaceYLinspaceX(1, b.xMid, b.xMid, b.yMid, b.yMid);
      path2 := GetRndYLinspaceX(1, b.xMid, b.xMid, b.yMin, b.yMax, draws);
      itt := 0;
    }

    /** createSceneUniformMulti */
    constructor Multi(width: real, height: real, draws: seq<real>)
      requires width >= 0.0 && |draws| == FloorNat(width / 20.0)
      ensures Valid() && num == FloorNat(width / 20.0) && frames == 120 && itt == 0
      ensures boundary == GetBoundary(width, height) && xLo == boundary.xMin && xHi == boundary.xMax
      ensures path1 == Linspace(num, xLo, xHi, boundary.yMid, boundary.yMid)
      ensures path2 == RndYLinspace(num, xLo, xHi, boundary.yMin, boundary.yMax, draws)
    {
      var b := GetBoundary(width, height);
      var n := FloorNat(width / 20.0);
      num, frames, boundary, xLo, xHi := n, 120, b, b.xMin, b.xMax;
      new;
      path1 := GetLinspaceYLinspaceX(n, b.xMin, b.xMax, b.yMid, b.yMid);
      path2 := GetRndYLinspaceX(n, b.xMin, b.xMax, b.yMin, b.yMax, draws);
      itt := 0;
    }

    /** One frame of the scene. */
    method Frame(draws: seq<real>)
      requires Valid() && |draws| == num
      modifies this
      ensures Valid() && itt == old(itt) + 1
      ensures itt % frames == 0 ==>
        path1 == old(path2) && path2 == RndYLinspace(num, xLo, xHi, boundary.yMin, boundary.yMax, draws)
      ensures itt % frames != 0 ==> path1 == old(path1) && path2 == old(path2)
    {
      itt := itt + 1;
      if itt % frames == 0 {
        path1 := path2;
        path2 := GetRndYLinspaceX(num, xLo, xHi, boundary.yMin, boundary.yMax, draws);
      }
    }
  }

  /** The local-jitter scene ("memory"): width/20 points, each y jittered by
      up to 2 px every frame. */
  class LocalScene {
    const num: nat
    var path: seq<Point>

    ghost predicate Valid() reads this { |path| == num }

    /** createSceneUniformLocal */
    constructor (width: real, height: real)
      requires width >= 0.0
      ensures Valid() && num == FloorNat(width / 20.0)
      ensures var b := GetBoundary(width, height); path == Linspace(num, b.xMin, b.xMax, b.yMid, b.yMid)
    {
      var b := GetBoundary(width, height);
      num := FloorNat(width / 20.0);
      new;
      path := GetLinspaceYLinspaceX(num, b.xMin, b.xMax, b.yMid, b.yMid);
    }

    method Frame(draws: seq<real>)
      requires Valid() && |draws| == num
      modifies this
      ensures Valid() && path == PermuteY(old(path), 2.0, draws)
    {
      path := PermuteY(path, 2.0, draws);
    }
  }

  /** The 1-D velocity-exposure walk ("history"): one point per pixel column,
      velocities jittered by 0.01 and integrated into y. */
  class XVelScene {
    const boundary: Boundary
    var path: seq<Point>
    var velocity: seq<real>

    ghost predicate Valid() reads this { |velocity| == |path| }

    /** createSceneXVelExpose */
    constructor (width: real, height: real)
      requires width >= 0.0
      ensures Valid() && boundary == GetBoundary(width, height)
      ensures path == Linspace(FloorNat(width), boundary.xMin, boundary.xMax, boundary.yMid, boundary.yMid)
      ensures velocity == GetNs(FloorNat(width), 0.0)
    {
      var b := GetBoundary(width, height);
      var n := FloorNat(width);
      boundary := b;
      new;
      path := GetLinspaceYLinspaceX(n, b.xMin, b.xMax, b.yMid, b.yMid);
      velocity := GetNs(n, 0.0);
    }

    method Frame(draws: seq<real>)
      requires Valid() && |draws| == |velocity|
      modifies this
      ensures Valid() && velocity == Permute(old(velocity), 0.01, draws)
      ensures path == ExposeY(old(path), velocity, boundary)
    {
      velocity := Permute(velocity, 0.01, draws);
      path := MapExposeY(path, velocity, boundary);
    }
  }

  /** The 2-D velocity-exposure walks ("different-dimensions" from a line,
      "new-beginnings" and "more-random" from a circle). */
  class XYVelScene {
    const boundary: Boundary
    var path: seq<Point>
    var velx: seq<real>
    var vely: seq<real>

    ghost predicate Valid() reads this { |velx| == |path| && |vely| == |path| }

    /** The common set-up: the initial points and zero velocities. */
    constructor (width: real, height: real, init: seq<Point>)
      ensures Valid() && boundary == GetBoundary(width, height) && path == init
      ensures velx == GetNs(|init|, 0.0) && vely == GetNs(|init|, 0.0)
    {
      boundary := GetBoundary(width, height);
      path := init;
      velx := GetNs(|init|, 0.0);
      vely := GetNs(|init|, 0.0);
    }

    method Frame(drawsX: seq<real>, drawsY: seq<real>)
      requires Valid() && |drawsX| == |path| && |drawsY| == |path|
      modifies this
      ensures Valid()
      ensures velx == Permute(old(velx), 0.01, drawsX) && vely == Permute(old(vely), 0.01, drawsY)
      ensures path == ExposeXY(old(path), velx, vely, boundary)
    {
      velx := Permute(velx, 0.01, drawsX);
      vely := Permute(vely, 0.01, drawsY);
      path := MapExposeXY(path, velx, vely, boundary);
    }
  }

  /** createSceneXYVelExpose: the walk starts from the horizontal linspace. */
  method CreateXYVelExpose(width: real, height: real) returns (s: XYVelScene)
    requires width >= 0.0
    ensures fresh(s) && s.Valid() && s.boundary == GetBoundary(width, height)
    ensures s.path == Linspace(FloorNat(width), s.boundary.xMin, s.boundary.xMax, s.boundary.yMid, s.boundary.yMid)
  {
    var b := GetBoundary(width, height);
    var init := GetLinspaceYLinspaceX(FloorNat(width), b.xMin, b.xMax, b.yMid, b.yMid);
    s := new XYVelScene(width, height, init);
  }

  // ----------------------------------------------------------------------
  // The factory table

  datatype SceneType =
    Introduction | Multiple | Memory | History | DifferentDimensions | NewBeginnings | MoreRandom

  datatype Strategy =
    UniformSingle | UniformMulti | UniformLocal | XVelExpose | XYVelExpose | CircVelExpose | RndCircVelExpose

  function SceneName(t: SceneType): string
  {
    match t
    case Introduction => "introduction"
    case Multiple => "multiple"
    case Memory => "memory"
    case History => "history"
    case DifferentDimensions => "different-dimensions"
    case NewBeginnings => "new-beginnings"
    case MoreRandom => "more-random"
  }

  /** The scene a name stands for, if any. */
  function ParseSceneName(name: string): (r: Option<SceneType>)
    ensures r.Some? ==> SceneName(r.value) == name
    ensures r.None? ==> forall t: SceneType :: SceneName(t) != name
  {
    if name == "introduction" then Some(Introduction)
    else if name == "multiple" then Some(Multiple)
    else if name == "memory" then Some(Memory)
    else if name == "history" then Some(History)
    else if name == "different-dimensions" then Some(DifferentDimensions)
    else if name == "new-beginnings" then Some(NewBeginnings)
    else if name == "more-random" then Some(MoreRandom)
    else None
  }

  /** Every scene name reads back as its scene. */
  lemma ParseSceneNameRoundTrip(t: SceneType)
    ensures ParseSceneName(SceneName(t)) == Some(t)
  {
  }

  function Factory(t: SceneType): Strategy
  {
    match t
    case Introduction => UniformSingle
    case Multiple => UniformMulti
    case Memory => UniformLocal
    case History => XVelExpose
    case DifferentDimensions => XYVelExpose
    case NewBeginnings => CircVelExpose
    case MoreRandom => RndCircVelExpose
  }

  /** SCENE_FACTORIES[name]: the factory for a known scene name, none otherwise. */
  function FactoryFor(name: string): (f: Option<Strategy>)
    ensures f.Some? <==> exists t: SceneType :: SceneName(t) == name
    ensures forall t: SceneType :: SceneName(t) == name ==> f == Some(Factory(t))
  {
    match ParseSceneName(name)
    case Some(t) => Some(Factory(t))
    case None => None
  }

  /** Each of the seven scenes has its own factory: the table is one-to-one. */
  lemma FactoriesDistinct(t: SceneType, u: SceneType)
    ensures Factory(t) == Factory(u) ==> t == u
  {
  }

  // ----------------------------------------------------------------------
  // Frame-id bookkeeping

  /** What initializeCanvas finds for one scene: its container element, a 2D
      context, and whether the container is in view. */
  datatype CanvasEnv = CanvasEnv(hasContainer: bool, hasContext: bool, inView: bool)

  /** A click listener: the canvas it is attached to, the scene to rebuild, and
      the scroll listener created with it. */
  datatype ClickListener = ClickListener(canvas: string, scene: string, scroll: nat)

  function CanvasId(sceneName: string): string { "canvas-" + sceneName }

  /** The component's bookkeeping as a value: the three maps, what the browser
      holds for it, the id counter and the scene steps run so far. */
  datatype Book = Book(
    frameIds: map<string, nat>, scrollHandlers: map<string, nat>, clickHandlers: map<string, nat>,
    pending: map<nat, string>, scrollListeners: map<nat, string>, clickListeners: map<nat, ClickListener>,
    next: nat, ran: seq<string>)

  /** initializeCanvas gets past both early returns. */
  predicate Starts(sceneName: string, env: CanvasEnv)
  {
    FactoryFor(sceneName).Some? && env.hasContainer && env.hasContext
  }

  /** initializeCanvas on the book: with a container and a context, two fresh
      handler ids recorded and attached, and when in view a first frame
      requested and the scene step run. */
  function Initialized(b: Book, sceneName: string, env: CanvasEnv): Book
  {
    if !(env.hasContainer && env.hasContext) then b
    else
      var c, s, k := CanvasId(sceneName), b.next, b.next + 1;
      var b1 := b.(scrollHandlers := b.scrollHandlers[c := s], clickHandlers := b.clickHandlers[c := k],
                   scrollListeners := b.scrollListeners[s := c],
                   clickListeners := b.clickListeners[k := ClickListener(c, sceneName, s)],
                   next := b.next + 2);
      if env.inView then
        b1.(frameIds := b.frameIds[c := b.next + 2], pending := b.pending[b.next + 2 := c],
            next := b.next + 3, ran := b.ran + [c])
      else b1
  }

  /** The click handler's first half on the book: both listeners of click
      listener k detached, and the frame of its canvas cancelled and
      forgotten. */
  function Detached(b: Book, k: nat): Book
    requires k in b.clickListeners
  {
    var l := b.clickListeners[k];
    b.(scrollListeners := b.scrollListeners - {l.scroll}, clickListeners := b.clickListeners - {k},
       frameIds := b.frameIds - {l.canvas},
       pending := if l.canvas in b.frameIds then b.pending - {b.frameIds[l.canvas]} else b.pending)
  }

  /** A click replaces everything of its canvas: the old frame is no longer
      pending, the old listeners are gone, and with a container and a context
      the canvas has fresh handlers (attached) and, in view, a fresh frame. */
  lemma ClickReplaces(b: Book, k: nat, env: CanvasEnv)
    requires k in b.clickListeners
    requires forall f :: f in b.pending ==> f < b.next
    requires forall h :: h in b.clickListeners ==> h < b.next && b.clickListeners[h].scroll < b.next
    requires b.clickListeners[k].canvas == CanvasId(b.clickListeners[k].scene)
    requires forall c :: c in b.frameIds ==> b.frameIds[c] in b.pending
    ensures var l := b.clickListeners[k];
      var r := Initialized(Detached(b, k), l.scene, env);
      (l.canvas in b.frameIds ==> b.frameIds[l.canvas] !in r.pending) &&
      l.scroll !in r.scrollListeners && k !in r.clickListeners &&
      (env.hasContainer && env.hasContext ==>
         r.scrollHandlers[l.canvas] == b.next && r.scrollListeners[b.next] == l.canvas &&
         r.clickHandlers[l.canvas] == b.next + 1 && r.clickListeners[b.next + 1] == ClickListener(l.canvas, l.scene, b.next)) &&
      (env.hasContainer && env.hasContext && env.inView <==> l.canvas in r.frameIds) &&
      (l.canvas in r.frameIds ==> r.frameIds[l.canvas] == b.next + 2 && r.pending[b.next + 2] == l.canvas) &&
      r.ran == (if l.canvas in r.frameIds then b.ran + [l.canvas] else b.ran)
  ensures var l := b.clickListeners[k];
    var r := Initialized(Detached(b, k), l.scene, env);
    forall c :: c != l.canvas ==>
      (c in r.frameIds <==> c in b.frameIds) && (c in b.frameIds ==> r.frameIds[c] == b.frameIds[c]) &&
      (c in r.scrollHandlers <==> c in b.scrollHandlers) && (c in b.scrollHandlers ==> r.scrollHandlers[c] == b.scrollHandlers[c]) &&
      (c in r.clickHandlers <==> c in b.clickHandlers) && (c in b.clickHandlers ==> r.clickHandlers[c] == b.clickHandlers[c])
  {
  }

  /** One step of the mount's `forEach`: initialise the scene if its name has
      a factory. */
  function MountStep(b: Book, sceneName: string, env: CanvasEnv): Book
  {
    if FactoryFor(sceneName).Some? then Initialized(b, sceneName, env) else b
  }

  /** The mount effect on the book: each listed scene with a factory is
      initialised, in order. */
  function Mounted(b: Book, scenes: seq<string>, envs: seq<CanvasEnv>): Book
    requires |envs| == |scenes|
  {
    if scenes == [] then b
    else
      var n := |scenes| - 1;
      MountStep(Mounted(b, scenes[..n], envs[..n]), scenes[n], envs[n])
  }

  /** Mounting one scene more is one more step. */
  lemma MountedSnoc(b: Book, scenes: seq<string>, envs: seq<CanvasEnv>, i: nat)
    requires |envs| == |scenes| && i < |scenes|
    ensures Mounted(b, scenes[..i + 1], envs[..i + 1]) == MountStep(Mounted(b, scenes[..i], envs[..i]), scenes[i], envs[i])
  {
    assert scenes[..i + 1][..i] == scenes[..i] && envs[..i + 1][..i] == envs[..i];
  }

  /** The canvases whose loop the mount starts, in order: the scenes that
      start and are in view. */
  function Running(scenes: seq<string>, envs: seq<CanvasEnv>): seq<string>
    requires |envs| == |scenes|
  {
    if scenes == [] then []
    else
      var n := |scenes| - 1;
      Running(scenes[..n], envs[..n]) + (if Starts(scenes[n], envs[n]) && envs[n].inView then [CanvasId(scenes[n])] else [])
  }

  /** Every scene the mount initialises ends up with both handlers recorded. */
  lemma {:induction false} MountedRecordsHandlers(b: Book, scenes: seq<string>, envs: seq<CanvasEnv>)
    requires |envs| == |scenes|
    ensures var r := Mounted(b, scenes, envs);
      forall i :: 0 <= i < |scenes| && Starts(scenes[i], envs[i]) ==>
        CanvasId(scenes[i]) in r.scrollHandlers && CanvasId(scenes[i]) in r.clickHandlers
  {
    if scenes != [] {
      var n := |scenes| - 1;
      MountedRecordsHandlers(b, scenes[..n], envs[..n]);
      forall i | 0 <= i < n && Starts(scenes[i], envs[i])
        ensures Starts(scenes[..n][i], envs[..n][i]) && CanvasId(scenes[i]) == CanvasId(scenes[..n][i])
      {
      }
    }
  }

  /** The scene steps the mount runs are exactly one per in-view started scene,
      in order. */
  lemma {:induction false} MountedRuns(b: Book, scenes: seq<string>, envs: seq<CanvasEnv>)
    requires |envs| == |scenes|
    ensures Mounted(b, scenes, envs).ran == b.ran + Running(scenes, envs)
  {
    if scenes != [] {
      var n := |scenes| - 1;
      MountedRuns(b, scenes[..n], envs[..n]);
    }
  }

  /** The mount touches only the canvases of the scenes it initialises: the
      frame and handler records of every other canvas are left as they were. */
  lemma {:induction false} MountedLeavesOthers(b: Book, scenes: seq<string>, envs: seq<CanvasEnv>, c: string)
    requires |envs| == |scenes|
    requires forall i :: 0 <= i < |scenes| && Starts(scenes[i], envs[i]) ==> CanvasId(scenes[i]) != c
    ensures var r := Mounted(b, scenes, envs);
      (c in r.frameIds <==> c in b.frameIds) && (c in b.frameIds ==> r.frameIds[c] == b.frameIds[c]) &&
      (c in r.scrollHandlers <==> c in b.scrollHandlers) && (c in b.scrollHandlers ==> r.scrollHandlers[c] == b.scrollHandlers[c]) &&
      (c in r.clickHandlers <==> c in b.clickHandlers) && (c in b.clickHandlers ==> r.clickHandlers[c] == b.clickHandlers[c])
  {
    if scenes != [] {
      var n := |scenes| - 1;
      forall i | 0 <= i < n && Starts(scenes[..n][i], envs[..n][i])
        ensures CanvasId(scenes[..n][i]) != c
      {
        assert scenes[..n][i] == scenes[i] && envs[..n][i] == envs[i];
      }
      MountedLeavesOthers(b, scenes[..n], envs[..n], c);
    }
  }

  lemma CanvasIdInjective(a: string, b: string)
    ensures CanvasId(a) == CanvasId(b) ==> a == b
  {
    if CanvasId(a) == CanvasId(b) {
      assert a == CanvasId(a)[7..] && b == CanvasId(b)[7..];
    }
  }

  /** The component's three maps, together with what the browser holds on its
      behalf: the animation frames requested and not yet run or cancelled, and
      the scroll and click listeners attached.  Frame ids and handler identities
      are drawn from one counter. */
  class FrameBook {
    var frameIds: map<string, nat>
    var scrollHandlers: map<string, nat>
    var clickHandlers: map<string, nat>
    var pending: map<nat, string>
    var scrollListeners: map<nat, string>
    var clickListeners: map<nat, ClickListener>
    var next: nat
    /** The canvas of every scene step run, in order. */
    var ran: seq<string>

    /** Every recorded frame id is a pending frame of that canvas, and ids in use
        are below the counter. */
    ghost predicate Valid()
      reads this
    {
      (forall c :: c in frameIds ==> frameIds[c] in pending && pending[frameIds[c]] == c) &&
      (forall f :: f in pending ==> f < next) &&
      (forall h :: h in scrollListeners ==> h < next) &&
      (forall h :: h in clickListeners ==>
         h < next && clickListeners[h].scroll < next &&
         clickListeners[h].canvas == CanvasId(clickListeners[h].scene))
    }

    /** The bookkeeping as a value. */
    ghost function State(): Book
      reads this
    {
      Book(frameIds, scrollHandlers, clickHandlers, pending, scrollListeners, clickListeners, next, ran)
    }

    /** No pending frame is unrecorded: each running loop is the one its canvas
        has on record. */
    ghost predicate NoOrphans()
      reads this
    {
      forall f :: f in pending ==> pending[f] in frameIds && frameIds[pending[f]] == f
    }

    /** With no orphans a canvas has at most one pending frame. */
    lemma AtMostOnePending(f: nat, g: nat)
      requires Valid() && NoOrphans()
      requires f in pending && g in pending && pending[f] == pending[g]
      ensures f == g
    {
    }

    constructor ()
      ensures Valid() && NoOrphans()
      ensures frameIds == map[] && scrollHandlers == map[] && clickHandlers == map[]
      ensures pending == map[] && scrollListeners == map[] && clickListeners == map[] && ran == []
    {
      frameIds, scrollHandlers, clickHandlers := map[], map[], map[];
      pending, scrollListeners, clickListeners := map[], map[], map[];
      next, ran := 1, [];
    }

    /** animloop: request the next frame, record its id for the canvas, and run
        the scene step once. */
    method AnimLoop(c: string)
      requires Valid()
      modifies this
      ensures Valid() && next == old(next) + 1
      ensures frameIds == old(frameIds)[c := old(next)] && pending == old(pending)[old(next) := c]
      ensures ran == old(ran) + [c]
      ensures scrollHandlers == old(scrollHandlers) && clickHandlers == old(clickHandlers)
      ensures scrollListeners == old(scrollListeners) && clickListeners == old(clickListeners)
      ensures old(NoOrphans()) && c !in old(frameIds) ==> NoOrphans()
    {
      var f := next;
      next := next + 1;
      pending := pending[f := c];
      frameIds := frameIds[c := f];
      ran := ran + [c];
    }

    /** A pending frame runs: its callback re-enters animloop for its canvas. */
    method RunFrame(f: nat)
      requires Valid() && f in pending
      modifies this
      ensures Valid() && next == old(next) + 1
      ensures var c := old(pending)[f];
        frameIds == old(frameIds)[c := old(next)] &&
        pending == (old(pending) - {f})[old(next) := c] && ran == old(ran) + [c]
      ensures scrollHandlers == old(scrollHandlers) && clickHandlers == old(clickHandlers)
      ensures scrollListeners == old(scrollListeners) && clickListeners == old(clickListeners)
      ensures old(NoOrphans()) ==> NoOrphans()
    {
      var c := pending[f];
      var g := next;
      next := next + 1;
      pending := (pending - {f})[g := c];
      frameIds := frameIds[c := g];
      ran := ran + [c];
    }

    /** Cancel and forget the recorded frame of a canvas, if any. */
    method Stop(c: string)
      requires Valid()
      modifies this
      ensures Valid() && next == old(next) && ran == old(ran) && c !in frameIds
      ensures c in old(frameIds) ==>
        frameIds == old(frameIds) - {c} && pending == old(pending) - {old(frameIds)[c]}
      ensures c !in old(frameIds) ==> frameIds == old(frameIds) && pending == old(pending)
      ensures scrollHandlers == old(scrollHandlers) && clickHandlers == old(clickHandlers)
      ensures scrollListeners == old(scrollListeners) && clickListeners == old(clickListeners)
      ensures old(NoOrphans()) ==> NoOrphans()
    {
      if c in frameIds {
        var f := frameIds[c];
        pending := pending - {f};
        frameIds := frameIds - {c};
      }
    }

    /** The scroll handler of canvas c: start the loop when the canvas comes into
        view with no frame on record, stop it when it leaves view with one. */
    method Scroll(h: nat, inView: bool)
      requires Valid() && h in scrollListeners
      modifies this
      ensures Valid()
      ensures var c := old(scrollListeners)[h];
        if inView && c !in old(frameIds) then
          frameIds == old(frameIds)[c := old(next)] && pending == old(pending)[old(next) := c]
          && ran == old(ran) + [c]
        else if !inView && c in old(frameIds) then
          frameIds == old(frameIds) - {c} && pending == old(pending) - {old(frameIds)[c]}
          && ran == old(ran)
        else
          frameIds == old(frameIds) && pending == old(pending) && ran == old(ran)
      ensures scrollHandlers == old(scrollHandlers) && clickHandlers == old(clickHandlers)
      ensures scrollListeners == old(scrollListeners) && clickListeners == old(clickListeners)
      ensures old(NoOrphans()) ==> NoOrphans()
    {
      var c := scrollListeners[h];
      var hasAnimation := c in frameIds;
      if inView && !hasAnimation {
        AnimLoop(c);
      } else if !inView && hasAnimation {
        Stop(c);
      }
    }

    /** initializeCanvas: with a container and a context, create the two
        handlers, record them, start the loop if in view, and attach them. */
    method InitializeCanvas(sceneName: string, env: CanvasEnv)
      requires Valid()
      modifies this
      ensures Valid()
      ensures State() == Initialized(old(State()), sceneName, env)
      ensures old(NoOrphans()) && CanvasId(sceneName) !in old(frameIds) ==> NoOrphans()
    {
      var c := CanvasId(sceneName);
      if !env.hasContainer {
        return;
      }
      if !env.hasContext {
        return;
      }
      StartCanvas(sceneName, env.inView);
    }

    /** The rest of initializeCanvas once the container and the context are
        found: record both handlers, start the loop if in view, attach both. */
    method StartCanvas(sceneName: string, inView: bool)
      requires Valid()
      modifies this
      ensures Valid()
      ensures State() == Initialized(old(State()), sceneName, CanvasEnv(true, true, inView))
      ensures old(NoOrphans()) && CanvasId(sceneName) !in old(frameIds) ==> NoOrphans()
    {
      var c := CanvasId(sceneName);
      var s, k := RecordHandlers(c);
      if inView {
        AnimLoop(c);
      }
      AttachListeners(sceneName, s, k);
    }

    /** Store both handlers of canvas c under two fresh ids. */
    method RecordHandlers(c: string) returns (s: nat, k: nat)
      requires Valid()
      modifies this
      ensures Valid() && s == old(next) && k == old(next) + 1 && next == old(next) + 2
      ensures State() == old(State()).(scrollHandlers := old(scrollHandlers)[c := s],
                                       clickHandlers := old(clickHandlers)[c := k], next := old(next) + 2)
      ensures NoOrphans() == old(NoOrphans())
    {
      s, k := next, next + 1;
      next := next + 2;
      scrollHandlers := scrollHandlers[c := s];
      clickHandlers := clickHandlers[c := k];
    }

    /** Attach the scroll listener s and the click listener k of a scene. */
    method AttachListeners(sceneName: string, s: nat, k: nat)
      requires Valid() && s < next && k < next
      modifies this
      ensures Valid()
      ensures var c := CanvasId(sceneName);
        State() == old(State()).(scrollListeners := old(scrollListeners)[s := c],
                                 clickListeners := old(clickListeners)[k := ClickListener(c, sceneName, s)])
      ensures NoOrphans() == old(NoOrphans())
    {
      var c := CanvasId(sceneName);
      scrollListeners := scrollListeners[s := c];
      clickListeners := clickListeners[k := ClickListener(c, sceneName, s)];
    }

    /** The click handler: detach both listeners, cancel and forget the canvas's
        frame, then initialise the scene again. */
    method Click(k: nat, env: CanvasEnv)
      requires Valid() && k in clickListeners
      modifies this
      ensures Valid()
      ensures State() == Initialized(Detached(old(State()), k), old(clickListeners)[k].scene, env)
      ensures old(NoOrphans()) ==> NoOrphans()
    {
      var scene := DetachClick(k);
      InitializeCanvas(scene, env);
    }

    /** The click handler up to the reinitialisation. */
    method DetachClick(k: nat) returns (scene: string)
      requires Valid() && k in clickListeners
      modifies this
      ensures Valid()
      ensures scene == old(clickListeners)[k].scene
      ensures State() == Detached(old(State()), k)
      ensures old(NoOrphans()) ==> NoOrphans()
    {
      var l := clickListeners[k];
      scrollListeners := scrollListeners - {l.scroll};
      clickListeners := clickListeners - {k};
      Stop(l.canvas);
      scene := l.scene;
    }

    /** One scene of the effect's `forEach`. */
    method MountScene(sceneName: string, env: CanvasEnv)
      requires Valid()
      modifies this
      ensures Valid()
      ensures State() == MountStep(old(State()), sceneName, env)
      ensures forall c :: c in frameIds ==> c in old(frameIds) || c == CanvasId(sceneName)
      ensures old(NoOrphans()) && CanvasId(sceneName) !in old(frameIds) ==> NoOrphans()
    {
      if FactoryFor(sceneName).Some? {
        InitializeCanvas(sceneName, env);
      }
    }

    /** The effect: initialise every scene whose name has a factory, in order. */
    method Mount(scenes: seq<string>, envs: seq<CanvasEnv>)
      requires Valid() && |envs| == |scenes|
      modifies this
      ensures Valid()
      ensures State() == Mounted(old(State()), scenes, envs)
      ensures forall i :: 0 <= i < |scenes| && Starts(scenes[i], envs[i]) ==>
        CanvasId(scenes[i]) in scrollHandlers && CanvasId(scenes[i]) in clickHandlers
      ensures ran == old(ran) + Running(scenes, envs)
      ensures forall c :: c in frameIds ==> c in old(frameIds) || exists i :: 0 <= i < |scenes| && c == CanvasId(scenes[i])
      ensures (old(NoOrphans()) && old(frameIds) == map[] &&
               forall i, j :: 0 <= i < j < |scenes| ==> scenes[i] != scenes[j]) ==> NoOrphans()
    {
      ghost var b := State();
      ghost var clean := NoOrphans() && frameIds == map[] &&
        (forall i, j :: 0 <= i < j < |scenes| ==> scenes[i] != scenes[j]);
      var i := 0;
      while i < |scenes|
        invariant 0 <= i <= |scenes| && Valid()
        invariant State() == Mounted(b, scenes[..i], envs[..i])
        invariant forall c :: c in frameIds ==> c in old(frameIds) || exists j :: 0 <= j < i && c == CanvasId(scenes[j])
        invariant clean ==> NoOrphans() && forall c :: c in frameIds ==> exists j :: 0 <= j < i && c == CanvasId(scenes[j])
      {
        if clean {
          forall j | 0 <= j < i ensures CanvasId(scenes[i]) != CanvasId(scenes[j]) {
            CanvasIdInjective(scenes[i], scenes[j]);
          }
        }
        MountScene(scenes[i], envs[i]);
        MountedSnoc(b, scenes, envs, i);
        i := i + 1;
      }
      assert scenes[..i] == scenes && envs[..i] == envs;
      MountedRecordsHandlers(b, scenes, envs);
      MountedRuns(b, scenes, envs);
    }

    /** The cleanup's first loop: cancel every recorded frame, then forget them. */
    method CancelFrames()
      requires Valid()
      modifies this
      ensures Valid() && frameIds == map[] && pending == old(pending) - old(frameIds).Values
      ensures scrollHandlers == old(scrollHandlers) && clickHandlers == old(clickHandlers)
      ensures scrollListeners == old(scrollListeners) && clickListeners == old(clickListeners)
      ensures ran == old(ran) && next == old(next)
    {
      ghost var ids := frameIds;
      var todo := frameIds.Keys;
      ghost var cancelled: set<nat> := {};
      while todo != {}
        invariant todo <= ids.Keys && frameIds == ids && next == old(next) && ran == old(ran)
        invariant scrollHandlers == old(scrollHandlers) && clickHandlers == old(clickHandlers)
        invariant scrollListeners == old(scrollListeners) && clickListeners == old(clickListeners)
        invariant cancelled <= ids.Values && pending == old(pending) - cancelled
        invariant forall c :: c in ids && c !in todo ==> ids[c] in cancelled
        decreases |todo|
      {
        var c :| c in todo;
        pending := pending - {frameIds[c]};
        cancelled := cancelled + {frameIds[c]};
        todo := todo - {c};
      }
      assert cancelled == ids.Values;
      frameIds := map[];
    }

    /** The effect's cleanup: cancel every recorded frame, detach every
        recorded listener, and clear the three maps. */
    method Cleanup()
      requires Valid()
      modifies this
      ensures Valid() && frameIds == map[] && scrollHandlers == map[] && clickHandlers == map[]
      ensures pending == old(pending) - old(frameIds).Values
      ensures scrollListeners == old(scrollListeners) - old(scrollHandlers).Values
      ensures clickListeners == old(clickListeners) - old(clickHandlers).Values
      ensures old(NoOrphans()) ==> pending == map[]
      ensures ran == old(ran) && next == old(next)
    {
      CancelFrames();
      scrollListeners := scrollListeners - scrollHandlers.Values;
      scrollHandlers := map[];
      clickListeners := clickListeners - clickHandlers.Values;
      clickHandlers := map[];
      if old(NoOrphans()) {
        assert forall f :: f in old(pending) ==> f in old(frameIds).Values;
      }
    }
  }
}
