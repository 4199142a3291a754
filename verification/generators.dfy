/**
 * The shape generators that build their geometry in a loop: the heart and
 * wave point buffers, the flower rose curve, the star outline, the cube
 * cloud instances and the double helix strands with their rungs.
 *
 * Randomness is a parameter `rand: nat -> real`: `rand(k)` is the k-th
 * `Math.random()` call of one generator run. The Math functions come in a
 * `Host`; nothing here depends on what they compute.
 */
module Generators {
  import opened Js

  datatype Vec3 = Vec3(x: real, y: real, z: real)

  /** Every `Math.random()` draw lies in [0, 1). */
  ghost predicate UnitDraws(rand: nat -> real)
  {
    forall k :: 0.0 <= rand(k) < 1.0
  }

  /** Buffer `a` holds point `p` in point slot `k`, that is at entries 3k, 3k+1 and 3k+2. */
  ghost predicate HoldsPoint(a: array<real>, k: nat, p: Vec3)
    reads a
  {
    3 * k + 2 < a.Length && a[3 * k] == p.x && a[3 * k + 1] == p.y && a[3 * k + 2] == p.z
  }

  /** Position t of a span of the given extent centred on 0: (t − 0.5)·extent. */
  function Centered(t: real, extent: real): real
  {
    (t - 0.5) * extent
  }

  /** Scaling by a positive factor keeps the order of two values. */
  lemma ScaleKeepsOrder(a: real, b: real, e: real)
    requires a <= b && e > 0.0
    ensures a * e <= b * e
    ensures a < b ==> a * e < b * e
  {
    assert b * e - a * e == (b - a) * e;
  }

  /** Over a positive extent, centring keeps the order of two positions. */
  lemma CenteredOrder(s: real, t: real, extent: real)
    requires s <= t && extent > 0.0
    ensures Centered(s, extent) <= Centered(t, extent)
    ensures s < t ==> Centered(s, extent) < Centered(t, extent)
  {
    ScaleKeepsOrder(s - 0.5, t - 0.5, extent);
  }

  /** A position in [0, 1) of a positive extent lands in [−extent/2, extent/2). */
  lemma CenteredBounds(t: real, extent: real)
    requires 0.0 <= t < 1.0 && extent > 0.0
    ensures Centered(0.0, extent) == -extent / 2.0 && Centered(1.0, extent) == extent / 2.0
    ensures -extent / 2.0 <= Centered(t, extent) < extent / 2.0
  {
    CenteredOrder(0.0, t, extent);
    CenteredOrder(t, 1.0, extent);
  }

  /**
   * How many times `for (let i = 0; i < bound; i++)` runs when `bound` is a
   * JavaScript number: the least natural number not below `bound`.
   */
  function LoopCount(bound: real): (n: nat)
    ensures bound <= n as real
    ensures n == 0 || (n - 1) as real < bound
  {
    if bound <= 0.0 then 0
    else if bound.Floor as real == bound then bound.Floor
    else bound.Floor + 1
  }

  /** A whole bound runs the loop that many times; a fractional one rounds up. */
  lemma LoopCountCases(bound: real, n: int)
    ensures n >= 0 && bound == n as real ==> LoopCount(bound) == n
    ensures n >= 0 && n as real < bound < (n + 1) as real ==> LoopCount(bound) == n + 1
    ensures bound <= 0.0 ==> LoopCount(bound) == 0
  {
  }

  // ---------------------------------------------------------------------
  // Heart
  // ---------------------------------------------------------------------

  /**
   * Heart sample i: angle t from draw 3i, radial falloff pow(draw 3i+1, 0.3),
   * thickness from draw 3i+2, then the heart curve scaled by scale·r·0.1.
   */
  /** The heart's angle for a draw: draw·π·2. */
  function HeartAngle(angleDraw: real): real
  {
    angleDraw * PI * 2.0
  }

  /** The heart's raw thickness offset for a draw: (draw − 0.5)·4. */
  function HeartThickness(depthDraw: real): real
  {
    (depthDraw - 0.5) * 4.0
  }

  function HeartSample(host: Host, scale: real, angleDraw: real, radiusDraw: real, depthDraw: real): Vec3
  {
    var t := HeartAngle(angleDraw);
    var r := host.pow(radiusDraw, 0.3);
    var x := 16.0 * host.pow(host.sin(t), 3.0);
    var y := 13.0 * host.cos(t) - 5.0 * host.cos(2.0 * t) - 2.0 * host.cos(3.0 * t) - host.cos(4.0 * t);
    var z := HeartThickness(depthDraw);
    Vec3(x * scale * r * 0.1, y * scale * r * 0.1, z * scale * r * 0.1)
  }

  /** Heart sample i is drawn from the draws 3i, 3i+1 and 3i+2, in that order. */
  function HeartPoint(host: Host, rand: nat -> real, scale: real, i: nat): Vec3
  {
    HeartSample(host, scale, rand(3 * i), rand(3 * i + 1), rand(3 * i + 2))
  }

  /** `a[3k] = p.x; a[3k+1] = p.y; a[3k+2] = p.z`: writes point slot k and nothing else. */
  method PutPoint(a: array<real>, k: nat, p: Vec3)
    requires 3 * k + 2 < a.Length
    modifies a
    ensures HoldsPoint(a, k, p)
    ensures forall j :: 0 <= j < a.Length && (j < 3 * k || 3 * k + 2 < j) ==> a[j] == old(a[j])
  {
    a[3 * k] := p.x;
    a[3 * k + 1] := p.y;
    a[3 * k + 2] := p.z;
  }

  /** The heart's point buffer: 3·count entries, sample i in entries 3i, 3i+1, 3i+2. */
  method HeartPositions(host: Host, rand: nat -> real, count: nat, scale: real) returns (pos: array<real>)
    ensures pos.Length == 3 * count
    ensures forall i :: 0 <= i < count ==> HoldsPoint(pos, i, HeartPoint(host, rand, scale, i))
  {
    pos := new real[count * 3];
    for i := 0 to count
      invariant forall k :: 0 <= k < i ==> HoldsPoint(pos, k, HeartPoint(host, rand, scale, k))
    {
      var angleDraw := rand(3 * i);
      var radiusDraw := rand(3 * i + 1);
      var depthDraw := rand(3 * i + 2);
      var p := HeartSample(host, scale, angleDraw, radiusDraw, depthDraw);
      PutPoint(pos, i, p);
    }
  }

  /**
   * With draws in [0, 1), heart sample i is taken at an angle in [0, 2π),
   * and its depth is its thickness offset, in [-2, 2), scaled like x and y.
   */
  lemma HeartDrawRanges(host: Host, rand: nat -> real, scale: real, i: nat)
    requires UnitDraws(rand)
    ensures 0.0 <= HeartAngle(rand(3 * i)) < 2.0 * PI
    ensures -2.0 <= HeartThickness(rand(3 * i + 2)) < 2.0
    ensures HeartPoint(host, rand, scale, i).z
            == HeartThickness(rand(3 * i + 2)) * scale * host.pow(rand(3 * i + 1), 0.3) * 0.1
  {
    var d := rand(3 * i);
    assert 0.0 <= d < 1.0;
    assert HeartAngle(d) == 2.0 * PI * d;
  }

  // ---------------------------------------------------------------------
  // Wave
  // ---------------------------------------------------------------------

  /** The wave grid has 30 segments in each direction. */
  const WaveSegments: nat := 30

  /** Grid line i of 30 across an extent: (i/30 − 0.5)·extent. */
  function GridCoord(extent: real, i: nat): real
  {
    Centered(i as real / 30.0, extent)
  }

  /** The wave surface over (x, z): height sin(x·freq + z·freq)·amplitude. */
  function WaveSample(host: Host, amplitude: real, frequency: real, x: real, z: real): Vec3
  {
    Vec3(x, host.sin(x * frequency + z * frequency) * amplitude, z)
  }

  /** Wave point (i, j): the surface over grid line i in x and grid line j in z. */
  function WavePoint(host: Host, width: real, depth: real, amplitude: real, frequency: real, i: nat, j: nat): Vec3
  {
    WaveSample(host, amplitude, frequency, GridCoord(width, i), GridCoord(depth, j))
  }

  /**
   * The wave's point buffer: 30×30 points in 2700 entries, point (i, j) in
   * point slot 30i + j (entries from 3·(30i + j)); the write cursor ends at
   * 2700.
   */
  method WavePositions(host: Host, width: real, depth: real, amplitude: real, frequency: real)
    returns (pts: array<real>)
    ensures pts.Length == 2700
    ensures forall i, j :: 0 <= i < 30 && 0 <= j < 30 ==>
              HoldsPoint(pts, 30 * i + j, WavePoint(host, width, depth, amplitude, frequency, i, j))
  {
    var segs := WaveSegments;
    pts := new real[segs * segs * 3];
    var idx := 0;
    for i := 0 to segs
      invariant idx == 90 * i
      invariant forall i', j' :: 0 <= i' < i && 0 <= j' < 30 ==>
                  HoldsPoint(pts, 30 * i' + j', WavePoint(host, width, depth, amplitude, frequency, i', j'))
    {
      for j := 0 to segs
        invariant idx == 90 * i + 3 * j
        invariant forall i', j' :: 0 <= i' < i && 0 <= j' < 30 ==>
                    HoldsPoint(pts, 30 * i' + j', WavePoint(host, width, depth, amplitude, frequency, i', j'))
        invariant forall j' :: 0 <= j' < j ==>
                    HoldsPoint(pts, 30 * i + j', WavePoint(host, width, depth, amplitude, frequency, i, j'))
      {
        var x := GridCoord(width, i);
        var z := GridCoord(depth, j);
        var p := WaveSample(host, amplitude, frequency, x, z);
        PutPoint(pts, 30 * i + j, p);
        idx := idx + 3;
      }
    }
    assert idx == pts.Length;
  }

  /**
   * The grid starts at −extent/2 and stays in [−extent/2, extent/2), with
   * strictly increasing coordinates, when the extent is positive.
   */
  lemma GridCoordBounds(extent: real, i: nat, j: nat)
    requires extent > 0.0 && i < j < 30
    ensures GridCoord(extent, 0) == -extent / 2.0
    ensures -extent / 2.0 <= GridCoord(extent, i) < GridCoord(extent, j) < extent / 2.0
  {
    CenteredBounds(i as real / 30.0, extent);
    CenteredBounds(j as real / 30.0, extent);
    CenteredOrder(i as real / 30.0, j as real / 30.0, extent);
  }

  // ---------------------------------------------------------------------
  // Flower
  // ---------------------------------------------------------------------

  const FlowerSteps: nat := 500

  /** Sample i of the rose curve is at angle (i/500)·2π. */
  function FlowerAngle(i: nat): real
  {
    (i as real / 500.0) * PI * 2.0
  }

  /** The rose curve at angle θ: radius cos(k·θ)·rBase, halved in x and y, in the plane z = 0. */
  function RosePoint(host: Host, k: real, rBase: real, theta: real): Vec3
  {
    var r := host.cos(k * theta) * rBase;
    Vec3(r * host.cos(theta) * 0.5, r * host.sin(theta) * 0.5, 0.0)
  }

  /** Rose curve sample i. */
  function FlowerPoint(host: Host, k: real, rBase: real, i: nat): Vec3
  {
    RosePoint(host, k, rBase, FlowerAngle(i))
  }

  /** The flower's polyline: 501 samples, i from 0 to 500 inclusive. */
  method FlowerPoints(host: Host, k: real, rBase: real) returns (pts: seq<Vec3>)
    ensures |pts| == 501
    ensures forall i :: 0 <= i < |pts| ==> pts[i] == FlowerPoint(host, k, rBase, i)
  {
    pts := [];
    for i := 0 to FlowerSteps + 1
      invariant |pts| == i
      invariant forall n :: 0 <= n < i ==> pts[n] == FlowerPoint(host, k, rBase, n)
    {
      var theta := (i as real / 500.0) * PI * 2.0;
      pts := pts + [RosePoint(host, k, rBase, theta)];
    }
  }

  /**
   * The rose lies in the plane z = 0 and its angles run strictly upwards
   * from 0 to exactly 2π.
   */
  lemma FlowerSweep(host: Host, k: real, rBase: real, i: nat, j: nat)
    requires i < j <= 500
    ensures forall n :: 0 <= n <= 500 ==> FlowerPoint(host, k, rBase, n).z == 0.0
    ensures FlowerAngle(0) == 0.0 && FlowerAngle(500) == 2.0 * PI
    ensures 0.0 <= FlowerAngle(i) < FlowerAngle(j) <= 2.0 * PI
  {
    assert FlowerAngle(i) == (2.0 * PI / 500.0) * i as real;
    assert FlowerAngle(j) == (2.0 * PI / 500.0) * j as real;
  }

  /** A function that repeats every 2π. */
  ghost predicate TwoPiPeriodic(f: real -> real)
  {
    forall a :: f(a + 2.0 * PI) == f(a)
  }

  /** A 2π-periodic function takes the same value at every whole number of turns. */
  lemma {:induction false} WholeTurns(f: real -> real, n: int)
    requires TwoPiPeriodic(f)
    ensures f(n as real * (2.0 * PI)) == f(0.0)
    decreases if n < 0 then -n else n
  {
    if n > 0 {
      WholeTurns(f, n - 1);
      assert n as real * (2.0 * PI) == (n - 1) as real * (2.0 * PI) + 2.0 * PI;
    } else if n < 0 {
      WholeTurns(f, n + 1);
      assert (n + 1) as real * (2.0 * PI) == n as real * (2.0 * PI) + 2.0 * PI;
    }
  }

  /**
   * With 2π-periodic sin and cos and a whole-number k, the last rose sample
   * coincides with the first, so the polyline is closed.
   */
  lemma FlowerClosed(host: Host, k: int, rBase: real)
    requires TwoPiPeriodic(host.sin) && TwoPiPeriodic(host.cos)
    ensures FlowerPoint(host, k as real, rBase, 500) == FlowerPoint(host, k as real, rBase, 0)
  {
    assert FlowerAngle(500) == 1 as real * (2.0 * PI);
    assert FlowerAngle(0) == 0.0;
    WholeTurns(host.cos, k);
    WholeTurns(host.cos, 1);
    WholeTurns(host.sin, 1);
    assert k as real * FlowerAngle(0) == 0.0;
    assert k as real * FlowerAngle(500) == k as real * (2.0 * PI);
  }

  // ---------------------------------------------------------------------
  // Star
  // ---------------------------------------------------------------------

  /** A 2-D path made of `lineTo` targets, closed or not. */
  datatype Outline = Outline(vertices: seq<(real, real)>, closed: bool)

  /** Even vertices sit on the outer radius, odd ones on the inner, both halved. */
  function StarRadius(outer: real, inner: real, i: nat): real
  {
    if i % 2 == 0 then outer * 0.5 else inner * 0.5
  }

  /** Vertex i is at angle i·π/points. */
  function StarAngle(points: real, i: nat): real
    requires points != 0.0
  {
    i as real * (PI / points)
  }

  /** The point at radius r and angle a. */
  function Polar(host: Host, r: real, a: real): (real, real)
  {
    (r * host.cos(a), r * host.sin(a))
  }

  function StarVertex(host: Host, outer: real, inner: real, points: real, i: nat): (real, real)
    requires points != 0.0
  {
    Polar(host, StarRadius(outer, inner, i), StarAngle(points, i))
  }

  /**
   * The star's outline: one vertex per loop turn, that is 2·points vertices
   * for a whole count (none for a negative count, one point gives a
   * 2-vertex outline, nothing is clamped), vertex i at angle i·π/points on
   * the outer or inner radius, and the path closed.
   */
  method StarOutline(host: Host, outer: real, inner: real, points: real) returns (shape: Outline)
    requires points != 0.0
    ensures shape.closed
    ensures |shape.vertices| == LoopCount(2.0 * points)
    ensures forall i :: 0 <= i < |shape.vertices| ==>
              shape.vertices[i] == StarVertex(host, outer, inner, points, i)
  {
    var vertices := [];
    var step := PI / points;
    var bound := LoopCount(2.0 * points);
    var i := 0;
    while (i as real) < 2.0 * points
      invariant 0 <= i <= bound
      invariant |vertices| == i
      decreases bound - i
      invariant forall n :: 0 <= n < i ==> vertices[n] == StarVertex(host, outer, inner, points, n)
    {
      var r := if i % 2 == 0 then outer * 0.5 else inner * 0.5;
      var a := i as real * step;
      assert Polar(host, r, a) == StarVertex(host, outer, inner, points, i) by {
        assert a == StarAngle(points, i) && r == StarRadius(outer, inner, i);
      }
      vertices := vertices + [Polar(host, r, a)];
      i := i + 1;
    }
    shape := Outline(vertices, true);
  }

  /**
   * Consecutive vertices are π/points apart and alternate between the two
   * radii, and the 2·points vertices make exactly one full turn.
   */
  lemma StarSymmetry(outer: real, inner: real, points: nat, i: nat)
    requires points > 0
    ensures LoopCount(2.0 * points as real) == 2 * points
    ensures StarAngle(points as real, i + 1) - StarAngle(points as real, i) == PI / points as real
    ensures StarAngle(points as real, 2 * points) == 2.0 * PI
    ensures StarRadius(outer, inner, i) == outer * 0.5 <==> StarRadius(outer, inner, i + 1) == inner * 0.5
    ensures outer != inner ==> StarRadius(outer, inner, i) != StarRadius(outer, inner, i + 1)
  {
    var p := points as real;
    assert StarAngle(p, 2 * points) == 2.0 * p * (PI / p);
    assert p * (PI / p) == PI;
  }

  // ---------------------------------------------------------------------
  // Cube cloud
  // ---------------------------------------------------------------------

  /** One small cube: where it is and how it is turned. */
  datatype Instance = Instance(position: Vec3, rotation: Vec3)

  /** Cube i uses draws 5i..5i+4: x, y, z, then the rotations about x and y. */
  function CubeInstance(rand: nat -> real, size: real, i: nat): Instance
  {
    Instance(
      Vec3(Centered(rand(5 * i), size), Centered(rand(5 * i + 1), size), Centered(rand(5 * i + 2), size)),
      Vec3(rand(5 * i + 3) * PI, rand(5 * i + 4) * PI, 0.0))
  }

  /**
   * The cube cloud: one cube per loop turn, so exactly `count` cubes for a
   * whole count (none for a negative one), cube i from its own draws.
   */
  method CubeInstances(rand: nat -> real, size: real, count: real) returns (cubes: seq<Instance>)
    ensures |cubes| == LoopCount(count)
    ensures forall i :: 0 <= i < |cubes| ==> cubes[i] == CubeInstance(rand, size, i)
  {
    cubes := [];
    var bound := LoopCount(count);
    var i := 0;
    while (i as real) < count
      invariant 0 <= i <= bound
      invariant |cubes| == i
      decreases bound - i
      invariant forall n :: 0 <= n < i ==> cubes[n] == CubeInstance(rand, size, n)
    {
      var x := (rand(5 * i) - 0.5) * size;
      var y := (rand(5 * i + 1) - 0.5) * size;
      var z := (rand(5 * i + 2) - 0.5) * size;
      assert Instance(Vec3(x, y, z), Vec3(rand(5 * i + 3) * PI, rand(5 * i + 4) * PI, 0.0)) == CubeInstance(rand, size, i);
      cubes := cubes + [Instance(Vec3(x, y, z), Vec3(rand(5 * i + 3) * PI, rand(5 * i + 4) * PI, 0.0))];
      i := i + 1;
    }
  }

  /** With draws in [0, 1), every cube lies in the box of edge `size` and is turned only about x and y. */
  lemma CubeInBox(rand: nat -> real, size: real, i: nat)
    requires UnitDraws(rand) && size > 0.0
    ensures var c := CubeInstance(rand, size, i);
            && -size / 2.0 <= c.position.x < size / 2.0
            && -size / 2.0 <= c.position.y < size / 2.0
            && -size / 2.0 <= c.position.z < size / 2.0
            && 0.0 <= c.rotation.x < PI && 0.0 <= c.rotation.y < PI
            && c.rotation.z == 0.0
  {
    CenteredBounds(rand(5 * i), size);
    CenteredBounds(rand(5 * i + 1), size);
    CenteredBounds(rand(5 * i + 2), size);
    assert 0.0 <= rand(5 * i + 3) < 1.0 && 0.0 <= rand(5 * i + 4) < 1.0;
  }

  // ---------------------------------------------------------------------
  // Double helix
  // ---------------------------------------------------------------------

  const HelixSteps: nat := 100

  /** The angle of helix sample i: (i/100)·2π·turns. */
  function HelixAngle(turns: real, i: nat): real
  {
    (i as real / 100.0) * PI * 2.0 * turns
  }

  /** The helix at parameter t in [0, 1]: on a circle of radius·0.5 at y = (t − 0.5)·height. */
  function HelixSample(host: Host, radius: real, height: real, turns: real, t: real): Vec3
  {
    var angle := t * PI * 2.0 * turns;
    Vec3(host.cos(angle) * radius * 0.5, Centered(t, height), host.sin(angle) * radius * 0.5)
  }

  /** Helix sample i, at t = i/100. */
  function HelixPoint(host: Host, radius: real, height: real, turns: real, i: nat): Vec3
  {
    HelixSample(host, radius, height, turns, i as real / 100.0)
  }

  /** The first strand: 101 samples, i from 0 to 100 inclusive. */
  method HelixStrand(host: Host, radius: real, height: real, turns: real) returns (pts: seq<Vec3>)
    ensures |pts| == 101
    ensures forall i :: 0 <= i < |pts| ==> pts[i] == HelixPoint(host, radius, height, turns, i)
  {
    pts := [];
    for i := 0 to HelixSteps + 1
      invariant |pts| == i
      invariant forall n :: 0 <= n < i ==> pts[n] == HelixPoint(host, radius, height, turns, n)
    {
      var t := i as real / 100.0;
      pts := pts + [HelixSample(host, radius, height, turns, t)];
    }
  }

  /** The point opposite p across the helix axis. */
  function Flip(p: Vec3): Vec3
  {
    Vec3(-p.x, p.y, -p.z)
  }

  /** `points1.map(p => (−p.x, p.y, −p.z))`: the second strand. */
  function Mirror(pts: seq<Vec3>): (r: seq<Vec3>)
    ensures |r| == |pts|
    ensures forall i :: 0 <= i < |pts| ==> r[i].x == -pts[i].x && r[i].y == pts[i].y && r[i].z == -pts[i].z
  {
    seq(|pts|, i requires 0 <= i < |pts| => Flip(pts[i]))
  }

  /** Mirroring twice gives the strand back. */
  lemma MirrorInvolution(pts: seq<Vec3>)
    ensures |Mirror(pts)| == |pts|
    ensures Mirror(Mirror(pts)) == pts
  {
    var m := Mirror(Mirror(pts));
    assert forall i :: 0 <= i < |pts| ==> m[i] == pts[i];
  }

  /** The helix runs from −height/2 to height/2, rising strictly when height is positive. */
  lemma HelixRises(host: Host, radius: real, height: real, turns: real, i: nat, j: nat)
    requires i < j <= 100 && height > 0.0
    ensures HelixPoint(host, radius, height, turns, 0).y == -height / 2.0
    ensures HelixPoint(host, radius, height, turns, 100).y == height / 2.0
    ensures HelixPoint(host, radius, height, turns, i).y < HelixPoint(host, radius, height, turns, j).y
  {
    CenteredBounds(0.0, height);
    CenteredOrder(i as real / 100.0, j as real / 100.0, height);
  }

  /** A cross rung: a cylinder at the axis, turned about y, as long as the radius. */
  datatype Rung = Rung(position: Vec3, rotationY: real, length: real)

  /** The rung drawn for strand sample i: at (0, yᵢ, 0), turned by sample i's angle. */
  function RungAt(pts: seq<Vec3>, turns: real, radius: real, i: nat): Rung
    requires i < |pts|
  {
    Rung(Vec3(0.0, pts[i].y, 0.0), HelixAngle(turns, i), radius)
  }

  /** `points1.map((p, i) => i % 5 === 0 && <rung/>)` from sample i on: every fifth sample gets a rung. */
  function RungsFrom(pts: seq<Vec3>, turns: real, radius: real, i: nat): seq<Rung>
    requires i <= |pts|
    decreases |pts| - i
  {
    if i == |pts| then []
    else (if i % 5 == 0 then [RungAt(pts, turns, radius, i)] else []) + RungsFrom(pts, turns, radius, i + 1)
  }

  /** One rung per fifth sample: rung n stands at sample 5n. */
  function Rungs(pts: seq<Vec3>, turns: real, radius: real): (r: seq<Rung>)
    ensures |r| == (|pts| + 4) / 5
    ensures forall n :: 0 <= n < |r| ==> 5 * n < |pts| && r[n] == RungAt(pts, turns, radius, 5 * n)
  {
    RungsFromLayout(pts, turns, radius, 0);
    RungsFrom(pts, turns, radius, 0)
  }

  /** Samples that are not multiples of 5 add no rung. */
  lemma {:induction false} RungsSkip(pts: seq<Vec3>, turns: real, radius: real, a: nat, b: nat)
    requires a <= b <= |pts|
    requires forall k :: a <= k < b ==> k % 5 != 0
    ensures RungsFrom(pts, turns, radius, a) == RungsFrom(pts, turns, radius, b)
    decreases b - a
  {
    if a < b {
      RungsSkip(pts, turns, radius, a + 1, b);
    }
  }

  /** From a multiple of 5 on, the n-th rung belongs to sample i + 5n, and there is one per multiple of 5. */
  lemma {:induction false} RungsFromLayout(pts: seq<Vec3>, turns: real, radius: real, i: nat)
    requires i <= |pts| && i % 5 == 0
    ensures |RungsFrom(pts, turns, radius, i)| == (|pts| - i + 4) / 5
    ensures forall n :: 0 <= n < |RungsFrom(pts, turns, radius, i)| ==>
              i + 5 * n < |pts| && RungsFrom(pts, turns, radius, i)[n] == RungAt(pts, turns, radius, i + 5 * n)
    decreases |pts| - i
  {
    if i < |pts| {
      var next := if i + 5 <= |pts| then i + 5 else |pts|;
      RungsSkip(pts, turns, radius, i + 1, next);
      var rest := RungsFrom(pts, turns, radius, next);
      var all := RungsFrom(pts, turns, radius, i);
      assert all == [RungAt(pts, turns, radius, i)] + rest;
      if next == i + 5 {
        RungsFromLayout(pts, turns, radius, next);
        assert |all| == 1 + (|pts| - i - 1) / 5 == (|pts| - i + 4) / 5;
        forall n | 0 <= n < |all|
          ensures i + 5 * n < |pts| && all[n] == RungAt(pts, turns, radius, i + 5 * n)
        {
          if n > 0 {
            assert all[n] == rest[n - 1];
            assert next + 5 * (n - 1) == i + 5 * n;
          }
        }
      } else {
        assert rest == [];
        assert |all| == 1 == (|pts| - i + 4) / 5;
      }
    }
  }

  /** A 101-sample strand has 21 rungs, rung n at sample 5n, placed at (0, y₅ₙ, 0). */
  lemma RungLayout(pts: seq<Vec3>, turns: real, radius: real)
    requires |pts| == 101
    ensures |Rungs(pts, turns, radius)| == 21
    ensures forall n :: 0 <= n < 21 ==>
              Rungs(pts, turns, radius)[n] == Rung(Vec3(0.0, pts[5 * n].y, 0.0), HelixAngle(turns, 5 * n), radius)
  {
    RungsFromLayout(pts, turns, radius, 0);
  }

  /**
   * The double helix: the first strand, its mirror image and the rungs.
   * Strand 2 is strand 1 negated in x and z, point by point.
   */
  method DoubleHelix(host: Host, radius: real, height: real, turns: real)
    returns (strand1: seq<Vec3>, strand2: seq<Vec3>, rungs: seq<Rung>)
    ensures |strand1| == 101 && |strand2| == 101 && |rungs| == 21
    ensures forall i :: 0 <= i < 101 ==> strand1[i] == HelixPoint(host, radius, height, turns, i)
    ensures forall i :: 0 <= i < 101 ==> strand2[i] == Vec3(-strand1[i].x, strand1[i].y, -strand1[i].z)
    ensures forall n :: 0 <= n < 21 ==> rungs[n] == Rung(Vec3(0.0, strand1[5 * n].y, 0.0), HelixAngle(turns, 5 * n), radius)
  {
    strand1 := HelixStrand(host, radius, height, turns);
    strand2 := Mirror(strand1);
    rungs := Rungs(strand1, turns, radius);
    RungLayout(strand1, turns, radius);
  }
}
