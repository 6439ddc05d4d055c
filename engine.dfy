/** The host side of the renderer (Engine/BlackHoleEngine.cs): the dirty flag that gates
    rendering, the input hooks that arm it, the per-frame uniforms (step budget, disk radii,
    camera block), the choice of the pixels whose paths are recorded, the read-back that repacks
    the recorded paths, and the draw ranges computed from it. OpenGL calls are not modelled;
    what they move between host and kernel is. */
module Engine {
  import opened Vectors
  import opened Wrappers
  import Setup
  import Camera
  import Tracer
  import Layout

  /** The compute image is 20 x 16 pixels wide and high. */
  const ComputeWidth: int := 20 * 16
  const ComputeHeight: int := 20 * 16

  const MaxTracePaths: int := 5
  const MaxTraceSamples: int := 5000

  /** Bytes before the counts in the path buffer: a vec4 (4 floats) per sample. */
  const CountsOffsetBytes: int := (4 * 4) * MaxTracePaths * MaxTraceSamples

  /** The size the host allocates for the path buffer. */
  const PathBufferBytes: int := CountsOffsetBytes + 4 * MaxTracePaths

  /** The sizes the host allocates for the camera and disk uniform buffers. */
  const CameraUboBytes: int := 80
  const DiskUboBytes: int := 16

  /** Recorded coordinates beyond this magnitude are dropped by the read-back. */
  const CoordLimit: real := 1000000000.0

  /** Half-angle, in radians, of the cone of directions whose paths are recorded. */
  const ConeAlpha: real := 0.08

  // ---------------------------------------------------------------- buffer layout

  /** The host's path buffer has the kernel's std430 `PathsSSBO` layout: same capacities, the
      counts start where the kernel's counts array starts, and the allocation ends where the
      block ends. The camera buffer is exactly the kernel's std140 camera block, and the disk
      buffer is large enough for the disk block. */
  lemma BuffersMatchKernel()
    ensures MaxTracePaths == Tracer.MaxPaths && MaxTraceSamples == Tracer.MaxPathPoints
    ensures CountsOffsetBytes == Layout.OffsetOf(Layout.PathsBlock, Layout.Std430, 1) == 400000
    ensures PathBufferBytes == Layout.BlockEnd(Layout.PathsBlock, Layout.Std430) == 400020
    ensures CameraUboBytes == Layout.BlockEnd(Layout.CameraBlock, Layout.Std140)
    ensures DiskUboBytes >= Layout.BlockEnd(Layout.DiskBlock, Layout.Std140)
  {
    Layout.PathsBlockLayout();
    Layout.CameraScalarOffsets();
    Layout.DiskBlockLayout();
  }

  /** Float k of sample i of path p, at host float index (p * MaxTraceSamples + i) * 4 + k, is
      component k of the kernel's pathPoints[p * MAX_PATHS_POINTS + i]: the byte it reads is that
      element's std430 offset plus 4 k, and lies before the counts. */
  lemma HostFloatIndex(p: int, i: int, k: int)
    requires 0 <= p < MaxTracePaths && 0 <= i < MaxTraceSamples && 0 <= k < 4
    ensures var e := Tracer.SlotBase(p) + i;
      0 <= e < MaxTracePaths * MaxTraceSamples &&
      (p * MaxTraceSamples + i) * 4 + k == 4 * e + k &&
      4 * ((p * MaxTraceSamples + i) * 4 + k) ==
        Layout.ElementOffset(0, Layout.PathsBlock[0], Layout.Std430, e) + 4 * k &&
      4 * ((p * MaxTraceSamples + i) * 4 + k) + 4 <= CountsOffsetBytes
  {
    Tracer.SlotsDisjoint(p, (p + 1) % MaxTracePaths, i, 0);
  }

  function Component(v: Vec4, k: int): real {
    if k == 0 then v.x else if k == 1 then v.y else if k == 2 then v.z else v.w
  }

  /** The sample array as the host's float[] copy of it: four floats per vec4. */
  function FloatsOf(pts: seq<Vec4>): (f: seq<real>)
    ensures |f| == 4 * |pts|
  {
    seq(4 * |pts|, j requires 0 <= j < 4 * |pts| => Component(pts[j / 4], j % 4))
  }

  /** The position of sample e as the host reads it from a float copy: floats 4 e, 4 e + 1 and
      4 e + 2. */
  function HostSample(f: seq<real>, e: int): Vec3
    requires 0 <= e && 4 * e + 2 < |f|
  {
    Vec3(f[4 * e], f[4 * e + 1], f[4 * e + 2])
  }

  /** Every sample of the copy reads back as the position of the vec4 it came from. */
  lemma FloatsOfSamples(pts: seq<Vec4>)
    ensures forall e :: 0 <= e < |pts| ==> HostSample(FloatsOf(pts), e) == Xyz(pts[e])
  {
    forall e | 0 <= e < |pts|
      ensures HostSample(FloatsOf(pts), e) == Xyz(pts[e])
    {
      FloatsOfIndex(pts, e, 0);
      FloatsOfIndex(pts, e, 1);
      FloatsOfIndex(pts, e, 2);
    }
  }

  /** Reading float 4 e + k of the copy gives component k of sample e. */
  lemma FloatsOfIndex(pts: seq<Vec4>, e: int, k: int)
    requires 0 <= e < |pts| && 0 <= k < 4
    ensures FloatsOf(pts)[4 * e + k] == Component(pts[e], k)
  {
    assert (4 * e + k) / 4 == e && (4 * e + k) % 4 == k;
  }

  // ---------------------------------------------------------------- per-frame uniforms

  /** uSteps: the moving budget while the camera moves, the still budget otherwise. */
  function StepBudget(moving: bool, stepsMoving: int, stepsStill: int): (n: int)
    ensures moving ==> n == stepsMoving
    ensures !moving ==> n == stepsStill
  {
    if moving then stepsMoving else stepsStill
  }

  /** With the configuration's defaults, where both budgets are 8000, the budget does not
      depend on whether the camera moves. */
  lemma DefaultStepBudget(setup: Setup.GameSetup, moving: bool)
    requires setup.integrationStepsMoving == setup.integrationStepsStill == 8000
    ensures StepBudget(moving, setup.integrationStepsMoving, setup.integrationStepsStill) == 8000
  {
  }

  /** The disk's inner and outer radii, 2.7 Rs and 4.2 Rs in kernel length units, or both zero
      when the disk is hidden. */
  function DiskRadii(rs: real, lengthUnit: real, showDisk: bool): (r: (real, real))
    requires lengthUnit != 0.0
    ensures !showDisk ==> r == (0.0, 0.0)
    ensures showDisk ==> r.0 * lengthUnit == rs * 2.7 && r.1 * lengthUnit == rs * 4.2
  {
    var r1 := rs * 2.7 / lengthUnit;
    var r2 := rs * 4.2 / lengthUnit;
    if !showDisk then (0.0, 0.0) else (r1, r2)
  }

  /** With the configuration's length unit Rs / 1000 the shown disk spans [2700, 4200] kernel
      units, whatever the mass. */
  lemma DefaultDiskRadii(rs: real)
    requires rs > 0.0
    ensures DiskRadii(rs, rs * 0.001, true) == (2700.0, 4200.0)
  {
    var lu := rs * 0.001;
    var r := DiskRadii(rs, lu, true);
    assert 2700.0 * lu == rs * 2.7 && 4200.0 * lu == rs * 4.2;
    Tracer.MulCancel(r.0, 2700.0, lu);
    Tracer.MulCancel(r.1, 4200.0, lu);
  }

  /** Hiding the disk makes the kernel report no disk hit for any ray. */
  lemma HiddenDiskNeverHit(rs: real, lengthUnit: real, s0: Tracer.State, recording: bool,
                           k: Tracer.LoopParams, phys: Tracer.Physics, lib: FloatLib)
    requires lengthUnit != 0.0 && Tracer.LoopParamsOk(k, recording)
    requires k.diskR1 == DiskRadii(rs, lengthUnit, false).0
    ensures !Tracer.Run(Tracer.Start(s0), 0, recording, k, phys, lib).hitDisk
  {
    Tracer.NoDiskHitWithoutInnerRadius(Tracer.Start(s0), 0, recording, k, phys, lib);
  }

  /** Position(): the camera's place on its orbit. */
  function Position(cam: Camera.CameraState, lib: FloatLib): Vec3
    reads cam
  {
    Camera.OrbitPosition(cam.radius, cam.azimuth, cam.elevation, lib)
  }

  /** UploadCameraUBO: the camera block the kernel reads, with the position in kernel length
      units, the camera's frame, the window's aspect ratio and moving = 1 exactly while a drag
      or pan is in progress. */
  function CameraUniforms(cam: Camera.CameraState, width: int, height: int, lengthUnit: real,
                          lib: FloatLib): (u: Tracer.CameraBlock)
    reads cam
    requires lengthUnit != 0.0
    ensures u.moving == 1 <==> cam.dragging || cam.panning
    ensures u.moving == 0 || u.moving == 1
    ensures width > 0 ==> u.aspect > 0.0
  {
    var b := Camera.BuildBasis(cam.target, Position(cam, lib), lib);
    Tracer.CameraBlock(Scale(1.0 / lengthUnit, Position(cam, lib)), b.right, b.up, b.fwd,
                       cam.tanHalfFov, Camera.GridAspect(width, height),
                       if cam.dragging || cam.panning then 1 else 0)
  }

  // ---------------------------------------------------------------- seed pixels

  /** The frame PrepareGeoPaths builds its cone around: like BuildBasis, but without the
      fallback for a camera sitting on its target. */
  function ConeBasis(target: Vec3, position: Vec3, lib: FloatLib): Camera.Basis {
    var f := Normalize(Sub(target, position), lib);
    var upGuess := if Abs(Dot(f, UnitY)) > 0.999 then UnitZ else UnitY;
    var r := Normalize(Cross(upGuess, f), lib);
    Camera.Basis(f, r, Normalize(Cross(f, r), lib))
  }

  /** Direction k of the cone: tilted by ConeAlpha from forward, at azimuth 2 pi k / 5. */
  function ConeDirection(b: Camera.Basis, k: int, lib: FloatLib): Vec3 {
    var phi := 2.0 * Camera.Pi * (k as real) / (MaxTracePaths as real);
    var ring := Add(Scale(lib.cos(phi), b.right), Scale(lib.sin(phi), b.up));
    Normalize(Add(Scale(lib.cos(ConeAlpha), b.fwd), Scale(lib.sin(ConeAlpha), ring)), lib)
  }

  /** The compute pixel a direction is recorded at, in the corrected form. The host calls
      WorldDirToComputePixel with the compute grid's size and so with that grid's aspect ratio,
      1 (Camera.SquareGridAspectMisses), while the kernel casts its rays with the window's. This
      lookup uses the window's ratio, as the kernel does. */
  function SeedLookup(d: Vec3, b: Camera.Basis, width: int, height: int, tanHalfFov: real,
                      lib: FloatLib): Camera.PixelLookup
    requires width > 0 && tanHalfFov != 0.0
  {
    Camera.ProjectToPixel(d, b, ComputeWidth, ComputeHeight, Camera.GridAspect(width, height),
                          tanHalfFov, Camera.DefaultVSign, lib)
  }

  /** The pixels of the directions that land on the compute image, in order. */
  function SeedPixels(dirs: seq<Vec3>, b: Camera.Basis, width: int, height: int,
                      tanHalfFov: real, lib: FloatLib): (s: seq<Tracer.Pixel>)
    requires width > 0 && tanHalfFov != 0.0
    ensures |s| <= |dirs|
    ensures forall i :: 0 <= i < |s| ==> InImage(s[i])
  {
    if |dirs| == 0 then []
    else
      var s := SeedPixels(dirs[..|dirs| - 1], b, width, height, tanHalfFov, lib);
      var r := SeedLookup(dirs[|dirs| - 1], b, width, height, tanHalfFov, lib);
      if r.onScreen then s + [Tracer.Pixel(r.xi, r.yi)] else s
  }

  predicate InImage(p: Tracer.Pixel) {
    0 <= p.x < ComputeWidth && 0 <= p.y < ComputeHeight
  }

  /** With the window's aspect ratio, the lookup of the direction of the kernel's ray through a
      compute pixel finds that very pixel (unless the ray is judged to point behind the camera),
      so the recorded path is the path of the ray meant. */
  lemma SeedFindsKernelPixel(pix: Tracer.Pixel, b: Camera.Basis, camPos: Vec3, width: int,
                             height: int, tanHalfFov: real, moving: int, lib: FloatLib)
    requires Camera.Orthonormal(b) && width > 0 && height > 0 && tanHalfFov != 0.0
    ensures var cam := Tracer.CameraBlock(camPos, b.right, b.up, b.fwd, tanHalfFov,
                                          Camera.GridAspect(width, height), moving);
      var r := SeedLookup(Tracer.KernelRay(pix, Tracer.Pixel(ComputeWidth, ComputeHeight), cam, lib),
                          b, width, height, tanHalfFov, lib);
      !r.behind ==> r.xi == pix.x && r.yi == pix.y && (r.onScreen <==> InImage(pix))
  {
    Camera.PixelRoundTrip(pix.x, pix.y, ComputeWidth, ComputeHeight, Camera.GridAspect(width, height),
                          tanHalfFov, 1.0, Camera.Basis(b.fwd, b.right, b.up), lib);
  }

  // ---------------------------------------------------------------- path read-back

  function Xyz(v: Vec4): Vec3 {
    Vec3(v.x, v.y, v.z)
  }

  /** The read-back's sanity filter: finite coordinates of magnitude at most 1e9. */
  predicate Sane(v: Vec3, lib: FloatLib) {
    lib.isFinite(v.x) && lib.isFinite(v.y) && lib.isFinite(v.z) &&
    Abs(v.x) <= CoordLimit && Abs(v.y) <= CoordLimit && Abs(v.z) <= CoordLimit
  }

  /** The points of vs that pass the filter, in order. */
  function Kept(vs: seq<Vec3>, lib: FloatLib): (r: seq<Vec3>)
    ensures |r| <= |vs|
  {
    if |vs| == 0 then []
    else
      var r := Kept(vs[..|vs| - 1], lib);
      if Sane(vs[|vs| - 1], lib) then r + [vs[|vs| - 1]] else r
  }

  /** The filter keeps exactly the sane points: every kept point is a sane point of the input,
      and every sane point of the input is kept. */
  lemma {:induction false} KeptSound(vs: seq<Vec3>, lib: FloatLib)
    ensures forall v :: v in Kept(vs, lib) <==> v in vs && Sane(v, lib)
  {
    if |vs| > 0 {
      var init := vs[..|vs| - 1];
      KeptSound(init, lib);
      assert vs == init + [vs[|vs| - 1]];
    }
  }

  lemma KeptSnoc(vs: seq<Vec3>, v: Vec3, lib: FloatLib)
    ensures Kept(vs + [v], lib) == if Sane(v, lib) then Kept(vs, lib) + [v] else Kept(vs, lib)
  {
    assert (vs + [v])[..|vs|] == vs;
  }

  /** The first `count` samples of path p, as the host reads them. */
  function RawPath(pts: seq<Vec4>, p: int, count: int): (r: seq<Vec3>)
    requires |pts| == MaxTracePaths * MaxTraceSamples
    requires 0 <= p < MaxTracePaths && 0 <= count <= MaxTraceSamples
    ensures |r| == count
  {
    seq(count, i requires 0 <= i < count => Xyz(pts[Tracer.SlotBase(p) + i]))
  }

  function ClampCount(c: int): (n: int)
    ensures n <= MaxTraceSamples && (n == c || n == MaxTraceSamples)
  {
    if c < MaxTraceSamples then c else MaxTraceSamples
  }

  /** The points kept for drawing and one count per path that was not skipped. */
  datatype Repacked = Repacked(points: seq<Vec3>, counts: seq<int>)

  /** The repacking loop of HandleGeoPaths as written, over paths [0, n): the clamped count is
      appended before the points are filtered. */
  function RepackAsWritten(pts: seq<Vec4>, counts: seq<int>, n: int, lib: FloatLib): Repacked
    requires |pts| == MaxTracePaths * MaxTraceSamples && |counts| == MaxTracePaths
    requires 0 <= n <= MaxTracePaths
  {
    if n == 0 then Repacked([], [])
    else
      var r := RepackAsWritten(pts, counts, n - 1, lib);
      var c := ClampCount(counts[n - 1]);
      if c < 1 then r
      else Repacked(r.points + Kept(RawPath(pts, n - 1, c), lib), r.counts + [c])
  }

  /** The repacking with the count of the points actually kept. */
  function Repack(pts: seq<Vec4>, counts: seq<int>, n: int, lib: FloatLib): Repacked
    requires |pts| == MaxTracePaths * MaxTraceSamples && |counts| == MaxTracePaths
    requires 0 <= n <= MaxTracePaths
  {
    if n == 0 then Repacked([], [])
    else
      var r := Repack(pts, counts, n - 1, lib);
      var c := ClampCount(counts[n - 1]);
      if c < 1 then r
      else
        var kept := Kept(RawPath(pts, n - 1, c), lib);
        Repacked(r.points + kept, r.counts + [|kept|])
  }

  function Max0(c: int): nat {
    if c > 0 then c else 0
  }

  /** The sum of the positive entries. */
  function SumPos(s: seq<int>): nat {
    if |s| == 0 then 0 else SumPos(s[..|s| - 1]) + Max0(s[|s| - 1])
  }

  lemma {:induction false} SumPosCons(c: int, s: seq<int>)
    ensures SumPos([c] + s) == Max0(c) + SumPos(s)
    decreases |s|
  {
    if |s| > 0 {
      assert ([c] + s)[..|s|] == [c] + s[..|s| - 1];
      SumPosCons(c, s[..|s| - 1]);
    }
  }

  /** Counting kept points, the counts add up to the number of points, each path's count is the
      number of its points that were kept and never more than it recorded, and the paths' point
      runs follow each other in order: the count list describes the point list exactly. */
  lemma {:induction false} RepackCountsMatch(pts: seq<Vec4>, counts: seq<int>, n: int, lib: FloatLib)
    requires |pts| == MaxTracePaths * MaxTraceSamples && |counts| == MaxTracePaths
    requires 0 <= n <= MaxTracePaths
    ensures var r := Repack(pts, counts, n, lib);
      SumPos(r.counts) == |r.points| && |r.counts| <= n &&
      forall j :: 0 <= j < |r.counts| ==> 0 <= r.counts[j] <= MaxTraceSamples
  {
    if n > 0 {
      RepackCountsMatch(pts, counts, n - 1, lib);
      var r := Repack(pts, counts, n - 1, lib);
      var c := ClampCount(counts[n - 1]);
      if c >= 1 {
        var kept := Kept(RawPath(pts, n - 1, c), lib);
        assert (r.counts + [|kept|])[..|r.counts|] == r.counts;
      }
    }
  }

  /** As written, the points kept never exceed the counts reported for them. */
  lemma {:induction false} RepackAsWrittenBound(pts: seq<Vec4>, counts: seq<int>, n: int, lib: FloatLib)
    requires |pts| == MaxTracePaths * MaxTraceSamples && |counts| == MaxTracePaths
    requires 0 <= n <= MaxTracePaths
    ensures var r := RepackAsWritten(pts, counts, n, lib);
      |r.points| <= SumPos(r.counts) && |r.counts| <= n &&
      forall j :: 0 <= j < |r.counts| ==> 1 <= r.counts[j] <= MaxTraceSamples
  {
    if n > 0 {
      RepackAsWrittenBound(pts, counts, n - 1, lib);
      var r := RepackAsWritten(pts, counts, n - 1, lib);
      var c := ClampCount(counts[n - 1]);
      if c >= 1 {
        assert (r.counts + [c])[..|r.counts|] == r.counts;
      }
    }
  }

  // ---------------------------------------------------------------- draw ranges

  /** One glDrawArrays call: first vertex and vertex count. */
  datatype Draw = Draw(first: int, count: int)

  /** The point draws: a path of n > 0 points draws n - 1 of them from its start; the start moves
      on by n for each path drawn. */
  function PointDraws(counts: seq<int>, start: int): seq<Draw> {
    if |counts| == 0 then []
    else if counts[0] <= 0 then PointDraws(counts[1..], start)
    else [Draw(start, counts[0] - 1)] + PointDraws(counts[1..], start + counts[0])
  }

  /** The line-strip draws: only paths of more than 3 points, n - 1 vertices each; the start moves
      on by max(n, 0) for every path. */
  function LineDraws(counts: seq<int>, start: int): seq<Draw> {
    if |counts| == 0 then []
    else
      var rest := LineDraws(counts[1..], start + Max0(counts[0]));
      if counts[0] > 3 then [Draw(start, counts[0] - 1)] + rest else rest
  }

  /** Every draw starts at or after `start` and ends before start + the sum of the counts, so
      when the counts add up to the number of uploaded points every draw stays inside them. */
  lemma {:induction false} DrawsWithinCounts(counts: seq<int>, start: int)
    ensures forall d :: d in PointDraws(counts, start) ==>
      start <= d.first && 0 <= d.count && d.first + d.count < start + SumPos(counts)
    ensures forall d :: d in LineDraws(counts, start) ==>
      start <= d.first && 0 <= d.count && d.first + d.count < start + SumPos(counts)
    decreases |counts|
  {
    if |counts| > 0 {
      assert counts == [counts[0]] + counts[1..];
      SumPosCons(counts[0], counts[1..]);
      DrawsWithinCounts(counts[1..], start + Max0(counts[0]));
      if counts[0] <= 0 {
        assert PointDraws(counts, start) == PointDraws(counts[1..], start);
      }
    }
  }

  /** The scenario of the two lemmas below: two seed paths recorded 3 and 2 samples, and the
      last sample of the first is not finite (its ray diverged: the kernel records a step's
      position before it tests the step for divergence). The filter keeps 2 and 2 points. */
  predicate DivergedFirstPath(pts: seq<Vec4>, counts: seq<int>, lib: FloatLib) {
    |pts| == MaxTracePaths * MaxTraceSamples && |counts| == MaxTracePaths &&
    counts[0] == 3 && counts[1] == 2 &&
    Sane(Xyz(pts[0]), lib) && Sane(Xyz(pts[1]), lib) && !Sane(Xyz(pts[2]), lib) &&
    Sane(Xyz(pts[5000]), lib) && Sane(Xyz(pts[5001]), lib)
  }

  lemma DivergedFirstPathKept(pts: seq<Vec4>, counts: seq<int>, lib: FloatLib)
    requires DivergedFirstPath(pts, counts, lib)
    ensures Kept(RawPath(pts, 0, 3), lib) == [Xyz(pts[0]), Xyz(pts[1])]
    ensures Kept(RawPath(pts, 1, 2), lib) == [Xyz(pts[5000]), Xyz(pts[5001])]
  {
    assert Tracer.SlotBase(0) == 0 && Tracer.SlotBase(1) == 5000;
    var a, b := Xyz(pts[0]), Xyz(pts[1]);
    var p0 := RawPath(pts, 0, 3);
    assert p0 == [a, b, Xyz(pts[2])];
    assert p0[..2] == [a, b] && [a, b][..1] == [a] && [a][..0] == [];
    assert Kept([a], lib) == [a];
    assert Kept([a, b], lib) == [a, b];
    var c, d := Xyz(pts[5000]), Xyz(pts[5001]);
    var p1 := RawPath(pts, 1, 2);
    assert p1 == [c, d];
    assert p1[..1] == [c] && [c][..0] == [];
    assert Kept([c], lib) == [c];
  }

  /** As written, the counts [3, 2] describe the 4 kept points: the second path's point draw
      starts at 3 although its points start at 2, and every later draw is shifted the same way. */
  lemma CountBeforeFilterMisaligns(pts: seq<Vec4>, counts: seq<int>, lib: FloatLib)
    requires DivergedFirstPath(pts, counts, lib)
    ensures var w := RepackAsWritten(pts, counts, 2, lib);
      w.counts == [3, 2] && |w.points| == 4 && w.points[2] == Xyz(pts[5000]) &&
      PointDraws(w.counts, 0) == [Draw(0, 2), Draw(3, 1)]
  {
    DivergedFirstPathKept(pts, counts, lib);
    assert RepackAsWritten(pts, counts, 1, lib) == Repacked([Xyz(pts[0]), Xyz(pts[1])], [3]);
    assert [3, 2][1..] == [2] && [2][1..] == [];
  }

  /** Counting kept points, the same buffer gives counts [2, 2], and the second path's draw
      starts at 2, its first point. */
  lemma KeptCountAligns(pts: seq<Vec4>, counts: seq<int>, lib: FloatLib)
    requires DivergedFirstPath(pts, counts, lib)
    ensures var c := Repack(pts, counts, 2, lib);
      c.counts == [2, 2] && |c.points| == 4 && c.points[2] == Xyz(pts[5000]) &&
      PointDraws(c.counts, 0) == [Draw(0, 1), Draw(2, 1)]
  {
    DivergedFirstPathKept(pts, counts, lib);
    assert Repack(pts, counts, 1, lib) == Repacked([Xyz(pts[0]), Xyz(pts[1])], [2]);
    assert [2, 2][1..] == [2] && [2][1..] == [];
  }

  // ---------------------------------------------------------------- the engine

  datatype Key = Escape | OtherKey(code: int)

  /** What one frame draws of the recorded paths. */
  datatype PathFrame = PathFrame(points: seq<Vec3>, counts: seq<int>,
                                 pointDraws: seq<Draw>, lineDraws: seq<Draw>)

  /** The frame the read-back produces from a snapshot of the path buffer. */
  function FrameOf(pts: seq<Vec4>, counts: seq<int>, n: int, lib: FloatLib): PathFrame
    requires |pts| == MaxTracePaths * MaxTraceSamples && |counts| == MaxTracePaths
    requires 0 <= n <= MaxTracePaths
  {
    var r := Repack(pts, counts, n, lib);
    PathFrame(r.points, r.counts, PointDraws(r.counts, 0), LineDraws(r.counts, 0))
  }

  /** The state the loop of the kernel starts from and the loop parameters of one dispatch. */
  function LoopParamsOf(setup: Setup.GameSetup, cam: Camera.CameraState, stride: int): Tracer.LoopParams
    reads setup, cam
    requires setup.lengthUnit != 0.0
  {
    var disk := DiskRadii(setup.rs, setup.lengthUnit, setup.showDisk);
    Tracer.LoopParams(setup.rsScaled, setup.affineStep, setup.escapeR,
                      StepBudget(cam.moving, setup.integrationStepsMoving, setup.integrationStepsStill),
                      stride, disk.0, disk.1, cam.dragging || cam.panning)
  }

  /** The trace of the kernel invocation at a seed pixel that records its path. */
  function SeedTrace(pix: Tracer.Pixel, cam: Tracer.CameraBlock, k: Tracer.LoopParams,
                     phys: Tracer.Physics, lib: FloatLib): Tracer.Trace
    requires Tracer.LoopParamsOk(k, true)
  {
    var size := Tracer.Pixel(ComputeWidth, ComputeHeight);
    Tracer.Run(Tracer.Start(phys.initState(cam.camPos, Tracer.KernelRay(pix, size, cam, lib))),
               0, true, k, phys, lib)
  }

  /** desiredDirs, seedPixels, uNumPaths, uPathPix and uPathStride. */
  datatype PathUniformValues = PathUniformValues(dirs: seq<Vec3>, seeds: seq<Tracer.Pixel>, numPaths: int,
                                                 pathPix: seq<Tracer.Pixel>, pathStride: int)

  class BlackHoleEngine {
    var isDirty: bool
    var width: int
    var height: int
    var isCameraMoving: bool
    const camera: Camera.CameraState
    const setup: Setup.GameSetup
    /** The GPU path buffer. */
    const paths: Tracer.PathBuffer
    /** pathTraceSeedPixels and desiredDirs. */
    var seedPixels: seq<Tracer.Pixel>
    var desiredDirs: seq<Vec3>
    /** The compute program's uniforms uNumPaths, uPathPix and uPathStride, which keep their
        values between frames. */
    var uNumPaths: int
    var uPathPix: seq<Tracer.Pixel>
    var uPathStride: int

    ghost predicate Valid()
      reads this, paths.counts
    {
      paths.Valid() && width >= 1 && height >= 1 &&
      |uPathPix| == MaxTracePaths && 0 <= uNumPaths <= MaxTracePaths &&
      (uNumPaths > 0 ==> uPathStride > 0) && |seedPixels| <= MaxTracePaths &&
      forall i :: 0 <= i < |seedPixels| ==> InImage(seedPixels[i])
    }

    /** The engine starts dirty, with the configuration's window size and the camera placed at
        15.5 Rs, elevation pi / 2.2, azimuth 0. */
    constructor (setup: Setup.GameSetup, lib: FloatLib)
      requires setup.windowWidth >= 1 && setup.windowHeight >= 1
      ensures Valid() && isDirty && !isCameraMoving && this.setup == setup
      ensures width == setup.windowWidth && height == setup.windowHeight
      ensures fresh(camera) && fresh(paths) && fresh(paths.points) && fresh(paths.counts)
      ensures camera.radius == 15.5 * setup.rs && camera.elevation == Camera.Pi / 2.2
      ensures camera.azimuth == 0.0 && !camera.dragging && !camera.panning && !camera.moving
      ensures camera.tanHalfFov == lib.tan(30.0 * (Camera.Pi / 180.0))
      ensures seedPixels == [] && desiredDirs == [] && uNumPaths == 0
      ensures forall q :: 0 <= q < MaxTracePaths ==> paths.Slot(q) == []
    {
      this.setup := setup;
      camera := new Camera.CameraState(lib);
      paths := new Tracer.PathBuffer();
      isDirty := true;
      isCameraMoving := false;
      width := setup.windowWidth;
      height := setup.windowHeight;
      seedPixels, desiredDirs := [], [];
      uNumPaths, uPathStride := 0, 0;
      uPathPix := seq(MaxTracePaths, _ => Tracer.Pixel(0, 0));
      new;
      camera.radius := 15.5 * setup.rs;
      camera.elevation := Camera.Pi / 2.2;
      camera.azimuth := 0.0;
    }

    method Invalidate()
      modifies this`isDirty
      ensures isDirty
    {
      isDirty := true;
    }

    method Validate()
      modifies this`isDirty
      ensures !isDirty
    {
      isDirty := false;
    }

    /** A resize invalidates and stores a size of at least 1 x 1. */
    method Resize(w: int, h: int)
      requires Valid()
      modifies this`isDirty, this`width, this`height
      ensures Valid() && isDirty
      ensures width == (if w > 1 then w else 1) && height == (if h > 1 then h else 1)
    {
      Invalidate();
      width := if w > 1 then w else 1;
      height := if h > 1 then h else 1;
    }

    /** Buttons go straight to the camera and never touch the dirty flag. */
    method InputMouseDown(btn: Camera.MouseButton)
      modifies camera
      ensures (btn == Camera.Left || btn == Camera.Middle) ==> camera.dragging && !camera.panning
      ensures !(btn == Camera.Left || btn == Camera.Middle) ==>
        camera.dragging == old(camera.dragging) && camera.panning == old(camera.panning)
      ensures camera.moving == old(camera.moving)
      ensures camera.target == old(camera.target) && camera.radius == old(camera.radius)
      ensures camera.azimuth == old(camera.azimuth) && camera.elevation == old(camera.elevation)
      ensures camera.lastX == old(camera.lastX) && camera.lastY == old(camera.lastY)
      ensures unchanged(camera`minRadius, camera`maxRadius, camera`orbitSpeed, camera`zoomSpeed)
      ensures unchanged(camera`fovRad, camera`tanHalfFov)
      ensures isDirty == old(isDirty)
    {
      camera.ProcessMouseButton(btn, Camera.Press);
    }

    method InputMouseUp(btn: Camera.MouseButton)
      modifies camera
      ensures (btn == Camera.Left || btn == Camera.Middle) ==> !camera.dragging && !camera.panning
      ensures !(btn == Camera.Left || btn == Camera.Middle) ==>
        camera.dragging == old(camera.dragging) && camera.panning == old(camera.panning)
      ensures camera.moving == old(camera.moving)
      ensures camera.target == old(camera.target) && camera.radius == old(camera.radius)
      ensures camera.azimuth == old(camera.azimuth) && camera.elevation == old(camera.elevation)
      ensures camera.lastX == old(camera.lastX) && camera.lastY == old(camera.lastY)
      ensures unchanged(camera`minRadius, camera`maxRadius, camera`orbitSpeed, camera`zoomSpeed)
      ensures unchanged(camera`fovRad, camera`tanHalfFov)
      ensures isDirty == old(isDirty)
    {
      camera.ProcessMouseButton(btn, Camera.Release);
    }

    /** A move invalidates exactly when the camera is being dragged. */
    method InputMouseMove(x: real, y: real)
      modifies camera, this`isDirty
      ensures isDirty == (old(isDirty) || camera.dragging)
      ensures camera.dragging == old(camera.dragging) && camera.panning == old(camera.panning)
      ensures camera.moving == (camera.dragging || camera.panning)
      ensures camera.lastX == x && camera.lastY == y
      ensures camera.dragging && !camera.panning ==>
        camera.azimuth == old(camera.azimuth) + (x - old(camera.lastX)) * old(camera.orbitSpeed)
        && camera.elevation == Camera.Clamp(old(camera.elevation) - (y - old(camera.lastY)) * old(camera.orbitSpeed),
                                            Camera.MinElevation, Camera.MaxElevation)
      ensures !(camera.dragging && !camera.panning) ==>
        camera.azimuth == old(camera.azimuth) && camera.elevation == old(camera.elevation)
      ensures camera.target == Zero3 && camera.radius == old(camera.radius)
      ensures unchanged(camera`minRadius, camera`maxRadius, camera`orbitSpeed, camera`zoomSpeed)
      ensures unchanged(camera`fovRad, camera`tanHalfFov)
    {
      camera.ProcessMouseMove(x, y);
      ghost var moved := camera.elevation;
      if camera.dragging {
        Invalidate();
      }
      assert camera.elevation == moved;
    }

    /** The wheel zooms and always invalidates. */
    method InputMouseWheel(dx: real, dy: real)
      modifies camera, this`isDirty
      ensures isDirty
      ensures camera.radius == Camera.Clamp(old(camera.radius) - dy * camera.zoomSpeed,
                                            camera.minRadius, camera.maxRadius)
      ensures camera.minRadius <= camera.maxRadius ==> camera.minRadius <= camera.radius <= camera.maxRadius
      ensures camera.moving == (camera.dragging || camera.panning) && camera.target == Zero3
      ensures camera.azimuth == old(camera.azimuth) && camera.elevation == old(camera.elevation)
      ensures camera.dragging == old(camera.dragging) && camera.panning == old(camera.panning)
      ensures camera.lastX == old(camera.lastX) && camera.lastY == old(camera.lastY)
      ensures unchanged(camera`minRadius, camera`maxRadius, camera`orbitSpeed, camera`zoomSpeed)
      ensures unchanged(camera`fovRad, camera`tanHalfFov)
    {
      camera.ProcessScroll(dx, dy);
      Invalidate();
    }

    /** Escape ends any drag or pan and invalidates; other keys do nothing. */
    method InputKeyDown(key: Key)
      modifies camera`dragging, camera`panning, this`isDirty
      ensures key == Escape ==> !camera.dragging && !camera.panning && isDirty
      ensures key != Escape ==>
        camera.dragging == old(camera.dragging) && camera.panning == old(camera.panning) &&
        isDirty == old(isDirty)
    {
      if key == Escape {
        camera.dragging, camera.panning := false, false;
        Invalidate();
      }
    }

    /** The five fields PrepareGeoPaths sets, as one value. */
    function PathUniforms(): PathUniformValues
      reads this
    {
      PathUniformValues(desiredDirs, seedPixels, uNumPaths, uPathPix, uPathStride)
    }

    /** The path uniforms as PrepareGeoPaths leaves them, given their values before. With paths
        enabled: the cone around the view, the compute pixels of its directions that land on the
        image, uNumPaths their number, uPathStride the configured stride, and uPathPix those
        pixels followed by its old entries. With paths disabled: all five as they were. */
    ghost predicate PathUniformsPlanned(lib: FloatLib, before: PathUniformValues)
      reads this, camera, setup
    {
      if setup.enablePaths then
        width > 0 && camera.tanHalfFov != 0.0 && |seedPixels| <= |before.pathPix| &&
        var pos := Position(camera, lib);
        desiredDirs == ConeDirections(ConeBasis(camera.target, pos, lib), lib) &&
        seedPixels == SeedPixels(desiredDirs, Camera.BuildBasis(camera.target, pos, lib), width, height,
                                 camera.tanHalfFov, lib) &&
        uNumPaths == |seedPixels| && uPathStride == setup.pathStride &&
        uPathPix == seedPixels + before.pathPix[|seedPixels|..]
      else
        PathUniforms() == before
    }

    /** PrepareGeoPaths: with paths enabled, the five cone directions, the compute pixels of
        those that land on the image, and the path uniforms set from them; uPathPix entries past
        the new seeds keep their old values. With paths disabled nothing changes. */
    method PrepareGeoPaths(lib: FloatLib)
      requires Valid() && camera.tanHalfFov != 0.0 && setup.pathStride > 0
      modifies this`desiredDirs, this`seedPixels, this`uNumPaths, this`uPathPix, this`uPathStride
      ensures Valid()
      ensures PathUniformsPlanned(lib, old(PathUniforms()))
    {
      if !setup.enablePaths {
        return;
      }
      var dirs, seeds := PlanSeeds(camera.target, Position(camera, lib), width, height,
                                   camera.tanHalfFov, lib);
      desiredDirs, seedPixels := dirs, seeds;
      uNumPaths, uPathStride := |seeds|, setup.pathStride;
      SetPathPixels(seeds);
    }

    /** The SetIV2 loop: uPathPix[i] := seeds[i] for every seed. */
    method SetPathPixels(seeds: seq<Tracer.Pixel>)
      requires |seeds| <= |uPathPix|
      modifies this`uPathPix
      ensures uPathPix == seeds + old(uPathPix)[|seeds|..]
    {
      var j := 0;
      while j < |seeds|
        invariant 0 <= j <= |seeds| && |uPathPix| == |old(uPathPix)|
        invariant forall i :: 0 <= i < |uPathPix| ==>
          uPathPix[i] == if i < j then seeds[i] else old(uPathPix)[i]
      {
        uPathPix := uPathPix[j := seeds[j]];
        j := j + 1;
      }
      assert uPathPix == seeds + old(uPathPix)[|seeds|..];
    }

    /** DispatchCompute, seen from the path buffer: the camera block and loop parameters of
        this frame, the seeds prepared, and the kernel run over the compute image. */
    method DispatchCompute(phys: Tracer.Physics, lib: FloatLib)
      requires Valid() && camera.tanHalfFov != 0.0
      requires setup.lengthUnit != 0.0 && setup.rsScaled != 0.0 && setup.pathStride > 0
      requires forall q :: 0 <= q < MaxTracePaths ==> paths.Slot(q) == []
      modifies this`desiredDirs, this`seedPixels, this`uNumPaths, this`uPathPix, this`uPathStride
      modifies paths.points, paths.counts
      ensures Valid() && PathUniformsPlanned(lib, old(PathUniforms()))
      ensures forall q :: 0 <= q < MaxTracePaths ==>
        paths.Slot(q) == ExpectedSlot(q, uPathPix, uNumPaths,
                                      CameraUniforms(camera, width, height, setup.lengthUnit, lib),
                                      LoopParamsOf(setup, camera, uPathStride), phys, lib)
    {
      var cam := CameraUniforms(camera, width, height, setup.lengthUnit, lib);
      PrepareGeoPaths(lib);
      var k := LoopParamsOf(setup, camera, uPathStride);
      RunKernel(cam, k, phys, lib);
    }

    /** The kernel's invocations, seen from the path buffer. Each invocation that records a path
        is the one at the pixel of a seed; the others leave the buffer alone (Tracer.KernelMain),
        and an invocation at a pixel listed twice records under its first index. Starting from
        empty slots, slot q ends up holding the bounded record of the ray through uPathPix[q]
        when q is the first index of that pixel, and stays empty otherwise. */
    method RunKernel(cam: Tracer.CameraBlock, k: Tracer.LoopParams, phys: Tracer.Physics, lib: FloatLib)
      requires Valid() && k.uRs != 0.0 && (uNumPaths > 0 ==> k.stride > 0)
      requires forall q :: 0 <= q < MaxTracePaths ==> paths.Slot(q) == []
      modifies paths.points, paths.counts
      ensures Valid()
      ensures forall q :: 0 <= q < MaxTracePaths ==>
        paths.Slot(q) == ExpectedSlot(q, uPathPix, uNumPaths, cam, k, phys, lib)
    {
      var j := 0;
      while j < uNumPaths
        invariant 0 <= j <= uNumPaths && Valid()
        invariant forall q :: 0 <= q < MaxTracePaths ==>
          paths.Slot(q) == (if q < j then ExpectedSlot(q, uPathPix, uNumPaths, cam, k, phys, lib) else [])
      {
        RunSeed(j, cam, k, phys, lib);
        j := j + 1;
      }
    }

    /** The invocation at seed j's pixel, if j is the first index of that pixel: it fills slot j
        and no other. */
    method RunSeed(j: int, cam: Tracer.CameraBlock, k: Tracer.LoopParams, phys: Tracer.Physics, lib: FloatLib)
      requires Valid() && k.uRs != 0.0 && (uNumPaths > 0 ==> k.stride > 0) && 0 <= j < uNumPaths
      requires paths.Slot(j) == []
      modifies paths.points, paths.counts
      ensures Valid()
      ensures paths.Slot(j) == ExpectedSlot(j, uPathPix, uNumPaths, cam, k, phys, lib)
      ensures forall q :: 0 <= q < MaxTracePaths && q != j ==> paths.Slot(q) == old(paths.Slot(q))
    {
      var pix := uPathPix[j];
      if InImage(pix) && Tracer.FirstIndex(Tracer.ActiveSeeds(uPathPix, uNumPaths), pix) == j {
        var size := Tracer.Pixel(ComputeWidth, ComputeHeight);
        var res := Tracer.KernelMain(pix, size, cam, uPathPix, uNumPaths, k, phys, lib, paths);
        assert [] + res.value.recorded == res.value.recorded;
      }
    }

    /** HandleGeoPaths with the count of kept points: with paths enabled, the frame repacked from
        the buffer's points and counts for this frame's seeds, and its draw ranges. */
    method HandleGeoPaths(lib: FloatLib) returns (frame: Option<PathFrame>)
      requires Valid()
      ensures !setup.enablePaths ==> frame == None
      ensures setup.enablePaths ==>
        frame == Some(FrameOf(paths.points[..], paths.counts[..], |seedPixels|, lib))
    {
      if !setup.enablePaths {
        return None;
      }
      var pts := paths.points[..];
      var pathData := FloatsOf(pts);
      FloatsOfSamples(pts);
      var pathPointCounts := paths.counts[..];
      var allPoints: seq<Vec3> := [];
      var pathCounts: seq<int> := [];
      var p := 0;
      while p < |seedPixels|
        invariant 0 <= p <= |seedPixels|
        invariant Repacked(allPoints, pathCounts) == Repack(pts, pathPointCounts, p, lib)
      {
        var count := ClampCount(pathPointCounts[p]);
        if count >= 1 {
          var kept := ReadPath(pts, pathData, p, count, lib);
          allPoints := allPoints + kept;
          pathCounts := pathCounts + [|kept|];
        }
        p := p + 1;
      }
      var pointDraws, lineDraws := DrawTracePoints(pathCounts);
      frame := Some(PathFrame(allPoints, pathCounts, pointDraws, lineDraws));
    }

    /** What a dirty frame leaves behind, given the path uniforms before it: the uniforms as
        PrepareGeoPaths sets them, every slot holding this frame's expected record, and a frame
        exactly when paths are enabled, read back from the buffer. */
    ghost predicate FrameDrawn(frame: Option<PathFrame>, before: PathUniformValues, phys: Tracer.Physics,
                               lib: FloatLib)
      reads this, camera, setup, paths, paths.points, paths.counts
    {
      Valid() && setup.lengthUnit != 0.0 && setup.rsScaled != 0.0 &&
      PathUniformsPlanned(lib, before) &&
      (forall q :: 0 <= q < MaxTracePaths ==>
        paths.Slot(q) == ExpectedSlot(q, uPathPix, uNumPaths,
                                      CameraUniforms(camera, width, height, setup.lengthUnit, lib),
                                      LoopParamsOf(setup, camera, uPathStride), phys, lib)) &&
      (setup.enablePaths <==> frame.Some?) &&
      (setup.enablePaths ==> frame == Some(FrameOf(paths.points[..], paths.counts[..], |seedPixels|, lib)))
    }

    /** Render: a clean engine draws nothing and changes nothing. A dirty one clears the path
        counts, prepares the seeds, dispatches the kernel with this frame's uniforms, reads the
        paths back, and stays dirty exactly while the camera moves. */
    method Render(phys: Tracer.Physics, lib: FloatLib) returns (frame: Option<PathFrame>)
      requires Valid() && camera.tanHalfFov != 0.0
      requires setup.lengthUnit != 0.0 && setup.rsScaled != 0.0 && setup.pathStride > 0
      modifies this, paths.points, paths.counts
      ensures Valid()
      ensures !old(isDirty) ==>
        frame == None && unchanged(this) && unchanged(paths.points, paths.counts)
      ensures old(isDirty) ==> isDirty == camera.moving && isCameraMoving == camera.moving
      ensures old(isDirty) ==> width == old(width) && height == old(height)
      ensures old(isDirty) ==> FrameDrawn(frame, old(PathUniforms()), phys, lib)
    {
      if !isDirty {
        return None;
      }
      // The source sets the two flags after the draw; the draw reads neither of them.
      var moving := camera.moving;
      isDirty, isCameraMoving := moving, moving;
      frame := Redraw(phys, lib);
    }

    /** The body of a dirty frame: clear the counts, dispatch, read the paths back. */
    method Redraw(phys: Tracer.Physics, lib: FloatLib) returns (frame: Option<PathFrame>)
      requires Valid() && camera.tanHalfFov != 0.0
      requires setup.lengthUnit != 0.0 && setup.rsScaled != 0.0 && setup.pathStride > 0
      modifies this`desiredDirs, this`seedPixels, this`uNumPaths, this`uPathPix, this`uPathStride
      modifies paths.points, paths.counts
      ensures Valid() && FrameDrawn(frame, old(PathUniforms()), phys, lib)
    {
      ghost var before := PathUniforms();
      paths.ClearCounts();
      DispatchCompute(phys, lib);
      assert PathUniformsPlanned(lib, before);
      frame := HandleGeoPaths(lib);
    }
  }

  /** Sample i of path p read from the copy extends the first i samples of the path. */
  lemma ReadStep(pts: seq<Vec4>, pathData: seq<real>, p: int, i: int, count: int)
    requires |pts| == MaxTracePaths * MaxTraceSamples && |pathData| == 4 * |pts|
    requires forall e :: 0 <= e < |pts| ==> HostSample(pathData, e) == Xyz(pts[e])
    requires 0 <= p < MaxTracePaths && 0 <= i < count <= MaxTraceSamples
    ensures var e := (p * MaxTraceSamples + i) * 4;
      0 <= e && e + 2 < |pathData| &&
      RawPath(pts, p, count)[..i + 1] ==
        RawPath(pts, p, count)[..i] + [Vec3(pathData[e + 0], pathData[e + 1], pathData[e + 2])]
  {
    var raw := RawPath(pts, p, count);
    var b := p * MaxTraceSamples + i;
    assert b == Tracer.SlotBase(p) + i < |pts|;
    assert HostSample(pathData, b) == raw[i];
    assert raw[..i + 1] == raw[..i] + [raw[i]];
  }

  /** The inner loop of the read-back: the points of path p's first `count` samples that pass
      the filter, read from the host's float copy of the buffer. */
  method ReadPath(pts: seq<Vec4>, pathData: seq<real>, p: int, count: int, lib: FloatLib)
    returns (kept: seq<Vec3>)
    requires |pts| == MaxTracePaths * MaxTraceSamples && |pathData| == 4 * |pts|
    requires forall e :: 0 <= e < |pts| ==> HostSample(pathData, e) == Xyz(pts[e])
    requires 0 <= p < MaxTracePaths && 0 <= count <= MaxTraceSamples
    ensures kept == Kept(RawPath(pts, p, count), lib)
  {
    ghost var raw := RawPath(pts, p, count);
    var baseIdx := p * MaxTraceSamples;
    kept := [];
    var i := 0;
    while i < count
      invariant 0 <= i <= count
      invariant kept == Kept(raw[..i], lib)
    {
      var e := (baseIdx + i) * 4;
      var x := pathData[e + 0];
      var y := pathData[e + 1];
      var z := pathData[e + 2];
      var v := Vec3(x, y, z);
      ReadStep(pts, pathData, p, i, count);
      KeptSnoc(raw[..i], v, lib);
      if Sane(v, lib) {
        kept := kept + [v];
      }
      i := i + 1;
    }
    assert raw[..count] == raw;
  }

  /** The five directions of the seed cone. */
  function ConeDirections(b: Camera.Basis, lib: FloatLib): (ds: seq<Vec3>)
    ensures |ds| == MaxTracePaths
  {
    seq(MaxTracePaths, k => ConeDirection(b, k, lib))
  }

  /** The loop of PrepareGeoPaths that builds the cone. */
  method BuildCone(b: Camera.Basis, lib: FloatLib) returns (dirs: seq<Vec3>)
    ensures dirs == ConeDirections(b, lib)
  {
    dirs := [];
    var k := 0;
    while k < MaxTracePaths
      invariant 0 <= k <= MaxTracePaths
      invariant dirs == seq(k, j => ConeDirection(b, j, lib))
    {
      dirs := dirs + [ConeDirection(b, k, lib)];
      k := k + 1;
    }
  }

  /** The cone around the view from `pos` towards `target`, and the compute pixels of its
      directions that land on the image. */
  method PlanSeeds(target: Vec3, pos: Vec3, width: int, height: int, tanHalfFov: real,
                   lib: FloatLib) returns (dirs: seq<Vec3>, seeds: seq<Tracer.Pixel>)
    requires width > 0 && tanHalfFov != 0.0
    ensures dirs == ConeDirections(ConeBasis(target, pos, lib), lib)
    ensures seeds == SeedPixels(dirs, Camera.BuildBasis(target, pos, lib), width, height, tanHalfFov, lib)
    ensures |seeds| <= MaxTracePaths && forall i :: 0 <= i < |seeds| ==> InImage(seeds[i])
  {
    dirs := BuildCone(ConeBasis(target, pos, lib), lib);
    seeds := FindSeeds(dirs, Camera.BuildBasis(target, pos, lib), width, height, tanHalfFov, lib);
  }

  /** The loop of PrepareGeoPaths that looks the directions up on the compute image. */
  method FindSeeds(dirs: seq<Vec3>, b: Camera.Basis, width: int, height: int, tanHalfFov: real,
                   lib: FloatLib) returns (seeds: seq<Tracer.Pixel>)
    requires width > 0 && tanHalfFov != 0.0
    ensures seeds == SeedPixels(dirs, b, width, height, tanHalfFov, lib)
    ensures |seeds| <= |dirs| && forall i :: 0 <= i < |seeds| ==> InImage(seeds[i])
  {
    seeds := [];
    var i := 0;
    while i < |dirs|
      invariant 0 <= i <= |dirs|
      invariant seeds == SeedPixels(dirs[..i], b, width, height, tanHalfFov, lib)
    {
      var r := SeedLookup(dirs[i], b, width, height, tanHalfFov, lib);
      if r.onScreen {
        seeds := seeds + [Tracer.Pixel(r.xi, r.yi)];
      }
      assert dirs[..i + 1][..i] == dirs[..i];
      i := i + 1;
    }
    assert dirs[..i] == dirs;
  }

  /** What slot q of the path buffer holds after a dispatch from empty slots. */
  function ExpectedSlot(q: int, pathPix: seq<Tracer.Pixel>, numPaths: int, cam: Tracer.CameraBlock,
                        k: Tracer.LoopParams, phys: Tracer.Physics, lib: FloatLib): (s: seq<Vec4>)
    requires |pathPix| == MaxTracePaths && numPaths <= MaxTracePaths
    requires k.uRs != 0.0 && (numPaths > 0 ==> k.stride > 0)
    ensures |s| <= MaxTraceSamples
  {
    if 0 <= q < numPaths && InImage(pathPix[q])
       && Tracer.FirstIndex(Tracer.ActiveSeeds(pathPix, numPaths), pathPix[q]) == q
    then Tracer.Bounded(SeedTrace(pathPix[q], cam, k, phys, lib).recorded)
    else []
  }

  /** Slot q holds a path exactly when q is the first index of an in-image seed, and then its
      every point is a recorded position of that seed's ray, in order, at most MaxTraceSamples
      of them. */
  lemma ExpectedSlotIsRecord(q: int, pathPix: seq<Tracer.Pixel>, numPaths: int, cam: Tracer.CameraBlock,
                             k: Tracer.LoopParams, phys: Tracer.Physics, lib: FloatLib)
    requires |pathPix| == MaxTracePaths && 0 <= numPaths <= MaxTracePaths
    requires k.uRs != 0.0 && (numPaths > 0 ==> k.stride > 0)
    requires 0 <= q < numPaths && InImage(pathPix[q])
    ensures pathPix[q] !in pathPix[..q] ==>
      ExpectedSlot(q, pathPix, numPaths, cam, k, phys, lib) <= SeedTrace(pathPix[q], cam, k, phys, lib).recorded
    ensures pathPix[q] in pathPix[..q] ==> ExpectedSlot(q, pathPix, numPaths, cam, k, phys, lib) == []
  {
    var act := Tracer.ActiveSeeds(pathPix, numPaths);
    assert act[q] == pathPix[q] && act[..q] == pathPix[..q];
  }

  /** DrawTracePoints: the point draws and the line-strip draws for the repacked counts. */
  method DrawTracePoints(pathCounts: seq<int>) returns (pointDraws: seq<Draw>, lineDraws: seq<Draw>)
    ensures pointDraws == PointDraws(pathCounts, 0)
    ensures lineDraws == LineDraws(pathCounts, 0)
  {
    pointDraws := [];
    var start := 0;
    var p := 0;
    while p < |pathCounts|
      invariant 0 <= p <= |pathCounts|
      invariant pointDraws + PointDraws(pathCounts[p..], start) == PointDraws(pathCounts, 0)
    {
      var n := pathCounts[p];
      assert pathCounts[p..][1..] == pathCounts[p + 1..];
      if n > 0 {
        pointDraws := pointDraws + [Draw(start, n - 1)];
        start := start + n;
      }
      p := p + 1;
    }
    lineDraws := [];
    start := 0;
    p := 0;
    while p < |pathCounts|
      invariant 0 <= p <= |pathCounts|
      invariant lineDraws + LineDraws(pathCounts[p..], start) == LineDraws(pathCounts, 0)
    {
      var n := pathCounts[p];
      assert pathCounts[p..][1..] == pathCounts[p + 1..];
      if n > 3 {
        lineDraws := lineDraws + [Draw(start, n - 1)];
      }
      start := start + Max0(n);
      p := p + 1;
    }
  }

  /** The draws of a repacked frame stay inside its points. */
  lemma FrameDrawsWithinPoints(pts: seq<Vec4>, counts: seq<int>, n: int, lib: FloatLib)
    requires |pts| == MaxTracePaths * MaxTraceSamples && |counts| == MaxTracePaths
    requires 0 <= n <= MaxTracePaths
    ensures var f := FrameOf(pts, counts, n, lib);
      forall d :: d in f.pointDraws + f.lineDraws ==>
        0 <= d.first && 0 <= d.count && d.first + d.count < |f.points|
  {
    RepackCountsMatch(pts, counts, n, lib);
    var r := Repack(pts, counts, n, lib);
    DrawsWithinCounts(r.counts, 0);
  }
}
