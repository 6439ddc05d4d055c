/** Control logic of one invocation of the compute kernel in Engine/geodesicTracer.js: the
    epsilon guard, the step-size rule, the disk-crossing test, the lookup of the pixels whose
    paths are recorded, the bounded path recorder, and the order in which the main loop
    integrates, records and classifies a ray. The geodesic integrator (`rk4`), the initial
    state (`initState`) and the environment lookup are parameters. */
module Tracer {
  import opened Vectors
  import opened Wrappers
  import Camera

  const MaxPaths: int := 5
  const MaxPathPoints: int := 5000

  /** EPS_R = 1e-19. */
  const EpsR: real := 0.0000000000000000001

  /** r, cos/sin theta, cos/sin phi, their affine derivatives and the energy E. */
  datatype State = State(r: real, ct: real, st: real, cp: real, sp: real,
                         rp: real, tp: real, pp: real, e: real)

  /** The physics the kernel calls but the model does not define: one integrator step of
      length h, the initial state of a ray from a position and direction, and the environment
      colour seen along a position (the flag selects the blurrier level of detail). */
  datatype Physics = Physics(
    rk4: (State, real) -> State,
    initState: (Vec3, Vec3) -> State,
    envSample: (Vec3, bool) -> Vec3)

  /** The `Camera` uniform block as the kernel reads it. */
  datatype CameraBlock = CameraBlock(camPos: Vec3, camRight: Vec3, camUp: Vec3, camForward: Vec3,
                                     tanHalfFov: real, aspect: real, moving: int)

  /** The per-dispatch uniforms that steer the main loop. */
  datatype LoopParams = LoopParams(
    uRs: real, dLambdaBase: real, escapeR: real, steps: int, stride: int,
    diskR1: real, diskR2: real, moving: bool)

  datatype Pixel = Pixel(x: int, y: int)

  // ---------------------------------------------------------------- pure helpers

  /** The division guard: f itself when it is non-zero and at least eps in magnitude, and +eps
      otherwise, also for a small negative f. */
  function ApplyEpsilon(f: real, eps: real): (r: real)
    ensures f != 0.0 && Abs(f) >= eps ==> r == f
    ensures f == 0.0 || Abs(f) < eps ==> r == eps
  {
    if f == 0.0 then eps
    else if Abs(f) < eps then eps
    else f
  }

  /** With a positive guard the result is never zero, is at least eps in magnitude, and a second
      application changes nothing. */
  lemma ApplyEpsilonGuards(f: real, eps: real)
    requires eps > 0.0
    ensures ApplyEpsilon(f, eps) != 0.0 && Abs(ApplyEpsilon(f, eps)) >= eps
    ensures ApplyEpsilon(ApplyEpsilon(f, eps), eps) == ApplyEpsilon(f, eps)
    ensures f < 0.0 && -f < eps ==> ApplyEpsilon(f, eps) == eps
  {
  }

  /** The adaptive affine step. The 0.02 and 0.04 scales are assigned and then always
      overwritten by the last if/else, so only two step lengths exist. */
  function LocalDLambda(r: real, uRs: real, base: real): (h: real)
    requires uRs != 0.0
    ensures r / uRs < 3.0 ==> h == base
    ensures r / uRs >= 3.0 ==> h == 4.0 * base
  {
    var rs := r / uRs;
    var scale := if rs < 1.5 then 0.02 else 1.0;
    var scale := if rs < 1.8 then 0.04 else scale;
    var scale := if rs < 3.0 then 1.0 else 4.0;
    base * scale
  }

  /** For a positive length unit and a non-negative base, a ray further out never takes a
      shorter step. */
  lemma {:induction false} LocalDLambdaMonotone(r1: real, r2: real, uRs: real, base: real)
    requires uRs > 0.0 && base >= 0.0 && r1 <= r2
    ensures LocalDLambda(r1, uRs, base) <= LocalDLambda(r2, uRs, base)
  {
    DivMonotone(r1, r2, uRs);
  }

  lemma DivMonotone(a: real, b: real, c: real)
    requires c > 0.0 && a <= b
    ensures a / c <= b / c
  {
    assert b / c - a / c == (b - a) / c;
  }

  function ToCartesian(s: State): Vec3 {
    Vec3(s.r * s.st * s.cp, s.r * s.st * s.sp, s.r * s.ct)
  }

  /** The distance of a point from the y axis, length(p.xz). */
  function PlanarRadius(p: Vec3, lib: FloatLib): real {
    lib.sqrt(p.x * p.x + p.z * p.z)
  }

  /** Whether the segment from a to b crosses the plane y = 0 strictly inside the segment, at a
      point whose distance from the axis lies inside the annulus [r1, r2] narrowed by EPS_R. */
  function CrossesDisk(a: Vec3, b: Vec3, r1: real, r2: real, lib: FloatLib): (hit: bool)
    ensures hit ==> Abs(a.y - b.y) >= EpsR && a.y * b.y <= 0.0
  {
    var ya, yb := a.y, b.y;
    var denom := ya - yb;
    if Abs(denom) < EpsR then false
    else if ya * yb > 0.0 then false
    else
      var t := ya / (ya - yb);
      if t <= EpsR || t >= 1.0 - EpsR then false
      else
        var r := PlanarRadius(Mix(a, b, t), lib);
        r >= r1 + EpsR && r <= r2 - EpsR
  }

  /** The crossing parameter t = ya / (ya - yb) at which the segment meets y = 0. */
  function CrossingParam(a: Vec3, b: Vec3): real
    requires a.y != b.y
  {
    a.y / (a.y - b.y)
  }

  /** The test holds exactly when the segment is not nearly parallel to the plane, its ends are
      not strictly on one side, the crossing parameter is strictly inside (EPS_R, 1 - EPS_R), and
      the crossing point's distance from the axis lies in [r1 + EPS_R, r2 - EPS_R]. */
  lemma CrossesDiskExactly(a: Vec3, b: Vec3, r1: real, r2: real, lib: FloatLib)
    ensures CrossesDisk(a, b, r1, r2, lib) <==>
      Abs(a.y - b.y) >= EpsR && a.y * b.y <= 0.0 &&
      EpsR < CrossingParam(a, b) < 1.0 - EpsR &&
      r1 + EpsR <= PlanarRadius(Mix(a, b, CrossingParam(a, b)), lib) <= r2 - EpsR
  {
  }

  /** The crossing point lies on the plane y = 0. */
  lemma CrossingOnPlane(a: Vec3, b: Vec3, r1: real, r2: real, lib: FloatLib)
    requires CrossesDisk(a, b, r1, r2, lib)
    ensures Mix(a, b, CrossingParam(a, b)).y == 0.0
  {
    RatioZero(a.y, b.y);
  }

  /** At t = ya / (ya - yb) the interpolation (1 - t) ya + t yb vanishes. */
  lemma RatioZero(ya: real, yb: real)
    requires ya != yb
    ensures (1.0 - ya / (ya - yb)) * ya + (ya / (ya - yb)) * yb == 0.0
  {
    var t := ya / (ya - yb);
    assert t * (ya - yb) == ya;
    assert (1.0 - t) * ya + t * yb == ya - t * (ya - yb);
  }

  /** An annulus narrower than 2 * EPS_R is never hit, whatever the segment. */
  lemma NarrowRingNeverHit(a: Vec3, b: Vec3, r1: real, r2: real, lib: FloatLib)
    requires r2 - r1 < 2.0 * EpsR
    ensures !CrossesDisk(a, b, r1, r2, lib)
  {
  }

  /** The test does not depend on the direction in which the segment is walked. */
  lemma {:induction false} CrossesDiskSymmetric(a: Vec3, b: Vec3, r1: real, r2: real, lib: FloatLib)
    ensures CrossesDisk(a, b, r1, r2, lib) == CrossesDisk(b, a, r1, r2, lib)
  {
    if Abs(a.y - b.y) >= EpsR {
      var t := CrossingParam(a, b);
      RatioComplement(a.y, b.y);
      MixReversed(a, b, t);
    }
  }

  /** Walking the segment backwards turns the parameter t of the crossing into 1 - t. */
  lemma RatioComplement(ya: real, yb: real)
    requires ya != yb
    ensures yb / (yb - ya) == 1.0 - ya / (ya - yb)
  {
    var d := ya - yb;
    var q, p := yb / (yb - ya), ya / d;
    assert q * (yb - ya) == yb;
    assert p * d == ya;
    assert (1.0 - p) * (yb - ya) == yb;
    MulCancel(q, 1.0 - p, yb - ya);
  }

  lemma MulCancel(x: real, y: real, c: real)
    requires c != 0.0 && x * c == y * c
    ensures x == y
  {
    assert (x - y) * c == 0.0;
  }

  lemma MixReversed(a: Vec3, b: Vec3, t: real)
    ensures Mix(b, a, 1.0 - t) == Mix(a, b, t)
  {
  }

  // ---------------------------------------------------------------- seed-pixel lookup

  /** The index of the first entry of s equal to p, or -1 when there is none. */
  function FirstIndex(s: seq<Pixel>, p: Pixel): (k: int)
    ensures -1 <= k < |s|
    ensures k == -1 <==> p !in s
    ensures k >= 0 ==> s[k] == p && p !in s[..k]
  {
    if |s| == 0 then -1
    else if s[0] == p then 0
    else
      var k := FirstIndex(s[1..], p);
      assert s[1..][..if k < 0 then 0 else k] == s[1..if k < 0 then 1 else k + 1];
      if k < 0 then -1 else k + 1
  }

  /** The first uNumPaths entries of uPathPix (none when the count is not positive). */
  function ActiveSeeds(pathPix: seq<Pixel>, numPaths: int): seq<Pixel>
    requires numPaths <= |pathPix|
  {
    if numPaths <= 0 then [] else pathPix[..numPaths]
  }

  /** The loop of `main` that finds the path this pixel records, if any. */
  method FindPathId(pix: Pixel, pathPix: seq<Pixel>, numPaths: int) returns (pathId: int)
    requires numPaths <= |pathPix|
    ensures pathId == FirstIndex(ActiveSeeds(pathPix, numPaths), pix)
    ensures pathId < 0 <==> pix !in ActiveSeeds(pathPix, numPaths)
    ensures pathId >= 0 ==> pathId < numPaths && pathPix[pathId] == pix
  {
    pathId := -1;
    var i := 0;
    while i < numPaths
      invariant 0 <= i && (i <= numPaths || i == 0)
      invariant pix !in pathPix[..i]
    {
      if pix == pathPix[i] {
        pathId := i;
        assert ActiveSeeds(pathPix, numPaths)[..i] == pathPix[..i];
        break;
      }
      assert pathPix[..i + 1] == pathPix[..i] + [pathPix[i]];
      i := i + 1;
    }
    if pathId < 0 {
      assert numPaths > 0 ==> ActiveSeeds(pathPix, numPaths) == pathPix[..i];
    }
  }

  // ---------------------------------------------------------------- the path buffer

  /** At most MaxPathPoints of the points offered to a path are kept; later ones are dropped. */
  function Bounded(s: seq<Vec4>): (b: seq<Vec4>)
    ensures |b| <= MaxPathPoints && b <= s
    ensures |s| <= MaxPathPoints ==> b == s
  {
    if |s| <= MaxPathPoints then s else s[..MaxPathPoints]
  }

  /** Offering one more point to a bounded slot keeps it equal to the bounded whole. */
  lemma BoundedAppend(s: seq<Vec4>, x: Vec4)
    ensures var b := Bounded(s);
      Bounded(s + [x]) == if |b| < MaxPathPoints then b + [x] else b
  {
    if |s| >= MaxPathPoints {
      assert (s + [x])[..MaxPathPoints] == s[..MaxPathPoints];
    }
  }

  /** The first element of path p's slot in the flat point array. */
  function SlotBase(p: int): int {
    p * MaxPathPoints
  }

  /** The slots of different paths occupy disjoint index ranges of the point array, all inside
      its MaxPaths * MaxPathPoints elements. */
  lemma SlotsDisjoint(p: int, q: int, i: int, j: int)
    requires 0 <= p < MaxPaths && 0 <= q < MaxPaths && p != q
    requires 0 <= i < MaxPathPoints && 0 <= j < MaxPathPoints
    ensures SlotBase(p) + i != SlotBase(q) + j
    ensures 0 <= SlotBase(p) + i < MaxPaths * MaxPathPoints
  {
  }

  /** The `PathsSSBO` storage buffer: the flat point array and the per-path counts. */
  class PathBuffer {
    const points: array<Vec4>
    const counts: array<int>

    /** Both arrays have their declared lengths and every count is a valid fill level. */
    ghost predicate Valid()
      reads counts
    {
      points.Length == MaxPaths * MaxPathPoints && counts.Length == MaxPaths &&
      forall p :: 0 <= p < MaxPaths ==> 0 <= counts[p] <= MaxPathPoints
    }

    /** The points recorded so far for path p. */
    ghost function Slot(p: int): seq<Vec4>
      reads points, counts
      requires Valid() && 0 <= p < MaxPaths
    {
      points[SlotBase(p)..SlotBase(p) + counts[p]]
    }

    constructor ()
      ensures Valid() && fresh(points) && fresh(counts)
      ensures forall p :: 0 <= p < MaxPaths ==> Slot(p) == []
    {
      points := new Vec4[MaxPaths * MaxPathPoints](_ => Vec4(0.0, 0.0, 0.0, 0.0));
      counts := new int[MaxPaths](_ => 0);
    }

    /** The host zeroes the counts before each dispatch. */
    method ClearCounts()
      requires points.Length == MaxPaths * MaxPathPoints && counts.Length == MaxPaths
      modifies counts
      ensures Valid()
      ensures forall p :: 0 <= p < MaxPaths ==> Slot(p) == []
    {
      var p := 0;
      while p < MaxPaths
        invariant 0 <= p <= MaxPaths
        invariant forall q :: 0 <= q < p ==> counts[q] == 0
      {
        counts[p] := 0;
        p := p + 1;
      }
    }

    /** The kernel's append of one point to path p: stored at the next free slot and counted,
        or silently dropped when the slot is full. Other paths are not touched. */
    method Record(p: int, pos: Vec3)
      requires Valid() && 0 <= p < MaxPaths
      modifies points, counts
      ensures Valid()
      ensures Slot(p) == if |old(Slot(p))| < MaxPathPoints then old(Slot(p)) + [Point4(pos)]
                         else old(Slot(p))
      ensures forall q :: 0 <= q < MaxPaths && q != p ==> Slot(q) == old(Slot(q))
    {
      var idx := counts[p];
      if idx < MaxPathPoints {
        points[SlotBase(p) + idx] := Point4(pos);
        counts[p] := idx + 1;
        assert Slot(p) == old(Slot(p)) + [Point4(pos)];
      }
    }
  }

  // ---------------------------------------------------------------- the main loop

  /** How a ray's loop ended: still running after uSteps iterations, or one of the three
      terminating tests. */
  datatype Outcome = Running | Diverged | Absorbed | Escaped

  /** The loop's variables after some iterations: the state, prevPos, hitDisk, textureSample,
      the points offered to the recorder, the number of iterations done and the outcome. */
  datatype Trace = Trace(s: State, prevPos: Vec3, hitDisk: bool, sample: Vec3,
                         recorded: seq<Vec4>, iterations: nat, outcome: Outcome)

  /** isBadF(s.r) || isBadV(curPos). */
  predicate IsBad(s: State, cur: Vec3, lib: FloatLib) {
    !lib.isFinite(s.r) || !lib.isFinite(cur.x) || !lib.isFinite(cur.y) || !lib.isFinite(cur.z)
  }

  function Start(s0: State): Trace {
    Trace(s0, ToCartesian(s0), false, Zero3, [], 0, Running)
  }

  predicate LoopParamsOk(k: LoopParams, recording: bool) {
    k.uRs != 0.0 && (recording ==> k.stride > 0)
  }

  /** One iteration of the loop, in the kernel's order: integrate, record, divergence test, disk
      test, prevPos update, absorption test, environment sample, escape test. */
  function Step(t: Trace, i: int, recording: bool, k: LoopParams, phys: Physics, lib: FloatLib): Trace
    requires LoopParamsOk(k, recording)
  {
    var s := phys.rk4(t.s, LocalDLambda(t.s.r, k.uRs, k.dLambdaBase));
    var cur := ToCartesian(s);
    var rec := if recording && i % k.stride == 0 then t.recorded + [Point4(cur)] else t.recorded;
    var n := t.iterations + 1;
    if IsBad(s, cur, lib) then Trace(s, t.prevPos, t.hitDisk, t.sample, rec, n, Diverged)
    else
      var hit := t.hitDisk || (k.diskR1 > 0.0 && CrossesDisk(t.prevPos, cur, k.diskR1, k.diskR2, lib));
      if Abs(s.r) < k.uRs then Trace(s, cur, hit, t.sample, rec, n, Absorbed)
      else
        var env := phys.envSample(cur, k.moving);
        Trace(s, cur, hit, env, rec, n, if s.r > k.escapeR then Escaped else Running)
  }

  /** The loop from iteration i on: stops at uSteps or at the first terminating test. */
  function Run(t: Trace, i: int, recording: bool, k: LoopParams, phys: Physics, lib: FloatLib): Trace
    requires LoopParamsOk(k, recording)
    decreases k.steps - i
  {
    if i >= k.steps || t.outcome != Running then t
    else Run(Step(t, i, recording, k, phys, lib), i + 1, recording, k, phys, lib)
  }

  /** What a single iteration promises: the point is offered to the recorder before any test
      (so a diverging step's point is recorded too), a diverging step leaves hitDisk and
      prevPos alone, an absorbed ray keeps the previous textureSample, and a new disk hit needs
      a positive inner radius and a crossing of the segment just integrated. */
  lemma StepOrder(t: Trace, i: int, recording: bool, k: LoopParams, phys: Physics, lib: FloatLib)
    requires LoopParamsOk(k, recording)
    ensures var r := Step(t, i, recording, k, phys, lib);
      var cur := ToCartesian(r.s);
      r.s == phys.rk4(t.s, LocalDLambda(t.s.r, k.uRs, k.dLambdaBase)) &&
      r.iterations == t.iterations + 1 &&
      r.recorded == (if recording && i % k.stride == 0 then t.recorded + [Point4(cur)] else t.recorded) &&
      (r.outcome == Diverged <==> IsBad(r.s, cur, lib)) &&
      (r.outcome == Diverged ==> r.hitDisk == t.hitDisk && r.prevPos == t.prevPos && r.sample == t.sample) &&
      (r.outcome != Diverged ==> r.prevPos == cur) &&
      (r.outcome == Absorbed ==> r.sample == t.sample) &&
      (r.hitDisk && !t.hitDisk ==> k.diskR1 > 0.0 && CrossesDisk(t.prevPos, cur, k.diskR1, k.diskR2, lib))
  {
  }

  /** What each outcome means about the final state. */
  predicate Classified(t: Trace, k: LoopParams, lib: FloatLib) {
    match t.outcome
    case Running => true
    case Diverged => IsBad(t.s, ToCartesian(t.s), lib)
    case Absorbed => !IsBad(t.s, ToCartesian(t.s), lib) && Abs(t.s.r) < k.uRs
    case Escaped => !IsBad(t.s, ToCartesian(t.s), lib) && Abs(t.s.r) >= k.uRs && t.s.r > k.escapeR
  }

  /** The loop runs at most uSteps iterations; a ray still running at the end used all of them;
      each terminating outcome is justified by the test that set it, tried in the kernel's
      order (divergence, then absorption, then escape), so exactly one of them holds. */
  lemma {:induction false} RunOutcome(t: Trace, i: int, recording: bool, k: LoopParams,
                                      phys: Physics, lib: FloatLib)
    requires LoopParamsOk(k, recording)
    requires 0 <= i && t.iterations == i && Classified(t, k, lib)
    ensures var r := Run(t, i, recording, k, phys, lib);
      t.iterations <= r.iterations <= (if k.steps > i then k.steps else i) &&
      (r.outcome == Running ==> r.iterations == (if k.steps > i then k.steps else i)) &&
      (t.outcome != Running ==> r == t) &&
      Classified(r, k, lib)
    decreases k.steps - i
  {
    if i < k.steps && t.outcome == Running {
      var t' := Step(t, i, recording, k, phys, lib);
      RunOutcome(t', i + 1, recording, k, phys, lib);
    }
  }

  /** A disk hit is never reported when the inner radius is not positive, which is how the host
      hides the disk. */
  lemma {:induction false} NoDiskHitWithoutInnerRadius(t: Trace, i: int, recording: bool,
                                                       k: LoopParams, phys: Physics, lib: FloatLib)
    requires LoopParamsOk(k, recording)
    requires k.diskR1 <= 0.0 && !t.hitDisk
    ensures !Run(t, i, recording, k, phys, lib).hitDisk
    decreases k.steps - i
  {
    if i < k.steps && t.outcome == Running {
      NoDiskHitWithoutInnerRadius(Step(t, i, recording, k, phys, lib), i + 1, recording, k, phys, lib);
    }
  }

  /** The number of j in [lo, hi) that are multiples of stride. */
  function Multiples(lo: int, hi: int, stride: int): (n: nat)
    requires stride > 0
    ensures n <= if hi > lo then hi - lo else 0
    decreases hi - lo
  {
    if lo >= hi then 0 else (if lo % stride == 0 then 1 else 0) + Multiples(lo + 1, hi, stride)
  }

  /** A recording ray offers exactly one point for each iteration index divisible by the stride;
      any other ray offers none. */
  lemma {:induction false} RecordedCount(t: Trace, i: int, recording: bool, k: LoopParams,
                                         phys: Physics, lib: FloatLib)
    requires LoopParamsOk(k, recording)
    requires 0 <= i && t.iterations == i
    ensures var r := Run(t, i, recording, k, phys, lib);
      r.iterations >= i &&
      (recording ==> |r.recorded| == |t.recorded| + Multiples(i, r.iterations, k.stride)) &&
      (!recording ==> r.recorded == t.recorded)
    decreases k.steps - i
  {
    if i < k.steps && t.outcome == Running {
      RecordedCount(Step(t, i, recording, k, phys, lib), i + 1, recording, k, phys, lib);
    }
  }

  /** The main loop of `main`, with the kernel's variables and early exits. The points it offers
      go through the bounded recorder into path pathId's slot when pathId >= 0. */
  method TraceRay(buf: PathBuffer, pathId: int, s0: State, k: LoopParams, phys: Physics, lib: FloatLib)
    returns (t: Trace)
    requires buf.Valid() && pathId < MaxPaths && LoopParamsOk(k, pathId >= 0)
    modifies buf.points, buf.counts
    ensures t == Run(Start(s0), 0, pathId >= 0, k, phys, lib)
    ensures buf.Valid()
    ensures pathId >= 0 ==> buf.Slot(pathId) == Bounded(old(buf.Slot(pathId)) + t.recorded)
    ensures forall q :: 0 <= q < MaxPaths && q != pathId ==> buf.Slot(q) == old(buf.Slot(q))
  {
    var recording := pathId >= 0;
    ghost var base := if recording then buf.Slot(pathId) else [];
    var s := s0;
    var prevPos := ToCartesian(s0);
    var hitDisk := false;
    var textureSample := Zero3;
    var recorded: seq<Vec4> := [];
    var i := 0;
    t := Start(s0);
    while i < k.steps
      invariant 0 <= i && (i <= k.steps || i == 0)
      invariant buf.Valid()
      invariant recording ==> buf.Slot(pathId) == Bounded(base + recorded)
      invariant forall q :: 0 <= q < MaxPaths && q != pathId ==> buf.Slot(q) == old(buf.Slot(q))
      invariant t == Trace(s, prevPos, hitDisk, textureSample, recorded, i, Running)
      invariant Run(t, i, recording, k, phys, lib) == Run(Start(s0), 0, recording, k, phys, lib)
    {
      var h := LocalDLambda(s.r, k.uRs, k.dLambdaBase);
      s := phys.rk4(s, h);
      var curPos := ToCartesian(s);
      recorded := Offer(buf, pathId, i, k.stride, curPos, base, recorded);
      if IsBad(s, curPos, lib) {
        t := Trace(s, prevPos, hitDisk, textureSample, recorded, i + 1, Diverged);
        break;
      }
      if k.diskR1 > 0.0 && CrossesDisk(prevPos, curPos, k.diskR1, k.diskR2, lib) {
        hitDisk := true;
      }
      prevPos := curPos;
      if Abs(s.r) < k.uRs {
        t := Trace(s, prevPos, hitDisk, textureSample, recorded, i + 1, Absorbed);
        break;
      }
      textureSample := phys.envSample(curPos, k.moving);
      if s.r > k.escapeR {
        t := Trace(s, prevPos, hitDisk, textureSample, recorded, i + 1, Escaped);
        break;
      }
      i := i + 1;
      t := Trace(s, prevPos, hitDisk, textureSample, recorded, i, Running);
    }
  }

  /** The recording block of the loop: on every stride-th iteration of a recording ray, the
      position goes to the ray's slot and onto the list of points offered. */
  method Offer(buf: PathBuffer, pathId: int, i: int, stride: int, pos: Vec3, ghost base: seq<Vec4>,
               recorded: seq<Vec4>) returns (rec: seq<Vec4>)
    requires buf.Valid() && pathId < MaxPaths && (pathId >= 0 ==> stride > 0)
    requires pathId >= 0 ==> buf.Slot(pathId) == Bounded(base + recorded)
    modifies buf.points, buf.counts
    ensures buf.Valid()
    ensures rec == if pathId >= 0 && i % stride == 0 then recorded + [Point4(pos)] else recorded
    ensures pathId >= 0 ==> buf.Slot(pathId) == Bounded(base + rec)
    ensures forall q :: 0 <= q < MaxPaths && q != pathId ==> buf.Slot(q) == old(buf.Slot(q))
  {
    rec := recorded;
    if pathId >= 0 && i % stride == 0 {
      BoundedAppend(base + recorded, Point4(pos));
      buf.Record(pathId, pos);
      rec := recorded + [Point4(pos)];
      assert base + rec == (base + recorded) + [Point4(pos)];
    }
  }

  // ---------------------------------------------------------------- one invocation

  /** The direction of the ray through the centre of pixel pix of an image of the given size:
      the camera block's basis, its aspect and tanHalfFov, v pointing up. */
  function KernelRay(pix: Pixel, size: Pixel, cam: CameraBlock, lib: FloatLib): Vec3
    requires size.x != 0 && size.y != 0
  {
    Camera.CameraRay(Camera.Basis(cam.camForward, cam.camRight, cam.camUp),
                     Camera.PixelToNdc(pix.x, pix.y, size.x, size.y, cam.aspect, cam.tanHalfFov),
                     1.0, lib)
  }

  /** `main` for the invocation at pixel pix: invocations outside the image return before any
      write; the others trace their camera ray, and touch the path buffer only when the pixel is
      one of the first uNumPaths seeds, and then only that seed's slot. */
  method KernelMain(pix: Pixel, size: Pixel, cam: CameraBlock, pathPix: seq<Pixel>, numPaths: int,
                    k: LoopParams, phys: Physics, lib: FloatLib, buf: PathBuffer)
    returns (res: Option<Trace>)
    requires pix.x >= 0 && pix.y >= 0
    requires |pathPix| == MaxPaths && numPaths <= MaxPaths
    requires buf.Valid() && k.uRs != 0.0
    requires FirstIndex(ActiveSeeds(pathPix, numPaths), pix) >= 0 ==> k.stride > 0
    modifies buf.points, buf.counts
    ensures buf.Valid()
    ensures !(pix.x < size.x && pix.y < size.y) ==> res == None
    ensures pix.x < size.x && pix.y < size.y ==>
      var id := FirstIndex(ActiveSeeds(pathPix, numPaths), pix);
      res == Some(Run(Start(phys.initState(cam.camPos, KernelRay(pix, size, cam, lib))), 0, id >= 0, k, phys, lib))
    ensures res.None? || FirstIndex(ActiveSeeds(pathPix, numPaths), pix) < 0 ==>
      forall q :: 0 <= q < MaxPaths ==> buf.Slot(q) == old(buf.Slot(q))
    ensures res.Some? ==>
      var id := FirstIndex(ActiveSeeds(pathPix, numPaths), pix);
      (id >= 0 ==> buf.Slot(id) == Bounded(old(buf.Slot(id)) + res.value.recorded)) &&
      forall q :: 0 <= q < MaxPaths && q != id ==> buf.Slot(q) == old(buf.Slot(q))
  {
    if pix.x >= size.x || pix.y >= size.y {
      return None;
    }
    var pathId := FindPathId(pix, pathPix, numPaths);
    var rd := KernelRay(pix, size, cam, lib);
    var s := phys.initState(cam.camPos, rd);
    var t := TraceRay(buf, pathId, s, k, phys, lib);
    res := Some(t);
  }
}
