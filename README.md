# BlackHoleTracer: the sequential control layer, modelled and verified in Dafny

BlackHoleTracer renders the view of a Schwarzschild black hole. A GLSL compute kernel integrates
one geodesic per pixel, and a C# host drives it through OpenGL. Around the floating-point
physics and the GL plumbing sits a small sequential control layer. This project models that
layer and proves what it promises.

- `Setup` (game_setup.dfy) is the scene configuration. Its constructor derives the Schwarzschild
  radius, the length unit, the scaled radius, the affine step, the escape radius and the step
  budgets. It also holds the flags the engine reads each frame, and the `HorizonHandling` enum.
- `Layout` (layout.dfy) holds the std140/std430 layout rules of section 7.6.2.2 of the OpenGL 4.3
  Core Profile specification. It gives the byte layout of the kernel's `Camera`, `Disk` and
  `PathsSSBO` blocks.
- `Camera` (camera.dfy) is the orbit camera.
  - `CameraState` is a class whose mouse and scroll handlers update the drag flags, azimuth,
    elevation, radius and cursor position.
  - The pure parts are the orbit position, the camera frame, and the pinhole mapping between
    pixels and world directions with its inverse.
  - It also holds the explicit-offset host image of the kernel's camera block.
- `Tracer` (tracer.dfy) is the control logic of one kernel invocation:
  - the epsilon guard, the step-size rule and the disk-crossing test;
  - the lookup of the path a pixel records;
  - the bounded path recorder, a `PathBuffer` class over the two arrays of `PathsSSBO`;
  - the main loop, specified by `Step`/`Run` over a `Trace` and implemented by `TraceRay`.

  The integrator (`rk4`), the initial state and the environment lookup are parameters (`Physics`).
- `Engine` (engine.dfy) is the host, the `BlackHoleEngine` class:
  - the dirty flag that gates `Render`, and the input hooks that arm it;
  - the per-frame uniforms (step budget, disk radii, camera block);
  - the choice of seed pixels in `PrepareGeoPaths`;
  - the dispatch, seen from the path buffer;
  - the read-back in `HandleGeoPaths`, which clamps, filters and repacks the recorded paths;
  - the draw ranges of `DrawTracePoints`.

Floats are Dafny reals. Square root, sine, cosine, tangent and the finiteness test come in as
the fields of a `FloatLib` value (`Vectors`). Whatever is proved holds for every such library,
and lemmas that need a property of one, such as sin² + cos² = 1, take it as a hypothesis.

## Model

| member | source | states |
|---|---|---|
| Setup.HorizonHandlingValue | Engine/GameSetup.cs:47-50 | Each enum member stands for an integer in 0..2, and 0 is exactly Black |
| Setup.HorizonHandlingOf | Engine/GameSetup.cs:47-50 | An integer names an enum member exactly when it lies in 0..2 |
| Setup.HorizonHandlingRoundTrip | Engine/GameSetup.cs:47-50 | Member → value → member and value → member → value both round-trip |
| Setup.SchwarzschildRadius | Engine/GameSetup.cs:20 | Rs · c² = 2 G M |
| Setup.Derive | Engine/GameSetup.cs:20-24 | Rs is non-zero and LengthUnit · 1000 = Rs. Whatever the mass and constants, RS_scaled is exactly 1000, AffineStep 3 and EscapeR 40000 |
| Setup.GameSetup.constructor | Engine/GameSetup.cs:11-43 | The constants and window size are the literals. Rs is derived as above and positive. Both step budgets are 8000. The defaults are paths off, stride 4, disk and bricks shown, horizon Black |
| Layout.RoundUp | Engine/geodesicTracer.js:7-16 | The result is the least multiple of the alignment at or above n |
| Layout.Align | Engine/geodesicTracer.js:27-31 | A member's base alignment is 4 or 16 bytes. std140 rounds array alignment up to a vec4, std430 does not |
| Layout.MemberAligned | Engine/geodesicTracer.js:7-16 | Every member starts on a multiple of its own alignment |
| Layout.MemberFollows | Engine/geodesicTracer.js:7-16 | Every member starts at or past the end of the member before it |
| Layout.MembersDisjoint | Engine/Camera.cs:14-34 | No two members of a block overlap |
| Layout.MembersWithinBlock | Engine/geodesicTracer.js:7-16 | Every member ends at or before the block's end |
| Layout.ElementOffset | Engine/geodesicTracer.js:29 | Element k of an array member lies inside that member's bytes |
| Layout.CameraVectorOffsets | Engine/Camera.cs:18-28 | Under std140 the four (vec3, float) pairs sit at 0/12, 16/28, 32/44, 48/60 |
| Layout.CameraScalarOffsets | Engine/Camera.cs:30-34 | tanHalfFov, aspect, moving and _pad4 sit at 64, 68, 72 and 76, and the block ends at 80 |
| Layout.DiskBlockLayout | Engine/geodesicTracer.js:19-22 | disk_r1 sits at 0 and disk_r2 at 4, and the block ends at 8 |
| Layout.PathsBlockLayout | Engine/geodesicTracer.js:27-31 | Under std430 the points fill [0, 400000) with a 16-byte stride, the counts start at 400000 with a 4-byte stride, and the block ends at 400020 (it would end at 400080 under std140) |
| Camera.Clamp | Engine/Camera.cs:73 | The result is x inside [lo, hi], the nearer bound outside it, and never below lo |
| Camera.ClampIdempotent | Engine/Camera.cs:58 | Clamping an already clamped value changes nothing |
| Camera.CameraState.constructor | Engine/Camera.cs:38-54 | Every field has its initialiser's value: radius 1e8, radii bounds 1e10 and 1e12, elevation π/2, speeds 0.005 and 5e9, no drag, fov 30°, tanHalfFov = tan(fov). The elevation is in range |
| Camera.CameraState.Update | Engine/Camera.cs:65 | Re-targets the origin and sets moving = dragging ∨ panning. Every other field is unchanged |
| Camera.CameraState.ProcessMouseMove | Engine/Camera.cs:66-76 | A drag without panning adds dx·orbitSpeed to azimuth and sets elevation to clamp(elevation − dy·orbitSpeed, 0.01, π − 0.01). Otherwise azimuth and elevation are unchanged. The radius is kept, lastX/lastY := x/y, moving = dragging ∨ panning, and the elevation range is preserved |
| Camera.CameraState.ProcessMouseButton | Engine/Camera.cs:77-92 | Left or Middle: Press starts a drag (dragging, not panning) and Release ends both. Any other button or action changes nothing, and `moving` is never recomputed |
| Camera.CameraState.ProcessScroll | Engine/Camera.cs:93-98 | radius := clamp(radius − yoff·zoomSpeed, minRadius, maxRadius), which lies within the bounds. xoff is ignored and moving is recomputed |
| Camera.PositionOnSphere | Engine/Camera.cs:56-64 | With sin² + cos² = 1 at the angles used, the position lies on the sphere of the orbit radius, and its height is radius · cos of the clamped elevation |
| Camera.PositionIgnoresElevationBeyondClamp | Engine/Camera.cs:56-64 | Position depends on the elevation only through its clamp; no field is written |
| Camera.BasisOrthogonal | Engine/Camera.cs:101-112 | The three axes of BuildBasis are mutually orthogonal for any square root. Unless forward is near vertical, right is horizontal |
| Camera.BasisFacesTarget | Engine/Camera.cs:103-105 | Away from the target, forward is a positive multiple of target − position |
| Camera.NdcRoundTrip | Engine/Camera.cs:126-155 | Putting the forward u, v formulas into the inverse x, y formulas returns the pixel exactly, before rounding |
| Camera.RoundHalfEven | Engine/Camera.cs:157-158 | MathF.Round lands within ½ of its argument, keeps integers, and breaks ties to the even integer |
| Camera.ProjectToPixel | Engine/Camera.cs:141-160 | behind ⇔ dot(normalize(D), fwd) ≤ 1e-6, and then xi = yi = −1 and the result is false. Otherwise the result is 0 ≤ xi < W ∧ 0 ≤ yi < H |
| Camera.GridAspect | Engine/Camera.cs:124 | W / max(1, H) is positive for a positive width |
| Camera.ProjectCameraRay | Engine/Camera.cs:141-158 | Projecting a camera ray back through the same orthonormal frame recovers its pinhole coordinates, so the pixel found is the rounding of the inverse mapping |
| Camera.PixelRoundTrip | Engine/Camera.cs:119-160 | With the same frame and aspect, the lookup of a pixel's camera ray finds that pixel unless the ray is judged behind, and reports it on screen iff it is inside the grid |
| Camera.WorldDirRoundTrip | Engine/Camera.cs:119-161 | WorldDirToComputePixel undoes PixelToWorldDir on the same grid, unless the direction is judged behind |
| Camera.SquareGridAspectMisses | Engine/BlackHoleEngine.cs:443 | Finding 1, as written: the kernel's ray for compute pixel (100, y) under a 1600×1200 window is looked up with aspect 1 and lands on pixel 80 |
| Camera.UboMatchesKernelBlock | Engine/Camera.cs:14-34 | Each explicit FieldOffset equals the std140 offset of the same member of the kernel's block, and Size = 80 equals the block's end |
| Tracer.ApplyEpsilonGuards | Engine/geodesicTracer.js:64-69 | With eps > 0 the result is non-zero, at least eps in magnitude and idempotent. A small negative f becomes +eps |
| Tracer.LocalDLambda | Engine/geodesicTracer.js:82-96 | The step is uDLambdaBase when r/uRs < 3 and 4·uDLambdaBase otherwise. The 0.02 and 0.04 scales never survive |
| Tracer.LocalDLambdaMonotone | Engine/geodesicTracer.js:82-96 | A ray further out never takes a shorter step |
| Tracer.CrossesDisk | Engine/geodesicTracer.js:251-272 | A hit needs \|ya − yb\| ≥ EPS_R and ends not strictly on one side |
| Tracer.CrossingOnPlane | Engine/geodesicTracer.js:261-267 | The crossing point mix(a, b, t) lies on y = 0 |
| Tracer.NarrowRingNeverHit | Engine/geodesicTracer.js:271 | An annulus narrower than 2·EPS_R is never hit |
| Tracer.CrossesDiskSymmetric | Engine/geodesicTracer.js:251-272 | The test gives the same answer whichever way the segment is walked |
| Tracer.FirstIndex | Engine/geodesicTracer.js:288-292 | The index of the first occurrence of the pixel, or −1 exactly when it is absent |
| Tracer.FindPathId | Engine/geodesicTracer.js:288-292 | pathId is the first index among the first uNumPaths seeds equal to the pixel, or −1 iff there is none |
| Tracer.Bounded | Engine/geodesicTracer.js:335-339 | A slot keeps a prefix of the points offered, at most 5000 of them, and all of them when they fit |
| Tracer.BoundedAppend | Engine/geodesicTracer.js:335-339 | Offering one more point appends it while the slot has room and drops it otherwise |
| Tracer.SlotsDisjoint | Engine/geodesicTracer.js:337 | The slots pathId·5000 + idx of different paths never share an element, and all lie inside the array |
| Tracer.PathBuffer.constructor | Engine/BlackHoleEngine.cs:114-117 | The buffer has room for 5 × 5000 points and 5 counts, and every slot starts empty |
| Tracer.PathBuffer.ClearCounts | Engine/BlackHoleEngine.cs:152-158 | After the clear every slot is empty |
| Tracer.PathBuffer.Record | Engine/geodesicTracer.js:335-339 | The point goes to the next free element of path p's slot, or is silently dropped when the slot is full. Other paths are untouched |
| Tracer.StepOrder | Engine/geodesicTracer.js:320-392 | One iteration integrates, then offers the point (a diverging step's too), then tests divergence, the disk, absorption and escape in that order. A diverging step keeps prevPos, hitDisk and the sample. An absorbed ray keeps the previous sample. A new disk hit needs disk_r1 > 0 |
| Tracer.RunOutcome | Engine/geodesicTracer.js:320-395 | The loop runs at most uSteps iterations, and a ray still running used all of them. Each final outcome is justified by its own test, so at most one of diverged, absorbed and escaped holds |
| Tracer.NoDiskHitWithoutInnerRadius | Engine/geodesicTracer.js:352 | With disk_r1 ≤ 0 no disk hit is ever reported |
| Tracer.RecordedCount | Engine/geodesicTracer.js:320-341 | A recording ray offers one point per iteration index divisible by the stride, and a non-recording ray offers none |
| Tracer.TraceRay | Engine/geodesicTracer.js:320-395 | The loop computes Run from the initial state. The recording path's slot becomes Bounded(old slot + points offered), and every other slot is unchanged |
| Tracer.Offer | Engine/geodesicTracer.js:332-341 | The recording block records exactly on every stride-th iteration of a recording ray, and keeps the slot equal to the bounded record |
| Tracer.KernelMain | Engine/geodesicTracer.js:283-395 | An invocation outside the image returns without writing. Otherwise it yields Run for its camera ray. The buffer changes only in the slot of the pixel's first seed index, and only by the bounded record of that ray |
| Engine.BuffersMatchKernel | Engine/BlackHoleEngine.cs:99-117 | The host's capacities equal the kernel's. The counts offset 400000 and the 400020-byte allocation are the std430 block's. The 80-byte camera buffer is the std140 camera block, and the 16-byte disk buffer holds the disk block |
| Engine.HostFloatIndex | Engine/BlackHoleEngine.cs:306-311 | Host float (p·5000 + i)·4 + k is byte 4k of the kernel's pathPoints[p·5000 + i], and it lies before the counts |
| Engine.FloatsOfSamples | Engine/BlackHoleEngine.cs:264-266 | Floats 4e..4e+2 of the host copy are the position of sample e |
| Engine.DefaultStepBudget | Engine/BlackHoleEngine.cs:234 | With the default budgets, uSteps is 8000 whether or not the camera moves |
| Engine.DiskRadii | Engine/BlackHoleEngine.cs:557-566 | Both radii are 0 when the disk is hidden, and 2.7 Rs and 4.2 Rs in kernel units otherwise |
| Engine.DefaultDiskRadii | Engine/BlackHoleEngine.cs:560-561 | With LengthUnit = Rs/1000 the disk spans [2700, 4200] for any mass |
| Engine.HiddenDiskNeverHit | Engine/BlackHoleEngine.cs:563-566 | Hiding the disk suppresses every disk hit of every ray |
| Engine.CameraUniforms | Engine/BlackHoleEngine.cs:530-544 | moving = 1 exactly while a drag or pan is on, and 0 otherwise. The aspect is positive |
| Engine.SeedPixels | Engine/BlackHoleEngine.cs:440-447 | Corrected (finding 1), window-aspect lookup: there are at most as many seeds as directions, and every seed is inside the compute image |
| Engine.SeedFindsKernelPixel | Engine/BlackHoleEngine.cs:443 | Finding 1, corrected: looked up with the window's aspect, the direction of the kernel's ray through a compute pixel finds that pixel |
| Engine.Kept | Engine/BlackHoleEngine.cs:313-317 | The filter keeps no more points than it reads |
| Engine.KeptSound | Engine/BlackHoleEngine.cs:313-317 | A point is kept iff it was read and is finite with every \|coordinate\| ≤ 1e9 |
| Engine.ClampCount | Engine/BlackHoleEngine.cs:301 | The count read is at most 5000, and is either the raw count or 5000 |
| Engine.RepackCountsMatch | Engine/BlackHoleEngine.cs:299-319 | Corrected repack: the counts add up to the number of points, there is at most one count per path, and each is in [0, 5000] |
| Engine.RepackAsWrittenBound | Engine/BlackHoleEngine.cs:299-319 | As written, each count is in [1, 5000] and the points never exceed the counts' sum |
| Engine.CountBeforeFilterMisaligns | Engine/BlackHoleEngine.cs:304 | Finding 2, as written: with one filtered point the counts [3, 2] put the second path's draw at 3, past its first point at 2 |
| Engine.KeptCountAligns | Engine/BlackHoleEngine.cs:304 | Finding 2, corrected: the same buffer gives counts [2, 2] and the second draw starts at 2 |
| Engine.DrawsWithinCounts | Engine/BlackHoleEngine.cs:381-407 | Every point and line draw starts at or after the start and ends before start + the sum of the counts |
| Engine.FrameDrawsWithinPoints | Engine/BlackHoleEngine.cs:381-407 | Corrected (finding 2): every draw of a frame repacked with kept counts stays inside its uploaded points |
| Engine.DrawTracePoints | Engine/BlackHoleEngine.cs:381-407 | The two loops compute PointDraws and LineDraws: n − 1 points per path with n > 0, a strip only for n > 3, and start advancing by n (max(n, 0) for lines) |
| Engine.ExpectedSlotIsRecord | Engine/geodesicTracer.js:285-341 | After a dispatch, slot q holds a prefix of the recorded positions of seed q's ray when q is that pixel's first index, and nothing otherwise |
| Engine.BlackHoleEngine.constructor | Engine/BlackHoleEngine.cs:56-67 | The engine starts dirty, with the window size and the camera at radius 15.5 Rs, elevation π/2.2, azimuth 0 |
| Engine.BlackHoleEngine.Invalidate | Engine/BlackHoleEngine.cs:51 | Sets the dirty flag |
| Engine.BlackHoleEngine.Validate | Engine/BlackHoleEngine.cs:52 | Clears the dirty flag |
| Engine.BlackHoleEngine.Resize | Engine/BlackHoleEngine.cs:131-137 | Invalidates and stores max(1, w) × max(1, h) |
| Engine.BlackHoleEngine.InputMouseDown | Engine/BlackHoleEngine.cs:195-196 | Left or Middle starts a drag; any other button keeps drag and pan. Orbit, radius, cursor, target, moving, the camera constants and the dirty flag are unchanged |
| Engine.BlackHoleEngine.InputMouseUp | Engine/BlackHoleEngine.cs:198-199 | Left or Middle ends a drag and a pan; any other button keeps them. Orbit, radius, cursor, target, moving, the camera constants and the dirty flag are unchanged |
| Engine.BlackHoleEngine.InputMouseMove | Engine/BlackHoleEngine.cs:201-205 | A drag without panning orbits: azimuth += dx·orbitSpeed, elevation := clamp(elevation − dy·orbitSpeed, 0.01, π − 0.01); otherwise the orbit is kept. The dirty flag is set when dragging and kept otherwise. Radius, drag, pan and the constants are kept, moving is recomputed and the cursor position recorded |
| Engine.BlackHoleEngine.InputMouseWheel | Engine/BlackHoleEngine.cs:207-211 | Always invalidates and zooms to the clamped radius, within the radius bounds. Azimuth, elevation, drag, pan, cursor and the constants are kept, and moving is recomputed |
| Engine.BlackHoleEngine.InputKeyDown | Engine/BlackHoleEngine.cs:213-220 | Escape ends drag and pan and invalidates. Other keys change nothing |
| Engine.BlackHoleEngine.PrepareGeoPaths | Engine/BlackHoleEngine.cs:413-462 | PathUniformsPlanned: disabled paths change nothing. Enabled ones give the five cone directions and their in-image pixels (at most five, corrected lookup of finding 1), set uNumPaths to their count and uPathStride to PathStride, and overwrite only the first uNumPaths entries of uPathPix |
| Engine.BlackHoleEngine.SetPathPixels | Engine/BlackHoleEngine.cs:457-461 | uPathPix[i] := seeds[i] for each seed, and later entries keep their values |
| Engine.BlackHoleEngine.DispatchCompute | Engine/BlackHoleEngine.cs:222-252 | Corrected (finding 1): the path uniforms become the cone's seeds as PrepareGeoPaths sets them (unchanged with paths disabled), and from empty slots each slot ends up holding the expected record for this frame's camera block, loop uniforms and seeds |
| Engine.BlackHoleEngine.RunKernel | Engine/BlackHoleEngine.cs:245-250 | Running the invocations at the seed pixels fills every slot with its expected record |
| Engine.BlackHoleEngine.RunSeed | Engine/BlackHoleEngine.cs:245-250 | The invocation at seed j's pixel fills slot j and leaves every other slot alone |
| Engine.BlackHoleEngine.HandleGeoPaths | Engine/BlackHoleEngine.cs:254-337 | Corrected (finding 2): disabled paths give no frame. Enabled ones give the repack of the buffer snapshot for the current seeds, with each path's kept count, and its draw ranges |
| Engine.BlackHoleEngine.Render | Engine/BlackHoleEngine.cs:139-178 | A clean engine draws nothing and changes nothing. A dirty one leaves isDirty = IsCameraMoving = camera.moving and the window size as it was, and satisfies FrameDrawn: the path uniforms as PrepareGeoPaths sets them, every slot holding this frame's expected record, and a frame (the corrected repack of finding 2) iff paths are enabled |
| Engine.BlackHoleEngine.Redraw | Engine/BlackHoleEngine.cs:152-173 | FrameDrawn after clearing the counts, dispatching and reading back: the path uniforms as PrepareGeoPaths sets them, every slot holding this frame's expected record, and a frame iff paths are enabled, the corrected repack of the buffer (finding 2) |
| Engine.ReadPath | Engine/BlackHoleEngine.cs:306-318 | The inner read-back loop yields exactly the sane points among path p's first count samples, in order |
| Engine.ConeDirections | Engine/BlackHoleEngine.cs:419-437 | The cone has MaxTracePaths = 5 directions |
| Engine.BuildCone | Engine/BlackHoleEngine.cs:419-437 | The loop builds direction k at azimuth 2πk/5, tilted 0.08 rad from forward |
| Engine.PlanSeeds | Engine/BlackHoleEngine.cs:419-447 | Corrected (finding 1): the cone around the view and its in-image seed pixels, at most five |
| Engine.FindSeeds | Engine/BlackHoleEngine.cs:440-447 | Corrected (finding 1): the loop keeps, in order, the pixels of the directions that land on the image under the window-aspect lookup |
| Camera.OrbitPosition | Engine/Camera.cs:56-64 | No contract of its own; PositionOnSphere and PositionIgnoresElevationBeyondClamp state its properties |
| Camera.BuildBasis | Engine/Camera.cs:101-112 | No contract of its own; BasisOrthogonal and BasisFacesTarget state its properties |
| Camera.PixelToWorldDir | Engine/Camera.cs:119-131 | No contract of its own; WorldDirRoundTrip proves WorldDirToComputePixel inverts it |
| Camera.WorldDirToComputePixel | Engine/Camera.cs:133-161 | No contract of its own; ProjectToPixel gives its behind and on-screen cases, WorldDirRoundTrip its inverse |
| Tracer.Step | Engine/geodesicTracer.js:320-392 | No contract of its own; StepOrder states the order of the tests of one iteration |
| Tracer.Run | Engine/geodesicTracer.js:320-395 | No contract of its own; RunOutcome, RecordedCount and NoDiskHitWithoutInnerRadius state its properties, and TraceRay computes it |
| Tracer.KernelRay | Engine/geodesicTracer.js:294-301 | No contract of its own; SeedFindsKernelPixel proves the corrected seed lookup inverts it |
| Engine.ConeBasis | Engine/BlackHoleEngine.cs:421-425 | No contract of its own; the frame of the cone, BuildBasis without the fallback for a camera on its target |
| Engine.ConeDirection | Engine/BlackHoleEngine.cs:431-436 | No contract of its own; BuildCone computes the directions from it |
| Engine.SeedLookup | Engine/BlackHoleEngine.cs:443 | No contract of its own; corrected lookup of finding 1, which SeedFindsKernelPixel proves inverts the kernel's ray |
| Engine.RepackAsWritten | Engine/BlackHoleEngine.cs:299-319 | No contract of its own; RepackAsWrittenBound and CountBeforeFilterMisaligns state its properties (finding 2, as written) |
| Engine.Repack | Engine/BlackHoleEngine.cs:299-319 | No contract of its own; RepackCountsMatch and KeptCountAligns state its properties (finding 2, corrected) |
| Engine.PointDraws | Engine/BlackHoleEngine.cs:381-389 | No contract of its own; DrawTracePoints computes it and DrawsWithinCounts bounds its draws |
| Engine.LineDraws | Engine/BlackHoleEngine.cs:392-408 | No contract of its own; DrawTracePoints computes it and DrawsWithinCounts bounds its draws |
| Engine.LoopParamsOf | Engine/BlackHoleEngine.cs:233-237 | No contract of its own; DefaultStepBudget, DiskRadii and HiddenDiskNeverHit state what its step budget and disk radii are |

## Left out

- Geodesic physics: `evalRHS`, `rk4`, `initState` and the environment lookup
  (Engine/geodesicTracer.js:98-238, 375-387) are parameters of the model (`Tracer.Physics`).
  The colours the kernel writes to its image (Engine/geodesicTracer.js:396-479) are not
  modelled.
- Floating point: every float is a real. NaN and infinity appear only through
  `FloatLib.isFinite`, and the float casts of Engine/Camera.cs:58-73,96 are not modelled.
  Vectors.Normalize keeps the zero vector, where OpenTK gives NaN.
- Camera.BasisOrthogonal: unit length of the axes is not proved, because it depends on the
  square root. The lemmas about the pinhole mapping take an orthonormal frame as a hypothesis.
- Camera.RoundHalfEven: the `(int)` cast of values beyond the int range is not modelled.
- Tracer.LocalDLambda: requires uRs ≠ 0. The kernel divides anyway; uRs is the scaled radius,
  1000.
- Tracer.KernelMain: requires a non-negative pixel (invocation ids are unsigned), and a positive
  stride when the pixel records a path. The host sets PathStride = 4.
- Engine.BlackHoleEngine.Render: requires tanHalfFov ≠ 0, LengthUnit ≠ 0, RS_scaled ≠ 0 and
  PathStride > 0. The source divides by these without checking.
- Engine.BlackHoleEngine.Render: the model sets the two flags before the draw and the source
  after it; the draw reads neither.
- Engine.BlackHoleEngine.constructor: requires a window of at least 1 × 1. The source takes the
  configuration's size, 1600 × 1200.
- Engine.BlackHoleEngine.PrepareGeoPaths: looks the seeds up with the window's aspect ratio
  (the corrected half of finding 1), not with the compute grid's as Engine/BlackHoleEngine.cs:443
  does. Its cone frame has no fallback for a camera on its target, as in the source.
- Engine.SeedLookup, Engine.SeedPixels, Engine.FindSeeds and Engine.PlanSeeds: the same
  corrected, window-aspect lookup of finding 1. The as-written lookup is
  Camera.WorldDirToComputePixel on the 320 × 320 grid, as in Camera.SquareGridAspectMisses.
- Engine.BlackHoleEngine.DispatchCompute: the seeds it records come from the corrected,
  window-aspect lookup of finding 1, through PrepareGeoPaths, not from the aspect-1 lookup of
  Engine/BlackHoleEngine.cs:443.
- Engine.BlackHoleEngine.HandleGeoPaths: appends the number of points kept for each path (the
  corrected half of finding 2), not the clamped count that Engine/BlackHoleEngine.cs:304 appends
  before filtering. The as-written read-back is Engine.RepackAsWritten.
- Engine.BlackHoleEngine.Redraw: its frame is the corrected read-back of finding 2.
- Engine.BlackHoleEngine.Render: its frame is the corrected read-back of finding 2, and its seeds
  come from the corrected lookup of finding 1.
- Engine.BlackHoleEngine.RunKernel: the GPU runs every pixel in parallel. The model runs only the
  invocations at seed pixels, one after another. Tracer.KernelMain proves that any other
  invocation leaves the path buffer alone, and each seed writes only its own slot, so the order
  does not matter. The output image is not modelled.
- Tracer.PathBuffer.constructor: the buffer starts zeroed, where GL leaves it undefined. The
  counts are cleared before every dispatch, and points are read only below the counts.
- The first, empty loop of `HandleGeoPaths` (Engine/BlackHoleEngine.cs:276-293) has no effect and
  is not modelled.
- The vertex upload (Engine/BlackHoleEngine.cs:321-330) and the view/projection matrices of
  `DrawTracePoints` (Engine/BlackHoleEngine.cs:344-373) are not modelled. The model keeps the
  draw ranges.
- `UploadDiskUBO` copies 16 bytes from a two-float, 8-byte stack span
  (Engine/BlackHoleEngine.cs:568-577). The model keeps only the two radii, which fill the
  disk block's 8 bytes.
- `Thread.Sleep(5)` on the idle path of `Render`, `MakeCurrent`, `SwapBuffers`, the clear and
  the background blit are not modelled.
- `uShowBricks` and `uHorizonHandling` (Engine/BlackHoleEngine.cs:240-241) are uniforms the
  kernel does not declare, so they have no behaviour. Engine/Shaders.cs:76 loads
  `sw-geodesic2.js`; the kernel modelled is Engine/geodesicTracer.js as it stands.
- `Load`, `Dispose`, `CreateQuadAndTexture`, `CreateBGBitmap` and the GL calls and marshalling
  of every upload are not modelled. Shader compilation, the window hosts, the UI shells and
  their cross-thread input queue are not part of this model.
- Dead code is not modelled: `crossesDisk2`, `renorm`, the `if (false)` ring blocks and the code
  after `return` in the kernel.

## Findings

| source | as written | input that shows it | evidently intended | confidence | as-written member | corrected member |
|---|---|---|---|---|---|---|
| Engine/BlackHoleEngine.cs:443 | `PrepareGeoPaths` maps each cone direction to a compute pixel with `WorldDirToComputePixel(dir, COMPUTE_WIDTH, COMPUTE_HEIGHT, …)`, whose aspect ratio is 320/320 = 1. The kernel casts the ray of that pixel with `cam.aspect` = WIDTH/HEIGHT (Engine/BlackHoleEngine.cs:542) | A 1600 × 1200 window: the kernel's ray through compute pixel (100, y) has u scaled by 4/3, and the lookup with aspect 1 lands on pixel 80 | The seed pixel is the pixel whose kernel ray has the desired direction, so the lookup uses the kernel's aspect ratio | not executed | Camera.SquareGridAspectMisses | Engine.SeedFindsKernelPixel |
| Engine/BlackHoleEngine.cs:304 | `HandleGeoPaths` appends the clamped count of a path before filtering its points. `DrawTracePoints` then advances each draw's start by that count, not by the points kept | Two seeds record 3 and 2 samples. The first ray diverges, so its last, non-finite position is recorded (Engine/geodesicTracer.js:332-350) and filtered out. The 4 points kept get counts [3, 2], and the second path is drawn from index 3 instead of 2 | Append the number of points kept, so that the counts describe the uploaded point list | not executed | Engine.CountBeforeFilterMisaligns | Engine.KeptCountAligns |
