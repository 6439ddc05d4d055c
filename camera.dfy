/** The orbit camera of Engine/Camera.cs: an input state machine over drag flags, azimuth,
    elevation and radius, the pinhole mapping between compute pixels and world directions, and
    the host-side image of the kernel's `Camera` uniform block. */
module Camera {
  import opened Vectors
  import Layout

  const Pi: real := 3.141592653589793

  /** Elevation is kept inside [0.01, pi - 0.01] so that the orbit never reaches a pole. */
  const MinElevation: real := 0.01
  const MaxElevation: real := Pi - 0.01

  /** Below this dot product with the forward axis a direction counts as behind the camera. */
  const BehindThreshold: real := 0.000001

  /** The sign applied to v in the pinhole mapping; the kernel builds rays with +v. */
  const DefaultVSign: real := 1.0

  /** MathHelper.Clamp(n, min, max) = max(min(n, max), min). */
  function Clamp(x: real, lo: real, hi: real): (r: real)
    ensures r >= lo
    ensures lo <= hi ==> r <= hi
    ensures lo <= x <= hi ==> r == x
    ensures x < lo ==> r == lo
    ensures lo <= hi < x ==> r == hi
  {
    var m := if x < hi then x else hi;
    if m < lo then lo else m
  }

  /** Clamping into an interval twice changes nothing the second time. */
  lemma ClampIdempotent(x: real, lo: real, hi: real)
    requires lo <= hi
    ensures Clamp(Clamp(x, lo, hi), lo, hi) == Clamp(x, lo, hi)
  {
  }

  datatype MouseButton = Left | Right | Middle | Button(number: nat)

  datatype InputAction = Release | Press | Repeat

  /** The state of the orbit camera. The target is always the origin. */
  class CameraState {
    var target: Vec3
    var radius: real
    var minRadius: real
    var maxRadius: real
    var azimuth: real
    var elevation: real
    var orbitSpeed: real
    var zoomSpeed: real
    var dragging: bool
    var panning: bool
    var moving: bool
    var lastX: real
    var lastY: real
    var fovRad: real
    var tanHalfFov: real

    /** A 30 degree field of view; tanHalfFov is the tangent of that whole angle. */
    constructor (lib: FloatLib)
      ensures target == Zero3 && radius == 100000000.0
      ensures minRadius == 10000000000.0 && maxRadius == 1000000000000.0
      ensures azimuth == 0.0 && elevation == Pi / 2.0
      ensures orbitSpeed == 0.005 && zoomSpeed == 5000000000.0
      ensures !dragging && !panning && !moving
      ensures lastX == 0.0 && lastY == 0.0
      ensures fovRad == 30.0 * (Pi / 180.0) && tanHalfFov == lib.tan(fovRad)
      ensures ElevationInRange()
    {
      target := Zero3;
      radius := 100000000.0;
      minRadius, maxRadius := 10000000000.0, 1000000000000.0;
      azimuth, elevation := 0.0, Pi / 2.0;
      orbitSpeed := 0.005;
      zoomSpeed := 5000000000.0;
      dragging, panning, moving := false, false, false;
      lastX, lastY := 0.0, 0.0;
      fovRad := 30.0 * (Pi / 180.0);
      tanHalfFov := lib.tan(30.0 * (Pi / 180.0));
    }

    predicate ElevationInRange()
      reads this
    {
      MinElevation <= elevation <= MaxElevation
    }

    /** Re-centres on the origin and recomputes `moving` from the drag flags. */
    method Update()
      modifies this
      ensures target == Zero3 && moving == (dragging || panning)
      ensures radius == old(radius) && azimuth == old(azimuth) && elevation == old(elevation)
      ensures dragging == old(dragging) && panning == old(panning)
      ensures lastX == old(lastX) && lastY == old(lastY)
      ensures unchanged(this`minRadius, this`maxRadius, this`orbitSpeed, this`zoomSpeed)
      ensures unchanged(this`fovRad, this`tanHalfFov)
    {
      target := Zero3;
      moving := dragging || panning;
    }

    /** A drag (without panning) orbits by the cursor delta and clamps the elevation; every
        move records the cursor position and recomputes `moving`. */
    method ProcessMouseMove(x: real, y: real)
      modifies this
      ensures dragging && !panning ==>
        azimuth == old(azimuth) + (x - old(lastX)) * old(orbitSpeed)
        && elevation == Clamp(old(elevation) - (y - old(lastY)) * old(orbitSpeed), MinElevation, MaxElevation)
      ensures !(dragging && !panning) ==> azimuth == old(azimuth) && elevation == old(elevation)
      ensures dragging && !panning ==> ElevationInRange()
      ensures old(ElevationInRange()) ==> ElevationInRange()
      ensures radius == old(radius) && lastX == x && lastY == y
      ensures target == Zero3 && moving == (dragging || panning)
      ensures dragging == old(dragging) && panning == old(panning)
      ensures unchanged(this`minRadius, this`maxRadius, this`orbitSpeed, this`zoomSpeed)
      ensures unchanged(this`fovRad, this`tanHalfFov)
    {
      var dx, dy, speed := x - lastX, y - lastY, orbitSpeed;
      MulBoth(dx, x - old(lastX), speed, old(orbitSpeed));
      MulBoth(dy, y - old(lastY), speed, old(orbitSpeed));
      if dragging && !panning {
        var el := elevation - dy * speed;
        ClampArg(el, old(elevation) - (y - old(lastY)) * old(orbitSpeed), MinElevation, MaxElevation);
        azimuth := azimuth + dx * speed;
        elevation := Clamp(el, MinElevation, MaxElevation);
      }
      lastX, lastY := x, y;
      Update();
    }

    /** Left and middle buttons start a drag on press and end it on release; `moving` is not
        recomputed here, and every other button or action leaves the state as it was. */
    method ProcessMouseButton(btn: MouseButton, action: InputAction)
      modifies this
      ensures (btn == Left || btn == Middle) && action == Press ==> dragging && !panning
      ensures (btn == Left || btn == Middle) && action == Release ==> !dragging && !panning
      ensures !((btn == Left || btn == Middle) && (action == Press || action == Release)) ==>
        dragging == old(dragging) && panning == old(panning)
      ensures moving == old(moving) && target == old(target)
      ensures radius == old(radius) && azimuth == old(azimuth) && elevation == old(elevation)
      ensures lastX == old(lastX) && lastY == old(lastY)
      ensures unchanged(this`minRadius, this`maxRadius, this`orbitSpeed, this`zoomSpeed)
      ensures unchanged(this`fovRad, this`tanHalfFov)
    {
      if btn == Left || btn == Middle {
        if action == Press {
          dragging := true;
          panning := false;
        } else if action == Release {
          dragging := false;
          panning := false;
        }
      }
    }

    /** The vertical wheel offset zooms by zoomSpeed per unit, clamped to [minRadius, maxRadius];
        the horizontal offset is ignored. */
    method ProcessScroll(xoff: real, yoff: real)
      modifies this
      ensures radius == Clamp(old(radius) - yoff * zoomSpeed, minRadius, maxRadius)
      ensures minRadius <= maxRadius ==> minRadius <= radius <= maxRadius
      ensures target == Zero3 && moving == (dragging || panning)
      ensures azimuth == old(azimuth) && elevation == old(elevation)
      ensures dragging == old(dragging) && panning == old(panning)
      ensures lastX == old(lastX) && lastY == old(lastY)
      ensures unchanged(this`minRadius, this`maxRadius, this`orbitSpeed, this`zoomSpeed)
      ensures unchanged(this`fovRad, this`tanHalfFov)
    {
      radius := radius - yoff * zoomSpeed;
      radius := Clamp(radius, minRadius, maxRadius);
      Update();
    }
  }

  /** The camera position on its orbit sphere (Position): spherical coordinates with the
      polar axis along +y, using the elevation clamped away from the poles. */
  function OrbitPosition(radius: real, azimuth: real, elevation: real, lib: FloatLib): Vec3 {
    var e := Clamp(elevation, MinElevation, MaxElevation);
    Vec3(radius * lib.sin(e) * lib.cos(azimuth),
         radius * lib.cos(e),
         radius * lib.sin(e) * lib.sin(azimuth))
  }

  /** With a library whose sine and cosine satisfy sin^2 + cos^2 = 1 at the angles used, the
      position lies on the sphere of the orbit radius, and its height is radius * cos of the
      clamped elevation. */
  lemma PositionOnSphere(radius: real, azimuth: real, elevation: real, lib: FloatLib)
    requires var e := Clamp(elevation, MinElevation, MaxElevation);
      lib.sin(e) * lib.sin(e) + lib.cos(e) * lib.cos(e) == 1.0
    requires lib.sin(azimuth) * lib.sin(azimuth) + lib.cos(azimuth) * lib.cos(azimuth) == 1.0
    ensures LengthSq(OrbitPosition(radius, azimuth, elevation, lib)) == radius * radius
    ensures OrbitPosition(radius, azimuth, elevation, lib).y
         == radius * lib.cos(Clamp(elevation, MinElevation, MaxElevation))
  {
    var e := Clamp(elevation, MinElevation, MaxElevation);
    var se, ce, sa, ca := lib.sin(e), lib.cos(e), lib.sin(azimuth), lib.cos(azimuth);
    var p := OrbitPosition(radius, azimuth, elevation, lib);
    assert p == Vec3(radius * se * ca, radius * ce, radius * se * sa);
    calc {
      LengthSq(p);
      (radius * se * ca) * (radius * se * ca) + (radius * ce) * (radius * ce)
        + (radius * se * sa) * (radius * se * sa);
      radius * radius * (se * se * (ca * ca + sa * sa) + ce * ce);
      radius * radius * (se * se + ce * ce);
      radius * radius;
    }
  }

  /** Any elevation beyond the clamp gives the same position as the nearest bound. */
  lemma PositionIgnoresElevationBeyondClamp(radius: real, azimuth: real, elevation: real, lib: FloatLib)
    ensures OrbitPosition(radius, azimuth, elevation, lib)
         == OrbitPosition(radius, azimuth, Clamp(elevation, MinElevation, MaxElevation), lib)
  {
    ClampIdempotent(elevation, MinElevation, MaxElevation);
  }

  /** The camera frame: forward towards the target, right and up completing it. */
  datatype Basis = Basis(fwd: Vec3, right: Vec3, up: Vec3)

  /** BuildBasis: forward is the normalised target - position (the z axis when the two nearly
      coincide); right = normalize(upGuess x fwd) with upGuess = y, or z when forward is within
      about 2.6 degrees of vertical; up = normalize(fwd x right). */
  function BuildBasis(target: Vec3, position: Vec3, lib: FloatLib): Basis {
    var d := Sub(target, position);
    var f := Normalize(if LengthSq(d) < 0.000000000001 then UnitZ else d, lib);
    var upGuess := if Abs(Dot(f, UnitY)) > 0.999 then UnitZ else UnitY;
    var r := Normalize(Cross(upGuess, f), lib);
    Basis(f, r, Normalize(Cross(f, r), lib))
  }

  /** The three axes of the frame are mutually orthogonal, whatever the square root returns, and
      unless forward is near vertical the right axis is horizontal (the camera does not roll). */
  lemma {:induction false} BasisOrthogonal(target: Vec3, position: Vec3, lib: FloatLib)
    ensures var b := BuildBasis(target, position, lib);
      Dot(b.fwd, b.right) == 0.0 && Dot(b.fwd, b.up) == 0.0 && Dot(b.right, b.up) == 0.0
    ensures var b := BuildBasis(target, position, lib);
      Abs(Dot(b.fwd, UnitY)) <= 0.999 ==> b.right.y == 0.0
  {
    var b := BuildBasis(target, position, lib);
    var f := b.fwd;
    var upGuess := if Abs(Dot(f, UnitY)) > 0.999 then UnitZ else UnitY;
    var c1 := Cross(upGuess, f);
    var k1 := NormalizeFactor(c1, lib);
    assert b.right == Scale(k1, c1);
    CrossOrthogonal(upGuess, f);
    DotScale(k1, c1, f);
    DotSymmetric(f, b.right);
    var c2 := Cross(f, b.right);
    var k2 := NormalizeFactor(c2, lib);
    assert b.up == Scale(k2, c2);
    CrossOrthogonal(f, b.right);
    DotScale(k2, c2, f);
    DotScale(k2, c2, b.right);
    DotSymmetric(f, b.up);
    DotSymmetric(b.right, b.up);
  }

  /** When the target is not on top of the camera, forward is a positive multiple of
      target - position: parallel to it and pointing the same way. */
  lemma {:induction false} BasisFacesTarget(target: Vec3, position: Vec3, lib: FloatLib)
    requires LengthSq(Sub(target, position)) >= 0.000000000001
    ensures var d := Sub(target, position);
      Cross(BuildBasis(target, position, lib).fwd, d) == Zero3
      && Dot(BuildBasis(target, position, lib).fwd, d) > 0.0
  {
    var d := Sub(target, position);
    var k := NormalizeFactor(d, lib);
    var f := BuildBasis(target, position, lib).fwd;
    assert f == Scale(k, d);
    CrossParallel(k, d);
    DotScale(k, d, d);
    assert Dot(d, d) > 0.0;
    assert k * Dot(d, d) > 0.0;
  }

  /** A frame of unit, mutually orthogonal axes. */
  ghost predicate Orthonormal(b: Basis) {
    Dot(b.fwd, b.fwd) == 1.0 && Dot(b.right, b.right) == 1.0 && Dot(b.up, b.up) == 1.0
    && Dot(b.fwd, b.right) == 0.0 && Dot(b.fwd, b.up) == 0.0 && Dot(b.right, b.up) == 0.0
  }

  /** Pinhole coordinates of a pixel centre on the plane at unit distance along forward. */
  datatype Ndc = Ndc(u: real, v: real)

  /** The forward pixel mapping, shared by PixelToWorldDir and the kernel's camera ray:
      u = (2 (x + 1/2) / W - 1) * aspect * tanHalfFov and v = (1 - 2 (y + 1/2) / H) * tanHalfFov. */
  function PixelToNdc(x: int, y: int, w: int, h: int, aspect: real, tanHalfFov: real): Ndc
    requires w != 0 && h != 0
  {
    Ndc((2.0 * ((x as real + 0.5) / w as real) - 1.0) * aspect * tanHalfFov,
        (1.0 - 2.0 * ((y as real + 0.5) / h as real)) * tanHalfFov)
  }

  /** The inverse mapping of WorldDirToComputePixel before rounding: the real pixel coordinates
      whose pinhole coordinates are (u, v). */
  function NdcToPixel(p: Ndc, w: int, h: int, aspect: real, tanHalfFov: real): (real, real)
    requires aspect != 0.0 && tanHalfFov != 0.0
  {
    (((p.u / (aspect * tanHalfFov) + 1.0) * 0.5) * w as real - 0.5,
     ((1.0 - p.v / tanHalfFov) * 0.5) * h as real - 0.5)
  }

  /** Substituting the forward formulas into the inverse ones gives back the pixel exactly. */
  lemma {:induction false} NdcRoundTrip(x: int, y: int, w: int, h: int, aspect: real, tanHalfFov: real)
    requires w != 0 && h != 0 && aspect != 0.0 && tanHalfFov != 0.0
    ensures NdcToPixel(PixelToNdc(x, y, w, h, aspect, tanHalfFov), w, h, aspect, tanHalfFov)
         == (x as real, y as real)
  {
    var p := PixelToNdc(x, y, w, h, aspect, tanHalfFov);
    var wr, hr, at := w as real, h as real, aspect * tanHalfFov;
    var fx, fy := (x as real + 0.5) / wr, (y as real + 0.5) / hr;
    var s, t := 2.0 * fx - 1.0, 1.0 - 2.0 * fy;
    assert p.u == s * at;
    assert p.u / at == s;
    assert (s + 1.0) * 0.5 == fx;
    assert fx * wr == x as real + 0.5;
    assert p.v == t * tanHalfFov;
    assert p.v / tanHalfFov == t;
    assert (1.0 - t) * 0.5 == fy;
    assert fy * hr == y as real + 0.5;
    var q := NdcToPixel(p, w, h, aspect, tanHalfFov);
    assert q.0 == ((p.u / at + 1.0) * 0.5) * wr - 0.5;
    assert q.0 == x as real;
    assert q.1 == ((1.0 - p.v / tanHalfFov) * 0.5) * hr - 0.5;
    assert q.1 == y as real;
  }

  /** The point u right + vSign v up + fwd of the image plane at unit distance along forward. */
  function ImagePoint(b: Basis, p: Ndc, vSign: real): Vec3 {
    Add(Add(Scale(p.u, b.right), Scale(vSign * p.v, b.up)), b.fwd)
  }

  /** The camera ray through pinhole point p. */
  function CameraRay(b: Basis, p: Ndc, vSign: real, lib: FloatLib): Vec3 {
    Normalize(ImagePoint(b, p, vSign), lib)
  }

  /** MathF.Round: to the nearest integer, ties to the even one. */
  function RoundHalfEven(r: real): (n: int)
    ensures -0.5 <= n as real - r <= 0.5
    ensures r == r.Floor as real ==> n == r.Floor
    ensures (n as real - r == 0.5 || r - n as real == 0.5) ==> n % 2 == 0
  {
    var f := r.Floor;
    var d := r - f as real;
    if d < 0.5 then f
    else if d > 0.5 then f + 1
    else if f % 2 == 0 then f else f + 1
  }

  /** The result of looking up the compute pixel a direction falls on. */
  datatype PixelLookup = PixelLookup(onScreen: bool, xi: int, yi: int, behind: bool)

  /** Projects a world direction into a w x h pixel grid through the frame b, inverting the pinhole
      mapping for the given aspect ratio and rounding to the nearest pixel. */
  function ProjectToPixel(d: Vec3, b: Basis, w: int, h: int, aspect: real, tanHalfFov: real,
                          vSign: real, lib: FloatLib): (r: PixelLookup)
    requires aspect != 0.0 && tanHalfFov != 0.0 && vSign != 0.0
    ensures r.behind <==> Dot(Normalize(d, lib), b.fwd) <= BehindThreshold
    ensures r.behind ==> r.xi == -1 && r.yi == -1 && !r.onScreen
    ensures !r.behind ==> (r.onScreen <==> 0 <= r.xi < w && 0 <= r.yi < h)
  {
    var dn := Normalize(d, lib);
    var c := Dot(dn, b.fwd);
    if c <= BehindThreshold then PixelLookup(false, -1, -1, true)
    else
      var xy := NdcToPixel(Ndc(Dot(dn, b.right) / c, (Dot(dn, b.up) / c) / vSign),
                           w, h, aspect, tanHalfFov);
      var xi, yi := RoundHalfEven(xy.0), RoundHalfEven(xy.1);
      PixelLookup(xi >= 0 && yi >= 0 && xi < w && yi < h, xi, yi, false)
  }

  /** The aspect ratio both camera functions use: W / max(1, H). */
  function GridAspect(w: int, h: int): (a: real)
    ensures w > 0 ==> a > 0.0
  {
    w as real / (if h > 1 then h else 1) as real
  }

  /** PixelToWorldDir: the camera ray through the centre of pixel (x, y) of a w x h grid. */
  function PixelToWorldDir(x: int, y: int, w: int, h: int, b: Basis, tanHalfFov: real,
                           vSign: real, lib: FloatLib): Vec3
    requires w != 0 && h != 0
  {
    CameraRay(b, PixelToNdc(x, y, w, h, GridAspect(w, h), tanHalfFov), vSign, lib)
  }

  /** WorldDirToComputePixel: ProjectToPixel with the aspect ratio of the grid itself. */
  function WorldDirToComputePixel(d: Vec3, b: Basis, w: int, h: int, tanHalfFov: real,
                                  vSign: real, lib: FloatLib): PixelLookup
    requires w > 0 && tanHalfFov != 0.0 && vSign != 0.0
  {
    ProjectToPixel(d, b, w, h, GridAspect(w, h), tanHalfFov, vSign, lib)
  }

  /** The dot product of an image-plane point with any vector, expanded along the frame. */
  lemma DotImagePoint(b: Basis, p: Ndc, vSign: real, q: Vec3)
    ensures Dot(ImagePoint(b, p, vSign), q)
         == p.u * Dot(b.right, q) + (vSign * p.v) * Dot(b.up, q) + Dot(b.fwd, q)
  {
  }

  /** Dot products of an image-plane point with the axes of an orthonormal frame recover the
      unit distance along forward and the pinhole coordinates. */
  lemma RayComponents(b: Basis, p: Ndc, vSign: real)
    requires Orthonormal(b)
    ensures Dot(ImagePoint(b, p, vSign), b.fwd) == 1.0
    ensures Dot(ImagePoint(b, p, vSign), b.right) == p.u
    ensures Dot(ImagePoint(b, p, vSign), b.up) == vSign * p.v
  {
    var r0 := ImagePoint(b, p, vSign);
    var sv := vSign * p.v;
    DotImagePoint(b, p, vSign, b.fwd);
    DotSymmetric(b.right, b.fwd);
    DotSymmetric(b.up, b.fwd);
    assert Dot(r0, b.fwd) == 1.0 by {
      ExpandOnFrame(Dot(r0, b.fwd), p.u, sv, Dot(b.right, b.fwd), Dot(b.up, b.fwd), Dot(b.fwd, b.fwd));
    }
    DotImagePoint(b, p, vSign, b.right);
    assert Dot(r0, b.right) == p.u by {
      ExpandOnFrame(Dot(r0, b.right), p.u, sv, Dot(b.right, b.right), Dot(b.up, b.right), Dot(b.fwd, b.right));
    }
    DotImagePoint(b, p, vSign, b.up);
    DotSymmetric(b.up, b.right);
    assert Dot(r0, b.up) == sv by {
      ExpandOnFrame(Dot(r0, b.up), p.u, sv, Dot(b.right, b.up), Dot(b.up, b.up), Dot(b.fwd, b.up));
    }
  }

  /** d = u x + v y + z with each of x, y, z either 0 or 1. */
  lemma ExpandOnFrame(d: real, u: real, v: real, x: real, y: real, z: real)
    requires d == u * x + v * y + z
    requires (x == 0.0 || x == 1.0) && (y == 0.0 || y == 1.0) && (z == 0.0 || z == 1.0)
    ensures d == (if x == 1.0 then u else 0.0) + (if y == 1.0 then v else 0.0) + z
  {
  }

  /** Projecting a camera ray back through the same orthonormal frame recovers its pinhole
      coordinates exactly, so the pixel found is the rounding of NdcToPixel for whatever aspect
      ratio the projection uses. */
  lemma {:induction false} ProjectCameraRay(b: Basis, p: Ndc, w: int, h: int, aspect: real,
                                            tanHalfFov: real, vSign: real, lib: FloatLib)
    requires Orthonormal(b)
    requires aspect != 0.0 && tanHalfFov != 0.0 && vSign != 0.0
    ensures var r := ProjectToPixel(CameraRay(b, p, vSign, lib), b, w, h, aspect, tanHalfFov, vSign, lib);
      var xy := NdcToPixel(p, w, h, aspect, tanHalfFov);
      !r.behind ==> r.xi == RoundHalfEven(xy.0) && r.yi == RoundHalfEven(xy.1)
  {
    var r0 := ImagePoint(b, p, vSign);
    var k1 := NormalizeFactor(r0, lib);
    var ray := CameraRay(b, p, vSign, lib);
    assert ray == Scale(k1, r0);
    var k2 := NormalizeFactor(ray, lib);
    var dn := Normalize(ray, lib);
    ScaleScale(k2, k1, r0);
    var k := k2 * k1;
    assert dn == Scale(k, r0);
    assert k > 0.0 by {
      assert k1 > 0.0 && k2 > 0.0;
    }
    RayComponents(b, p, vSign);
    ScaledComponents(k, r0, b, p.u, vSign * p.v);
    var r := ProjectToPixel(ray, b, w, h, aspect, tanHalfFov, vSign, lib);
    if !r.behind {
      var c := Dot(dn, b.fwd);
      assert c == k * 1.0 && Dot(dn, b.right) == k * p.u && Dot(dn, b.up) == k * (vSign * p.v);
      Unscale(k, p.u, vSign, p.v, c, Dot(dn, b.right), Dot(dn, b.up));
      assert Ndc(Dot(dn, b.right) / c, (Dot(dn, b.up) / c) / vSign) == p;
    }
  }

  /** Projecting the camera ray of a pixel back through the same orthonormal frame, with the same
      aspect ratio, finds that pixel again whenever the ray is not judged to be behind. */
  lemma {:induction false} PixelRoundTrip(x: int, y: int, w: int, h: int, aspect: real,
                                          tanHalfFov: real, vSign: real, b: Basis, lib: FloatLib)
    requires Orthonormal(b)
    requires w != 0 && h != 0 && aspect != 0.0 && tanHalfFov != 0.0 && vSign != 0.0
    ensures var r := ProjectToPixel(CameraRay(b, PixelToNdc(x, y, w, h, aspect, tanHalfFov), vSign, lib),
                                    b, w, h, aspect, tanHalfFov, vSign, lib);
      !r.behind ==> r.xi == x && r.yi == y && (r.onScreen <==> 0 <= x < w && 0 <= y < h)
  {
    var p := PixelToNdc(x, y, w, h, aspect, tanHalfFov);
    ProjectCameraRay(b, p, w, h, aspect, tanHalfFov, vSign, lib);
    NdcRoundTrip(x, y, w, h, aspect, tanHalfFov);
    assert (x as real).Floor == x && (y as real).Floor == y;
  }

  /** WorldDirToComputePixel undoes PixelToWorldDir on the same grid. */
  lemma WorldDirRoundTrip(x: int, y: int, w: int, h: int, b: Basis, tanHalfFov: real, lib: FloatLib)
    requires Orthonormal(b)
    requires w > 0 && h != 0 && tanHalfFov != 0.0
    ensures var r := WorldDirToComputePixel(PixelToWorldDir(x, y, w, h, b, tanHalfFov, DefaultVSign, lib),
                                            b, w, h, tanHalfFov, DefaultVSign, lib);
      !r.behind ==> r.xi == x && r.yi == y
  {
    PixelRoundTrip(x, y, w, h, GridAspect(w, h), tanHalfFov, DefaultVSign, b, lib);
  }

  /** A 1600 x 1200 window renders the 320 x 320 compute image with the window's aspect ratio, 4/3,
      so the kernel's ray for compute pixel (100, y) is cast with that ratio; projecting it back
      with the compute grid's own ratio, 1, as WorldDirToComputePixel does, lands on pixel 80. */
  lemma {:induction false} SquareGridAspectMisses(y: int, b: Basis, tanHalfFov: real, lib: FloatLib)
    requires Orthonormal(b) && tanHalfFov != 0.0
    ensures GridAspect(1600, 1200) == 4.0 / 3.0 && GridAspect(320, 320) == 1.0
    ensures var ray := CameraRay(b, PixelToNdc(100, y, 320, 320, GridAspect(1600, 1200), tanHalfFov),
                                 DefaultVSign, lib);
      var r := WorldDirToComputePixel(ray, b, 320, 320, tanHalfFov, DefaultVSign, lib);
      !r.behind ==> r.xi == 80
  {
    var p := PixelToNdc(100, y, 320, 320, 4.0 / 3.0, tanHalfFov);
    ProjectCameraRay(b, p, 320, 320, 1.0, tanHalfFov, DefaultVSign, lib);
    var s := 2.0 * (100.5 / 320.0) - 1.0;
    assert s == -119.0 / 320.0;
    assert p.u == (s * (4.0 / 3.0)) * tanHalfFov;
    MulDiv(s * (4.0 / 3.0), tanHalfFov);
    assert 1.0 * tanHalfFov == tanHalfFov;
    assert p.u / (1.0 * tanHalfFov) == -119.0 / 240.0;
    var xf := NdcToPixel(p, 320, 320, 1.0, tanHalfFov).0;
    assert xf == ((-119.0 / 240.0 + 1.0) * 0.5) * 320.0 - 0.5;
    assert xf == 80.0 + 1.0 / 6.0;
    assert xf.Floor == 80;
  }

  /** Scaling a vector by k scales its known components along the frame by k. */
  lemma ScaledComponents(k: real, r0: Vec3, b: Basis, u: real, sv: real)
    requires Dot(r0, b.fwd) == 1.0 && Dot(r0, b.right) == u && Dot(r0, b.up) == sv
    ensures Dot(Scale(k, r0), b.fwd) == k * 1.0
    ensures Dot(Scale(k, r0), b.right) == k * u
    ensures Dot(Scale(k, r0), b.up) == k * sv
  {
    DotScale(k, r0, b.fwd);
    DotScale(k, r0, b.right);
    DotScale(k, r0, b.up);
    MulEq(k, Dot(r0, b.fwd), 1.0);
    MulEq(k, Dot(r0, b.right), u);
    MulEq(k, Dot(r0, b.up), sv);
  }

  lemma MulEq(k: real, a: real, b: real)
    requires a == b
    ensures k * a == k * b
  {
  }

  lemma MulBoth(a: real, b: real, c: real, d: real)
    requires a == b && c == d
    ensures a * c == b * d
  {
  }

  lemma ClampArg(a: real, b: real, lo: real, hi: real)
    requires a == b
    ensures Clamp(a, lo, hi) == Clamp(b, lo, hi)
  {
  }

  lemma MulDiv(a: real, t: real)
    requires t != 0.0
    ensures (a * t) / t == a
  {
  }

  /** Dividing the scaled components by the scaled forward component undoes the scaling. */
  lemma Unscale(k: real, u: real, vSign: real, v: real, dF: real, dR: real, dU: real)
    requires k > 0.0 && vSign != 0.0
    requires dF == k * 1.0 && dR == k * u && dU == k * (vSign * v)
    ensures dR / dF == u && (dU / dF) / vSign == v
  {
  }

  // The host-side image of the kernel's `Camera` uniform block (CameraUBOStd140).

  /** The explicit field offsets of CameraUBOStd140, in declaration order: camPos, _pad0,
      camRight, _pad1, camUp, _pad2, camForward, _pad3, tanHalfFov, aspect, moving, _pad4. */
  const UboFieldOffsets: seq<nat> := [0, 12, 16, 28, 32, 44, 48, 60, 64, 68, 72, 76]

  /** The explicit struct size. */
  const UboSize: nat := 80

  /** Every explicit offset of the host struct is where the std140 rules put the corresponding
      member of the kernel's block, and the struct is exactly as long as the block. */
  lemma {:induction false} UboMatchesKernelBlock()
    ensures |UboFieldOffsets| == |Layout.CameraBlock|
    ensures forall i :: 0 <= i < |UboFieldOffsets| ==>
      UboFieldOffsets[i] == Layout.OffsetOf(Layout.CameraBlock, Layout.Std140, i)
    ensures UboSize == Layout.BlockEnd(Layout.CameraBlock, Layout.Std140)
  {
    Layout.CameraVectorOffsets();
    Layout.CameraScalarOffsets();
  }
}
