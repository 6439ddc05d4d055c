/** Scene configuration: the physical constants, the quantities derived from them once, and the
    flags the engine reads every frame (Engine/GameSetup.cs). */
module Setup {
  import opened Wrappers

  /** What the kernel is meant to do with rays that reach the horizon. Only Black is acted on;
      the value is uploaded to a uniform the kernel does not declare. */
  datatype HorizonHandling = Black | Reflective | Transparent

  /** The integer each enum member stands for. */
  function HorizonHandlingValue(h: HorizonHandling): (v: int)
    ensures 0 <= v <= 2
    ensures v == 0 <==> h == Black
  {
    match h
    case Black => 0
    case Reflective => 1
    case Transparent => 2
  }

  /** The enum member an integer stands for, if any. */
  function HorizonHandlingOf(v: int): (r: Option<HorizonHandling>)
    ensures r.None? <==> !(0 <= v <= 2)
  {
    if v == 0 then Some(Black)
    else if v == 1 then Some(Reflective)
    else if v == 2 then Some(Transparent)
    else None
  }

  /** The values 0, 1, 2 and the three members correspond one to one. */
  lemma HorizonHandlingRoundTrip(h: HorizonHandling, v: int)
    ensures HorizonHandlingOf(HorizonHandlingValue(h)) == Some(h)
    ensures HorizonHandlingOf(v).Some? ==> HorizonHandlingValue(HorizonHandlingOf(v).value) == v
  {
  }

  /** Rs = 2 G M / c^2. */
  function SchwarzschildRadius(g: real, m: real, c: real): (rs: real)
    requires c != 0.0
    ensures rs * (c * c) == 2.0 * g * m
  {
    2.0 * g * m / (c * c)
  }

  /** The quantities the constructor derives, in the order it derives them. */
  datatype Derived = Derived(rs: real, lengthUnit: real, rsScaled: real, affineStep: real, escapeR: real)

  /** The derivation of GameSetup's constructor. Because the length unit is a fixed fraction of
      Rs, the scaled radius, the affine step and the escape radius do not depend on the
      physical constants at all. */
  function Derive(g: real, m: real, c: real): (d: Derived)
    requires c != 0.0 && g != 0.0 && m != 0.0
    ensures d.rs == SchwarzschildRadius(g, m, c) && d.rs != 0.0
    ensures d.lengthUnit * 1000.0 == d.rs
    ensures d.rsScaled == 1000.0
    ensures d.affineStep == 3.0 && d.escapeR == 40000.0
  {
    var rs := SchwarzschildRadius(g, m, c);
    assert rs != 0.0 by {
      assert g * m != 0.0;
    }
    var lengthUnit := rs * 0.001;
    var rsScaled := rs / lengthUnit;
    assert rsScaled == 1000.0 by {
      assert rsScaled * lengthUnit == rs;
      assert rs * 0.001 * 1000.0 == rs;
    }
    Derived(rs, lengthUnit, rsScaled, 0.003 * rsScaled, 40.0 * rsScaled)
  }

  /** The public, mutable configuration object. */
  class GameSetup {
    var cLight: real
    var gNewton: real
    var sagAMass: real

    var windowWidth: int
    var windowHeight: int

    var lengthUnit: real
    var rs: real
    var rsScaled: real

    var integrationStepsStill: int
    var integrationStepsMoving: int
    var escapeR: real
    var affineStep: real

    var enablePaths: bool
    var pathStride: int

    var showDisk: bool
    var showBricks: bool
    var horizonHandling: HorizonHandling

    /** Field initialisers run first, then the constructor body derives the scaled quantities. */
    constructor ()
      ensures cLight == 299792458.0 && gNewton == 0.0000000000667430
      ensures sagAMass == 8540000000000000000000000000000000000.0
      ensures windowWidth == 1600 && windowHeight == 1200
      ensures rs == SchwarzschildRadius(gNewton, sagAMass, cLight) && rs > 0.0
      ensures lengthUnit == rs * 0.001
      ensures rsScaled == 1000.0 && affineStep == 3.0 && escapeR == 40000.0
      ensures integrationStepsStill == 8000 && integrationStepsMoving == integrationStepsStill
      ensures !enablePaths && pathStride == 4
      ensures showDisk && showBricks && horizonHandling == Black
    {
      cLight := 299792458.0;
      gNewton := 0.0000000000667430;
      sagAMass := 8540000000000000000000000000000000000.0;
      windowWidth := 1600;
      windowHeight := 1200;
      integrationStepsStill := 8000;
      enablePaths := false;
      pathStride := 4;
      showDisk := true;
      showBricks := true;
      horizonHandling := Black;
      new;
      var d := Derive(gNewton, sagAMass, cLight);
      rs := d.rs;
      lengthUnit := d.lengthUnit;
      rsScaled := d.rsScaled;
      affineStep := d.affineStep;
      escapeR := d.escapeR;
      integrationStepsMoving := integrationStepsStill;
      assert rs > 0.0;
    }
  }
}
