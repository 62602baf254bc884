/** The native shape model (inertia_calculator.h and inertia_calculator.cpp):
    the closed family of rigid bodies, their mass and principal moment of
    inertia as closed-form expressions in the density, and the C interface
    through which a foreign caller constructs and queries bodies.

    Doubles are modelled as exact reals; `pow(r, 3)` is `r * r * r`. */
module InertiaCalculator {
  import opened Wrappers

  /** The value the header gives `M_PI` when the platform does not define it. */
  const PI: real := 3.14159265358979323846

  /** A body of one of the three concrete classes deriving from `Body`. Each
      variant carries exactly the private fields of its class, and since
      every query is `const` and there is no setter, a value of this type is
      as immutable as a constructed object. */
  datatype Shape =
    | Sphere(radius: real)
    | Box(a: real, b: real, c: real)
    | Cylinder(radius: real, height: real)
  {
    /** What every constructor establishes: all dimensions are positive. */
    predicate Valid() {
      match this
      case Sphere(r) => r > 0.0
      case Box(a, b, c) => a > 0.0 && b > 0.0 && c > 0.0
      case Cylinder(r, h) => r > 0.0 && h > 0.0
    }
  }

  // ---------------------------------------------------------------------
  // Constructors: a failed constructor throws std::invalid_argument, whose
  // message is the error carried here.
  // ---------------------------------------------------------------------

  function ConstructSphere(r: real): (res: Result<Shape, string>)
    ensures res.Failure? <==> r <= 0.0
    ensures res.Failure? ==> res.error == "Radius must be positive"
    ensures res.Success? ==> res.value.Valid() && res.value.Sphere? && res.value.radius == r
  {
    if r <= 0.0 then Failure("Radius must be positive") else Success(Sphere(r))
  }

  function ConstructBox(a: real, b: real, c: real): (res: Result<Shape, string>)
    ensures res.Failure? <==> a <= 0.0 || b <= 0.0 || c <= 0.0
    ensures res.Failure? ==> res.error == "All dimensions must be positive"
    ensures res.Success? ==> res.value.Valid() && res.value == Box(a, b, c)
  {
    if a <= 0.0 || b <= 0.0 || c <= 0.0 then Failure("All dimensions must be positive")
    else Success(Box(a, b, c))
  }

  function ConstructCylinder(r: real, h: real): (res: Result<Shape, string>)
    ensures res.Failure? <==> r <= 0.0 || h <= 0.0
    ensures res.Failure? ==> res.error == "Radius and height must be positive"
    ensures res.Success? ==> res.value.Valid() && res.value == Cylinder(r, h)
  {
    if r <= 0.0 || h <= 0.0 then Failure("Radius and height must be positive")
    else Success(Cylinder(r, h))
  }

  // ---------------------------------------------------------------------
  // Mass and moment of inertia (the virtual methods of `Body`)
  // ---------------------------------------------------------------------

  /** `pow(r, 3)`. */
  function Cube(r: real): real {
    r * r * r
  }

  /** `calculateMass`: the volume times the density, with no guard on the
      density. */
  function Mass(s: Shape, density: real): real {
    match s
    case Sphere(r) => (4.0 / 3.0) * PI * Cube(r) * density
    case Box(a, b, c) => a * b * c * density
    case Cylinder(r, h) => PI * r * r * h * density
  }

  /** `calculateMomentOfInertia`: the mass first, then the shape's fixed
      coefficient. The box turns about its axis parallel to side `a`, so only
      `b` and `c` enter besides the mass. */
  function Moment(s: Shape, density: real): real {
    var mass := Mass(s, density);
    match s
    case Sphere(r) => 0.4 * mass * r * r
    case Box(_, b, c) => (1.0 / 12.0) * mass * (b * b + c * c)
    case Cylinder(r, _) => 0.5 * mass * r * r
  }

  // ---------------------------------------------------------------------
  // Reference definitions: the textbook closed forms, independent of the
  // order in which the source multiplies.
  // ---------------------------------------------------------------------

  function Square(r: real): real {
    r * r
  }

  /** Geometric volume: sphere 4/3 pi r^3, box abc, cylinder pi r^2 h. */
  function Volume(s: Shape): real {
    match s
    case Sphere(r) => 4.0 * PI * Cube(r) / 3.0
    case Box(a, b, c) => a * b * c
    case Cylinder(r, h) => PI * Square(r) * h
  }

  /** Moment of inertia per unit density: sphere 8/15 pi r^5, box
      abc (b^2 + c^2) / 12, cylinder pi r^4 h / 2. */
  function InertiaFactor(s: Shape): real {
    match s
    case Sphere(r) => 8.0 * PI * (Cube(r) * Square(r)) / 15.0
    case Box(a, b, c) => a * b * c * (Square(b) + Square(c)) / 12.0
    case Cylinder(r, h) => PI * (Cube(r) * r) * h / 2.0
  }

  // ---------------------------------------------------------------------
  // Small facts about products of positive reals
  // ---------------------------------------------------------------------

  lemma SignOfProduct(x: real, y: real)
    requires x > 0.0
    ensures x * y > 0.0 <==> y > 0.0
    ensures x * y == 0.0 <==> y == 0.0
    ensures x * y < 0.0 <==> y < 0.0
  {
  }

  lemma ScaleStrict(x: real, y1: real, y2: real)
    requires x > 0.0 && y1 < y2
    ensures x * y1 < x * y2
  {
  }

  lemma ProductIncreases(x1: real, x2: real, y1: real, y2: real)
    requires 0.0 < x1 <= x2 && 0.0 < y1 <= y2
    ensures 0.0 < x1 * y1 <= x2 * y2
    ensures x1 < x2 || y1 < y2 ==> x1 * y1 < x2 * y2
  {
  }

  lemma SquareIncreases(x: real, y: real)
    requires 0.0 < x < y
    ensures 0.0 < Square(x) < Square(y)
  {
    calc {
      Square(x);
      x * x;
    < { ProductIncreases(x, y, x, y); }
      y * y;
      Square(y);
    }
    calc {
      Square(x);
      x * x;
    > { assert x * x > 0.0 * x; }
      0.0;
    }
  }

  /** Positive base, positive square and cube, one factor at a time. */
  lemma PowersPositive(r: real)
    requires r > 0.0
    ensures Square(r) > 0.0 && Cube(r) > 0.0
  {
    SignOfProduct(r, r);
    SignOfProduct(r * r, r);
  }

  lemma CubeIncreases(x: real, y: real)
    requires 0.0 < x < y
    ensures 0.0 < Cube(x) < Cube(y)
  {
  }

  // ---------------------------------------------------------------------
  // Properties of mass and moment
  // ---------------------------------------------------------------------

  /** Every valid body has a positive volume and a positive inertia factor. */
  lemma ReferenceFormsPositive(s: Shape)
    requires s.Valid()
    ensures Volume(s) > 0.0
    ensures InertiaFactor(s) > 0.0
  {
    match s
    case Sphere(r) =>
      PowersPositive(r);
      SignOfProduct(Cube(r), Square(r));
    case Box(a, b, c) =>
      PowersPositive(b);
      PowersPositive(c);
      assert a * b * c > 0.0;
    case Cylinder(r, h) =>
      PowersPositive(r);
      SignOfProduct(Cube(r), r);
  }

  /** The source's evaluation order computes exactly the closed form times
      the density, for every shape and every density. */
  lemma MomentClosedForm(s: Shape, density: real)
    ensures Mass(s, density) == Volume(s) * density
    ensures Moment(s, density) == InertiaFactor(s) * density
  {
  }

  /** For a valid body, mass and moment have the sign of the density: both
      are positive exactly for a positive density, zero exactly for zero. */
  lemma MassAndMomentSign(s: Shape, density: real)
    requires s.Valid()
    ensures Mass(s, density) > 0.0 <==> density > 0.0
    ensures Moment(s, density) > 0.0 <==> density > 0.0
    ensures Mass(s, density) == 0.0 <==> density == 0.0
    ensures Moment(s, density) == 0.0 <==> density == 0.0
  {
    MomentClosedForm(s, density);
    ReferenceFormsPositive(s);
    SignOfProduct(Volume(s), density);
    SignOfProduct(InertiaFactor(s), density);
  }

  /** Scaling law: mass and moment are linear in the density. */
  lemma MomentLinearInDensity(s: Shape, k: real, density: real)
    ensures Moment(s, k * density) == k * Moment(s, density)
    ensures Mass(s, k * density) == k * Mass(s, density)
  {
  }

  /** A denser body of the same dimensions has a strictly larger moment. */
  lemma MomentIncreasesWithDensity(s: Shape, d1: real, d2: real)
    requires s.Valid() && d1 < d2
    ensures Moment(s, d1) < Moment(s, d2)
  {
    MomentClosedForm(s, d1);
    MomentClosedForm(s, d2);
    ReferenceFormsPositive(s);
    var f := InertiaFactor(s);
    assert f * d2 - f * d1 == f * (d2 - d1);
    SignOfProduct(f, d2 - d1);
  }

  // ---------------------------------------------------------------------
  // Monotonicity in each dimension
  // ---------------------------------------------------------------------

  /** A larger sphere of the same positive density turns harder. */
  lemma SphereMomentIncreasesWithRadius(r1: real, r2: real, density: real)
    requires 0.0 < r1 < r2 && density > 0.0
    ensures Moment(Sphere(r1), density) < Moment(Sphere(r2), density)
  {
    MomentClosedForm(Sphere(r1), density);
    MomentClosedForm(Sphere(r2), density);
    CubeIncreases(r1, r2);
    SquareIncreases(r1, r2);
    ProductIncreases(Cube(r1), Cube(r2), Square(r1), Square(r2));
    ScaleStrict(8.0 * PI / 15.0, Cube(r1) * Square(r1), Cube(r2) * Square(r2));
    ScaleStrict(density, InertiaFactor(Sphere(r1)), InertiaFactor(Sphere(r2)));
  }

  /** Lengthening any sides of a box (density fixed) strictly increases its
      moment; the side `a` acts through the mass alone. */
  lemma BoxMomentIncreasesWithSides(a1: real, b1: real, c1: real, a2: real, b2: real, c2: real, density: real)
    requires 0.0 < a1 <= a2 && 0.0 < b1 <= b2 && 0.0 < c1 <= c2 && density > 0.0
    requires a1 < a2 || b1 < b2 || c1 < c2
    ensures Moment(Box(a1, b1, c1), density) < Moment(Box(a2, b2, c2), density)
  {
    var s1, s2 := Box(a1, b1, c1), Box(a2, b2, c2);
    MomentClosedForm(s1, density);
    MomentClosedForm(s2, density);
    ReferenceFormsPositive(s1);
    ProductIncreases(a1, a2, b1, b2);
    ProductIncreases(a1 * b1, a2 * b2, c1, c2);
    if b1 < b2 { SquareIncreases(b1, b2); }
    if c1 < c2 { SquareIncreases(c1, c2); }
    assert Square(b1) > 0.0 by { SignOfProduct(b1, b1); }
    assert Square(c1) > 0.0 by { SignOfProduct(c1, c1); }
    ProductIncreases(a1 * b1 * c1, a2 * b2 * c2, Square(b1) + Square(c1), Square(b2) + Square(c2));
    ScaleStrict(density, InertiaFactor(s1), InertiaFactor(s2));
  }

  /** A wider or taller cylinder (density fixed) has a larger moment. */
  lemma CylinderMomentIncreasesWithDimensions(r1: real, h1: real, r2: real, h2: real, density: real)
    requires 0.0 < r1 <= r2 && 0.0 < h1 <= h2 && density > 0.0
    requires r1 < r2 || h1 < h2
    ensures Moment(Cylinder(r1, h1), density) < Moment(Cylinder(r2, h2), density)
  {
    var s1, s2 := Cylinder(r1, h1), Cylinder(r2, h2);
    MomentClosedForm(s1, density);
    MomentClosedForm(s2, density);
    ReferenceFormsPositive(s1);
    if r1 < r2 {
      CubeIncreases(r1, r2);
      ProductIncreases(Cube(r1), Cube(r2), r1, r2);
    }
    ProductIncreases(Cube(r1) * r1, Cube(r2) * r2, h1, h2);
    ScaleStrict(PI / 2.0, Cube(r1) * r1 * h1, Cube(r2) * r2 * h2);
    ScaleStrict(density, InertiaFactor(s1), InertiaFactor(s2));
  }

  // ---------------------------------------------------------------------
  // Names (getName)
  // ---------------------------------------------------------------------

  /** `getName`: the class name of the body. */
  function Name(s: Shape): (n: string)
    ensures n == "Sphere" <==> s.Sphere?
    ensures n == "Box" <==> s.Box?
    ensures n == "Cylinder" <==> s.Cylinder?
  {
    match s
    case Sphere(_) => "Sphere"
    case Box(_, _, _) => "Box"
    case Cylinder(_, _) => "Cylinder"
  }

  // ---------------------------------------------------------------------
  // The C interface. A `void*` handle is an `Option<Shape>`: `None` is the
  // null pointer; any non-null handle points at a constructed body.
  // ---------------------------------------------------------------------

  type Handle = Option<Shape>

  /** `create_sphere`: null exactly when the constructor throws. */
  function CreateSphere(radius: real): (h: Handle)
    ensures h.None? <==> ConstructSphere(radius).Failure?
    ensures h.Some? ==> h.value.Valid() && GetSphereRadius(h) == radius
  {
    match ConstructSphere(radius)
    case Success(s) => Some(s)
    case Failure(_) => None
  }

  /** `create_box`: null exactly when the constructor throws. */
  function CreateBox(a: real, b: real, c: real): (h: Handle)
    ensures h.None? <==> ConstructBox(a, b, c).Failure?
    ensures h.Some? ==> h.value.Valid() && forall x, y, z :: GetBoxDimensions(h, x, y, z) == (a, b, c)
  {
    match ConstructBox(a, b, c)
    case Success(s) => Some(s)
    case Failure(_) => None
  }

  /** `create_cylinder`: null exactly when the constructor throws. */
  function CreateCylinder(radius: real, height: real): (h: Handle)
    ensures h.None? <==> ConstructCylinder(radius, height).Failure?
    ensures h.Some? ==> h.value.Valid() && forall x, y :: GetCylinderDimensions(h, x, y) == (radius, height)
  {
    match ConstructCylinder(radius, height)
    case Success(s) => Some(s)
    case Failure(_) => None
  }

  /** `calculate_moment`: the sentinel -1.0 for a null handle or a
      non-positive density, the body's moment otherwise. The `catch`
      around the virtual call never fires: the formulas do not throw. */
  function CalculateMoment(body: Handle, density: real): (m: real)
    ensures body.None? || density <= 0.0 ==> m == -1.0
    ensures body.Some? && density > 0.0 ==> m == Moment(body.value, density)
  {
    if body.None? || density <= 0.0 then -1.0
    else Moment(body.value, density)
  }

  /** For a body built by a `create_*` function, the result of
      `calculate_moment` is positive exactly when the density is, so the
      -1.0 sentinel can never be mistaken for a moment. */
  lemma CalculateMomentSentinelIsDistinct(body: Handle, density: real)
    requires body.Some? && body.value.Valid()
    ensures CalculateMoment(body, density) > 0.0 <==> density > 0.0
    ensures CalculateMoment(body, density) == -1.0 <==> density <= 0.0
  {
    MassAndMomentSign(body.value, density);
  }

  /** On a valid body, `calculate_moment` scales with a positive density. */
  lemma CalculateMomentRescale(body: Handle, k: real, density: real)
    requires body.Some? && k > 0.0 && density > 0.0
    ensures CalculateMoment(body, k * density) == k * CalculateMoment(body, density)
  {
  }

  /** `get_body_name`: the body's name, or "Unknown" for a null handle. */
  function GetBodyName(body: Handle): (n: string)
    ensures n == "Unknown" <==> body.None?
    ensures body.Some? ==> n == Name(body.value)
  {
    match body
    case None => "Unknown"
    case Some(s) => Name(s)
  }

  /** `get_sphere_radius`: the radius of a sphere, -1.0 when the handle is
      null or the body is not a sphere; on a valid body the result is
      positive exactly when the body is a sphere. */
  function GetSphereRadius(body: Handle): (r: real)
    ensures body.Some? && body.value.Sphere? ==> r == body.value.radius
    ensures !(body.Some? && body.value.Sphere?) ==> r == -1.0
    ensures body.Some? && body.value.Valid() ==> (r > 0.0 <==> body.value.Sphere?)
  {
    match body
    case Some(Sphere(r)) => r
    case _ => -1.0
  }

  /** `get_box_dimensions`: `a`, `b`, `c` are the values the out-pointers
      hold before the call; they come back unchanged unless the body is a box. */
  function GetBoxDimensions(body: Handle, a: real, b: real, c: real): (dims: (real, real, real))
    ensures body.Some? && body.value.Box? ==> dims == (body.value.a, body.value.b, body.value.c)
    ensures !(body.Some? && body.value.Box?) ==> dims == (a, b, c)
  {
    match body
    case Some(Box(a', b', c')) => (a', b', c')
    case _ => (a, b, c)
  }

  /** `get_cylinder_dimensions`: `r`, `h` are the values the out-pointers hold
      before the call; they come back unchanged unless the body is a cylinder. */
  function GetCylinderDimensions(body: Handle, r: real, h: real): (dims: (real, real))
    ensures body.Some? && body.value.Cylinder? ==> dims == (body.value.radius, body.value.height)
    ensures !(body.Some? && body.value.Cylinder?) ==> dims == (r, h)
  {
    match body
    case Some(Cylinder(r', h')) => (r', h')
    case _ => (r, h)
  }

  // ---------------------------------------------------------------------
  // Concrete scenarios
  // ---------------------------------------------------------------------

  /** The help text's first example (gui.py:143), a steel sphere of radius 0.5
      at 7800 kg/m^3: 130 pi kg m^2. */
  lemma SteelSphereScenario()
    ensures Moment(Sphere(0.5), 7800.0) == 130.0 * PI
    ensures CalculateMoment(CreateSphere(0.5), 7800.0) == 130.0 * PI
  {
  }

  /** The help text's second example (gui.py:152), an aluminium 1 x 2 x 3 box
      at 2700 kg/m^3: mass 16200 kg, moment 17550 kg m^2. */
  lemma AluminiumBoxScenario()
    ensures Mass(Box(1.0, 2.0, 3.0), 2700.0) == 16200.0
    ensures CalculateMoment(CreateBox(1.0, 2.0, 3.0), 2700.0) == 17550.0
  {
  }

  /** The help text's third example (gui.py:162), a copper cylinder of radius
      0.3 and height 2 at 8960 kg/m^3: mass 1612.8 pi kg, moment 72.576 pi kg m^2. */
  lemma CopperCylinderScenario()
    ensures Mass(Cylinder(0.3, 2.0), 8960.0) == 1612.8 * PI
    ensures CalculateMoment(CreateCylinder(0.3, 2.0), 8960.0) == 72.576 * PI
  {
  }
}
