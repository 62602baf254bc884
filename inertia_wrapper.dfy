/** The Python layer over the native library (inertia_wrapper.py): the
    wrapper classes whose constructors turn a null handle into ValueError,
    the dimension dictionary built by dispatching on the body's name, and
    `BodyContainer`, the ordered list of bodies whose moments are computed
    against one density. */
module InertiaWrapper {
  import opened Wrappers
  import opened InertiaCalculator

  /** One entry of `calculate_all_moments`: the body, the density it was
      given and the moment `calculate_moment` returned. */
  type MomentEntry = (Shape, real, real)

  // ---------------------------------------------------------------------
  // Wrapper constructors: the error is the message of the ValueError.
  // ---------------------------------------------------------------------

  function NewSphere(radius: real): (res: Result<Shape, string>)
    ensures res.Failure? <==> CreateSphere(radius).None?
    ensures res.Failure? <==> radius <= 0.0
    ensures res.Failure? ==> res.error == "Invalid sphere parameters"
    ensures res.Success? ==> res.value.Valid() && GetDimensions(Some(res.value)) == map["radius" := radius]
  {
    match CreateSphere(radius)
    case None => Failure("Invalid sphere parameters")
    case Some(s) => Success(s)
  }

  function NewBox(a: real, b: real, c: real): (res: Result<Shape, string>)
    ensures res.Failure? <==> CreateBox(a, b, c).None?
    ensures res.Failure? <==> a <= 0.0 || b <= 0.0 || c <= 0.0
    ensures res.Failure? ==> res.error == "Invalid box parameters"
    ensures res.Success? ==> res.value.Valid() && GetDimensions(Some(res.value)) == map["a" := a, "b" := b, "c" := c]
  {
    match CreateBox(a, b, c)
    case None => Failure("Invalid box parameters")
    case Some(s) => Success(s)
  }

  function NewCylinder(radius: real, height: real): (res: Result<Shape, string>)
    ensures res.Failure? <==> CreateCylinder(radius, height).None?
    ensures res.Failure? <==> radius <= 0.0 || height <= 0.0
    ensures res.Failure? ==> res.error == "Invalid cylinder parameters"
    ensures res.Success? ==> res.value.Valid() && GetDimensions(Some(res.value)) == map["radius" := radius, "height" := height]
  {
    match CreateCylinder(radius, height)
    case None => Failure("Invalid cylinder parameters")
    case Some(s) => Success(s)
  }

  // ---------------------------------------------------------------------
  // Body.get_dimensions
  // ---------------------------------------------------------------------

  /** `Body.get_dimensions`: dispatches on the name the library reports and
      reads the dimensions through the C getters, whose out-values start at
      0.0 as fresh `c_double`s do. Whatever the route, the dictionary holds
      exactly the fields of the body's own variant, and nothing for a null
      handle. */
  function GetDimensions(body: Handle): (dims: map<string, real>)
    ensures body.None? ==> dims == map[]
    ensures body.Some? && body.value.Sphere? ==> dims == map["radius" := body.value.radius]
    ensures body.Some? && body.value.Box? ==> dims == map["a" := body.value.a, "b" := body.value.b, "c" := body.value.c]
    ensures body.Some? && body.value.Cylinder? ==> dims == map["radius" := body.value.radius, "height" := body.value.height]
  {
    var name := GetBodyName(body);
    if name == "Sphere" then
      map["radius" := GetSphereRadius(body)]
    else if name == "Box" then
      var (a, b, c) := GetBoxDimensions(body, 0.0, 0.0, 0.0);
      map["a" := a, "b" := b, "c" := c]
    else if name == "Cylinder" then
      var (r, h) := GetCylinderDimensions(body, 0.0, 0.0);
      map["radius" := r, "height" := h]
    else
      map[]
  }

  // ---------------------------------------------------------------------
  // calculate_all_moments over a list of bodies
  // ---------------------------------------------------------------------

  predicate AllValid(bodies: seq<Shape>) {
    forall i :: 0 <= i < |bodies| ==> bodies[i].Valid()
  }

  /** The list comprehension of `calculate_all_moments`: one entry per body,
      in list order, each carrying the body, the density as given and the
      body's `calculate_moment(density)`. */
  function MomentsOf(bodies: seq<Shape>, density: real): (results: seq<MomentEntry>)
    ensures |results| == |bodies|
    ensures forall i :: 0 <= i < |bodies| ==>
      results[i].0 == bodies[i] && results[i].1 == density &&
      results[i].2 == CalculateMoment(Some(bodies[i]), density)
  {
    if bodies == [] then []
    else [(bodies[0], density, CalculateMoment(Some(bodies[0]), density))] + MomentsOf(bodies[1..], density)
  }

  /** Appending a body appends exactly its entry to the results. */
  lemma MomentsOfAppend(bodies: seq<Shape>, body: Shape, density: real)
    ensures MomentsOf(bodies + [body], density)
         == MomentsOf(bodies, density) + [(body, density, CalculateMoment(Some(body), density))]
  {
  }

  /** Recomputing at a density k times as large scales every moment by k
      and leaves the bodies and their order as they were. */
  lemma MomentsOfRescale(bodies: seq<Shape>, k: real, density: real)
    requires k > 0.0 && density > 0.0
    ensures |MomentsOf(bodies, k * density)| == |MomentsOf(bodies, density)|
    ensures forall i :: 0 <= i < |bodies| ==>
      MomentsOf(bodies, k * density)[i].0 == MomentsOf(bodies, density)[i].0 &&
      MomentsOf(bodies, k * density)[i].2 == k * MomentsOf(bodies, density)[i].2
  {
    var scaled, base := MomentsOf(bodies, k * density), MomentsOf(bodies, density);
    forall i | 0 <= i < |bodies|
      ensures scaled[i].2 == k * base[i].2
    {
      assert scaled[i].2 == CalculateMoment(Some(bodies[i]), k * density);
      assert base[i].2 == CalculateMoment(Some(bodies[i]), density);
      CalculateMomentRescale(Some(bodies[i]), k, density);
    }
  }

  /** With a positive density every body built by a wrapper constructor gets
      a positive moment; with a non-positive one every entry is the -1.0
      sentinel. */
  lemma MomentsOfSigns(bodies: seq<Shape>, density: real)
    requires AllValid(bodies)
    ensures density > 0.0 ==> forall i :: 0 <= i < |bodies| ==> MomentsOf(bodies, density)[i].2 > 0.0
    ensures density <= 0.0 ==> forall i :: 0 <= i < |bodies| ==> MomentsOf(bodies, density)[i].2 == -1.0
  {
    forall i | 0 <= i < |bodies|
      ensures MomentsOf(bodies, density)[i].2 > 0.0 <==> density > 0.0
    {
      CalculateMomentSentinelIsDistinct(Some(bodies[i]), density);
    }
  }

  // ---------------------------------------------------------------------
  // BodyContainer
  // ---------------------------------------------------------------------

  /** `BodyContainer`: the list `bodies`, appended to and cleared in place. */
  class BodyContainer {
    var bodies: seq<Shape>

    constructor ()
      ensures bodies == []
    {
      bodies := [];
    }

    /** `add_body`: appends at the end; every earlier body stays where it was. */
    method AddBody(body: Shape)
      modifies this
      ensures bodies == old(bodies) + [body]
      ensures forall density ::
        CalculateAllMoments(density) == old(CalculateAllMoments(density)) + [(body, density, CalculateMoment(Some(body), density))]
    {
      bodies := bodies + [body];
      forall density
        ensures MomentsOf(bodies, density)
          == MomentsOf(old(bodies), density) + [(body, density, CalculateMoment(Some(body), density))]
      {
        MomentsOfAppend(old(bodies), body, density);
      }
    }

    /** `calculate_all_moments`: reads the list without changing it. A
        non-positive density is not rejected here: every entry then carries
        the -1.0 sentinel. */
    function CalculateAllMoments(density: real): (results: seq<MomentEntry>)
      reads this
      ensures |results| == |bodies|
      ensures forall i :: 0 <= i < |bodies| ==> results[i].0 == bodies[i] && results[i].1 == density
      ensures forall i :: 0 <= i < |bodies| ==> results[i].2 == CalculateMoment(Some(bodies[i]), density)
      ensures density <= 0.0 ==> forall i :: 0 <= i < |results| ==> results[i].2 == -1.0
    {
      MomentsOf(bodies, density)
    }

    /** `clear`: empties the list, so no results remain at any density. */
    method Clear()
      modifies this
      ensures bodies == []
      ensures forall density :: CalculateAllMoments(density) == []
    {
      bodies := [];
    }
  }

  /** Three bodies added in turn come back in that order; a second pass at
      another density needs no re-adding and reports the same bodies in the
      same order with the new density; after `clear` nothing comes back. */
  method RegistryScenario(a: Shape, b: Shape, c: Shape, density: real, other: real)
    returns (first: seq<MomentEntry>, again: seq<MomentEntry>, cleared: seq<MomentEntry>)
    ensures |first| == 3 && first[0].0 == a && first[1].0 == b && first[2].0 == c
    ensures forall i :: 0 <= i < 3 ==> first[i].1 == density
    ensures |again| == 3 && forall i :: 0 <= i < 3 ==> again[i].0 == first[i].0 && again[i].1 == other
    ensures cleared == []
  {
    var container := new BodyContainer();
    container.AddBody(a);
    container.AddBody(b);
    container.AddBody(c);
    assert container.bodies == [a, b, c];
    first := container.CalculateAllMoments(density);
    again := container.CalculateAllMoments(other);
    container.Clear();
    cleared := container.CalculateAllMoments(density);
  }
}
