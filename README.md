# Rigid-body inertia core in Dafny

This project models the computational core of a small rigid-body inertia
calculator. The core has two parts.

- **The native shape model** (`inertia_calculator.h`, `inertia_calculator.cpp`).
  There are three concrete bodies: a sphere, a rectangular box and a cylinder.
  Their constructors reject non-positive dimensions. Mass and the principal
  moment of inertia are closed-form expressions in the density. A C interface
  lets a foreign caller create bodies as opaque handles and query them, with
  a null handle and sentinel values in place of exceptions.
- **The Python layer** (`inertia_wrapper.py`). Wrapper classes raise
  `ValueError` when the library returns a null handle. `get_dimensions`
  builds a dictionary by dispatching on the body's name. `BodyContainer` is
  an ordered list of bodies whose moments are computed against one density.

Files:

- `wrappers.dfy`: `Option` (a pointer that may be null) and `Result` (a call
  that may raise).
- `inertia_calculator.dfy`, module `InertiaCalculator`. It holds the `Shape`
  datatype, one variant per concrete class, each with exactly that class's
  private fields; a datatype value is immutable, as the `const`-only classes
  are. It also holds the constructors (a `Result` whose error is the
  `invalid_argument` message), `Mass` and `Moment` in the source's own
  evaluation order, and the C interface, where a handle is an
  `Option<Shape>` and `None` is the null pointer. Beside these are
  independent reference forms: `Volume`, and `InertiaFactor`, the moment per
  unit density (sphere 8/15·π·r⁵, box abc(b²+c²)/12, cylinder π·r⁴·h/2).
  The lemmas tie the source's formulas to these forms and prove the sign,
  scaling and monotonicity laws.
- `inertia_wrapper.dfy`, module `InertiaWrapper`. It holds the wrapper
  constructors, `get_dimensions`, and the class `BodyContainer`. That class
  has a `seq<Shape>` field that `AddBody` and `Clear` reassign, and a
  reads-only function `CalculateAllMoments`. That function is defined by the
  recursive `MomentsOf`, which models the list comprehension.

Doubles are modelled as exact reals. `pow(r, 3)` is `r * r * r`. π is the
literal the header gives `M_PI` (`inertia_calculator.h:8`).

Two consequences of the code are worth stating on their own:

- `calculate_all_moments` does not reject a non-positive density. It returns
  one entry per body, and every entry carries the `-1.0` sentinel from
  `calculate_moment`.
- The application's help text gives three worked examples: a steel sphere
  (`gui.py:143`), an aluminium box (`gui.py:152`) and a copper cylinder
  (`gui.py:162`). They come to exact values:
  - the steel sphere of radius 0.5 at 7800 kg/m³ turns at
    130·π ≈ 408.4 kg·m² (`SteelSphereScenario`);
  - the aluminium 1×2×3 box at 2700 kg/m³ has mass 16200 kg and moment
    17550 kg·m² (`AluminiumBoxScenario`);
  - the copper rod of radius 0.3 and height 2 at 8960 kg/m³ weighs
    1612.8·π kg (`CopperCylinderScenario`).

## Model

| member | source | states |
|---|---|---|
| `InertiaCalculator.ConstructSphere` | project/inertia_calculator.cpp:4-6 | fails exactly when `r <= 0`, with the message "Radius must be positive"; on success the body is a valid sphere storing `r` |
| `InertiaCalculator.ConstructBox` | project/inertia_calculator.cpp:21-24 | fails exactly when any of `a`, `b`, `c` is `<= 0`; on success the body is the valid box `(a, b, c)` |
| `InertiaCalculator.ConstructCylinder` | project/inertia_calculator.cpp:41-44 | fails exactly when `r <= 0` or `h <= 0`; on success the body is the valid cylinder `(r, h)` |
| `InertiaCalculator.Mass` | project/inertia_calculator.cpp:13-53 | `calculateMass` of each class, in the source's order of multiplication and with no guard on the density; its meaning is carried by `MomentClosedForm` (volume × density), `MassAndMomentSign` and `MomentLinearInDensity` |
| `InertiaCalculator.Moment` | project/inertia_calculator.cpp:8-49 | `calculateMomentOfInertia` of each class: the mass first, then 0.4·m·r², m(b²+c²)/12 or 0.5·m·r²; its meaning is carried by `MomentClosedForm`, `MassAndMomentSign`, `MomentLinearInDensity`, `MomentIncreasesWithDensity` and the three dimension-monotonicity lemmas |
| `InertiaCalculator.MomentClosedForm` | project/inertia_calculator.cpp:8-53 | for every shape and density, mass is volume × density (4/3·π·r³, abc, π·r²·h) and the moment is the textbook factor × density (8/15·π·r⁵ i.e. 0.4·m·r², abc(b²+c²)/12 i.e. m(b²+c²)/12 with `a` only in the mass, π·r⁴·h/2 i.e. 0.5·m·r²) |
| `InertiaCalculator.MassAndMomentSign` | project/inertia_calculator.cpp:8-53 | for a valid body, mass and moment are positive exactly when the density is, and zero exactly when it is zero |
| `InertiaCalculator.MomentLinearInDensity` | project/inertia_calculator.cpp:8-53 | mass and moment at `k·ρ` are `k` times those at `ρ` |
| `InertiaCalculator.MomentIncreasesWithDensity` | project/inertia_calculator.cpp:8-53 | for a valid body a larger density gives a strictly larger moment |
| `InertiaCalculator.SphereMomentIncreasesWithRadius` | project/inertia_calculator.cpp:8-15 | at a positive density a larger radius gives a strictly larger moment |
| `InertiaCalculator.BoxMomentIncreasesWithSides` | project/inertia_calculator.cpp:26-33 | at a positive density, lengthening any of `a`, `b`, `c` (none shortened) strictly increases the moment |
| `InertiaCalculator.CylinderMomentIncreasesWithDimensions` | project/inertia_calculator.cpp:46-53 | at a positive density, a larger radius or height (neither smaller) strictly increases the moment |
| `InertiaCalculator.Name` | project/inertia_calculator.cpp:17-55 | the name is "Sphere", "Box" or "Cylinder" exactly for the matching variant |
| `InertiaCalculator.CreateSphere` | project/inertia_calculator.cpp:62-68 | null exactly when the constructor throws; a non-null handle is valid and `get_sphere_radius` returns the given radius |
| `InertiaCalculator.CreateBox` | project/inertia_calculator.cpp:70-76 | null exactly when the constructor throws; a non-null handle is valid and `get_box_dimensions` writes back `(a, b, c)` whatever the outputs held |
| `InertiaCalculator.CreateCylinder` | project/inertia_calculator.cpp:78-84 | null exactly when the constructor throws; a non-null handle is valid and `get_cylinder_dimensions` writes back `(radius, height)` |
| `InertiaCalculator.CalculateMoment` | project/inertia_calculator.cpp:86-94 | `-1.0` when the handle is null or the density is `<= 0`, otherwise the body's moment |
| `InertiaCalculator.CalculateMomentSentinelIsDistinct` | project/inertia_calculator.cpp:86-94 | for a valid body the result is positive exactly when the density is, and is `-1.0` exactly when the density is `<= 0` |
| `InertiaCalculator.CalculateMomentRescale` | project/inertia_calculator.cpp:86-94 | for a non-null handle and positive `k`, `ρ`: the result at `k·ρ` is `k` times the result at `ρ` |
| `InertiaCalculator.GetBodyName` | project/inertia_calculator.cpp:100-103 | "Unknown" exactly for a null handle, otherwise the body's name |
| `InertiaCalculator.GetSphereRadius` | project/inertia_calculator.cpp:105-108 | the stored radius for a sphere, `-1.0` for a null handle or another kind; on a valid body positive exactly for a sphere |
| `InertiaCalculator.GetBoxDimensions` | project/inertia_calculator.cpp:110-115 | the stored `(a, b, c)` for a box; for any other handle the outputs come back untouched |
| `InertiaCalculator.GetCylinderDimensions` | project/inertia_calculator.cpp:117-122 | the stored `(radius, height)` for a cylinder; for any other handle the outputs come back untouched |
| `InertiaCalculator.SteelSphereScenario` | project/gui.py:143 | the help text's steel sphere r = 0.5 at 7800 kg/m³: moment 130·π |
| `InertiaCalculator.AluminiumBoxScenario` | project/gui.py:152 | the help text's aluminium box 1×2×3 at 2700 kg/m³: mass 16200, moment 17550 |
| `InertiaCalculator.CopperCylinderScenario` | project/gui.py:162 | the help text's copper cylinder r = 0.3, h = 2 at 8960 kg/m³: mass 1612.8·π, moment 72.576·π |
| `InertiaWrapper.NewSphere` | project/inertia_wrapper.py:79-86 | `ValueError("Invalid sphere parameters")` exactly when the native call returns null, i.e. when `radius <= 0`; otherwise a valid body whose dimensions are `{radius}` |
| `InertiaWrapper.NewBox` | project/inertia_wrapper.py:88-95 | `ValueError` exactly when any side is `<= 0`; otherwise a valid body whose dimensions are `{a, b, c}` with the given values |
| `InertiaWrapper.NewCylinder` | project/inertia_wrapper.py:97-104 | `ValueError` exactly when `radius <= 0` or `height <= 0`; otherwise a valid body whose dimensions are `{radius, height}` |
| `InertiaWrapper.GetDimensions` | project/inertia_wrapper.py:60-76 | the name dispatch through the C getters yields exactly `{radius}`, `{a, b, c}` or `{radius, height}` with the stored values, and `{}` for a null handle |
| `InertiaWrapper.MomentsOf` | project/inertia_wrapper.py:158-159 | one entry per body in list order: the body, the density unchanged, and that body's `calculate_moment(density)` |
| `InertiaWrapper.MomentsOfAppend` | project/inertia_wrapper.py:155-159 | appending a body appends exactly its entry to the results |
| `InertiaWrapper.MomentsOfRescale` | project/inertia_wrapper.py:158-159 | recomputing at `k·ρ` keeps bodies and order and multiplies every moment by `k` |
| `InertiaWrapper.MomentsOfSigns` | project/inertia_wrapper.py:158-159 | for valid bodies, every moment is positive when `ρ > 0` and every entry is the `-1.0` sentinel when `ρ <= 0` |
| `InertiaWrapper.BodyContainer.constructor` | project/inertia_wrapper.py:152-153 | a new container holds no bodies |
| `InertiaWrapper.BodyContainer.AddBody` | project/inertia_wrapper.py:155-156 | the list becomes the old list plus the body at the end; the results at every density gain exactly that body's entry at the end |
| `InertiaWrapper.BodyContainer.CalculateAllMoments` | project/inertia_wrapper.py:158-159 | same length as `bodies`, entry `i` is `(bodies[i], density, calculate_moment)`; a non-positive density is not rejected and yields `-1.0` in every entry; reads the list only |
| `InertiaWrapper.BodyContainer.Clear` | project/inertia_wrapper.py:161-162 | the list is empty and the results are empty at every density |
| `InertiaWrapper.RegistryScenario` | project/inertia_wrapper.py:151-162 | after adding A, B, C the results come back as A, B, C; a second pass at another density needs no re-adding; after `clear` the results are empty |

## Left out

- `delete_body`, `Body.__del__` and C++ `new`/`delete`: memory management. A handle is a value, so release and ownership are not modelled.
- Handles that are neither null nor the result of a `create_*` call (dangling or foreign pointers): the C code's behaviour on them is undefined.
- Library loading and the ctypes prototypes (`inertia_wrapper.py:5-38`), and the `RuntimeError` and `"Unknown"`/`{}` fallbacks taken when the library failed to load: foreign-call plumbing.
- ctypes conversion errors for arguments that are not numbers: Python runtime behaviour outside the core.
- The `catch (...)` in `calculate_moment` (`inertia_calculator.cpp:91-93`): the formulas cannot throw, so that branch is unreachable and is not modelled.
- IEEE-754 behaviour: rounding, overflow to infinity, NaN and negative zero. For example, a NaN dimension passes the `<= 0` guard in the C++ code. Dimensions and densities are exact reals here. π is the header's literal, not a platform `M_PI`.
- `ResultExporter` (`inertia_wrapper.py:107-148`): text and PDF file output, which is I/O.
- `gui.py`: the user interface, plotting and its own input checks.
- `main.cpp`: a demo driver built on a collection template that the header does not declare. `setup.py`: build configuration.
- `BodyContainer` has no count and no total. The GUI counts its own list widget (`gui.py:513`) and sums the result tuples itself (`gui.py:526`, also `gui.py:271`). Both are left out with `gui.py`. So is the GUI's own rejection of a non-positive density before it calls `calculate_all_moments` (`gui.py:521-522`).
- `InertiaWrapper.RegistryScenario`: it does not restate the rescaling law for its second pass. That law is proved once, for every list, in `InertiaWrapper.MomentsOfRescale`.
