# Swimming pool designer: geometry and quantities

This project models the calculation core of the swimming pool designer. The
designer takes eight dimensions of a rectangular pool: interior length and
width, kids-zone and adults-zone water depths, kids-zone length, and wall,
floor-slab and soil thicknesses. From them it derives these quantities:

- the outer dimensions;
- the adults-zone length;
- the water volume, in cubic metres and in litres;
- the excavation volume;
- the floor, wall and total concrete volumes.

Before computing, the designer checks two things and warns about each:

- a kids zone deeper than the adults zone is only warned about;
- a kids zone longer than the pool is warned about and clamped to the pool
  length.

Everything is in `pool_geometry.dfy`, module `PoolGeometry`, modelled over
exact reals.

- The inputs are a `PoolSpec` value.
- The two warnings become `Advisory` values returned next to the
  `QuantityReport`, in the order the script raises them.
- `Calculate` is one "Generate Drawing" action: validation, then computation.
  In the script, the validation and its warnings run on every rerun of the
  page, before the button is checked. Only the computation waits for the
  button.
- `WidgetBounds` is the set of ranges the form's number inputs allow.
- The deliberate approximations of the script are kept exactly:
  - excavation is the outer box including the soil layer;
  - walls are inner perimeter × thickness × height, with no corner
    correction. `WallConcreteOmitsCorners` says exactly what this leaves out.

The form's widgets let length and width be 0.0, not only positive values. The
model follows the form: its properties assume non-negative inputs only.

## Model

| member | source | states |
|---|---|---|
| `PoolGeometry.KidsZoneDefaultAsWritten` | streamlit_app_Version2.py:18 | The kids-zone default the form offers is at least 1 m and at least 30% of the length, and it is one of the two. |
| `PoolGeometry.KidsZoneDefaultInRangeIff` | streamlit_app_Version2.py:18 | For a non-negative length, that default lies in the range [0, length] that the same input declares if and only if length ≥ 1 m. |
| `PoolGeometry.KidsZoneDefaultExceedsMaximum` | streamlit_app_Version2.py:18 | With a length of 0.5 m, the default exceeds the input's maximum. |
| `PoolGeometry.KidsZoneDefault` | streamlit_app_Version2.py:18 | The corrected default always lies in [0, length]. For lengths of at least 1 m it equals the as-written default. Otherwise it is the length. |
| `PoolGeometry.FormDefaults` | streamlit_app_Version2.py:14-21 | With any admissible length, every other input at its default and the corrected kids-zone default (`KidsZoneDefault`), the form state lies within every input's range. This is the corrected half of the line-18 finding, not the form as written. |
| `PoolGeometry.ClampKidsZone` | streamlit_app_Version2.py:27-29 | The effective kids-zone length is the minimum of the supplied length and the pool length. It is unchanged exactly when it already fits. |
| `PoolGeometry.ClampIdempotent` | streamlit_app_Version2.py:27-29 | Clamping an already clamped kids-zone length changes nothing. |
| `PoolGeometry.Validate` | streamlit_app_Version2.py:23-29 | Only the kids-zone length is altered, and it is clamped. The depth advisory is raised exactly when the kids depth exceeds the adults depth. The clamp advisory is raised exactly when the kids zone exceeds the length. Each advisory appears at most once, and the depth advisory comes first. The inputs are unchanged exactly when no clamp advisory is raised. |
| `PoolGeometry.AdultsZoneLength` | streamlit_app_Version2.py:39 | The adults-zone length is never negative. When the kids zone fits, the two lengths add up to the pool length. Otherwise it is 0. |
| `PoolGeometry.Report` | streamlit_app_Version2.py:33-50 | The adults-zone length is non-negative. The zones tile the length when the kids zone fits. Litres are 1000 × cubic metres. Total concrete is floor plus walls. |
| `PoolGeometry.Calculate` | streamlit_app_Version2.py:23-50 | The report uses the clamped kids-zone length. Kids zone plus adults zone equals the pool length for every input. Litres are 1000 × m³ and total concrete is floor plus walls. Each advisory appears exactly under its condition, at most once, and the depth advisory comes first. |
| `PoolGeometry.EffectiveInputs` | streamlit_app_Version2.py:27-29 | The downstream formulas see min(kidsZoneLength, length) and every other input as given. The whole report equals the one computed from the clamped inputs. |
| `PoolGeometry.DepthAdvisoryAltersNothing` | streamlit_app_Version2.py:24-25 | When the kids zone fits, the report is the one computed from the inputs as given, whether or not the depth advisory is raised. The advisories are exactly that depth advisory, or none. |
| `PoolGeometry.FormInputsNeverClamped` | streamlit_app_Version2.py:14-29 | Inputs within the form's ranges never raise the clamp advisory. Their report is computed from them unchanged. |
| `PoolGeometry.WaterVolumeByZones` | streamlit_app_Version2.py:39-40 | The water volume is k·width·depthKids + (length − k)·width·depthAdults, for the clamped kids-zone length k. It is non-negative for non-negative inputs. |
| `PoolGeometry.WaterVolumeWholeKidsZone` | streamlit_app_Version2.py:39-40 | A kids zone covering the whole length leaves an adults zone of 0. The water volume is then length·width·depthKids. |
| `PoolGeometry.WaterVolumeNoKidsZone` | streamlit_app_Version2.py:39-40 | With no kids zone, the water volume is length·width·depthAdults. |
| `PoolGeometry.WaterVolumeBetweenDepths` | streamlit_app_Version2.py:39-40 | The water volume lies between the pool box filled to the shallower depth and the box filled to the deeper one. |
| `PoolGeometry.WaterLitresNonNegative` | streamlit_app_Version2.py:39-41 | For non-negative inputs, the water volume in litres is non-negative and never less than the same volume in m³. |
| `PoolGeometry.OuterDimensions` | streamlit_app_Version2.py:33-35 | Each outer plan dimension is the inner one plus twice the wall thickness. The outer depth is the adults depth plus slab and soil. For non-negative inputs, each is at least the inner one. |
| `PoolGeometry.ExcavationIsOuterBox` | streamlit_app_Version2.py:33-44 | The excavation is (length+2w)·(width+2w)·(depthAdults+floor+soil). With all thicknesses 0 it is length·width·depthAdults. |
| `PoolGeometry.ExcavationCoversWater` | streamlit_app_Version2.py:24-44 | Without a depth advisory, the excavation volume is at least the water volume. |
| `PoolGeometry.ExcavationMissesDeeperKidsZone` | streamlit_app_Version2.py:24-44 | With a depth advisory, the excavation can be smaller than the water volume, as a concrete input shows. |
| `PoolGeometry.WallConcreteOmitsCorners` | streamlit_app_Version2.py:33-49 | Wall concrete plus the four corner columns 4·w²·height equals the ring between the outer and inner footprints times the wall height. |
| `PoolGeometry.ConcreteTotal` | streamlit_app_Version2.py:47-50 | Total concrete is floor concrete plus wall concrete. It is 0 when the wall and floor thicknesses are both 0. |
| `PoolGeometry.ZeroThicknesses` | streamlit_app_Version2.py:33-50 | With wall, floor and soil thickness all 0, the excavation is length·width·depthAdults and the concrete is 0. |
| `PoolGeometry.FloorConcreteMonotoneInWall` | streamlit_app_Version2.py:33-47 | For non-negative inputs, a thicker wall never makes the floor slab smaller. |
| `PoolGeometry.WallConcreteMonotoneInWall` | streamlit_app_Version2.py:48-49 | For non-negative inputs, a thicker wall never makes the wall concrete smaller. |
| `PoolGeometry.ConcreteMonotoneInWall` | streamlit_app_Version2.py:47-50 | For non-negative inputs, total concrete never decreases when the wall thickness grows and everything else stays fixed. |
| `PoolGeometry.ConcreteMonotoneInFloor` | streamlit_app_Version2.py:47-50 | For non-negative inputs, total concrete never decreases when the floor thickness grows and everything else stays fixed. |
| `PoolGeometry.DefaultDesignExample` | streamlit_app_Version2.py:14-50 | The form's defaults for a 7.25 m pool give a kids zone of 2.175 m. That design has no advisories, an adults zone of 5.075 m, 41.596875 m³ of water and 41596.875 L. |
| `PoolGeometry.ClampedDesignExample` | streamlit_app_Version2.py:27-50 | A 10 m kids zone in a 7.25 m pool is clamped to 7.25 m with the clamp advisory. The adults zone is 0 and the water volume is 30.8125 m³. |

## Left out

- The user interface is not modelled: the page setup, number inputs, button,
  text output, warnings display and success message. The form's ranges
  appear only as the `WidgetBounds` predicate. The warnings appear as
  returned `Advisory` values.
- The display text of the two warnings is left out. Only their kind is
  modelled.
- The three drawings are left out: plan, longitudinal and transverse views.
  So is their PNG encoding and download. These are rendering calls into a
  plotting library.
- The CSV export and the fixed-decimal formatting of the displayed values are
  left out. They are text output, not geometry.
- IEEE floating-point rounding is not modelled. Every number is an exact
  real, because the script only adds and multiplies. Displayed values may
  therefore differ from the exact ones in the last printed decimal.

## Findings

| source | as written | input that shows it | evidently intended | confidence | as-written member | corrected member |
|---|---|---|---|---|---|---|
| streamlit_app_Version2.py:18 | The kids-zone input's default is max(1.0, 0.3·length), while its maximum is the length. | length = 0.5: the default of 1.0 exceeds the maximum of 0.5, and the number input refuses a default outside its range. | A default of 30% of the length, at least 1 m, but never more than the length. | medium (depends on the widget library refusing a default above its maximum); not executed | `PoolGeometry.KidsZoneDefaultAsWritten` (with `PoolGeometry.KidsZoneDefaultExceedsMaximum`, `PoolGeometry.KidsZoneDefaultInRangeIff`) | `PoolGeometry.KidsZoneDefault` (used by `PoolGeometry.FormDefaults`) |
