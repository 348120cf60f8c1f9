/**
 * Geometry and quantity calculation of the swimming-pool designer.
 *
 * A rectangular pool of interior length `length` and width `width` is split
 * along its length into a shallow kids zone (of length `kidsZoneLength`,
 * water depth `depthKids`) and a deeper adults zone (the rest of the length,
 * water depth `depthAdults`). Walls of thickness `wallThickness` surround it,
 * a floor slab of thickness `floorThickness` lies under it and a soil layer
 * of depth `soilThickness` lies under the slab. All lengths are metres and
 * all volumes cubic metres, except water in litres.
 *
 * The calculation first validates its inputs (a depth advisory and a clamp
 * of the kids-zone length, each with an advisory) and then derives the
 * outer dimensions, the water, excavation and concrete volumes.
 * Numbers are modelled as exact reals.
 */
module PoolGeometry {

  /** The eight inputs of one calculation. */
  datatype PoolSpec = PoolSpec(
    length: real,
    width: real,
    depthKids: real,
    depthAdults: real,
    kidsZoneLength: real,
    wallThickness: real,
    floorThickness: real,
    soilThickness: real)

  /** The non-fatal advisories the validation step raises. */
  datatype Advisory =
    | KidsDeeperThanAdults  // kids depth greater than adults depth: warned, nothing altered
    | KidsZoneClamped       // kids-zone length greater than pool length: warned and clamped

  /** The inputs as the computation sees them, with the advisories raised on the way. */
  datatype Validated = Validated(spec: PoolSpec, advisories: seq<Advisory>)

  /** Every derived quantity of one calculation. */
  datatype QuantityReport = QuantityReport(
    kidsZoneLength: real,
    adultsZoneLength: real,
    outerLength: real,
    outerWidth: real,
    outerDepth: real,
    waterVolumeM3: real,
    waterVolumeL: real,
    excavationVolumeM3: real,
    floorConcreteM3: real,
    wallConcreteM3: real,
    concreteTotalM3: real)

  /** What one calculation produces: the report and the advisories. */
  datatype Outcome = Outcome(report: QuantityReport, advisories: seq<Advisory>)

  // ---------------------------------------------------------------------------
  // Input ranges of the form
  // ---------------------------------------------------------------------------

  /** Every input is non-negative. */
  predicate NonNegative(s: PoolSpec) {
    && s.length >= 0.0 && s.width >= 0.0
    && s.depthKids >= 0.0 && s.depthAdults >= 0.0
    && s.kidsZoneLength >= 0.0
    && s.wallThickness >= 0.0 && s.floorThickness >= 0.0 && s.soilThickness >= 0.0
  }

  /** The ranges the form's number inputs allow; the kids-zone range depends on the length. */
  predicate WidgetBounds(s: PoolSpec) {
    && 0.0 <= s.length <= 50.0
    && 0.0 <= s.width <= 20.0
    && 0.0 <= s.depthKids <= 5.0
    && 0.0 <= s.depthAdults <= 5.0
    && 0.0 <= s.kidsZoneLength <= s.length
    && 0.0 <= s.wallThickness <= 1.0
    && 0.0 <= s.floorThickness <= 1.0
    && 0.0 <= s.soilThickness <= 5.0
  }

  /** The kids-zone default the form offers, as written: 30% of the length, at least 1 m. */
  function KidsZoneDefaultAsWritten(length: real): (r: real)
    ensures r >= 1.0 && r >= 0.3 * length
    ensures r == 1.0 || r == 0.3 * length
  {
    if 1.0 >= length * 0.3 then 1.0 else length * 0.3
  }

  /** The as-written default lies within the kids-zone range [0, length] exactly when length >= 1. */
  lemma KidsZoneDefaultInRangeIff(length: real)
    requires length >= 0.0
    ensures 0.0 <= KidsZoneDefaultAsWritten(length) <= length <==> length >= 1.0
  {
  }

  /** A concrete form state whose default lies above the range's maximum. */
  lemma KidsZoneDefaultExceedsMaximum()
    ensures KidsZoneDefaultAsWritten(0.5) > 0.5
  {
  }

  /** The kids-zone default, kept within the range [0, length] that the same input declares. */
  function KidsZoneDefault(length: real): (r: real)
    requires length >= 0.0
    ensures 0.0 <= r <= length
    ensures length >= 1.0 ==> r == KidsZoneDefaultAsWritten(length)
    ensures r == length || r == KidsZoneDefaultAsWritten(length)
  {
    var d := KidsZoneDefaultAsWritten(length);
    if d > length then length else d
  }

  /**
   * The form state once the user has entered `length` and left every other
   * input at its default, with the corrected kids-zone default
   * (`KidsZoneDefault`) in place of the one the form offers.
   */
  function FormDefaults(length: real): (s: PoolSpec)
    requires 0.0 <= length <= 50.0
    ensures WidgetBounds(s)
    ensures s.length == length
  {
    PoolSpec(length, 4.25, 1.00, 1.50, KidsZoneDefault(length), 0.25, 0.30, 0.50)
  }

  // ---------------------------------------------------------------------------
  // Validation
  // ---------------------------------------------------------------------------

  /** The kids-zone length actually used: never more than the pool length. */
  function ClampKidsZone(kidsZoneLength: real, length: real): (r: real)
    ensures r <= length && r <= kidsZoneLength
    ensures r == kidsZoneLength || r == length
    ensures r == kidsZoneLength <==> kidsZoneLength <= length
  {
    if kidsZoneLength > length then length else kidsZoneLength
  }

  /** Clamping an already clamped length changes nothing. */
  lemma ClampIdempotent(kidsZoneLength: real, length: real)
    ensures ClampKidsZone(ClampKidsZone(kidsZoneLength, length), length)
         == ClampKidsZone(kidsZoneLength, length)
  {
  }

  /**
   * The validation step: a depth advisory that alters nothing, then a clamp of
   * the kids-zone length with its own advisory. No other input is touched.
   */
  function Validate(s: PoolSpec): (v: Validated)
    ensures v.spec == s.(kidsZoneLength := ClampKidsZone(s.kidsZoneLength, s.length))
    ensures v.spec.kidsZoneLength <= s.length
    ensures KidsDeeperThanAdults in v.advisories <==> s.depthKids > s.depthAdults
    ensures KidsZoneClamped in v.advisories <==> s.kidsZoneLength > s.length
    ensures v.spec == s <==> KidsZoneClamped !in v.advisories
    ensures |v.advisories|
         == (if s.depthKids > s.depthAdults then 1 else 0) + (if s.kidsZoneLength > s.length then 1 else 0)
    ensures s.depthKids > s.depthAdults ==> v.advisories[0] == KidsDeeperThanAdults
  {
    var depthAdvisories := if s.depthKids > s.depthAdults then [KidsDeeperThanAdults] else [];
    if s.kidsZoneLength > s.length then
      Validated(s.(kidsZoneLength := s.length), depthAdvisories + [KidsZoneClamped])
    else
      Validated(s, depthAdvisories)
  }

  // ---------------------------------------------------------------------------
  // Derived quantities
  // ---------------------------------------------------------------------------

  /** Length of the adults zone: whatever the kids zone leaves of the pool, never negative. */
  function AdultsZoneLength(length: real, kidsZoneLength: real): (r: real)
    ensures r >= 0.0
    ensures kidsZoneLength <= length ==> kidsZoneLength + r == length
    ensures kidsZoneLength >= length ==> r == 0.0
  {
    if 0.0 >= length - kidsZoneLength then 0.0 else length - kidsZoneLength
  }

  function OuterLength(s: PoolSpec): (r: real) {
    s.length + 2.0 * s.wallThickness
  }

  function OuterWidth(s: PoolSpec): (r: real) {
    s.width + 2.0 * s.wallThickness
  }

  function OuterDepth(s: PoolSpec): (r: real) {
    s.depthAdults + s.floorThickness + s.soilThickness
  }

  /** Water in the two rectangular zones, in cubic metres. */
  function WaterVolume(s: PoolSpec): (r: real) {
    s.kidsZoneLength * s.width * s.depthKids
      + AdultsZoneLength(s.length, s.kidsZoneLength) * s.width * s.depthAdults
  }

  /** Excavation, approximated by the outer box including the soil layer. */
  function ExcavationVolume(s: PoolSpec): (r: real) {
    OuterLength(s) * OuterWidth(s) * OuterDepth(s)
  }

  /** Floor slab over the whole outer footprint. */
  function FloorConcrete(s: PoolSpec): (r: real) {
    OuterLength(s) * OuterWidth(s) * s.floorThickness
  }

  function InnerPerimeter(s: PoolSpec): (r: real) {
    2.0 * (s.length + s.width)
  }

  /** Walls as inner perimeter times thickness times height, without a corner correction. */
  function WallConcrete(s: PoolSpec): (r: real) {
    InnerPerimeter(s) * s.wallThickness * (s.depthAdults + s.floorThickness)
  }

  /** Cubic metres to litres. */
  function Litres(m3: real): (r: real) {
    m3 * 1000.0
  }

  /** The report computed from inputs that have already been validated. */
  function Report(s: PoolSpec): (r: QuantityReport)
    ensures r.adultsZoneLength >= 0.0
    ensures s.kidsZoneLength <= s.length ==> r.kidsZoneLength + r.adultsZoneLength == s.length
    ensures r.waterVolumeL == 1000.0 * r.waterVolumeM3
    ensures r.concreteTotalM3 == r.floorConcreteM3 + r.wallConcreteM3
  {
    var water := WaterVolume(s);
    var floor := FloorConcrete(s);
    var wall := WallConcrete(s);
    QuantityReport(
      s.kidsZoneLength,
      AdultsZoneLength(s.length, s.kidsZoneLength),
      OuterLength(s), OuterWidth(s), OuterDepth(s),
      water, Litres(water),
      ExcavationVolume(s),
      floor, wall, floor + wall)
  }

  /**
   * One "Generate Drawing" action: validate, then compute. The validation
   * runs on every rerun of the page, before the button is checked; only the
   * computation waits for the button. The kids-zone length the
   * report uses never exceeds the pool length, and the two zones always
   * tile the pool length exactly.
   */
  function Calculate(s: PoolSpec): (o: Outcome)
    ensures o.report.kidsZoneLength == ClampKidsZone(s.kidsZoneLength, s.length)
    ensures o.report.kidsZoneLength <= s.length
    ensures o.report.adultsZoneLength >= 0.0
    ensures o.report.kidsZoneLength + o.report.adultsZoneLength == s.length
    ensures o.report.waterVolumeL == 1000.0 * o.report.waterVolumeM3
    ensures o.report.concreteTotalM3 == o.report.floorConcreteM3 + o.report.wallConcreteM3
    ensures KidsDeeperThanAdults in o.advisories <==> s.depthKids > s.depthAdults
    ensures KidsZoneClamped in o.advisories <==> s.kidsZoneLength > s.length
    ensures |o.advisories|
         == (if s.depthKids > s.depthAdults then 1 else 0) + (if s.kidsZoneLength > s.length then 1 else 0)
    ensures s.depthKids > s.depthAdults ==> o.advisories[0] == KidsDeeperThanAdults
  {
    var v := Validate(s);
    Outcome(Report(v.spec), v.advisories)
  }

  // ---------------------------------------------------------------------------
  // Properties of the calculation
  // ---------------------------------------------------------------------------

  // Arithmetic steps, kept one product at a time so that the solver never
  // has to combine many non-linear facts in one proof obligation.

  /** Scaling by a non-negative factor keeps an inequality. */
  lemma ScaleLe(c: real, a: real, b: real)
    requires a <= b && c >= 0.0
    ensures c * a <= c * b
  {
  }

  /** A product of non-negative factors grows with either factor. */
  lemma ProductLe(a: real, b: real, a': real, b': real)
    requires 0.0 <= a <= a' && 0.0 <= b <= b'
    ensures a * b <= a' * b'
  {
    ScaleLe(b, a, a');
    ScaleLe(a', b, b');
  }

  /** Two non-negative weights applied to pairwise ordered values keep the order of the sums. */
  lemma WeightedLe(kw: real, aw: real, a1: real, b1: real, a2: real, b2: real)
    requires kw >= 0.0 && aw >= 0.0
    requires a1 <= b1 && a2 <= b2
    ensures kw * a1 + aw * a2 <= kw * b1 + aw * b2
  {
    ScaleLe(kw, a1, b1);
    ScaleLe(aw, a2, b2);
  }

  lemma NonNegProduct(a: real, b: real)
    requires a >= 0.0 && b >= 0.0
    ensures a * b >= 0.0
  {
  }

  /** The clamped kids-zone length is min(kidsZoneLength, length); every other input is used as given. */
  lemma EffectiveInputs(s: PoolSpec)
    ensures var e := Validate(s).spec;
      && e.kidsZoneLength == (if s.kidsZoneLength <= s.length then s.kidsZoneLength else s.length)
      && e.length == s.length && e.width == s.width
      && e.depthKids == s.depthKids && e.depthAdults == s.depthAdults
      && e.wallThickness == s.wallThickness && e.floorThickness == s.floorThickness
      && e.soilThickness == s.soilThickness
    ensures Calculate(s) == Calculate(Validate(s).spec).(advisories := Calculate(s).advisories)
  {
  }

  /**
   * The depth advisory is a warning only: when the kids zone fits, the report
   * is the one computed from the inputs exactly as given, advisory or not.
   */
  lemma DepthAdvisoryAltersNothing(s: PoolSpec)
    requires s.kidsZoneLength <= s.length
    ensures Calculate(s).report == Report(s)
    ensures Calculate(s).advisories == (if s.depthKids > s.depthAdults then [KidsDeeperThanAdults] else [])
  {
  }

  /** Inputs from the form never trigger the clamp: the kids-zone input is already bounded by the length. */
  lemma FormInputsNeverClamped(s: PoolSpec)
    requires WidgetBounds(s)
    ensures KidsZoneClamped !in Calculate(s).advisories
    ensures Calculate(s).report == Report(s)
  {
  }

  /**
   * Water volume: kids zone plus adults zone over the clamped length, and
   * non-negative for non-negative inputs.
   */
  lemma WaterVolumeByZones(s: PoolSpec)
    requires NonNegative(s)
    ensures var k := ClampKidsZone(s.kidsZoneLength, s.length);
      Calculate(s).report.waterVolumeM3
        == k * s.width * s.depthKids + (s.length - k) * s.width * s.depthAdults
    ensures Calculate(s).report.waterVolumeM3 >= 0.0
  {
    var k := ClampKidsZone(s.kidsZoneLength, s.length);
    assert AdultsZoneLength(s.length, k) == s.length - k;
    NonNegProduct(k, s.width);
    NonNegProduct(k * s.width, s.depthKids);
    NonNegProduct(s.length - k, s.width);
    NonNegProduct((s.length - k) * s.width, s.depthAdults);
  }

  /** A kids zone covering the whole pool (supplied or clamped) holds length * width * depthKids. */
  lemma WaterVolumeWholeKidsZone(s: PoolSpec)
    requires s.kidsZoneLength >= s.length
    ensures Calculate(s).report.waterVolumeM3 == s.length * s.width * s.depthKids
    ensures Calculate(s).report.adultsZoneLength == 0.0
  {
  }

  /** No kids zone: the pool holds length * width * depthAdults. */
  lemma WaterVolumeNoKidsZone(s: PoolSpec)
    requires s.length >= 0.0 && s.kidsZoneLength == 0.0
    ensures Calculate(s).report.waterVolumeM3 == s.length * s.width * s.depthAdults
  {
  }

  /** Splitting a length at k splits the box over it into two boxes. */
  lemma SplitBox(length: real, k: real, width: real, d: real)
    ensures k * width * d + (length - k) * width * d == length * width * d
  {
  }

  /** Two zones of depth at least `lo` hold at least the whole box of depth `lo`. */
  lemma ZonesAtLeast(length: real, k: real, width: real, dk: real, da: real, lo: real)
    requires 0.0 <= k <= length && width >= 0.0
    requires lo <= dk && lo <= da
    ensures length * width * lo <= k * width * dk + (length - k) * width * da
  {
    NonNegProduct(k, width);
    NonNegProduct(length - k, width);
    WeightedLe(k * width, (length - k) * width, lo, dk, lo, da);
    SplitBox(length, k, width, lo);
  }

  /** Two zones of depth at most `hi` hold at most the whole box of depth `hi`. */
  lemma ZonesAtMost(length: real, k: real, width: real, dk: real, da: real, hi: real)
    requires 0.0 <= k <= length && width >= 0.0
    requires dk <= hi && da <= hi
    ensures k * width * dk + (length - k) * width * da <= length * width * hi
  {
    NonNegProduct(k, width);
    NonNegProduct(length - k, width);
    WeightedLe(k * width, (length - k) * width, dk, hi, da, hi);
    SplitBox(length, k, width, hi);
  }

  /** Two zones hold between the whole box filled to the shallower depth and the box filled to the deeper one. */
  lemma ZonesBetweenDepths(length: real, k: real, width: real, dk: real, da: real)
    requires 0.0 <= k <= length && width >= 0.0
    ensures var shallow := if dk <= da then dk else da;
      var deep := if dk <= da then da else dk;
      length * width * shallow <= k * width * dk + (length - k) * width * da <= length * width * deep
  {
    if dk <= da {
      ZonesAtLeast(length, k, width, dk, da, dk);
      ZonesAtMost(length, k, width, dk, da, da);
    } else {
      ZonesAtLeast(length, k, width, dk, da, da);
      ZonesAtMost(length, k, width, dk, da, dk);
    }
  }

  /**
   * The water volume lies between the pool box filled to the shallower depth
   * and the box filled to the deeper depth.
   */
  lemma WaterVolumeBetweenDepths(s: PoolSpec)
    requires NonNegative(s)
    ensures var shallow := if s.depthKids <= s.depthAdults then s.depthKids else s.depthAdults;
      var deep := if s.depthKids <= s.depthAdults then s.depthAdults else s.depthKids;
      s.length * s.width * shallow <= Calculate(s).report.waterVolumeM3 <= s.length * s.width * deep
  {
    WaterVolumeByZones(s);
    ZonesBetweenDepths(s.length, ClampKidsZone(s.kidsZoneLength, s.length), s.width, s.depthKids, s.depthAdults);
  }

  /** For non-negative inputs the water in litres is non-negative and never less than the same water in cubic metres. */
  lemma WaterLitresNonNegative(s: PoolSpec)
    requires NonNegative(s)
    ensures 0.0 <= Calculate(s).report.waterVolumeM3 <= Calculate(s).report.waterVolumeL
  {
    WaterVolumeByZones(s);
  }

  /** The outer footprint adds one wall thickness on each side; the outer depth stacks water, slab and soil. */
  lemma OuterDimensions(s: PoolSpec)
    ensures Calculate(s).report.outerLength - s.length == 2.0 * s.wallThickness
    ensures Calculate(s).report.outerWidth - s.width == 2.0 * s.wallThickness
    ensures Calculate(s).report.outerDepth - s.depthAdults == s.floorThickness + s.soilThickness
    ensures NonNegative(s) ==>
      && Calculate(s).report.outerLength >= s.length
      && Calculate(s).report.outerWidth >= s.width
      && Calculate(s).report.outerDepth >= s.depthAdults
  {
  }

  /** Excavation is the outer box (length + 2w) * (width + 2w) * (depthAdults + floor + soil). */
  lemma ExcavationIsOuterBox(s: PoolSpec)
    ensures var w := s.wallThickness;
      Calculate(s).report.excavationVolumeM3
        == (s.length + 2.0 * w) * (s.width + 2.0 * w)
           * (s.depthAdults + s.floorThickness + s.soilThickness)
    ensures s.wallThickness == 0.0 && s.floorThickness == 0.0 && s.soilThickness == 0.0
      ==> Calculate(s).report.excavationVolumeM3 == s.length * s.width * s.depthAdults
  {
  }

  /** A box grown in every dimension holds at least as much as the original one. */
  lemma BoxGrows(l: real, b: real, d: real, l': real, b': real, d': real)
    requires 0.0 <= l <= l' && 0.0 <= b <= b' && 0.0 <= d <= d'
    ensures l * b * d <= l' * b' * d'
  {
    ProductLe(l, b, l', b');
    NonNegProduct(l, b);
    ProductLe(l * b, d, l' * b', d');
  }

  /**
   * When the kids zone is no deeper than the adults zone (no depth advisory),
   * the excavated box holds all the water.
   */
  lemma ExcavationCoversWater(s: PoolSpec)
    requires NonNegative(s)
    requires s.depthKids <= s.depthAdults
    ensures Calculate(s).report.waterVolumeM3 <= Calculate(s).report.excavationVolumeM3
  {
    WaterVolumeBetweenDepths(s);
    ExcavationIsOuterBox(s);
    var w := s.wallThickness;
    BoxGrows(s.length, s.width, s.depthAdults,
             s.length + 2.0 * w, s.width + 2.0 * w, s.depthAdults + s.floorThickness + s.soilThickness);
  }

  /**
   * With a depth advisory the excavated box can hold less than the water:
   * the excavation depth follows the adults depth only.
   */
  lemma ExcavationMissesDeeperKidsZone()
    ensures var s := PoolSpec(1.0, 1.0, 2.0, 1.0, 1.0, 0.0, 0.0, 0.0);
      && KidsDeeperThanAdults in Calculate(s).advisories
      && Calculate(s).report.excavationVolumeM3 < Calculate(s).report.waterVolumeM3
  {
  }

  /**
   * The wall formula leaves out exactly the four corner columns: with them
   * added it equals the ring between the outer and the inner footprint over
   * the wall height.
   */
  lemma WallConcreteOmitsCorners(s: PoolSpec)
    ensures var w := s.wallThickness;
      var h := s.depthAdults + s.floorThickness;
      Calculate(s).report.wallConcreteM3 + 4.0 * w * w * h
        == (OuterLength(s) * OuterWidth(s) - s.length * s.width) * h
  {
    var w := s.wallThickness;
    var h := s.depthAdults + s.floorThickness;
    assert OuterLength(s) * OuterWidth(s) - s.length * s.width
        == InnerPerimeter(s) * w + 4.0 * w * w;
  }

  /** Total concrete is floor slab plus walls, and nothing when walls and floor have no thickness. */
  lemma ConcreteTotal(s: PoolSpec)
    ensures Calculate(s).report.concreteTotalM3
         == Calculate(s).report.floorConcreteM3 + Calculate(s).report.wallConcreteM3
    ensures s.wallThickness == 0.0 && s.floorThickness == 0.0
      ==> Calculate(s).report.concreteTotalM3 == 0.0
  {
  }

  /** With all three thicknesses zero, the excavation is the water box of the adults depth and no concrete is needed. */
  lemma ZeroThicknesses(s: PoolSpec)
    requires s.wallThickness == 0.0 && s.floorThickness == 0.0 && s.soilThickness == 0.0
    ensures Calculate(s).report.excavationVolumeM3 == s.length * s.width * s.depthAdults
    ensures Calculate(s).report.concreteTotalM3 == 0.0
  {
    ExcavationIsOuterBox(s);
    ConcreteTotal(s);
  }

  /** The floor slab grows with the wall thickness, since the slab covers the outer footprint. */
  lemma FloorConcreteMonotoneInWall(s: PoolSpec, w1: real, w2: real)
    requires NonNegative(s)
    requires 0.0 <= w1 <= w2
    ensures FloorConcrete(s.(wallThickness := w1)) <= FloorConcrete(s.(wallThickness := w2))
  {
    var l1, l2 := s.length + 2.0 * w1, s.length + 2.0 * w2;
    var b1, b2 := s.width + 2.0 * w1, s.width + 2.0 * w2;
    ProductLe(l1, b1, l2, b2);
    NonNegProduct(l1, b1);
    ProductLe(l1 * b1, s.floorThickness, l2 * b2, s.floorThickness);
  }

  /** The walls grow with their own thickness. */
  lemma WallConcreteMonotoneInWall(s: PoolSpec, w1: real, w2: real)
    requires NonNegative(s)
    requires 0.0 <= w1 <= w2
    ensures WallConcrete(s.(wallThickness := w1)) <= WallConcrete(s.(wallThickness := w2))
  {
    var p := InnerPerimeter(s);
    ProductLe(p, w1, p, w2);
    NonNegProduct(p, w1);
    ProductLe(p * w1, s.depthAdults + s.floorThickness, p * w2, s.depthAdults + s.floorThickness);
  }

  /** Thicker walls never need less concrete. */
  lemma ConcreteMonotoneInWall(s: PoolSpec, w1: real, w2: real)
    requires NonNegative(s)
    requires 0.0 <= w1 <= w2
    ensures Calculate(s.(wallThickness := w1)).report.concreteTotalM3
         <= Calculate(s.(wallThickness := w2)).report.concreteTotalM3
  {
    FloorConcreteMonotoneInWall(s, w1, w2);
    WallConcreteMonotoneInWall(s, w1, w2);
    var s1, s2 := s.(wallThickness := w1), s.(wallThickness := w2);
    assert Validate(s1).spec == s.(kidsZoneLength := ClampKidsZone(s.kidsZoneLength, s.length)).(wallThickness := w1);
    assert Validate(s2).spec == s.(kidsZoneLength := ClampKidsZone(s.kidsZoneLength, s.length)).(wallThickness := w2);
    assert FloorConcrete(Validate(s1).spec) == FloorConcrete(s1);
    assert FloorConcrete(Validate(s2).spec) == FloorConcrete(s2);
    assert WallConcrete(Validate(s1).spec) == WallConcrete(s1);
    assert WallConcrete(Validate(s2).spec) == WallConcrete(s2);
  }

  /** A thicker floor slab never needs less concrete. */
  lemma ConcreteMonotoneInFloor(s: PoolSpec, f1: real, f2: real)
    requires NonNegative(s)
    requires 0.0 <= f1 <= f2
    ensures Calculate(s.(floorThickness := f1)).report.concreteTotalM3
         <= Calculate(s.(floorThickness := f2)).report.concreteTotalM3
  {
    var s1 := s.(floorThickness := f1);
    var s2 := s.(floorThickness := f2);
    var box, p := OuterLength(s) * OuterWidth(s), InnerPerimeter(s) * s.wallThickness;
    NonNegProduct(OuterLength(s), OuterWidth(s));
    ProductLe(box, f1, box, f2);
    assert FloorConcrete(s1) <= FloorConcrete(s2);
    NonNegProduct(InnerPerimeter(s), s.wallThickness);
    ProductLe(p, s.depthAdults + f1, p, s.depthAdults + f2);
    assert WallConcrete(s1) <= WallConcrete(s2);
    assert Calculate(s1).report == Report(Validate(s1).spec);
    assert Calculate(s2).report == Report(Validate(s2).spec);
  }

  // ---------------------------------------------------------------------------
  // Worked examples
  // ---------------------------------------------------------------------------

  /** The form's default design, whose kids zone is 30% of the 7.25 m length. */
  lemma DefaultDesignExample()
    ensures FormDefaults(7.25).kidsZoneLength == 2.175
    ensures var o := Calculate(FormDefaults(7.25));
      && o.advisories == []
      && o.report.adultsZoneLength == 5.075
      && o.report.waterVolumeM3 == 41.596875
      && o.report.waterVolumeL == 41596.875
  {
  }

  /** A kids zone supplied longer than the pool is clamped to it and fills the whole pool. */
  lemma ClampedDesignExample()
    ensures var o := Calculate(PoolSpec(7.25, 4.25, 1.00, 1.50, 10.0, 0.25, 0.30, 0.50));
      && o.advisories == [KidsZoneClamped]
      && o.report.kidsZoneLength == 7.25
      && o.report.adultsZoneLength == 0.0
      && o.report.waterVolumeM3 == 30.8125
  {
  }
}
