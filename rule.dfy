/**
 * The placement rules of src/entities/rule.ts: the `Rule` object with its
 * mutable triggered flag, the numeric and field predicates, the two
 * layer-scanning combinators, and the catalogue the editor installs.
 *
 * A rule's callback is a closure in the source; here it is the tagged value
 * `Check`, and `Triggers` says what each tag decides. Layer groups are named
 * by `GroupName` and looked up in the `World` at evaluation time, because the
 * source's closures capture live layer groups whose content changes.
 */
module Rules {
  import opened Wrappers
  import opened Geometry

  /** A configured severity, 0..3. */
  type Level = x: int | 0 <= x <= 3

  const MaxSqmForEntity: real := 1500.0
  const MaxPowerNeed: real := 7000.0
  const MaxPointsBeforeWarning: nat := 8

  /** Constants of the allowed-area power law. */
  const InitialExtra: real := 0.5

  datatype Position = Position(lng: real, lat: real)

  /**
   * What the rules read of a map entity. `shape` is the entity's own GeoJSON
   * feature, `outerRing` the first ring of its polygon's coordinates, and
   * `buffer` the first feature of its buffer layer when it has one.
   */
  datatype Entity = Entity(
    name: string,
    description: string,
    contactInfo: string,
    area: real,
    calculatedAreaNeeded: real,
    powerNeed: real,
    outerRing: seq<Position>,
    shape: Feature,
    buffer: Option<Feature>)

  /**
   * The layer groups the editor hands to the rules: five of the map's
   * groups, and `Placement`, the editor's own layer group of placed entity
   * layers (not the map's `placement` group, which also holds the buffers).
   */
  datatype GroupName = FireRoad | PropertyBorder | HighPrio | HiddenForbidden | Slope | Placement

  /**
   * Everything outside the entity that a verdict depends on: the current
   * content of each layer group, the geometry predicates, and the power term
   * `x ↦ x^-0.2` of the allowed-area formula.
   */
  datatype World = World(layers: GroupName -> LayerGroup, geometry: Predicates, power: real -> real)

  /** The predicate a rule applies; one tag per rule factory. */
  datatype Check =
    | TooBig
    | ManyCoordinates
    | LargeEnergyNeed
    | MissingFields
    | BiggerThanNeeded
    | SmallerThanNeeded
    | CalculatedAreaTooBig
    | Overlapping(group: GroupName)
    | BufferOverlapping(group: GroupName)
    | Boundaries(group: GroupName, shouldBeInside: bool)

  function Min(a: real, b: real): real { if a <= b then a else b }
  function Max(a: real, b: real): real { if a >= b then a else b }

  // ---------------------------------------------------------------------
  // Numeric thresholds and field checks

  predicate IsTooBig(e: Entity) { e.area > MaxSqmForEntity }

  predicate HasManyCoordinates(e: Entity) { |e.outerRing| > MaxPointsBeforeWarning }

  predicate HasLargeEnergyNeed(e: Entity) { e.powerNeed > MaxPowerNeed }

  /** A field is missing when it is empty (JavaScript's falsy string). */
  predicate HasMissingFields(e: Entity)
  {
    |e.name| == 0 || |e.description| == 0 || |e.contactInfo| == 0
  }

  predicate IsCalculatedAreaTooBig(e: Entity) { e.calculatedAreaNeeded > MaxSqmForEntity }

  /**
   * The area an entity may take for a calculated need: the need plus an extra
   * fraction `0.5 * need^-0.2` clamped to [0, 0.5], capped at the maximum.
   * `power` stands for `need ↦ Math.pow(need, -0.2)`.
   */
  function CalculateAllowedArea(calculatedNeed: real, power: real -> real): (allowed: real)
    ensures allowed <= MaxSqmForEntity
    ensures calculatedNeed >= 0.0 ==>
      Min(calculatedNeed, MaxSqmForEntity) <= allowed <= Min(calculatedNeed * (1.0 + InitialExtra), MaxSqmForEntity)
  {
    var additionalArea := InitialExtra * power(calculatedNeed);
    var clamped := Max(0.0, Min(additionalArea, InitialExtra));
    ExtraBounds(calculatedNeed, clamped);
    MinMonotone(calculatedNeed * (1.0 + clamped), calculatedNeed * (1.0 + InitialExtra), MaxSqmForEntity);
    Min(calculatedNeed * (1.0 + clamped), MaxSqmForEntity)
  }

  /** Scaling a non-negative need by a factor in [1, 1 + InitialExtra] stays between the two ends. */
  lemma ExtraBounds(need: real, extra: real)
    requires 0.0 <= extra <= InitialExtra
    ensures need >= 0.0 ==> need <= need * (1.0 + extra) <= need * (1.0 + InitialExtra)
  {
  }

  lemma MinMonotone(a: real, b: real, c: real)
    ensures a <= b ==> Min(a, c) <= Min(b, c)
  {
  }

  /**
   * For a negative need the source's power term is NaN, so the allowed area
   * is NaN and the comparison is false: the rule never fires there.
   */
  predicate IsBiggerThanNeeded(e: Entity, power: real -> real)
  {
    e.calculatedAreaNeeded >= 0.0 && e.area > CalculateAllowedArea(e.calculatedAreaNeeded, power)
  }

  predicate IsSmallerThanNeeded(e: Entity) { e.area < e.calculatedAreaNeeded }

  // ---------------------------------------------------------------------
  // Layer-scanning combinators

  /**
   * The callback of `checkEntityBoundaries`: scans every feature of every
   * layer and answers `shouldBeInside` at the first one that contains the
   * entity, `!shouldBeInside` when none does.
   */
  method CheckEntityBoundaries(layers: LayerGroup, shape: Feature, shouldBeInside: bool, geo: Predicates)
    returns (verdict: bool)
    ensures AnyContains(layers, shape, geo) ==> verdict == shouldBeInside
    ensures !AnyContains(layers, shape, geo) ==> verdict == !shouldBeInside
  {
    var i := 0;
    while i < |layers|
      invariant 0 <= i <= |layers|
      invariant !ContainedWithin(layers, i, shape, geo)
    {
      var other := layers[i];
      if other.Collection? {
        var j := 0;
        while j < |other.features|
          invariant 0 <= j <= |other.features|
          invariant forall b :: 0 <= b < j ==> !geo.contains(other.features[b], shape)
        {
          if geo.contains(other.features[j], shape) {
            assert FeaturesOf(layers[i])[j] == other.features[j];
            return shouldBeInside;
          }
          j := j + 1;
        }
      } else if geo.contains(other.feature, shape) {
        assert FeaturesOf(layers[i])[0] == other.feature;
        return shouldBeInside;
      }
      i := i + 1;
    }
    return !shouldBeInside;
  }

  /**
   * `_isGeoJsonOverlappingLayergroup`: visits every layer; within a feature
   * collection it stops at the first overlapping feature. The flag is only
   * ever set, never reset.
   */
  method IsGeoJsonOverlappingLayerGroup(geoJson: Feature, layers: LayerGroup, geo: Predicates)
    returns (overlap: bool)
    ensures overlap <==> AnyOverlaps(geoJson, layers, geo)
  {
    overlap := false;
    var i := 0;
    while i < |layers|
      invariant 0 <= i <= |layers|
      invariant overlap <==> OverlapsWithin(geoJson, layers, i, geo)
    {
      var other := layers[i];
      ghost var before := overlap;
      if other.Collection? {
        var j := 0;
        while j < |other.features|
          invariant 0 <= j <= |other.features|
          invariant overlap == before
          invariant forall b :: 0 <= b < j ==> !geo.overlap(geoJson, other.features[b])
        {
          if geo.overlap(geoJson, other.features[j]) {
            assert FeaturesOf(layers[i])[j] == other.features[j];
            overlap := true;
            break;
          }
          j := j + 1;
        }
      } else if geo.overlap(geoJson, other.feature) {
        assert FeaturesOf(layers[i])[0] == other.feature;
        overlap := true;
      }
      assert before ==> overlap;
      i := i + 1;
    }
  }

  // ---------------------------------------------------------------------
  // Verdicts

  /** The verdict of the callback tagged `check` on entity `e`. */
  ghost predicate Triggers(check: Check, e: Entity, world: World)
  {
    match check
    case TooBig => IsTooBig(e)
    case ManyCoordinates => HasManyCoordinates(e)
    case LargeEnergyNeed => HasLargeEnergyNeed(e)
    case MissingFields => HasMissingFields(e)
    case BiggerThanNeeded => IsBiggerThanNeeded(e, world.power)
    case SmallerThanNeeded => IsSmallerThanNeeded(e)
    case CalculatedAreaTooBig => IsCalculatedAreaTooBig(e)
    case Overlapping(g) => AnyOverlaps(e.shape, world.layers(g), world.geometry)
    case BufferOverlapping(g) =>
      e.buffer.Some? && AnyOverlaps(e.buffer.value, world.layers(g), world.geometry)
    case Boundaries(g, inside) => AnyContains(world.layers(g), e.shape, world.geometry) == inside
  }

  /** The configuration of one rule: what a factory passes to the `Rule` constructor. */
  datatype RuleSpec = RuleSpec(level: Level, shortMessage: string, message: string, check: Check)

  class Rule {
    const level: Level
    const shortMessage: string
    const message: string
    const check: Check
    var triggered: bool

    constructor (level: Level, shortMessage: string, message: string, check: Check)
      ensures this.level == level && this.shortMessage == shortMessage
      ensures this.message == message && this.check == check
      ensures !triggered && Severity() == 0
    {
      this.level := level;
      this.shortMessage := shortMessage;
      this.message := message;
      this.check := check;
      triggered := false;
    }

    /** The reported severity: the configured level while triggered, 0 otherwise. */
    function Severity(): (s: Level)
      reads this
      ensures s <= level
      ensures triggered ==> s == level
      ensures s != 0 ==> triggered
    {
      if triggered then level else 0
    }

    /** The configuration the rule was built with (constant fields only). */
    function Spec(): RuleSpec
    {
      RuleSpec(level, shortMessage, message, check)
    }

    /** Overwrites the triggered flag with the verdict of the rule's predicate on `e`. */
    method CheckRule(e: Entity, world: World)
      modifies this
      ensures triggered == Triggers(check, e, world)
      ensures Severity() == if Triggers(check, e, world) then level else 0
    {
      var verdict: bool;
      match check {
        case TooBig => verdict := IsTooBig(e);
        case ManyCoordinates => verdict := HasManyCoordinates(e);
        case LargeEnergyNeed => verdict := HasLargeEnergyNeed(e);
        case MissingFields => verdict := HasMissingFields(e);
        case BiggerThanNeeded => verdict := IsBiggerThanNeeded(e, world.power);
        case SmallerThanNeeded => verdict := IsSmallerThanNeeded(e);
        case CalculatedAreaTooBig => verdict := IsCalculatedAreaTooBig(e);
        case Overlapping(g) =>
          verdict := IsGeoJsonOverlappingLayerGroup(e.shape, world.layers(g), world.geometry);
        case BufferOverlapping(g) =>
          if e.buffer.None? {
            verdict := false;
          } else {
            verdict := IsGeoJsonOverlappingLayerGroup(e.buffer.value, world.layers(g), world.geometry);
          }
        case Boundaries(g, inside) =>
          verdict := CheckEntityBoundaries(world.layers(g), e.shape, inside, world.geometry);
      }
      triggered := verdict;
    }
  }

  // ---------------------------------------------------------------------
  // The catalogue

  // The texts the rules display. They are named constants so that the
  // verifier never has to unfold the long literals.

  const TooBigShort: string := "Too big!"
  const TooBigMessage: string := "Area is too big! Max size for one area is 500 m². Add another so that a fire safety buffer is created in between."
  const ManyPointsShort: string := "Many points."
  const ManyPointsMessage: string := "You have added many points to this shape. Bear in mind that you will have to set this shape up in reality as well :)"
  const PowerfulShort: string := "Powerful."
  const PowerfulMessage: string := "You need a lot of power, make sure its not a typo."
  const MissingInfoShort: string := "Missing info"
  const MissingInfoMessage: string := "Fill in name and description please."
  const TooManyShort: string := "Too many ppl/vehicles!"
  const TooManyMessage: string := "Calculated area need is bigger than the maximum allowed area size! Make another area to fix this."
  const BiggerShort: string := "Bigger than needed."
  const BiggerMessage: string := "Are you aware that the area is much bigger than the calculated need?"
  const TooSmallShort: string := "Too small."
  const TooSmallMessage: string := "Are you aware that the area is smaller than the calculated need? Consider making it larger."
  const FireRoadShort: string := "Watch the fireroad!"
  const FireRoadMessage: string := "This area is overlapping a fire road, adjust the placement plz <3"
  const TooCloseShort: string := "Too close!"
  const TooCloseMessage: string := "Fire safety distance warning! The dotted line can not touch another area."
  const OutsideBorderShort: string := "Outside border."
  const OutsideBorderMessage: string := "You have placed yourself outside our land, please fix that <3"
  const OutsidePlacementShort: string := "Outside placement areas."
  const OutsidePlacementMessage: string := "You are outside the placement area (yellow border)!"
  const ForbiddenShort: string := "Inside forbidden zone!"
  const ForbiddenMessage: string := "You are inside a zone that can not be used this year."
  const SlopeShort: string := "Slopey!"
  const SlopeMessage: string := "Your area are in slopey and uneven terrain, make sure to check the slope map layer to make sure that you know what you are doing :)"

  // One factory per rule kind: the configuration it hands to the `Rule` constructor.

  function TooBigRule(): RuleSpec { RuleSpec(3, TooBigShort, TooBigMessage, TooBig) }

  function ManyCoordinatesRule(): RuleSpec { RuleSpec(1, ManyPointsShort, ManyPointsMessage, ManyCoordinates) }

  function LargeEnergyNeedRule(): RuleSpec { RuleSpec(1, PowerfulShort, PowerfulMessage, LargeEnergyNeed) }

  function MissingFieldsRule(): RuleSpec { RuleSpec(2, MissingInfoShort, MissingInfoMessage, MissingFields) }

  function CalculatedAreaTooBigRule(): RuleSpec { RuleSpec(3, TooManyShort, TooManyMessage, CalculatedAreaTooBig) }

  function BiggerThanNeededRule(): RuleSpec { RuleSpec(2, BiggerShort, BiggerMessage, BiggerThanNeeded) }

  function SmallerThanNeededRule(): RuleSpec { RuleSpec(2, TooSmallShort, TooSmallMessage, SmallerThanNeeded) }

  function OverlappingRule(group: GroupName, level: Level, shortMessage: string, message: string): RuleSpec
  {
    RuleSpec(level, shortMessage, message, Overlapping(group))
  }

  function BufferOverlappingRule(group: GroupName, level: Level, shortMessage: string, message: string): RuleSpec
  {
    RuleSpec(level, shortMessage, message, BufferOverlapping(group))
  }

  function EntityBoundariesRule(group: GroupName, level: Level, shortMessage: string, message: string, shouldBeInside: bool): RuleSpec
  {
    RuleSpec(level, shortMessage, message, Boundaries(group, shouldBeInside))
  }

  function InsideBoundariesRule(group: GroupName, level: Level, shortMessage: string, message: string): RuleSpec
  {
    EntityBoundariesRule(group, level, shortMessage, message, true)
  }

  function NotInsideBoundariesRule(group: GroupName, level: Level, shortMessage: string, message: string): RuleSpec
  {
    EntityBoundariesRule(group, level, shortMessage, message, false)
  }

  /** The fourteen rules the editor installs, in the order it lists them. */
  function EditorCatalogue(): seq<RuleSpec>
  {
    [ TooBigRule(),
      ManyCoordinatesRule(),
      LargeEnergyNeedRule(),
      MissingFieldsRule(),
      BiggerThanNeededRule(),
      SmallerThanNeededRule(),
      CalculatedAreaTooBigRule(),
      OverlappingRule(FireRoad, 3, FireRoadShort, FireRoadMessage),
      BufferOverlappingRule(Placement, 3, TooCloseShort, TooCloseMessage),
      NotInsideBoundariesRule(PropertyBorder, 3, OutsideBorderShort, OutsideBorderMessage),
      NotInsideBoundariesRule(HighPrio, 2, OutsidePlacementShort, OutsidePlacementMessage),
      InsideBoundariesRule(HiddenForbidden, 3, ForbiddenShort, ForbiddenMessage),
      OverlappingRule(Slope, 1, SlopeShort, SlopeMessage),
      InsideBoundariesRule(Slope, 1, SlopeShort, SlopeMessage) ]
  }

  /** Constructs a fresh, untriggered rule from a factory's configuration. */
  method NewRule(spec: RuleSpec) returns (r: Rule)
    ensures fresh(r) && r.Spec() == spec && !r.triggered
  {
    r := new Rule(spec.level, spec.shortMessage, spec.message, spec.check);
  }

  /**
   * The rule generator the editor hands to its repository: every call yields
   * fourteen new rule objects, untriggered, configured as the catalogue says.
   */
  method GenerateRulesForEditor() returns (rules: seq<Rule>)
    ensures |rules| == 14 == |EditorCatalogue()|
    ensures forall i :: 0 <= i < 14 ==> rules[i].Spec() == EditorCatalogue()[i]
    ensures forall i :: 0 <= i < 14 ==> fresh(rules[i]) && !rules[i].triggered
    ensures forall i, j :: 0 <= i < j < 14 ==> rules[i] != rules[j]
  {
    var r0 := NewRule(TooBigRule());
    var r1 := NewRule(ManyCoordinatesRule());
    var r2 := NewRule(LargeEnergyNeedRule());
    var r3 := NewRule(MissingFieldsRule());
    var r4 := NewRule(BiggerThanNeededRule());
    var r5 := NewRule(SmallerThanNeededRule());
    var r6 := NewRule(CalculatedAreaTooBigRule());
    var r7 := NewRule(OverlappingRule(FireRoad, 3, FireRoadShort, FireRoadMessage));
    var r8 := NewRule(BufferOverlappingRule(Placement, 3, TooCloseShort, TooCloseMessage));
    var r9 := NewRule(NotInsideBoundariesRule(PropertyBorder, 3, OutsideBorderShort, OutsideBorderMessage));
    var r10 := NewRule(NotInsideBoundariesRule(HighPrio, 2, OutsidePlacementShort, OutsidePlacementMessage));
    var r11 := NewRule(InsideBoundariesRule(HiddenForbidden, 3, ForbiddenShort, ForbiddenMessage));
    var r12 := NewRule(OverlappingRule(Slope, 1, SlopeShort, SlopeMessage));
    var r13 := NewRule(InsideBoundariesRule(Slope, 1, SlopeShort, SlopeMessage));
    rules := [r0, r1, r2, r3, r4, r5, r6, r7, r8, r9, r10, r11, r12, r13];
  }

  // ---------------------------------------------------------------------
  // Properties of the catalogue's predicates

  /** The first seven installed rules: their levels and the thresholds they fire at. */
  lemma CatalogueThresholds(e: Entity, world: World)
    ensures var c := EditorCatalogue();
      && c[0].level == 3 && (Triggers(c[0].check, e, world) <==> e.area > 1500.0)
      && c[1].level == 1 && (Triggers(c[1].check, e, world) <==> |e.outerRing| > 8)
      && c[2].level == 1 && (Triggers(c[2].check, e, world) <==> e.powerNeed > 7000.0)
      && c[3].level == 2 && (Triggers(c[3].check, e, world) <==> e.name == [] || e.description == [] || e.contactInfo == [])
      && c[4].level == 2 && (Triggers(c[4].check, e, world) <==> IsBiggerThanNeeded(e, world.power))
      && c[5].level == 2 && (Triggers(c[5].check, e, world) <==> e.area < e.calculatedAreaNeeded)
      && c[6].level == 3 && (Triggers(c[6].check, e, world) <==> e.calculatedAreaNeeded > 1500.0)
  {
    var c := EditorCatalogue();
    assert c[0] == TooBigRule() && c[1] == ManyCoordinatesRule() && c[2] == LargeEnergyNeedRule();
    assert c[3] == MissingFieldsRule() && c[4] == BiggerThanNeededRule();
    assert c[5] == SmallerThanNeededRule() && c[6] == CalculatedAreaTooBigRule();
  }

  /** The last seven installed rules: their levels and the layer groups they test. */
  lemma CatalogueGeometry(e: Entity, world: World)
    ensures var c := EditorCatalogue();
      var geo := world.geometry;
      && c[7].level == 3 && (Triggers(c[7].check, e, world) <==> AnyOverlaps(e.shape, world.layers(FireRoad), geo))
      && c[8].level == 3 && (Triggers(c[8].check, e, world) <==>
           e.buffer.Some? && AnyOverlaps(e.buffer.value, world.layers(Placement), geo))
      && c[9].level == 3 && (Triggers(c[9].check, e, world) <==> !AnyContains(world.layers(PropertyBorder), e.shape, geo))
      && c[10].level == 2 && (Triggers(c[10].check, e, world) <==> !AnyContains(world.layers(HighPrio), e.shape, geo))
      && c[11].level == 3 && (Triggers(c[11].check, e, world) <==> AnyContains(world.layers(HiddenForbidden), e.shape, geo))
      && c[12].level == 1 && (Triggers(c[12].check, e, world) <==> AnyOverlaps(e.shape, world.layers(Slope), geo))
      && c[13].level == 1 && (Triggers(c[13].check, e, world) <==> AnyContains(world.layers(Slope), e.shape, geo))
  {
    var c := EditorCatalogue();
    assert c[7].check == Overlapping(FireRoad) && c[8].check == BufferOverlapping(Placement);
    assert c[9].check == Boundaries(PropertyBorder, false) && c[10].check == Boundaries(HighPrio, false);
    assert c[11].check == Boundaries(HiddenForbidden, true);
    assert c[12].check == Overlapping(Slope) && c[13].check == Boundaries(Slope, true);
  }

  /** A negative calculated need never makes an entity "bigger than needed". */
  lemma NegativeNeedNeverBiggerThanNeeded(e: Entity, power: real -> real)
    requires e.calculatedAreaNeeded < 0.0
    ensures !IsBiggerThanNeeded(e, power)
  {
  }

  /** An entity over the maximum size is always bigger than needed, whatever its (non-negative) need. */
  lemma TooBigIsBiggerThanNeeded(e: Entity, power: real -> real)
    requires e.calculatedAreaNeeded >= 0.0
    ensures IsTooBig(e) ==> IsBiggerThanNeeded(e, power)
  {
  }

  /** Within the allowed range of needs, an area cannot be both bigger and smaller than needed. */
  lemma BiggerAndSmallerExclusive(e: Entity, power: real -> real)
    requires 0.0 <= e.calculatedAreaNeeded <= MaxSqmForEntity
    ensures !(IsBiggerThanNeeded(e, power) && IsSmallerThanNeeded(e))
  {
  }

  /** Once the need reaches the cap, "bigger than needed" is exactly "too big". */
  lemma BiggerThanNeededAtCap(e: Entity, power: real -> real)
    requires e.calculatedAreaNeeded >= MaxSqmForEntity
    ensures IsBiggerThanNeeded(e, power) <==> IsTooBig(e)
  {
  }

  /** A need above the cap and an area covering it make the entity too big. */
  lemma CalculatedTooBigAndNotSmallerIsTooBig(e: Entity)
    ensures IsCalculatedAreaTooBig(e) && !IsSmallerThanNeeded(e) ==> IsTooBig(e)
  {
  }

  /** `isInsideBoundaries` and `isNotInsideBoundaries` on one group always disagree. */
  lemma BoundaryRulesComplementary(g: GroupName, e: Entity, world: World)
    ensures Triggers(Boundaries(g, true), e, world) == !Triggers(Boundaries(g, false), e, world)
  {
  }

  /** Without a buffer layer the fire-safety rule cannot trigger. */
  lemma NoBufferNoBufferOverlap(g: GroupName, e: Entity, world: World)
    requires e.buffer.None?
    ensures !Triggers(BufferOverlapping(g), e, world)
  {
  }
}
