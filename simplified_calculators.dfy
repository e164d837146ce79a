/**
 * The simplified design heat load calculator: building elements with their
 * transmission heat loss, and the building that validates its inputs,
 * resolves its shared values in place and builds its elements.
 *
 * Each class is proved against pure specification functions: `ElementSpec`
 * says what constructing an element yields (its values or the exception),
 * `BuildingSpec` what constructing a building yields.
 */
module SimplifiedCalculators {
  import opened Outcomes
  import opened Din12831Data

  // ---------------------------------------------------------------------
  // Formulas
  // ---------------------------------------------------------------------

  /** Fixed volumetric heat capacity of air, Wh/(m3 K). */
  const RHO_CP: real := 0.34

  /** Design transmission heat loss of one element, W. */
  function TransmissionLoss(aK: real, uK: real, deltaUtb: real, fX: real, thetaInt: real, thetaE: real): real
  {
    aK * (uK + deltaUtb) * fX * (thetaInt - thetaE)
  }

  /** Design ventilation heat loss, W, for a given temperature difference. */
  function VentilationLoss(vBuild: real, nBuild: real, thetaInt: real, thetaE: real): real
  {
    vBuild * nBuild * RHO_CP * (thetaInt - thetaE)
  }

  /** Design heat load: transmission plus ventilation loss, W. */
  function DesignHeatLoss(transmissionLoss: real, ventilationLoss: real): real
  {
    transmissionLoss + ventilationLoss
  }

  // ---------------------------------------------------------------------
  // Building elements
  // ---------------------------------------------------------------------

  /**
   * The dictionary an element is built from. Every key is read with
   * `dict.get`, so a missing key and a `None` value are both `None` here.
   * `buildYear` is `None` also when the value is not an int.
   */
  datatype ElementData = ElementData(
    aK: Option<real>,
    uK: Option<real>,
    fX: Option<real>,
    beAdjacentTo: Option<string>,
    beType: Option<string>,
    beSubType: Option<string>,
    buildYear: Option<int>,
    deltaUtb: Option<real>,
    thetaIntBuild: Option<real>,
    thetaE: Option<real>)

  /** The state of a constructed element. */
  datatype ElementValues = ElementValues(
    aK: real,
    uK: real,
    fX: real,
    beAdjacentTo: Option<string>,
    beType: Option<string>,
    beSubType: Option<string>,
    buildYear: int,
    deltaUtb: real,
    thetaIntBuild: real,
    thetaE: real,
    designTransmissionLoss: real)

  /**
   * The element's value checks, in source order; `None` when all pass.
   * Each check is reached only when the earlier ones pass.
   */
  function ValidateElement(d: ElementData): (r: Option<Error>)
    ensures r == Some(TypeError(BuildYearNotInt)) <==> d.buildYear.None?
    ensures r == Some(ValueError(AreaNotPositive)) <==>
              d.buildYear.Some? && (d.aK.None? || d.aK.value <= 0.0)
    ensures r == Some(ValueError(NoUValueSource)) <==>
              d.buildYear.Some? && d.aK.Some? && d.aK.value > 0.0 &&
              d.uK.None? && (d.beSubType.None? || d.beType.None?)
    ensures r == Some(ValueError(NoCorrectionFactorSource)) <==>
              d.buildYear.Some? && d.aK.Some? && d.aK.value > 0.0 &&
              (d.uK.Some? || (d.beSubType.Some? && d.beType.Some?)) &&
              d.fX.None? && d.beAdjacentTo.None?
    ensures r.None? <==>
              d.buildYear.Some? && d.aK.Some? && d.aK.value > 0.0 &&
              (d.uK.Some? || (d.beSubType.Some? && d.beType.Some?)) &&
              (d.fX.Some? || d.beAdjacentTo.Some?)
  {
    if d.buildYear.None? then Some(TypeError(BuildYearNotInt))
    else if d.aK.None? || d.aK.value <= 0.0 then Some(ValueError(AreaNotPositive))
    else if d.uK.None? && (d.beSubType.None? || d.beType.None?) then Some(ValueError(NoUValueSource))
    else if d.fX.None? && d.beAdjacentTo.None? then Some(ValueError(NoCorrectionFactorSource))
    else None
  }

  /** U-value from the override hook, else from table B.15. */
  function UValueStatic(beType: string, beSubType: string, buildYear: int): (r: Result<Option<real>>)
    ensures r == UValueB43(beType, beSubType, buildYear)
  {
    match NationalUValue()
    case Some(u) => Ok(Some(u))
    case None => UValueB43(beType, beSubType, buildYear)
  }

  /** Temperature correction factor from the override hook, else from table B.11. */
  function TemperatureCorrectionStatic(beAdjacentTo: string): (r: Result<real>)
    ensures r == TemperatureCorrectionFactorB33(beAdjacentTo)
  {
    match NationalTemperatureCorrectionFactor()
    case Some(f) => Ok(f)
    case None => TemperatureCorrectionFactorB33(beAdjacentTo)
  }

  /** The U-value an element ends up with: the supplied one, else the resolved one. */
  function ResolveUValue(d: ElementData): (r: Result<Option<real>>)
    requires ValidateElement(d).None?
    ensures d.uK.Some? ==> r == Ok(d.uK)
    ensures d.uK.None? ==> r == UValueB43(d.beType.value, d.beSubType.value, d.buildYear.value)
  {
    if d.uK.Some? then Ok(d.uK)
    else UValueStatic(d.beType.value, d.beSubType.value, d.buildYear.value)
  }

  /** The correction factor an element ends up with: the supplied one, else the resolved one. */
  function ResolveCorrectionFactor(d: ElementData): (r: Result<real>)
    requires ValidateElement(d).None?
    ensures d.fX.Some? ==> r == Ok(d.fX.value)
    ensures d.fX.None? ==> r == TemperatureCorrectionFactorB33(d.beAdjacentTo.value)
  {
    if d.fX.Some? then Ok(d.fX.value)
    else TemperatureCorrectionStatic(d.beAdjacentTo.value)
  }

  /**
   * What constructing an element yields: the checks first, then the U-value,
   * then the correction factor, then the loss, whose arithmetic fails on a
   * `None` operand.
   */
  function ElementSpec(d: ElementData): Result<ElementValues>
  {
    match ValidateElement(d)
    case Some(e) => Err(e)
    case None =>
      match ResolveUValue(d)
      case Err(e) => Err(e)
      case Ok(u) =>
        match ResolveCorrectionFactor(d)
        case Err(e) => Err(e)
        case Ok(f) =>
          if u.None? || d.deltaUtb.None? || d.thetaIntBuild.None? || d.thetaE.None? then
            Err(TypeError(NoneOperand))
          else
            Ok(ElementValues(
              d.aK.value, u.value, f, d.beAdjacentTo, d.beType, d.beSubType, d.buildYear.value,
              d.deltaUtb.value, d.thetaIntBuild.value, d.thetaE.value,
              TransmissionLoss(d.aK.value, u.value, d.deltaUtb.value, f, d.thetaIntBuild.value, d.thetaE.value)))
  }

  /** A building element; its state does not change after construction. */
  class BuildingElement {
    const aK: real
    const uK: real
    const fX: real
    const beAdjacentTo: Option<string>
    const beType: Option<string>
    const beSubType: Option<string>
    const buildYear: int
    const deltaUtb: real
    const thetaIntBuild: real
    const thetaE: real
    const designTransmissionLoss: real

    /** The element's state as a value. */
    function Values(): ElementValues
    {
      ElementValues(aK, uK, fX, beAdjacentTo, beType, beSubType, buildYear,
                    deltaUtb, thetaIntBuild, thetaE, designTransmissionLoss)
    }

    /** Stores resolved values and computes the transmission loss from them. */
    constructor (aK: real, uK: real, fX: real, beAdjacentTo: Option<string>, beType: Option<string>,
                 beSubType: Option<string>, buildYear: int, deltaUtb: real, thetaIntBuild: real, thetaE: real)
      ensures Values() == ElementValues(aK, uK, fX, beAdjacentTo, beType, beSubType, buildYear, deltaUtb,
                                        thetaIntBuild, thetaE, TransmissionLoss(aK, uK, deltaUtb, fX, thetaIntBuild, thetaE))
    {
      this.aK := aK;
      this.uK := uK;
      this.fX := fX;
      this.beAdjacentTo := beAdjacentTo;
      this.beType := beType;
      this.beSubType := beSubType;
      this.buildYear := buildYear;
      this.deltaUtb := deltaUtb;
      this.thetaIntBuild := thetaIntBuild;
      this.thetaE := thetaE;
      this.designTransmissionLoss := TransmissionLoss(aK, uK, deltaUtb, fX, thetaIntBuild, thetaE);
    }

    /**
     * Builds an element from its dictionary: runs the checks, keeps a
     * supplied U-value and correction factor and looks up the missing ones,
     * then computes the loss. Raises what `ElementSpec` says.
     */
    static method Create(d: ElementData) returns (r: Result<BuildingElement>)
      ensures r.Err? ==> ElementSpec(d) == Err(r.error)
      ensures r.Ok? ==> fresh(r.value) && ElementSpec(d) == Ok(r.value.Values())
    {
      var check := ValidateElement(d);
      if check.Some? {
        return Err(check.value);
      }
      var uK := d.uK;
      if uK.None? {
        var looked := UValueStatic(d.beType.value, d.beSubType.value, d.buildYear.value);
        if looked.Err? {
          return Err(looked.error);
        }
        uK := looked.value;
      }
      var fX: real;
      if d.fX.Some? {
        fX := d.fX.value;
      } else {
        var looked := TemperatureCorrectionStatic(d.beAdjacentTo.value);
        if looked.Err? {
          return Err(looked.error);
        }
        fX := looked.value;
      }
      if uK.None? || d.deltaUtb.None? || d.thetaIntBuild.None? || d.thetaE.None? {
        return Err(TypeError(NoneOperand));
      }
      var element := new BuildingElement(d.aK.value, uK.value, fX, d.beAdjacentTo, d.beType, d.beSubType,
                                         d.buildYear.value, d.deltaUtb.value, d.thetaIntBuild.value, d.thetaE.value);
      return Ok(element);
    }
  }

  /** The states of a sequence of elements. */
  function ValuesOf(elements: seq<BuildingElement>): (vs: seq<ElementValues>)
    ensures |vs| == |elements|
    ensures forall k :: 0 <= k < |elements| ==> vs[k] == elements[k].Values()
  {
    seq(|elements|, k requires 0 <= k < |elements| => elements[k].Values())
  }

  // ---------------------------------------------------------------------
  // Building
  // ---------------------------------------------------------------------

  /**
   * The dictionary a building is built from. Some keys are read by
   * subscript and some are tested for presence, so each key distinguishes
   * missing, `None` and a value.
   */
  datatype BuildingData = BuildingData(
    buildYear: Entry<int>,
    vBuild: Entry<real>,
    thetaE: Entry<real>,
    thetaIntBuild: Entry<real>,
    buildingType: Entry<string>,
    deltaUtb: Entry<real>,
    deltaUtbSelectionCriteria: Entry<string>,
    nBuild: Entry<real>,
    airTightnessLevel: Entry<string>,
    buildingElements: Entry<seq<ElementData>>)

  /** The building-level values every element receives, overriding its own keys. */
  datatype SharedValues = SharedValues(buildYear: Option<int>, deltaUtb: real, thetaIntBuild: real, thetaE: real)

  /** An element's dictionary merged with the building's shared values. */
  function Inject(d: ElementData, s: SharedValues): ElementData
  {
    d.(buildYear := s.buildYear, deltaUtb := Some(s.deltaUtb), thetaIntBuild := Some(s.thetaIntBuild), thetaE := Some(s.thetaE))
  }

  /** Constructing the elements in order; the first element that raises decides the error. */
  function ElementsSpec(ds: seq<ElementData>, s: SharedValues): Result<seq<ElementValues>>
  {
    if ds == [] then Ok([])
    else
      match ElementSpec(Inject(ds[0], s))
      case Err(e) => Err(e)
      case Ok(v) =>
        match ElementsSpec(ds[1..], s)
        case Err(e) => Err(e)
        case Ok(vs) => Ok([v] + vs)
  }

  /** The state of a constructed building. */
  datatype BuildingValues = BuildingValues(
    buildYear: Option<int>,
    vBuild: real,
    thetaE: real,
    thetaIntBuild: real,
    buildingType: Option<string>,
    deltaUtb: real,
    deltaUtbSelectionCriteria: Option<string>,
    nBuild: real,
    airTightnessLevel: Option<string>,
    buildingElements: seq<ElementValues>)

  /** The building's value checks, in source order; `None` when all pass. */
  function ValidateBuilding(d: BuildingData): (r: Option<Error>)
    ensures r.None? <==>
              && d.buildYear != Absent
              && d.vBuild.Given? && d.vBuild.value > 0.0
              && d.thetaE.Given?
              && (d.thetaIntBuild.Given? || d.buildingType.Given?)
              && d.buildingElements.Given? && |d.buildingElements.value| >= 1
              && (d.deltaUtb != Absent || d.deltaUtbSelectionCriteria != Absent)
    ensures d.buildYear == Absent ==> r == Some(KeyError("build_year"))
    ensures d.buildYear != Absent && d.vBuild == Absent ==> r == Some(KeyError("v__build"))
    ensures d.buildYear != Absent && d.vBuild != Absent && d.thetaE == Absent ==> r == Some(KeyError("theta__e"))
    // With the three subscripted keys present, each value check raises exactly
    // when the earlier ones pass and its own condition holds.
    ensures d.buildYear != Absent && d.vBuild != Absent && d.thetaE != Absent ==>
              (r == Some(ValueError(VolumeNotPositive)) <==> d.vBuild == Null || d.vBuild.value <= 0.0)
    ensures d.buildYear != Absent && d.vBuild.Given? && d.vBuild.value > 0.0 && d.thetaE != Absent ==>
              (r == Some(ValueError(NoExternalTemperature)) <==> d.thetaE == Null)
    ensures d.buildYear != Absent && d.vBuild.Given? && d.vBuild.value > 0.0 && d.thetaE.Given? ==>
              (r == Some(ValueError(NoInternalTemperatureSource)) <==>
                 d.thetaIntBuild.Get().None? && d.buildingType.Get().None?)
    ensures d.buildYear != Absent && d.vBuild.Given? && d.vBuild.value > 0.0 && d.thetaE.Given?
            && (d.thetaIntBuild.Given? || d.buildingType.Given?) ==>
              (r == Some(ValueError(NoBuildingElements)) <==>
                 !d.buildingElements.Given? || |d.buildingElements.value| < 1)
    ensures d.buildYear != Absent && d.vBuild.Given? && d.vBuild.value > 0.0 && d.thetaE.Given?
            && (d.thetaIntBuild.Given? || d.buildingType.Given?)
            && d.buildingElements.Given? && |d.buildingElements.value| >= 1 ==>
              (r == Some(ValueError(ThermalBridgeKeysAbsent)) <==>
                 d.deltaUtb == Absent && d.deltaUtbSelectionCriteria == Absent)
  {
    if d.buildYear == Absent then Some(KeyError("build_year"))
    else if d.vBuild == Absent then Some(KeyError("v__build"))
    else if d.thetaE == Absent then Some(KeyError("theta__e"))
    else if d.vBuild == Null || d.vBuild.value <= 0.0 then Some(ValueError(VolumeNotPositive))
    else if d.thetaE == Null then Some(ValueError(NoExternalTemperature))
    else if d.thetaIntBuild.Get().None? && d.buildingType.Get().None? then Some(ValueError(NoInternalTemperatureSource))
    else if !d.buildingElements.Given? || |d.buildingElements.value| < 1 then Some(ValueError(NoBuildingElements))
    else if d.thetaIntBuild == Absent && d.buildingType == Absent then Some(ValueError(InternalTemperatureKeysAbsent))
    else if d.deltaUtb == Absent && d.deltaUtbSelectionCriteria == Absent then Some(ValueError(ThermalBridgeKeysAbsent))
    else if d.nBuild == Absent && d.airTightnessLevel == Absent && d.buildYear == Absent then
      Some(ValueError(AirChangeKeysAbsent))
    else None
  }

  /** Thermal-bridge add-on from the override hook, else B.3.2 without a criterion, else table B.1. */
  function ThermalBridgeStatic(selectionCriteria: Option<string>): (r: Result<real>)
    ensures selectionCriteria.None? ==> r == Ok(0.1)
    ensures selectionCriteria.Some? ==> r == ThermalBridgesB21(selectionCriteria.value)
  {
    match NationalThermalBridges()
    case Some(v) => Ok(v)
    case None =>
      match selectionCriteria
      case None => Ok(ThermalBridgesB32())
      case Some(c) => ThermalBridgesB21(c)
  }

  /** Air-change rate from the override hook, else from table B.12. */
  function AirChangeRateStatic(buildYear: Option<int>, airTightnessLevel: Option<string>): (r: Result<real>)
    ensures r == AirChangeRateB34(buildYear, airTightnessLevel)
  {
    match NationalAirChangeRate()
    case Some(n) => Ok(n)
    case None => AirChangeRateB34(buildYear, airTightnessLevel)
  }

  /** Internal design temperature from the override hook, else from table B.14. */
  function InternalTemperatureStatic(buildingType: string): (r: Result<real>)
    ensures r == InternalDesignTemperatureB42(buildingType)
  {
    match NationalInternalDesignTemperature()
    case Some(t) => Ok(t)
    case None => InternalDesignTemperatureB42(buildingType)
  }

  /** The add-on a building ends up with: the supplied one, else the resolved one. */
  function ResolvedThermalBridge(deltaUtb: Option<real>, selectionCriteria: Option<string>): (r: Result<real>)
    ensures deltaUtb.Some? ==> r == Ok(deltaUtb.value)
    ensures deltaUtb.None? ==> r == ThermalBridgeStatic(selectionCriteria)
  {
    if deltaUtb.Some? then Ok(deltaUtb.value) else ThermalBridgeStatic(selectionCriteria)
  }

  /** The air-change rate a building ends up with: the supplied one, else the resolved one. */
  function ResolvedAirChangeRate(nBuild: Option<real>, buildYear: Option<int>, airTightnessLevel: Option<string>): (r: Result<real>)
    ensures nBuild.Some? ==> r == Ok(nBuild.value)
    ensures nBuild.None? ==> r == AirChangeRateB34(buildYear, airTightnessLevel)
  {
    if nBuild.Some? then Ok(nBuild.value) else AirChangeRateStatic(buildYear, airTightnessLevel)
  }

  /** The internal temperature a building ends up with: the supplied one, else the resolved one. */
  function ResolvedInternalTemperature(thetaIntBuild: Option<real>, buildingType: Option<string>): (r: Result<real>)
    requires thetaIntBuild.Some? || buildingType.Some?
    ensures thetaIntBuild.Some? ==> r == Ok(thetaIntBuild.value)
    ensures thetaIntBuild.None? ==> r == InternalDesignTemperatureB42(buildingType.value)
  {
    if thetaIntBuild.Some? then Ok(thetaIntBuild.value) else InternalTemperatureStatic(buildingType.value)
  }

  /**
   * What constructing a building yields: the checks, then the thermal-bridge
   * add-on, the air-change rate and the internal temperature, then the
   * elements built with the resolved shared values.
   */
  function BuildingSpec(d: BuildingData): Result<BuildingValues>
  {
    match ValidateBuilding(d)
    case Some(e) => Err(e)
    case None =>
      match ResolvedThermalBridge(d.deltaUtb.Get(), d.deltaUtbSelectionCriteria.Get())
      case Err(e) => Err(e)
      case Ok(delta) =>
        match ResolvedAirChangeRate(d.nBuild.Get(), d.buildYear.Get(), d.airTightnessLevel.Get())
        case Err(e) => Err(e)
        case Ok(n) =>
          match ResolvedInternalTemperature(d.thetaIntBuild.Get(), d.buildingType.Get())
          case Err(e) => Err(e)
          case Ok(thetaInt) =>
            match ElementsSpec(d.buildingElements.value, SharedValues(d.buildYear.Get(), delta, thetaInt, d.thetaE.value))
            case Err(e) => Err(e)
            case Ok(elements) =>
              Ok(BuildingValues(
                d.buildYear.Get(), d.vBuild.value, d.thetaE.value, thetaInt, d.buildingType.Get(), delta,
                d.deltaUtbSelectionCriteria.Get(), n, d.airTightnessLevel.Get(), elements))
  }

  /**
   * Ventilation loss of building `b`. Its volume and air-change rate are
   * `b`'s own, but the temperatures are those of `moduleInstance`, the
   * building instance created at module level.
   */
  function VentilationLossStatic(b: BuildingValues, moduleInstance: BuildingValues): (r: real)
    ensures r == VentilationLoss(b.vBuild, b.nBuild, moduleInstance.thetaIntBuild, moduleInstance.thetaE)
    ensures b.vBuild > 0.0 && b.nBuild > 0.0 && moduleInstance.thetaIntBuild > moduleInstance.thetaE ==> r > 0.0
    ensures moduleInstance.thetaIntBuild == moduleInstance.thetaE ==> r == 0.0
  {
    VentilationLoss(b.vBuild, b.nBuild, moduleInstance.thetaIntBuild, moduleInstance.thetaE)
  }

  /** A result of element construction prefixed with already built element states. */
  function Prepend(done: seq<ElementValues>, rest: Result<seq<ElementValues>>): Result<seq<ElementValues>>
  {
    match rest
    case Ok(vs) => Ok(done + vs)
    case Err(e) => Err(e)
  }

  /** Nothing built yet: the whole result is the remaining result. */
  lemma PrependStart(rest: Result<seq<ElementValues>>)
    ensures Prepend([], rest) == rest
  {
    match rest
    case Ok(vs) => assert [] + vs == vs;
    case Err(_) =>
  }

  /** Building the next element either raises its error or moves it into the done part. */
  lemma PrependStep(done: seq<ElementValues>, ds: seq<ElementData>, s: SharedValues)
    requires ds != []
    ensures ElementSpec(Inject(ds[0], s)).Err? ==>
              Prepend(done, ElementsSpec(ds, s)) == Err(ElementSpec(Inject(ds[0], s)).error)
    ensures ElementSpec(Inject(ds[0], s)).Ok? ==>
              Prepend(done, ElementsSpec(ds, s))
              == Prepend(done + [ElementSpec(Inject(ds[0], s)).value], ElementsSpec(ds[1..], s))
  {
    match ElementSpec(Inject(ds[0], s))
    case Err(e) =>
      assert ElementsSpec(ds, s) == Err(e);
    case Ok(v) =>
      match ElementsSpec(ds[1..], s)
      case Err(e) =>
        assert ElementsSpec(ds, s) == Err(e);
      case Ok(vs) =>
        assert ElementsSpec(ds, s) == Ok([v] + vs);
        assert done + ([v] + vs) == done + [v] + vs;
  }

  /** A building; its resolve methods overwrite the missing shared values in place. */
  class Building {
    var buildYear: Option<int>
    var vBuild: real
    var thetaE: real
    var thetaIntBuild: Option<real>
    var buildingType: Option<string>
    var deltaUtb: Option<real>
    var deltaUtbSelectionCriteria: Option<string>
    var nBuild: Option<real>
    var airTightnessLevel: Option<string>
    var elementData: seq<ElementData>
    var buildingElements: seq<BuildingElement>

    /** The three shared values have been resolved. */
    predicate Resolved()
      reads this
    {
      deltaUtb.Some? && nBuild.Some? && thetaIntBuild.Some?
    }

    /** The values every element inherits. */
    function Shared(): SharedValues
      reads this
      requires Resolved()
    {
      SharedValues(buildYear, deltaUtb.value, thetaIntBuild.value, thetaE)
    }

    /** The building's state as a value. */
    function Values(): BuildingValues
      reads this
      requires Resolved()
    {
      BuildingValues(buildYear, vBuild, thetaE, thetaIntBuild.value, buildingType, deltaUtb.value,
                     deltaUtbSelectionCriteria, nBuild.value, airTightnessLevel, ValuesOf(buildingElements))
    }

    /** Reads the dictionary's keys into the fields; the checks have passed. */
    constructor Load(d: BuildingData)
      requires ValidateBuilding(d).None?
      ensures buildYear == d.buildYear.Get() && vBuild == d.vBuild.value && thetaE == d.thetaE.value
      ensures thetaIntBuild == d.thetaIntBuild.Get() && buildingType == d.buildingType.Get()
      ensures deltaUtb == d.deltaUtb.Get() && deltaUtbSelectionCriteria == d.deltaUtbSelectionCriteria.Get()
      ensures nBuild == d.nBuild.Get() && airTightnessLevel == d.airTightnessLevel.Get()
      ensures elementData == d.buildingElements.value && buildingElements == []
    {
      buildYear := d.buildYear.Get();
      vBuild := d.vBuild.value;
      thetaE := d.thetaE.value;
      thetaIntBuild := d.thetaIntBuild.Get();
      buildingType := d.buildingType.Get();
      deltaUtb := d.deltaUtb.Get();
      deltaUtbSelectionCriteria := d.deltaUtbSelectionCriteria.Get();
      nBuild := d.nBuild.Get();
      airTightnessLevel := d.airTightnessLevel.Get();
      elementData := d.buildingElements.value;
      buildingElements := [];
    }

    /** Fills in the thermal-bridge add-on unless one was supplied. */
    method ResolveThermalBridge() returns (err: Option<Error>)
      modifies this`deltaUtb
      ensures match ResolvedThermalBridge(old(deltaUtb), deltaUtbSelectionCriteria)
              case Ok(v) => err.None? && deltaUtb == Some(v)
              case Err(e) => err == Some(e) && deltaUtb == old(deltaUtb)
    {
      if deltaUtb.None? {
        var resolved := ThermalBridgeStatic(deltaUtbSelectionCriteria);
        if resolved.Err? {
          return Some(resolved.error);
        }
        deltaUtb := Some(resolved.value);
      }
      return None;
    }

    /** Fills in the air-change rate unless one was supplied. */
    method ResolveAirChangeRate() returns (err: Option<Error>)
      modifies this`nBuild
      ensures match ResolvedAirChangeRate(old(nBuild), buildYear, airTightnessLevel)
              case Ok(v) => err.None? && nBuild == Some(v)
              case Err(e) => err == Some(e) && nBuild == old(nBuild)
    {
      if nBuild.None? {
        var resolved := AirChangeRateStatic(buildYear, airTightnessLevel);
        if resolved.Err? {
          return Some(resolved.error);
        }
        nBuild := Some(resolved.value);
      }
      return None;
    }

    /** Fills in the internal design temperature unless one was supplied. */
    method ResolveInternalTemperature() returns (err: Option<Error>)
      requires thetaIntBuild.Some? || buildingType.Some?
      modifies this`thetaIntBuild
      ensures match ResolvedInternalTemperature(old(thetaIntBuild), buildingType)
              case Ok(v) => err.None? && thetaIntBuild == Some(v)
              case Err(e) => err == Some(e) && thetaIntBuild == old(thetaIntBuild)
    {
      if thetaIntBuild.None? {
        var resolved := InternalTemperatureStatic(buildingType.value);
        if resolved.Err? {
          return Some(resolved.error);
        }
        thetaIntBuild := Some(resolved.value);
      }
      return None;
    }

    /**
     * Resolves, in order, the thermal-bridge add-on, the air-change rate and
     * the internal design temperature; the first that raises stops the rest.
     */
    method ResolveSharedValues() returns (err: Option<Error>)
      requires thetaIntBuild.Some? || buildingType.Some?
      modifies this`deltaUtb, this`nBuild, this`thetaIntBuild
      ensures match ResolvedThermalBridge(old(deltaUtb), deltaUtbSelectionCriteria)
              case Err(e) =>
                err == Some(e) && deltaUtb == old(deltaUtb) && nBuild == old(nBuild) && thetaIntBuild == old(thetaIntBuild)
              case Ok(delta) =>
                match ResolvedAirChangeRate(old(nBuild), buildYear, airTightnessLevel)
                case Err(e) =>
                  err == Some(e) && deltaUtb == Some(delta) && nBuild == old(nBuild) && thetaIntBuild == old(thetaIntBuild)
                case Ok(n) =>
                  match ResolvedInternalTemperature(old(thetaIntBuild), buildingType)
                  case Err(e) =>
                    err == Some(e) && deltaUtb == Some(delta) && nBuild == Some(n) && thetaIntBuild == old(thetaIntBuild)
                  case Ok(t) => err.None? && deltaUtb == Some(delta) && nBuild == Some(n) && thetaIntBuild == Some(t)
    {
      err := ResolveThermalBridge();
      if err.Some? {
        return;
      }
      err := ResolveAirChangeRate();
      if err.Some? {
        return;
      }
      err := ResolveInternalTemperature();
    }

    /** Replaces the element list by elements built, in order, with the shared values. */
    method BuildElements() returns (err: Option<Error>)
      requires Resolved()
      modifies this`buildingElements
      ensures match ElementsSpec(elementData, Shared())
              case Ok(vs) => err.None? && ValuesOf(buildingElements) == vs &&
                             forall e | e in buildingElements :: fresh(e)
              case Err(e) => err == Some(e) && buildingElements == old(buildingElements)
    {
      var built: seq<BuildingElement> := [];
      var i := 0;
      assert elementData[i..] == elementData;
      PrependStart(ElementsSpec(elementData, Shared()));
      while i < |elementData|
        invariant 0 <= i <= |elementData|
        invariant buildingElements == old(buildingElements)
        invariant ElementsSpec(elementData, Shared()) == Prepend(ValuesOf(built), ElementsSpec(elementData[i..], Shared()))
        invariant forall e | e in built :: fresh(e)
      {
        var r := BuildingElement.Create(Inject(elementData[i], Shared()));
        PrependStep(ValuesOf(built), elementData[i..], Shared());
        if r.Err? {
          return Some(r.error);
        }
        assert elementData[i..][1..] == elementData[i + 1..];
        assert ValuesOf(built + [r.value]) == ValuesOf(built) + [r.value.Values()];
        built := built + [r.value];
        i := i + 1;
      }
      assert elementData[i..] == [];
      assert ValuesOf(built) + [] == ValuesOf(built);
      buildingElements := built;
      return None;
    }

    /**
     * The ventilation loss: this building's volume and air-change rate, but
     * the temperature difference of `moduleInstance`.
     */
    function VentilationHeatLoss(moduleInstance: Building): (r: real)
      reads this, moduleInstance
      requires Resolved() && moduleInstance.Resolved()
      ensures r == vBuild * nBuild.value * RHO_CP * (moduleInstance.thetaIntBuild.value - moduleInstance.thetaE)
    {
      VentilationLossStatic(Values(), moduleInstance.Values())
    }

    /**
     * Builds a building from its dictionary: checks, resolves the shared
     * values in place, then builds the elements. Raises what `BuildingSpec` says.
     */
    static method Create(d: BuildingData) returns (r: Result<Building>)
      ensures r.Err? ==> BuildingSpec(d) == Err(r.error)
      ensures r.Ok? ==> fresh(r.value) && r.value.Resolved() && BuildingSpec(d) == Ok(r.value.Values())
    {
      var check := ValidateBuilding(d);
      if check.Some? {
        return Err(check.value);
      }
      var b := new Building.Load(d);
      var err := b.ResolveSharedValues();
      if err.Some? {
        return Err(err.value);
      }
      err := b.BuildElements();
      if err.Some? {
        return Err(err.value);
      }
      return Ok(b);
    }
  }
}
