/**
 * Properties of the calculator: the loss formulas, the order of the value
 * checks, supplied values winning over table values, and the building's
 * elements inheriting the building's resolved values.
 */
module CalculatorProperties {
  import opened Outcomes
  import opened Din12831Data
  import opened SimplifiedCalculators

  // ---------------------------------------------------------------------
  // Formulas
  // ---------------------------------------------------------------------

  /** Transmission loss is linear in the element area. */
  lemma TransmissionLossLinearInArea(k: real, aK: real, uK: real, deltaUtb: real, fX: real, thetaInt: real, thetaE: real)
    ensures TransmissionLoss(k * aK, uK, deltaUtb, fX, thetaInt, thetaE)
         == k * TransmissionLoss(aK, uK, deltaUtb, fX, thetaInt, thetaE)
  {
    var rest := (uK + deltaUtb) * fX * (thetaInt - thetaE);
    assert TransmissionLoss(aK, uK, deltaUtb, fX, thetaInt, thetaE) == aK * rest;
    assert TransmissionLoss(k * aK, uK, deltaUtb, fX, thetaInt, thetaE) == (k * aK) * rest;
  }

  /** Ventilation loss is linear in the volume and, independently, in the air-change rate. */
  lemma VentilationLossLinear(k: real, vBuild: real, nBuild: real, thetaInt: real, thetaE: real)
    ensures VentilationLoss(k * vBuild, nBuild, thetaInt, thetaE) == k * VentilationLoss(vBuild, nBuild, thetaInt, thetaE)
    ensures VentilationLoss(vBuild, k * nBuild, thetaInt, thetaE) == k * VentilationLoss(vBuild, nBuild, thetaInt, thetaE)
  {
    var rest := RHO_CP * (thetaInt - thetaE);
    assert VentilationLoss(vBuild, nBuild, thetaInt, thetaE) == (vBuild * nBuild) * rest;
    assert VentilationLoss(k * vBuild, nBuild, thetaInt, thetaE) == ((k * vBuild) * nBuild) * rest;
    assert VentilationLoss(vBuild, k * nBuild, thetaInt, thetaE) == (vBuild * (k * nBuild)) * rest;
  }

  /**
   * The ventilation loss of a building depends on its own volume and
   * air-change rate only: its own temperatures play no part, those of the
   * module-level instance do.
   */
  lemma VentilationReadsModuleTemperatures(b: BuildingValues, other: BuildingValues, moduleInstance: BuildingValues)
    requires b.vBuild == other.vBuild && b.nBuild == other.nBuild
    ensures VentilationLossStatic(b, moduleInstance) == VentilationLossStatic(other, moduleInstance)
    ensures VentilationLossStatic(b, moduleInstance)
         == b.vBuild * b.nBuild * 0.34 * (moduleInstance.thetaIntBuild - moduleInstance.thetaE)
  {
  }

  // ---------------------------------------------------------------------
  // Building elements
  // ---------------------------------------------------------------------

  /** A failed check decides the outcome before any table is consulted. */
  lemma ElementChecksPrecedeLookups(d: ElementData)
    ensures ValidateElement(d).Some? ==> ElementSpec(d) == Err(ValidateElement(d).value)
    ensures ElementSpec(d).Ok? ==> ValidateElement(d).None?
  {
  }

  /**
   * A constructed element keeps its supplied U-value and correction factor,
   * takes the missing ones from tables B.15 and B.11, and its loss is the
   * transmission formula over its resolved values.
   */
  lemma ElementResolvedValues(d: ElementData)
    requires ElementSpec(d).Ok?
    ensures var v := ElementSpec(d).value;
      && Some(v.aK) == d.aK && v.aK > 0.0
      && (d.uK.Some? ==> v.uK == d.uK.value)
      && (d.uK.None? ==> UValueB43(d.beType.value, d.beSubType.value, d.buildYear.value) == Ok(Some(v.uK)))
      && (d.fX.Some? ==> v.fX == d.fX.value)
      && (d.fX.None? ==> TemperatureCorrectionFactorB33(d.beAdjacentTo.value) == Ok(v.fX))
      && Some(v.buildYear) == d.buildYear && Some(v.deltaUtb) == d.deltaUtb
      && Some(v.thetaIntBuild) == d.thetaIntBuild && Some(v.thetaE) == d.thetaE
      && v.designTransmissionLoss == TransmissionLoss(v.aK, v.uK, v.deltaUtb, v.fX, v.thetaIntBuild, v.thetaE)
  {
    var u := ResolveUValue(d);
    var f := ResolveCorrectionFactor(d);
    assert u.Ok? && f.Ok?;
    assert ElementSpec(d).value.uK == u.value.value && ElementSpec(d).value.fX == f.value;
  }

  /**
   * An undefined cell of table B.15 surfaces as a `TypeError` from the loss
   * arithmetic, once the correction factor has been resolved.
   */
  lemma UndefinedUValueRaises(d: ElementData)
    requires ValidateElement(d).None? && d.uK.None?
    requires UValueB43(d.beType.value, d.beSubType.value, d.buildYear.value) == Ok(None)
    requires ResolveCorrectionFactor(d).Ok?
    ensures ElementSpec(d) == Err(TypeError(NoneOperand))
  {
  }

  /** Supplying the resolved U-value and correction factor directly yields the same element. */
  lemma ElementResupplyRoundTrip(d: ElementData)
    requires ElementSpec(d).Ok?
    ensures var v := ElementSpec(d).value;
      ElementSpec(d.(uK := Some(v.uK), fX := Some(v.fX))) == Ok(v)
  {
  }

  /**
   * Changing an element's area to another positive value changes only its
   * area and, through the formula, its loss.
   */
  lemma ElementWithOtherArea(d: ElementData, area: real)
    requires ElementSpec(d).Ok? && area > 0.0
    ensures var v := ElementSpec(d).value;
      ElementSpec(d.(aK := Some(area)))
      == Ok(v.(aK := area, designTransmissionLoss := TransmissionLoss(area, v.uK, v.deltaUtb, v.fX, v.thetaIntBuild, v.thetaE)))
  {
    var other := d.(aK := Some(area));
    assert ValidateElement(other).None?;
    assert ResolveUValue(other) == ResolveUValue(d);
    assert ResolveCorrectionFactor(other) == ResolveCorrectionFactor(d);
  }

  /**
   * An element whose area is k > 0 times another's, all else equal, is the
   * same element with k times the area and k times the transmission loss.
   */
  lemma ElementLossScalesWithArea(d: ElementData, scaled: ElementData, k: real)
    requires ElementSpec(d).Ok? && k > 0.0
    requires scaled == d.(aK := Some(k * d.aK.value))
    ensures ElementSpec(scaled).Ok?
    ensures ElementSpec(scaled).value
         == ElementSpec(d).value.(aK := k * d.aK.value,
                                  designTransmissionLoss := k * ElementSpec(d).value.designTransmissionLoss)
  {
    var v := ElementSpec(d).value;
    ElementResolvedValues(d);
    var area := scaled.aK.value;
    assert d.(aK := Some(area)) == scaled;
    ElementWithOtherArea(d, area);
    TransmissionLossLinearInArea(k, d.aK.value, v.uK, v.deltaUtb, v.fX, v.thetaIntBuild, v.thetaE);
  }

  /**
   * Building the elements keeps their number and order; each one is the
   * element built from its own dictionary merged with the shared values, and
   * carries those shared values whatever its own dictionary said.
   */
  lemma {:induction false} ElementsInheritSharedValues(ds: seq<ElementData>, s: SharedValues)
    requires ElementsSpec(ds, s).Ok?
    ensures var vs := ElementsSpec(ds, s).value;
      && |vs| == |ds|
      && (forall k :: 0 <= k < |ds| ==> ElementSpec(Inject(ds[k], s)) == Ok(vs[k]))
      && (forall k :: 0 <= k < |ds| ==>
            && s.buildYear == Some(vs[k].buildYear) && vs[k].deltaUtb == s.deltaUtb
            && vs[k].thetaIntBuild == s.thetaIntBuild && vs[k].thetaE == s.thetaE)
  {
    if ds != [] {
      ElementsInheritSharedValues(ds[1..], s);
      var vs := ElementsSpec(ds, s).value;
      var rest := ElementsSpec(ds[1..], s).value;
      assert vs == [ElementSpec(Inject(ds[0], s)).value] + rest;
      forall k | 0 <= k < |ds|
        ensures ElementSpec(Inject(ds[k], s)) == Ok(vs[k])
      {
        if k > 0 {
          assert ds[k] == ds[1..][k - 1];
        }
      }
      forall k | 0 <= k < |ds|
        ensures s.buildYear == Some(vs[k].buildYear) && vs[k].deltaUtb == s.deltaUtb
        ensures vs[k].thetaIntBuild == s.thetaIntBuild && vs[k].thetaE == s.thetaE
      {
        ElementResolvedValues(Inject(ds[k], s));
      }
    }
  }

  // ---------------------------------------------------------------------
  // Building
  // ---------------------------------------------------------------------

  /** A failed building check decides the outcome before any value is resolved. */
  lemma BuildingChecksPrecedeResolution(d: BuildingData)
    ensures ValidateBuilding(d).Some? ==> BuildingSpec(d) == Err(ValidateBuilding(d).value)
    ensures BuildingSpec(d).Ok? ==> ValidateBuilding(d).None?
  {
  }

  /**
   * Two checks can never fire: the key test for the internal temperature is
   * subsumed by the earlier `None` test, and the key test for the air-change
   * rate needs a missing build year, which the subscript already rejected.
   */
  lemma UnreachableBuildingChecks(d: BuildingData)
    ensures ValidateBuilding(d) != Some(ValueError(InternalTemperatureKeysAbsent))
    ensures ValidateBuilding(d) != Some(ValueError(AirChangeKeysAbsent))
  {
  }

  /**
   * Supplied add-on, air-change rate and internal temperature are kept;
   * missing ones come from the tables, the add-on defaulting to 0.1 without
   * a selection criterion.
   */
  lemma BuildingResolvedValues(d: BuildingData)
    requires BuildingSpec(d).Ok?
    ensures var v := BuildingSpec(d).value;
      && (d.deltaUtb.Given? ==> v.deltaUtb == d.deltaUtb.value)
      && (!d.deltaUtb.Given? && !d.deltaUtbSelectionCriteria.Given? ==> v.deltaUtb == 0.1)
      && (!d.deltaUtb.Given? && d.deltaUtbSelectionCriteria.Given? ==>
            ThermalBridgesB21(d.deltaUtbSelectionCriteria.value) == Ok(v.deltaUtb))
      && (d.nBuild.Given? ==> v.nBuild == d.nBuild.value)
      && (!d.nBuild.Given? ==> AirChangeRateB34(d.buildYear.Get(), d.airTightnessLevel.Get()) == Ok(v.nBuild))
      && (d.thetaIntBuild.Given? ==> v.thetaIntBuild == d.thetaIntBuild.value)
      && (!d.thetaIntBuild.Given? ==> InternalDesignTemperatureB42(d.buildingType.value) == Ok(v.thetaIntBuild))
      && v.vBuild == d.vBuild.value && v.vBuild > 0.0 && v.thetaE == d.thetaE.value
  {
  }

  /**
   * The building's elements are built, in input order, from their
   * dictionaries merged with the building's resolved values, and each
   * carries the building's build year, add-on and temperatures.
   */
  lemma BuildingElementsInherit(d: BuildingData)
    requires BuildingSpec(d).Ok?
    ensures var v := BuildingSpec(d).value;
      && d.buildingElements.Given?
      && |v.buildingElements| == |d.buildingElements.value| >= 1
      && (forall k :: 0 <= k < |v.buildingElements| ==>
            ElementSpec(Inject(d.buildingElements.value[k], SharedValues(v.buildYear, v.deltaUtb, v.thetaIntBuild, v.thetaE)))
            == Ok(v.buildingElements[k]))
      && (forall k :: 0 <= k < |v.buildingElements| ==>
            && v.buildYear == Some(v.buildingElements[k].buildYear)
            && v.buildingElements[k].deltaUtb == v.deltaUtb
            && v.buildingElements[k].thetaIntBuild == v.thetaIntBuild
            && v.buildingElements[k].thetaE == v.thetaE)
  {
    var v := BuildingSpec(d).value;
    ElementsInheritSharedValues(d.buildingElements.value, SharedValues(v.buildYear, v.deltaUtb, v.thetaIntBuild, v.thetaE));
  }

  /**
   * A building that constructs has an integer build year: every element
   * checks it, and there is at least one element.
   */
  lemma BuiltBuildingHasIntYear(d: BuildingData)
    requires BuildingSpec(d).Ok?
    ensures d.buildYear.Given? && BuildingSpec(d).value.buildYear == Some(d.buildYear.value)
  {
    BuildingElementsInherit(d);
  }

  /**
   * Supplying the resolved add-on, air-change rate and internal temperature
   * directly yields the same building.
   */
  lemma BuildingResupplyRoundTrip(d: BuildingData)
    requires BuildingSpec(d).Ok?
    ensures var v := BuildingSpec(d).value;
      BuildingSpec(d.(deltaUtb := Given(v.deltaUtb), nBuild := Given(v.nBuild), thetaIntBuild := Given(v.thetaIntBuild)))
      == Ok(v)
  {
  }
}
