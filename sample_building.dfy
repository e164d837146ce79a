/**
 * The building the calculator module constructs at import time: built in
 * 2000, 500 m³, -5 °C outside, residential, with a door of 100 m² whose
 * U-value and correction factor are given and a door of 130 m² on the ground
 * whose values come from tables B.15 and B.11.
 */
module SampleBuilding {
  import opened Outcomes
  import opened Din12831Data
  import opened SimplifiedCalculators

  const CRITERION: string :=
    "Buildings with mainly internal heat insulation broken by solid ceilings (e.g. reinforced concrete)"

  const GIVEN_DOOR: ElementData :=
    ElementData(Some(100.0), Some(1.5), Some(0.5), None, Some("Doors"), None, None, None, None, None)

  const GROUND_DOOR: ElementData :=
    ElementData(Some(130.0), None, None, Some("ground"), Some("Doors"), Some("all"), None, None, None, None)

  const SAMPLE: BuildingData := BuildingData(
    Given(2000), Given(500.0), Given(-5.0), Null, Given("Residential"), Null, Given(CRITERION),
    Null, Null, Given([GIVEN_DOOR, GROUND_DOOR]))

  /** The values the sample building passes to its elements. */
  const SAMPLE_SHARED: SharedValues := SharedValues(Some(2000), 0.15, 20.0, -5.0)

  /**
   * The sample resolves its missing values from the tables: 0.15 W/(m²·K)
   * from table B.1, 0.25 per hour for a building from 1995 on, 20 °C for a
   * residential building.
   */
  lemma SampleResolvesSharedValues()
    ensures ValidateBuilding(SAMPLE).None?
    ensures ResolvedThermalBridge(None, Some(CRITERION)) == Ok(0.15)
    ensures ResolvedAirChangeRate(None, Some(2000), None) == Ok(0.25)
    ensures ResolvedInternalTemperature(None, Some("Residential")) == Ok(20.0)
  {
  }

  /** The given door loses 100 · (1.5 + 0.15) · 0.5 · 25 = 2062.5 W. */
  lemma GivenDoorLoss()
    ensures ElementSpec(Inject(GIVEN_DOOR, SAMPLE_SHARED))
         == Ok(ElementValues(100.0, 1.5, 0.5, None, Some("Doors"), None, 2000, 0.15, 20.0, -5.0, 2062.5))
  {
  }

  /**
   * The ground door takes 3.5 W/(m²·K) from table B.15 and 0.3 from table
   * B.11, and loses 130 · (3.5 + 0.15) · 0.3 · 25 = 3558.75 W.
   */
  lemma GroundDoorLoss()
    ensures ElementSpec(Inject(GROUND_DOOR, SAMPLE_SHARED))
         == Ok(ElementValues(130.0, 3.5, 0.3, Some("ground"), Some("Doors"), Some("all"), 2000, 0.15, 20.0, -5.0, 3558.75))
  {
    var d := Inject(GROUND_DOOR, SAMPLE_SHARED);
    assert ResolveUValue(d) == Ok(Some(3.5)) by {
      assert UValueB43("Doors", "all", 2000) == Ok(Some(3.5));
    }
    assert ResolveCorrectionFactor(d) == Ok(0.3);
  }

  /** The values of the sample building once constructed. */
  const SAMPLE_VALUES: BuildingValues := BuildingValues(
    Some(2000), 500.0, -5.0, 20.0, Some("Residential"), 0.15, Some(CRITERION), 0.25, None,
    [ElementValues(100.0, 1.5, 0.5, None, Some("Doors"), None, 2000, 0.15, 20.0, -5.0, 2062.5),
     ElementValues(130.0, 3.5, 0.3, Some("ground"), Some("Doors"), Some("all"), 2000, 0.15, 20.0, -5.0, 3558.75)])

  /** Constructing the sample building succeeds with the values above. */
  lemma SampleBuildingValues()
    ensures BuildingSpec(SAMPLE) == Ok(SAMPLE_VALUES)
  {
    SampleResolvesSharedValues();
    GivenDoorLoss();
    GroundDoorLoss();
    var ds := SAMPLE.buildingElements.value;
    assert ds[1..] == [GROUND_DOOR];
    assert ds[1..][1..] == [];
    var es := SAMPLE_VALUES.buildingElements;
    assert ElementsSpec(ds[1..][1..], SAMPLE_SHARED) == Ok([]);
    assert ElementsSpec(ds[1..], SAMPLE_SHARED) == Ok([es[1]] + []);
    assert [es[0]] + ([es[1]] + []) == es;
    assert ElementsSpec(ds, SAMPLE_SHARED) == Ok(es);
  }

  /**
   * Ventilation loss 500 · 0.25 · 0.34 · 25 = 1062.5 W, and the design heat
   * load of transmission plus ventilation 2062.5 + 3558.75 + 1062.5 = 6683.75 W.
   */
  lemma SampleHeatLoad()
    ensures VentilationLossStatic(SAMPLE_VALUES, SAMPLE_VALUES) == 1062.5
    ensures DesignHeatLoss(SAMPLE_VALUES.buildingElements[0].designTransmissionLoss
                             + SAMPLE_VALUES.buildingElements[1].designTransmissionLoss,
                           VentilationLossStatic(SAMPLE_VALUES, SAMPLE_VALUES)) == 6683.75
  {
  }

  /** The module-level instance: constructing the sample building yields an object in that state. */
  method ModuleInstance() returns (r: Result<Building>)
    ensures r.Ok? && r.value.Resolved() && r.value.Values() == SAMPLE_VALUES
  {
    SampleBuildingValues();
    r := Building.Create(SAMPLE);
  }
}
