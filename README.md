# Simplified design heat load after DIN EN 12831

This project models the simplified heat-load calculator of DIN EN 12831, Annex B. The calculator estimates a building's design heat load from two parts:

- **Transmission loss.** Each building element loses `A·(U + ΔU_TB)·f_x·(θ_int − θ_e)`.
- **Ventilation loss.** The building loses `V·n·0.34·(θ_int − θ_e)`.

Missing inputs come from reference tables:

- the thermal-bridge add-on ΔU_TB from table B.1, or 0.1 W/(m²·K);
- the temperature correction factor f_x from table B.11;
- the air-change rate n from table B.12, by air-tightness level or by construction-year band;
- the internal design temperature from table B.14, by building type;
- U-values from table B.15, by element type, sub-type and construction-year band.

Before each table there is a "national annex" hook that could supply a value. Every hook returns nothing.

The model is in five modules:

- `Outcomes` (`outcomes.dfy`) holds the shared result types.
  - A value the source may leave as `None` is an `Option`.
  - A key of the building dictionary can be missing, `None` or a value, because the source both subscripts keys and tests whether they are present. Such a key is an `Entry`.
  - Each exception is an `Error`: `KeyError`, `TypeError` or `ValueError`, each with its cause.
- `Din12831Data` (`din_12831_data.dfy`) holds the pure data layer: the two year-banding functions, the five hooks, the tables as maps, and the lookups.
  - A lookup whose key is missing returns `KeyError` with that key.
  - The U-value lookup returns `Ok(None)` for a cell that is present but empty.
- `SimplifiedCalculators` (`simplified_calculators.dfy`) holds the calculator.
  - `BuildingElement` is a class whose state is fixed at construction.
  - `Building` is a class whose resolve methods overwrite the missing add-on, air-change rate and internal temperature in place. It then replaces its element list with the constructed elements.
  - Each class is proved against a pure specification: `ElementSpec` and `BuildingSpec` give the constructed state or the exception raised, with the checks in source order.
- `Din12831Properties` and `CalculatorProperties` hold the lemmas.
- `SampleBuilding` holds the building the calculator module constructs at import time, as a worked scenario. Its element losses are 2062.5 W and 3558.75 W (130·3.65·0.3·25). Its ventilation loss is 1062.5 W, and its design heat load is 6683.75 W.

The source's behaviour is modelled as written, including three quirks:

- **U-value band labels do not match table B.15.** The U-value banding returns labels such as `1919-1948`, but table B.15 is keyed `1919-48`. So every U-value lookup for a year from 1919 to 1994 raises `KeyError` (`UValueMissingForMiddleYears`).
- **Year 1977 is in the `<1977` air-change band.**
- **Ventilation loss reads the wrong temperatures.** It uses the given building's volume and air-change rate, but the temperatures of the module-level building instance. That instance is an explicit argument here (`VentilationLossStatic`, `Building.VentilationHeatLoss`).

Other modelling choices:

- Python's `None` in arithmetic, and comparing a `None` year with a band boundary, are modelled as `TypeError`.
- Real numbers are exact.

## Model

| member | source | states |
|---|---|---|
| Din12831Data.AirChangeYearBand | src/data/din_12831_data.py:2-8 | every year gets one of the three air-change bands: up to 1977 (1977 included) `<1977`, 1978–1994 `<1995`, from 1995 `>=1995` |
| Din12831Data.UValueYearBand | src/data/din_12831_data.py:10-26 | every year gets exactly one of the eight U-value band labels, each for its stated year range |
| Din12831Properties.AirChangeBandsFollowYears | src/data/din_12831_data.py:2-8 | air-change banding is monotone: a later year never has an earlier band |
| Din12831Properties.UValueBandsFollowYears | src/data/din_12831_data.py:10-26 | U-value banding is monotone: a later year never has an earlier band |
| Din12831Properties.NationalHooksAreEmpty | src/data/din_12831_data.py:30-51 | none of the five national-annex hooks supplies a value, so every cascade reaches its table |
| Din12831Data.ThermalBridgesB21 | src/data/din_12831_data.py:54-56 | succeeds exactly for the four criteria of table B.1, with a value in {0.02, 0.05, 0.15, 0.10}; any other criterion raises `KeyError` naming it |
| Din12831Data.ThermalBridgesB32 | src/data/din_12831_data.py:59-61 | the generic thermal-bridge add-on equals table B.1's entry for "All other buildings" (0.10 W/(m²·K)) |
| Din12831Data.TemperatureCorrectionFactorB33 | src/data/din_12831_data.py:64-66 | succeeds exactly for the four adjacency keys of table B.11, with a value in {1, 0.5, 0.3}; any other key raises `KeyError` |
| Din12831Data.AirChangeRateB34 | src/data/din_12831_data.py:68-71 | a `None` year raises `TypeError` even when a level is given; with a year, a given air-tightness level is the key and raises `KeyError` if unknown; without a level the year band is the key; every rate is in {1, 0.5, 0.25} |
| Din12831Properties.AirTightnessLevelWins | src/data/din_12831_data.py:71 | with a year present, the air-tightness level decides the rate whatever the year, and a known level yields its table B.12 entry |
| Din12831Properties.AirChangeRateByYear | src/data/din_12831_data.py:124-131 | without a level, the rate is 1 up to 1977, 0.5 for 1978–1994 and 0.25 from 1995 |
| Din12831Data.InternalDesignTemperatureB42 | src/data/din_12831_data.py:74-76 | succeeds exactly for the building types of table B.14, with a value in {15, 16, 20, 24}; any other type raises `KeyError` |
| Din12831Properties.TableB15UsesShortBandKeys | src/data/din_12831_data.py:148-211 | every row of table B.15 is keyed by the short band spellings only |
| Din12831Properties.UValueMissingForMiddleYears | src/data/din_12831_data.py:14-24 | for every year from 1919 to 1994 the U-value lookup raises `KeyError`; for a known type and sub-type, the key is the band label |
| Din12831Data.UValueB43 | src/data/din_12831_data.py:79-83 | the lookup succeeds exactly when the type, the sub-type and the year's band label are all keys of table B.15, and then yields that cell (which may be undefined); otherwise it raises `KeyError` of the first missing key, in the order type, sub-type, band |
| Din12831Properties.UValueLookupOutcomes | src/data/din_12831_data.py:79-83 | the U-value lookup's three outcomes: a value (doors 2000: 3.5), an empty cell (single glazing 2000), a missing key (a band, a sub-type) |
| SimplifiedCalculators.ValidateElement | src/simplified_calculators.py:19-30 | the four element checks in order, each firing exactly when the earlier ones pass and its own condition holds; none fires exactly when all inputs are usable |
| SimplifiedCalculators.UValueStatic | src/simplified_calculators.py:54-59 | the U-value resolver yields the table B.15 lookup, the hook being empty |
| SimplifiedCalculators.TemperatureCorrectionStatic | src/simplified_calculators.py:67-70 | the correction-factor resolver yields the table B.11 lookup, the hook being empty |
| SimplifiedCalculators.ResolveUValue | src/simplified_calculators.py:32 | a supplied U-value is kept; a missing one is looked up in table B.15 |
| SimplifiedCalculators.ResolveCorrectionFactor | src/simplified_calculators.py:33 | a supplied f_x is kept; a missing one is looked up in table B.11 |
| SimplifiedCalculators.BuildingElement.constructor | src/simplified_calculators.py:35-46 | the element stores its resolved values and the transmission loss computed from them |
| SimplifiedCalculators.BuildingElement.Create | src/simplified_calculators.py:6-35 | constructing an element raises exactly the error `ElementSpec` gives, or yields a fresh element whose state is `ElementSpec`'s values |
| CalculatorProperties.TransmissionLossLinearInArea | src/simplified_calculators.py:44-46 | the transmission formula is linear in the area |
| CalculatorProperties.ElementChecksPrecedeLookups | src/simplified_calculators.py:19-33 | a failing check decides the element's outcome before any table is consulted |
| CalculatorProperties.ElementResolvedValues | src/simplified_calculators.py:32-35 | a constructed element keeps its area, its supplied U-value and f_x and the merged building values; missing U-value and f_x are the table values; its loss is the formula over these values |
| CalculatorProperties.UndefinedUValueRaises | src/simplified_calculators.py:46 | an empty table B.15 cell surfaces as a `TypeError` from the loss arithmetic |
| CalculatorProperties.ElementResupplyRoundTrip | src/simplified_calculators.py:32-33 | supplying the resolved U-value and f_x directly rebuilds the same element |
| CalculatorProperties.ElementWithOtherArea | src/simplified_calculators.py:23-46 | changing only a valid element's area to another positive value changes only its area and loss |
| CalculatorProperties.ElementLossScalesWithArea | src/simplified_calculators.py:44-46 | an element with k > 0 times the area, all else equal, has k times the transmission loss |
| SimplifiedCalculators.ValidateBuilding | src/simplified_calculators.py:87-117 | missing `build_year`, `v__build` or `theta__e` keys raise `KeyError` in that order; then each value check raises its own `ValueError` exactly when the earlier checks pass and its condition holds: volume missing or not positive, no external temperature, neither internal temperature nor building type, no elements, neither thermal-bridge key; the checks pass exactly when all required values are usable |
| CalculatorProperties.BuildingChecksPrecedeResolution | src/simplified_calculators.py:98-124 | a failing building check decides the outcome before any value is resolved |
| CalculatorProperties.UnreachableBuildingChecks | src/simplified_calculators.py:104-117 | the key-absence checks for the internal temperature and for the air-change rate never fire |
| SimplifiedCalculators.ThermalBridgeStatic | src/simplified_calculators.py:145-150 | without a selection criterion the add-on is 0.1; with one, it is the table B.1 lookup |
| SimplifiedCalculators.AirChangeRateStatic | src/simplified_calculators.py:159-162 | the air-change resolver yields the table B.12 lookup, the hook being empty |
| SimplifiedCalculators.InternalTemperatureStatic | src/simplified_calculators.py:171-174 | the temperature resolver yields the table B.14 lookup, the hook being empty |
| SimplifiedCalculators.ResolvedThermalBridge | src/simplified_calculators.py:139-141 | a supplied add-on is kept, else it is resolved |
| SimplifiedCalculators.ResolvedAirChangeRate | src/simplified_calculators.py:153-155 | a supplied air-change rate is kept, else it comes from table B.12 |
| SimplifiedCalculators.ResolvedInternalTemperature | src/simplified_calculators.py:165-167 | a supplied internal temperature is kept, else it comes from table B.14 |
| SimplifiedCalculators.Building.Load | src/simplified_calculators.py:87-96 | the building's fields hold the dictionary's values as read |
| SimplifiedCalculators.Building.ResolveThermalBridge | src/simplified_calculators.py:139-141 | overwrites the add-on with its resolved value, or raises and leaves it |
| SimplifiedCalculators.Building.ResolveAirChangeRate | src/simplified_calculators.py:153-155 | overwrites the air-change rate with its resolved value, or raises and leaves it |
| SimplifiedCalculators.Building.ResolveInternalTemperature | src/simplified_calculators.py:165-167 | overwrites the internal temperature with its resolved value, or raises and leaves it |
| SimplifiedCalculators.Building.ResolveSharedValues | src/simplified_calculators.py:119-124 | resolves the add-on, then the air-change rate, then the internal temperature; the first lookup that raises is returned and the fields after it keep their old values, otherwise all three fields hold their resolved values |
| SimplifiedCalculators.Building.BuildElements | src/simplified_calculators.py:128-134 | replaces the element list with fresh elements built in order from the merged dictionaries, or raises the first element's error and leaves the list |
| SimplifiedCalculators.Building.Create | src/simplified_calculators.py:85-136 | constructing a building raises exactly the error `BuildingSpec` gives, or yields a fresh, resolved building whose state is `BuildingSpec`'s values |
| CalculatorProperties.BuildingResolvedValues | src/simplified_calculators.py:139-174 | supplied add-on, air-change rate and internal temperature are never overwritten; missing ones are the table values, the add-on 0.1 without a criterion |
| CalculatorProperties.ElementsInheritSharedValues | src/simplified_calculators.py:128-134 | building the elements keeps their number and order; each is built from its dictionary merged with the shared values and carries them |
| CalculatorProperties.BuildingElementsInherit | src/simplified_calculators.py:119-134 | a constructed building's elements carry its resolved build year, add-on and temperatures, in input order, one per dictionary |
| CalculatorProperties.BuiltBuildingHasIntYear | src/simplified_calculators.py:20-21 | a building that constructs has an integer build year, because each of its elements checks it |
| CalculatorProperties.BuildingResupplyRoundTrip | src/simplified_calculators.py:139-167 | supplying the resolved add-on, air-change rate and internal temperature directly rebuilds the same building |
| CalculatorProperties.VentilationLossLinear | src/simplified_calculators.py:192-193 | ventilation loss is linear in the volume and in the air-change rate |
| CalculatorProperties.VentilationReadsModuleTemperatures | src/simplified_calculators.py:193 | a building's ventilation loss depends only on its volume and rate and on the module instance's temperatures |
| SimplifiedCalculators.VentilationLossStatic | src/simplified_calculators.py:181-193 | the loss uses building `b`'s volume and air-change rate and the module instance's temperatures; it is positive for a positive volume and rate when the instance is warmer inside than outside, and zero when its two temperatures are equal |
| SimplifiedCalculators.Building.VentilationHeatLoss | src/simplified_calculators.py:177-178 | ventilation loss is this building's volume times rate times 0.34 times the module instance's temperature difference |
| SampleBuilding.SampleResolvesSharedValues | src/simplified_calculators.py:200-210 | the sample passes its checks and resolves to ΔU_TB 0.15, n 0.25 and θ_int 20 |
| SampleBuilding.GivenDoorLoss | src/simplified_calculators.py:212-219 | the first door keeps U 1.5 and f_x 0.5 and loses 2062.5 W |
| SampleBuilding.GroundDoorLoss | src/simplified_calculators.py:220-227 | the second door resolves to U 3.5 and f_x 0.3 and loses 3558.75 W |
| SampleBuilding.SampleBuildingValues | src/simplified_calculators.py:200-230 | the sample constructs, with the shared values above passed to both doors |
| SampleBuilding.SampleHeatLoad | src/simplified_calculators.py:243-254 | the sample's ventilation loss is 1062.5 W, and its design heat load (transmission plus ventilation) is 6683.75 W |
| SampleBuilding.ModuleInstance | src/simplified_calculators.py:200-230 | constructing the module-level building succeeds, in the sample's state |

## Left out

- `sample_usage.py` is not part of this model. It is a demonstration script that only prints.
- The console output at `src/simplified_calculators.py:232-239` and `src/data/din_12831_data.py:81` is left out, as is the import of the data module at `src/simplified_calculators.py:2`.
- Table B.2 (`src/data/din_12831_data.py:92-115`) is never read by the calculator, so it is not modelled.
- Floating-point rounding is not modelled: all quantities are exact reals. Python's integer inputs (such as `theta__e = -5`) are their real values.
- An element's build year is either an int or `None`. Other non-int values (floats, strings) that fail the `isinstance` check are not represented separately. Both cases raise the same `TypeError`.
- A building's `build_year` is an int when present. Comparing a non-int, non-`None` year with a band boundary is not modelled.
- The key-by-key merge of each element dictionary with the building values is modelled as overriding four fields. Any other keys in an element dictionary are ignored by the source and are not represented.
- The instance methods at `src/simplified_calculators.py:38-40, 50-51, 63-64` only forward to their `*_static` counterparts and have no members of their own: the model calls the static counterparts directly. The forwarding method at lines 177-178 is `Building.VentilationHeatLoss`, which takes the module instance as an argument.
- `SimplifiedCalculators.TransmissionLoss`, `VentilationLoss` and `DesignHeatLoss` are the source's single-expression formulas. Their properties are stated by the lemmas and scenario above, not by their own contracts.
