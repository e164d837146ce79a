/**
 * Reference data of the simplified method of DIN EN 12831: the two
 * classifications of a construction year into bands, the national-override
 * hooks of Annex A, and the lookups into the tables of Annex B.
 *
 * The tables keep the source's keys verbatim. In particular table B.15 is
 * keyed by short band labels ("1919-48") while the U-value banding function
 * returns long ones ("1919-1948"), so a U-value lookup for a year from 1919 to
 * 1994 always fails with a missing key; the model keeps this behaviour.
 */
module Din12831Data {
  import opened Outcomes

  // ---------------------------------------------------------------------
  // Construction-year bands
  // ---------------------------------------------------------------------

  /** The three air-change bands, in year order. */
  const AIR_CHANGE_BANDS: seq<string> := ["<1977", "<1995", ">=1995"]

  /**
   * The air-change band of a construction year. The year 1977 itself falls
   * in the band labelled "<1977".
   */
  function AirChangeYearBand(year: int): (band: string)
    ensures band in AIR_CHANGE_BANDS
    ensures band == "<1977" <==> year <= 1977
    ensures band == "<1995" <==> 1978 <= year <= 1994
    ensures band == ">=1995" <==> year >= 1995
  {
    if year <= 1977 then "<1977"
    else if year < 1995 then "<1995"
    else ">=1995"
  }

  /** The eight U-value bands, in year order, as the banding function spells them. */
  const U_VALUE_BANDS: seq<string> :=
    ["<=1918", "1919-1948", "1949-1957", "1958-1968", "1969-1978", "1979-1983", "1984-1994", ">=1995"]

  /** The U-value band of a construction year. */
  function UValueYearBand(year: int): (band: string)
    ensures band in U_VALUE_BANDS
    ensures band == "<=1918" <==> year <= 1918
    ensures band == "1919-1948" <==> 1919 <= year <= 1948
    ensures band == "1949-1957" <==> 1949 <= year <= 1957
    ensures band == "1958-1968" <==> 1958 <= year <= 1968
    ensures band == "1969-1978" <==> 1969 <= year <= 1978
    ensures band == "1979-1983" <==> 1979 <= year <= 1983
    ensures band == "1984-1994" <==> 1984 <= year <= 1994
    ensures band == ">=1995" <==> year >= 1995
  {
    if year <= 1918 then "<=1918"
    else if 1919 <= year <= 1948 then "1919-1948"
    else if 1949 <= year <= 1957 then "1949-1957"
    else if 1958 <= year <= 1968 then "1958-1968"
    else if 1969 <= year <= 1978 then "1969-1978"
    else if 1979 <= year <= 1983 then "1979-1983"
    else if 1984 <= year <= 1994 then "1984-1994"
    else ">=1995"
  }

  /** Position of a band label in its band list (the list's length if absent). */
  function BandRank(bands: seq<string>, band: string): (i: nat)
    ensures i <= |bands|
    ensures i < |bands| ==> bands[i] == band
    ensures forall j :: 0 <= j < i ==> bands[j] != band
  {
    if bands == [] then 0
    else if bands[0] == band then 0
    else 1 + BandRank(bands[1..], band)
  }

  // ---------------------------------------------------------------------
  // National-override hooks (Annex A); none of them supplies a value
  // ---------------------------------------------------------------------

  /** National value of the thermal-bridge add-on (Annex A.3.2). */
  function NationalThermalBridges(): Option<real> { None }

  /** National value of the temperature correction factor (Annex A.3.3). */
  function NationalTemperatureCorrectionFactor(): Option<real> { None }

  /** National value of the air-change rate (Annex A.3.4). */
  function NationalAirChangeRate(): Option<real> { None }

  /** National value of the internal design temperature (Annex A.4.2). */
  function NationalInternalDesignTemperature(): Option<real> { None }

  /** National U-value (Annex A.4.3). */
  function NationalUValue(): Option<real> { None }

  // ---------------------------------------------------------------------
  // Tables of Annex B
  // ---------------------------------------------------------------------

  /** Table B.1: additional thermal transmittance for thermal bridges, W/(m2 K). */
  const TABLE_B1: map<string, real> := map[
    "New buildings with a high level of heat insulation and attested minimization of thermal bridges that exceeds generally recognized rules of practice" := 0.02,
    "New buildings in compliance with generally recognized rules of practice regarding the minimization of thermal bridges" := 0.05,
    "Buildings with mainly internal heat insulation broken by solid ceilings (e.g. reinforced concrete)" := 0.15,
    "All other buildings" := 0.10
  ]

  /** Table B.11: temperature correction factor by what the element borders on. */
  const TABLE_B11: map<string, real> := map[
    "external air" := 1.0,
    "unheated spaces or another building entity (u)" := 0.5,
    "ground" := 0.3,
    "heated space" := 0.3
  ]

  /** Table B.12: air-change rate, h^-1, by year band or air-tightness level. */
  const TABLE_B12: map<string, real> := map[
    ">=1995" := 0.25,
    "<1995" := 0.5,
    "<1977" := 1.0,
    "buildings with tight windows" := 0.25,
    "buildings with obvious leakages" := 1.0,
    "heat load of single rooms" := 0.5
  ]

  /** Table B.14: internal design temperature, degrees Celsius, by building type. */
  const TABLE_B14: map<string, real> := map[
    "Single office" := 20.0,
    "Landscaped office" := 20.0,
    "Conference room" := 20.0,
    "Auditorium" := 20.0,
    "Cafeteria/Restaurant" := 20.0,
    "Classroom" := 20.0,
    "Nursery" := 20.0,
    "Department store" := 16.0,
    "Residential" := 20.0,
    "Bathroom" := 24.0,
    "Church" := 15.0,
    "Museum/Gallery" := 16.0
  ]

  /** The band keys that table B.15 uses (short spellings). */
  const TABLE_B15_BANDS: set<string> :=
    {"<=1918", "1919-48", "1949-57", "1958-68", "1969-78", "1979-83", "1984-94", ">=1995"}

  /**
   * Table B.15: U-values, W/(m2 K), by element type, sub-type and band.
   * `None` is a cell that the table leaves undefined.
   */
  const TABLE_B15: map<string, map<string, map<string, Option<real>>>> := map[
    "Windows, French doors" := map[
      "Wooden frame, single glazing" := map[
        "<=1918" := Some(5.0), "1919-48" := Some(5.0), "1949-57" := Some(5.0), "1958-68" := Some(5.0),
        "1969-78" := Some(5.0), "1979-83" := Some(5.0), "1984-94" := None, ">=1995" := None],
      "Wooden frame, double glazing" := map[
        "<=1918" := Some(2.7), "1919-48" := Some(2.7), "1949-57" := Some(2.7), "1958-68" := Some(2.7),
        "1969-78" := Some(2.7), "1979-83" := Some(2.7), "1984-94" := Some(2.7), ">=1995" := None],
      "Wooden frame, insulation glazing" := map[
        ">=1995" := Some(1.8)],
      "Plastic frame, insulating glazing" := map[
        "1958-68" := Some(3.0), "1969-78" := Some(3.0), "1979-83" := Some(3.0), "1984-94" := Some(3.0),
        ">=1995" := Some(1.8)],
      "Metal frame, insulating glazing" := map[
        "1958-68" := Some(4.3), "1969-78" := Some(4.3), "1979-83" := Some(4.3), "1984-94" := Some(4.3),
        ">=1995" := Some(1.8)]
    ],
    "Roller shutters" := map[
      "old, non-insulated" := map[
        "<=1918" := Some(3.0), "1919-48" := Some(3.0), "1949-57" := Some(3.0), "1958-68" := Some(3.0),
        "1969-78" := Some(3.0), "1979-83" := Some(3.0), "1984-94" := Some(3.0), ">=1995" := Some(3.0)],
      "new, insulated" := map[
        "<=1918" := Some(1.8), "1919-48" := Some(1.8), "1949-57" := Some(1.8), "1958-68" := Some(1.8),
        "1969-78" := Some(1.8), "1979-83" := Some(1.8), "1984-94" := Some(1.8), ">=1995" := Some(1.8)]
    ],
    "Doors" := map[
      "all" := map[
        "<=1918" := Some(3.5), "1919-48" := Some(3.5), "1949-57" := Some(3.5), "1958-68" := Some(3.5),
        "1969-78" := Some(3.5), "1979-83" := Some(3.5), "1984-94" := Some(3.5), ">=1995" := Some(3.5)]
    ],
    "External walls, walls against ground, internal walls against unheated cellars" := map[
      "Solid construction (masonry, concrete or similar)" := map[
        "<=1918" := Some(1.7), "1919-48" := Some(1.7), "1949-57" := Some(1.4), "1958-68" := Some(1.4),
        "1969-78" := Some(1.0), "1979-83" := Some(0.8), "1984-94" := Some(0.6), ">=1995" := Some(0.5)],
      "Wooden construction (timber frame construction, prefabricated house or similar)" := map[
        "<=1918" := Some(2.0), "1919-48" := Some(2.0), "1949-57" := Some(1.4), "1958-68" := Some(1.4),
        "1969-78" := Some(0.6), "1979-83" := Some(0.5), "1984-94" := Some(0.4), ">=1995" := Some(0.4)]
    ],
    "Ceilings against ground or unheated cellars" := map[
      "Solid construction (masonry, concrete or similar)" := map[
        "<=1918" := Some(1.2), "1919-48" := Some(1.2), "1949-57" := Some(1.5), "1958-68" := Some(1.0),
        "1969-78" := Some(1.0), "1979-83" := Some(0.8), "1984-94" := Some(0.6), ">=1995" := Some(0.6)],
      "Wooden beam ceiling" := map[
        "<=1918" := Some(1.0), "1919-48" := Some(0.8), "1949-57" := Some(0.8), "1958-68" := Some(0.8),
        "1969-78" := Some(0.6), "1979-83" := Some(0.6), "1984-94" := Some(0.4), ">=1995" := Some(0.4)]
    ],
    "Roofs and walls between heated and unheated attics" := map[
      "Solid construction" := map[
        "<=1918" := Some(2.1), "1919-48" := Some(2.1), "1949-57" := Some(2.1), "1958-68" := Some(2.1),
        "1969-78" := Some(0.6), "1979-83" := Some(0.5), "1984-94" := Some(0.4), ">=1995" := Some(0.3)],
      "Wooden construction" := map[
        "<=1918" := Some(2.6), "1919-48" := Some(1.4), "1949-57" := Some(1.4), "1958-68" := Some(1.4),
        "1969-78" := Some(0.8), "1979-83" := Some(0.5), "1984-94" := Some(0.4), ">=1995" := Some(0.3)]
    ],
    "Top storey ceilings and ceilings above ambient (passageways, etc.)" := map[
      "Solid" := map[
        "<=1918" := Some(2.1), "1919-48" := Some(2.1), "1949-57" := Some(2.1), "1958-68" := Some(2.1),
        "1969-78" := Some(0.6), "1979-83" := Some(0.5), "1984-94" := Some(0.4), ">=1995" := Some(0.3)],
      "Wooden beam ceiling" := map[
        "<=1918" := Some(1.0), "1919-48" := Some(0.8), "1949-57" := Some(0.8), "1958-68" := Some(0.8),
        "1969-78" := Some(0.6), "1979-83" := Some(0.4), "1984-94" := Some(0.3), ">=1995" := Some(0.3)]
    ]
  ]

  // ---------------------------------------------------------------------
  // Lookups of Annex B
  // ---------------------------------------------------------------------

  /** Thermal-bridge add-on by selection criterion (Annex B.2.1, table B.1). */
  function ThermalBridgesB21(criterion: string): (r: Result<real>)
    ensures r.Ok? <==> criterion in TABLE_B1
    ensures r.Ok? ==> r.value in {0.02, 0.05, 0.15, 0.10}
    ensures r.Err? ==> r.error == KeyError(criterion)
  {
    if criterion in TABLE_B1 then Ok(TABLE_B1[criterion]) else Err(KeyError(criterion))
  }

  /** The generic thermal-bridge add-on of Annex B.3.2, W/(m2 K). */
  function ThermalBridgesB32(): (r: real)
    ensures r == TABLE_B1["All other buildings"]
  {
    0.1
  }

  /** Temperature correction factor by adjacency (Annex B.3.3, table B.11). */
  function TemperatureCorrectionFactorB33(adjacentTo: string): (r: Result<real>)
    ensures r.Ok? <==> adjacentTo in {"external air", "unheated spaces or another building entity (u)", "ground", "heated space"}
    ensures r.Ok? ==> r.value in {1.0, 0.5, 0.3}
    ensures r.Err? ==> r.error == KeyError(adjacentTo)
  {
    if adjacentTo in TABLE_B11 then Ok(TABLE_B11[adjacentTo]) else Err(KeyError(adjacentTo))
  }

  /**
   * Air-change rate (Annex B.3.4, table B.12). The year band is computed
   * first, so a `None` year fails even when an air-tightness level is given;
   * a given level is then the key, otherwise the band is.
   */
  function AirChangeRateB34(buildYear: Option<int>, airTightnessLevel: Option<string>): (r: Result<real>)
    ensures buildYear.None? ==> r == Err(TypeError(YearNotOrderable))
    ensures buildYear.Some? && airTightnessLevel.None? ==> r.Ok?
    ensures buildYear.Some? && airTightnessLevel.Some? ==>
              (r.Ok? <==> airTightnessLevel.value in TABLE_B12) &&
              (r.Err? ==> r.error == KeyError(airTightnessLevel.value))
    ensures r.Ok? ==> r.value in {1.0, 0.5, 0.25}
  {
    match buildYear
    case None => Err(TypeError(YearNotOrderable))
    case Some(year) =>
      var band := AirChangeYearBand(year);
      var key := match airTightnessLevel case Some(level) => level case None => band;
      if key in TABLE_B12 then Ok(TABLE_B12[key]) else Err(KeyError(key))
  }

  /** Internal design temperature by building type (Annex B.4.2, table B.14). */
  function InternalDesignTemperatureB42(buildingType: string): (r: Result<real>)
    ensures r.Ok? <==> buildingType in TABLE_B14
    ensures r.Ok? ==> r.value in {15.0, 16.0, 20.0, 24.0}
    ensures r.Err? ==> r.error == KeyError(buildingType)
  {
    if buildingType in TABLE_B14 then Ok(TABLE_B14[buildingType]) else Err(KeyError(buildingType))
  }

  /**
   * U-value by element type, sub-type and construction year (Annex B.4.3,
   * table B.15). `Ok(None)` is a cell the table leaves undefined; a key that
   * is not in the table at any of the three levels is a `KeyError`.
   */
  function UValueB43(beType: string, beSubType: string, buildYear: int): (r: Result<Option<real>>)
    ensures r.Ok? <==>
              && beType in TABLE_B15
              && beSubType in TABLE_B15[beType]
              && UValueYearBand(buildYear) in TABLE_B15[beType][beSubType]
    ensures r.Ok? ==> r.value == TABLE_B15[beType][beSubType][UValueYearBand(buildYear)]
    // The first missing key is raised, in the order type, sub-type, band.
    ensures beType !in TABLE_B15 ==> r == Err(KeyError(beType))
    ensures beType in TABLE_B15 && beSubType !in TABLE_B15[beType] ==> r == Err(KeyError(beSubType))
    ensures beType in TABLE_B15 && beSubType in TABLE_B15[beType]
            && UValueYearBand(buildYear) !in TABLE_B15[beType][beSubType] ==>
              r == Err(KeyError(UValueYearBand(buildYear)))
  {
    var band := UValueYearBand(buildYear);
    if beType !in TABLE_B15 then Err(KeyError(beType))
    else if beSubType !in TABLE_B15[beType] then Err(KeyError(beSubType))
    else if band !in TABLE_B15[beType][beSubType] then Err(KeyError(band))
    else Ok(TABLE_B15[beType][beSubType][band])
  }
}
