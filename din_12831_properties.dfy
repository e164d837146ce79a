/**
 * Properties of the reference data: the year bands are ordered like the
 * years, the national hooks never override, the air-change lookup prefers an
 * air-tightness level, and the U-value lookup has three distinct outcomes.
 */
module Din12831Properties {
  import opened Outcomes
  import opened Din12831Data

  /** Later years never fall in an earlier air-change band. */
  lemma AirChangeBandsFollowYears(earlier: int, later: int)
    requires earlier <= later
    ensures BandRank(AIR_CHANGE_BANDS, AirChangeYearBand(earlier)) < |AIR_CHANGE_BANDS|
    ensures BandRank(AIR_CHANGE_BANDS, AirChangeYearBand(earlier))
         <= BandRank(AIR_CHANGE_BANDS, AirChangeYearBand(later))
  {
  }

  /** No U-value band label occurs twice. */
  lemma UValueBandsDistinct()
    ensures forall j, k :: 0 <= j < k < |U_VALUE_BANDS| ==> U_VALUE_BANDS[j] != U_VALUE_BANDS[k]
  {
    forall j, k | 0 <= j < k < |U_VALUE_BANDS|
      ensures U_VALUE_BANDS[j] != U_VALUE_BANDS[k]
    {
      // The labels differ in their first or their third character.
      assert U_VALUE_BANDS[j][0] != U_VALUE_BANDS[k][0] || U_VALUE_BANDS[j][2] != U_VALUE_BANDS[k][2]
          || U_VALUE_BANDS[j][3] != U_VALUE_BANDS[k][3];
    }
  }

  /** The rank of each U-value band is its position in the list. */
  lemma UValueBandRanks()
    ensures forall i :: 0 <= i < |U_VALUE_BANDS| ==> BandRank(U_VALUE_BANDS, U_VALUE_BANDS[i]) == i
  {
    UValueBandsDistinct();
    forall i | 0 <= i < |U_VALUE_BANDS|
      ensures BandRank(U_VALUE_BANDS, U_VALUE_BANDS[i]) == i
    {
      var r := BandRank(U_VALUE_BANDS, U_VALUE_BANDS[i]);
      assert U_VALUE_BANDS[r] == U_VALUE_BANDS[i];
    }
  }

  /** The rank of a year's U-value band, stated by year range. */
  lemma UValueRankOfYear(year: int)
    ensures var r := BandRank(U_VALUE_BANDS, UValueYearBand(year));
      && (year <= 1918 ==> r == 0)
      && (1919 <= year <= 1948 ==> r == 1)
      && (1949 <= year <= 1957 ==> r == 2)
      && (1958 <= year <= 1968 ==> r == 3)
      && (1969 <= year <= 1978 ==> r == 4)
      && (1979 <= year <= 1983 ==> r == 5)
      && (1984 <= year <= 1994 ==> r == 6)
      && (year >= 1995 ==> r == 7)
  {
    UValueBandRanks();
    var band := UValueYearBand(year);
    if year <= 1918 {
      assert band == U_VALUE_BANDS[0];
    } else if year <= 1948 {
      assert band == U_VALUE_BANDS[1];
    } else if year <= 1957 {
      assert band == U_VALUE_BANDS[2];
    } else if year <= 1968 {
      assert band == U_VALUE_BANDS[3];
    } else if year <= 1978 {
      assert band == U_VALUE_BANDS[4];
    } else if year <= 1983 {
      assert band == U_VALUE_BANDS[5];
    } else if year <= 1994 {
      assert band == U_VALUE_BANDS[6];
    } else {
      assert band == U_VALUE_BANDS[7];
    }
  }

  /** Later years never fall in an earlier U-value band. */
  lemma UValueBandsFollowYears(earlier: int, later: int)
    requires earlier <= later
    ensures BandRank(U_VALUE_BANDS, UValueYearBand(earlier)) < |U_VALUE_BANDS|
    ensures BandRank(U_VALUE_BANDS, UValueYearBand(earlier))
         <= BandRank(U_VALUE_BANDS, UValueYearBand(later))
  {
    UValueRankOfYear(earlier);
    UValueRankOfYear(later);
  }

  /** None of the five national-override hooks supplies a value. */
  lemma NationalHooksAreEmpty()
    ensures NationalThermalBridges().None?
    ensures NationalTemperatureCorrectionFactor().None?
    ensures NationalAirChangeRate().None?
    ensures NationalInternalDesignTemperature().None?
    ensures NationalUValue().None?
  {
  }

  /** A given air-tightness level decides the air-change rate whatever the year. */
  lemma AirTightnessLevelWins(year: int, otherYear: int, level: string)
    ensures AirChangeRateB34(Some(year), Some(level)) == AirChangeRateB34(Some(otherYear), Some(level))
    ensures level in TABLE_B12 ==> AirChangeRateB34(Some(year), Some(level)) == Ok(TABLE_B12[level])
  {
  }

  /** Without an air-tightness level the rate follows the year: 1, 0.5 or 0.25 per hour. */
  lemma AirChangeRateByYear(year: int)
    ensures year <= 1977 ==> AirChangeRateB34(Some(year), None) == Ok(1.0)
    ensures 1978 <= year <= 1994 ==> AirChangeRateB34(Some(year), None) == Ok(0.5)
    ensures 1995 <= year ==> AirChangeRateB34(Some(year), None) == Ok(0.25)
  {
  }

  /** Every row of table B.15 is keyed by the short band spellings only. */
  lemma TableB15UsesShortBandKeys(beType: string, beSubType: string)
    requires beType in TABLE_B15 && beSubType in TABLE_B15[beType]
    ensures TABLE_B15[beType][beSubType].Keys <= TABLE_B15_BANDS
  {
  }

  /**
   * For every year from 1919 to 1994 the U-value lookup fails, whatever the
   * element type and sub-type: the band label is never a key of table B.15.
   */
  lemma UValueMissingForMiddleYears(beType: string, beSubType: string, year: int)
    requires 1919 <= year <= 1994
    ensures UValueB43(beType, beSubType, year).Err?
    ensures beType in TABLE_B15 && beSubType in TABLE_B15[beType] ==>
              UValueB43(beType, beSubType, year) == Err(KeyError(UValueYearBand(year)))
  {
    if beType in TABLE_B15 && beSubType in TABLE_B15[beType] {
      TableB15UsesShortBandKeys(beType, beSubType);
      var band := UValueYearBand(year);
      assert band !in TABLE_B15_BANDS;
    }
  }

  /** The three outcomes of a U-value lookup: a value, an undefined cell, a missing key. */
  lemma UValueLookupOutcomes()
    ensures UValueB43("Doors", "all", 2000) == Ok(Some(3.5))
    ensures UValueB43("Windows, French doors", "Wooden frame, single glazing", 2000) == Ok(None)
    ensures UValueB43("Windows, French doors", "Wooden frame, insulation glazing", 1900) == Err(KeyError("<=1918"))
    ensures UValueB43("Doors", "all", 1950) == Err(KeyError("1949-1957"))
    ensures UValueB43("Doors", "any", 2000) == Err(KeyError("any"))
  {
  }
}
