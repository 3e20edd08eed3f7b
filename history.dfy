/**
 * What the history table derives from each record
 * (src/components/HistoryPage.tsx): display labels for the coded inputs and
 * the monthly premium; also the fixed list of regions the dashboard shows.
 */
module History {
  import opened Rounding

  /** The four region codes, in the order the dashboard lists them. */
  const AllRegions: seq<string> := ["northwest", "northeast", "southwest", "southeast"]

  /** Their Indonesian names, position by position. */
  const RegionNames: seq<string> := ["Barat Laut", "Timur Laut", "Barat Daya", "Tenggara"]

  /** The lookup table of region labels. */
  function RegionLabels(): map<string, string> {
    map["northwest" := "Barat Laut", "northeast" := "Timur Laut",
        "southwest" := "Barat Daya", "southeast" := "Tenggara"]
  }

  /** A known region's name; any other text is shown unchanged. */
  function RegionLabel(region: string): (shown: string)
    ensures forall i :: 0 <= i < |AllRegions| && region == AllRegions[i] ==> shown == RegionNames[i]
    ensures region !in AllRegions ==> shown == region
  {
    if region in RegionLabels() then RegionLabels()[region] else region
  }

  /** "Laki-laki" exactly for "male"; everything else reads "Perempuan". */
  function GenderLabel(gender: string): (shown: string)
    ensures shown == "Laki-laki" <==> gender == "male"
    ensures shown == "Perempuan" <==> gender != "male"
  {
    if gender == "male" then "Laki-laki" else "Perempuan"
  }

  /** "Ya" exactly for "yes"; everything else reads "Tidak". */
  function SmokerLabel(smoker: string): (shown: string)
    ensures shown == "Ya" <==> smoker == "yes"
    ensures shown == "Tidak" <==> smoker != "yes"
  {
    if smoker == "yes" then "Ya" else "Tidak"
  }

  /** The monthly figure `Math.round(price / 12)`: within half of a twelfth of the yearly price. */
  function MonthlyPrice(price: int): (monthly: int)
    ensures 24 * monthly - 12 <= 2 * price < 24 * monthly + 12
  {
    RoundedQuotient(price, 12)
  }
}
