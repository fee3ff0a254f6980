/**
  The mandi price table: fixed rows narrowed by a crop selector (with an
  "All Crops" entry) and a case-insensitive search over crop, variety and
  market.
 */
module MarketNew {
  import opened Seqs
  import opened Text
  import opened PriceChange

  /** One table row; `change` is in tenths of a percent. */
  datatype Row = Row(crop: string, variety: string, market: string, currentPrice: int, previousPrice: int, change: int)

  const MarketData: seq<Row> := [
    Row("Rice", "Basmati", "Delhi Mandi", 3200, 3100, 32),
    Row("Wheat", "HD-2967", "Haryana Mandi", 2150, 2200, -23),
    Row("Cotton", "Shankar-6", "Gujarat Mandi", 5800, 5600, 36),
    Row("Sugarcane", "Co-238", "UP Mandi", 350, 340, 29),
    Row("Soybean", "JS-335", "Madhya Pradesh Mandi", 4200, 4150, 12),
    Row("Maize", "Hybrid", "Karnataka Mandi", 1800, 1750, 29)
  ]

  /** The selector entry that stands for every crop. */
  const AllCrops := "All Crops"
  const PopularCrops := [AllCrops, "Rice", "Wheat", "Cotton", "Sugarcane", "Soybean", "Maize"]

  const InitialCrop := AllCrops
  const InitialQuery := ""

  /** The crop selector: "All Crops" accepts every row; any other selection only rows of exactly that crop. */
  predicate MatchesCrop(row: Row, selected: string): (b: bool)
    ensures selected == AllCrops ==> b
    ensures selected != AllCrops ==> (b <==> row.crop == selected)
  {
    selected == AllCrops || row.crop == selected
  }

  /**
    The search box: an empty query accepts every row; a non-empty one accepts
    a row exactly when the lowercased query occurs in the lowercased crop,
    variety or market.
   */
  predicate MatchesSearch(row: Row, query: string): (b: bool)
    ensures query == "" ==> b
    ensures query != "" ==>
      (b <==>
        Occurs(Lower(row.crop), Lower(query)) ||
        Occurs(Lower(row.variety), Lower(query)) ||
        Occurs(Lower(row.market), Lower(query)))
  {
    ContainsIffOccurs(Lower(row.crop), Lower(query));
    ContainsIffOccurs(Lower(row.variety), Lower(query));
    ContainsIffOccurs(Lower(row.market), Lower(query));
    || query == ""
    || Contains(Lower(row.crop), Lower(query))
    || Contains(Lower(row.variety), Lower(query))
    || Contains(Lower(row.market), Lower(query))
  }

  predicate Keep(row: Row, selected: string, query: string) {
    MatchesCrop(row, selected) && MatchesSearch(row, query)
  }

  /** `rows.filter(...)`: the rows both conditions accept, in table order. */
  function FilterRows(rows: seq<Row>, selected: string, query: string): (r: seq<Row>)
    ensures |r| <= |rows|
    ensures forall row :: row in r <==> row in rows && Keep(row, selected, query)
    ensures IsSubsequence(r, rows)
    ensures forall row :: multiset(r)[row] == if Keep(row, selected, query) then multiset(rows)[row] else 0
  {
    if rows == [] then []
    else
      var rest := FilterRows(rows[1..], selected, query);
      assert forall row :: row in rows <==> row == rows[0] || row in rows[1..];
      assert rows == [rows[0]] + rows[1..];
      if Keep(rows[0], selected, query) then
        assert ([rows[0]] + rest)[1..] == rest;
        [rows[0]] + rest
      else
        rest
  }

  /** `filteredData`: the table as the page shows it for a selection and a query. */
  function FilteredData(selected: string, query: string): (r: seq<Row>)
    ensures |r| <= |MarketData|
    ensures forall row :: row in r <==> row in MarketData && Keep(row, selected, query)
    ensures IsSubsequence(r, MarketData)
  {
    FilterRows(MarketData, selected, query)
  }

  /** When every row is accepted the filter gives back the table itself. */
  lemma {:induction false} FilterKeepsAll(rows: seq<Row>, selected: string, query: string)
    requires forall row :: row in rows ==> Keep(row, selected, query)
    ensures FilterRows(rows, selected, query) == rows
  {
    if rows != [] {
      FilterKeepsAll(rows[1..], selected, query);
      assert rows == [rows[0]] + rows[1..];
    }
  }

  /** The page opens on "All Crops" and an empty query, so all six rows show. */
  lemma InitialShowsAll()
    ensures FilteredData(InitialCrop, InitialQuery) == MarketData
    ensures |FilteredData(InitialCrop, InitialQuery)| == 6
  {
    FilterKeepsAll(MarketData, InitialCrop, InitialQuery);
  }

  /** What the table body draws: one "No results found" row, or one row per match. */
  datatype TableRow = NoResults | DataRow(row: Row, badge: ChangeBadge)

  function TableBody(filtered: seq<Row>): (r: seq<TableRow>)
    ensures filtered == [] <==> r == [NoResults]
    ensures filtered != [] ==> |r| == |filtered|
    ensures filtered != [] ==> forall i :: 0 <= i < |r| ==> r[i] == DataRow(filtered[i], BadgeFor(filtered[i].change))
  {
    if filtered == [] then [NoResults]
    else
      var r := seq(|filtered|, i requires 0 <= i < |filtered| => DataRow(filtered[i], BadgeFor(filtered[i].change)));
      assert r[0] != NoResults;
      r
  }

  /** Every row's change is drawn rising exactly when its current price is above the previous one. */
  lemma TableTrendsAgreeWithPrices()
    ensures forall row :: row in MarketData ==> (BadgeFor(row.change).trend == Up <==> row.currentPrice > row.previousPrice)
  {
  }
}
