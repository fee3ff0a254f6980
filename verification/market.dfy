/**
  The per-crop market page: a fixed table of nearby mandi prices and a sell
  suggestion for three crops; every other crop is shown the Rice data.
 */
module Market {
  import opened PriceChange

  /** One mandi's price; `change` is in tenths of a percent. */
  datatype PriceRow = PriceRow(market: string, currentPrice: int, previousPrice: int, change: int)

  datatype SuggestionType = Good | Wait
  datatype Suggestion = Suggestion(kind: SuggestionType, message: string)
  datatype CropMarket = CropMarket(prices: seq<PriceRow>, suggestion: Suggestion)

  const PopularCrops := ["Rice", "Wheat", "Cotton", "Sugarcane", "Soybean", "Maize",
                         "Tomato", "Potato", "Onion", "Banana", "Coconut", "Mango"]

  const RiceData := CropMarket(
    [PriceRow("Delhi Mandi", 3200, 3100, 32),
     PriceRow("Haryana Mandi", 3150, 3000, 50),
     PriceRow("Punjab Mandi", 3250, 3200, 16)],
    Suggestion(Good, "💡 Prices are high, good time to sell!"))

  const WheatData := CropMarket(
    [PriceRow("Haryana Mandi", 2150, 2200, -23),
     PriceRow("Punjab Mandi", 2100, 2180, -37),
     PriceRow("UP Mandi", 2050, 2100, -24)],
    Suggestion(Wait, "⚠️ Prices are low, consider waiting for better rates."))

  const CottonData := CropMarket(
    [PriceRow("Gujarat Mandi", 5800, 5600, 36),
     PriceRow("Maharashtra Mandi", 5750, 5500, 45),
     PriceRow("Telangana Mandi", 5900, 5700, 35)],
    Suggestion(Good, "💡 High demand from textile industry, excellent time to sell!"))

  const MarketData: map<string, CropMarket> := map["Rice" := RiceData, "Wheat" := WheatData, "Cotton" := CottonData]

  /** The crop the page opens on, and the one every crop without data falls back to. */
  const InitialCrop := "Rice"
  const FallbackCrop := "Rice"

  /** `currentData`: the selected crop's entry, or Rice's; defined for every crop, always with a price. */
  function CurrentData(selected: string): (r: CropMarket)
    ensures selected in MarketData ==> r == MarketData[selected]
    ensures selected !in MarketData ==> r == MarketData[FallbackCrop]
    ensures |r.prices| > 0
  {
    if selected in MarketData then MarketData[selected] else MarketData[FallbackCrop]
  }

  /** What Listen reads out: the selected crop's name with the first listed mandi and its price. */
  datatype Announcement = Announcement(crop: string, market: string, price: int)

  /** `handleListen`'s subject; it reads `prices[0]`, which exists for every selection. */
  function ListenSubject(selected: string): (a: Announcement)
    ensures a.crop == selected
    ensures exists row :: row in CurrentData(selected).prices && row.market == a.market && row.currentPrice == a.price
    ensures a.market == CurrentData(selected).prices[0].market
    ensures a.price == CurrentData(selected).prices[0].currentPrice
  {
    var first := CurrentData(selected).prices[0];
    Announcement(selected, first.market, first.currentPrice)
  }

  datatype CardTone = SuccessTone | WarningTone

  /** The suggestion card's styling: success colours exactly for a "good" suggestion. */
  function SuggestionTone(kind: SuggestionType): (t: CardTone)
    ensures t == SuccessTone <==> kind == Good
  {
    match kind
    case Good => SuccessTone
    case Wait => WarningTone
  }

  /** Rice, Wheat and Cotton have their own data; every other crop, offered or not, shows Rice's. */
  lemma LookupIsTotal(selected: string)
    ensures CurrentData(InitialCrop) == RiceData
    ensures CurrentData("Wheat") == WheatData && CurrentData("Cotton") == CottonData
    ensures selected != "Wheat" && selected != "Cotton" ==> CurrentData(selected) == RiceData
  {
  }

  /**
    For a crop offered in the menu but without data, Listen names that crop
    while quoting the first Rice mandi's price.
   */
  lemma ListenQuotesRiceForOtherCrops(selected: string)
    requires selected in PopularCrops && selected !in MarketData
    ensures ListenSubject(selected) == Announcement(selected, "Delhi Mandi", 3200)
  {
  }

  /** For the three crops with data, Listen quotes the first mandi of that crop's own table. */
  lemma ListenQuotesOwnFirstMandi()
    ensures ListenSubject("Rice") == Announcement("Rice", "Delhi Mandi", 3200)
    ensures ListenSubject("Wheat") == Announcement("Wheat", "Haryana Mandi", 2150)
    ensures ListenSubject("Cotton") == Announcement("Cotton", "Gujarat Mandi", 5800)
  {
  }

  /** In the fixed table every mandi's change is drawn rising exactly when its price went up. */
  lemma TableTrendsAgreeWithPrices(crop: string, i: int)
    requires crop in MarketData && 0 <= i < |MarketData[crop].prices|
    ensures var row := MarketData[crop].prices[i];
      BadgeFor(row.change).trend == Up <==> row.currentPrice > row.previousPrice
  {
  }

  /** In the fixed table the suggestion is "good" exactly when every listed mandi's price rose. */
  lemma SuggestionFollowsPrices(crop: string)
    requires crop in MarketData
    ensures MarketData[crop].suggestion.kind == Good <==>
      forall row :: row in MarketData[crop].prices ==> row.currentPrice > row.previousPrice
  {
  }
}
