/** The older coin-detail page (assets/components/CoinDetails.jsx): no
    offline data; a failed fetch shows an error screen, and the fetch re-runs
    whenever the id or the currency changes. */
module LegacyCoinDetails {
  import opened Common
  import opened CoinDisplay
  import CoinDetails

  /** Prefix of the message shown when the request fails. */
  const ErrorPrefix: string := "Erro ao carregar dados: "

  /** Message shown when there is neither an error nor a coin. */
  const NotFound: string := "Moeda não encontrada"

  /** `md.current_price[currency] || 0` */
  function DisplayedPrice(md: MarketData, currency: string): (r: real)
    ensures currency in md.currentPrice ==> r == md.currentPrice[currency]
    ensures currency !in md.currentPrice ==> r == 0.0
  {
    OrZero(Lookup(md.currentPrice, currency))
  }

  /** `priceChange24h >= 0` with no default: an absent key compares false,
      while `null` compares as 0 and so counts as a rise. */
  predicate IsPositive(md: MarketData)
    ensures md.priceChange24h.Absent? ==> !IsPositive(md)
    ensures md.priceChange24h.Null? ==> IsPositive(md)
    ensures md.priceChange24h.Known? ==> (IsPositive(md) <==> md.priceChange24h.value >= 0.0)
  {
    match md.priceChange24h
    case Absent => false
    case Null => true
    case Known(v) => v >= 0.0
  }

  /** Width of the distribution bar:
      `md.max_supply ? circulating / max * 100 : 100` (full without a cap). */
  function DistributionWidth(md: MarketData): (r: real)
    ensures HasMaxSupply(md) ==> r == SupplyPercentage(md).value
    ensures !HasMaxSupply(md) ==> r == 100.0
  {
    if HasMaxSupply(md) then md.circulatingSupply / md.maxSupply.value * 100.0 else 100.0
  }

  /** The caption under the distribution bar. */
  datatype Caption = InCirculation(percentage: real) | NoMaximumSupply

  function DistributionCaption(md: MarketData): (r: Caption)
    ensures r.NoMaximumSupply? <==> !HasMaxSupply(md)
    ensures r.InCirculation? ==> r.percentage == DistributionWidth(md)
  {
    if HasMaxSupply(md) then InCirculation(md.circulatingSupply / md.maxSupply.value * 100.0)
    else NoMaximumSupply
  }

  /** The two pages agree on the bar for a coin with a maximum supply and
      disagree on one without: empty on the new page, full on this one. */
  lemma DistributionWidthsDiffer(coin: CoinDetail)
    requires coin.marketData.Some?
    ensures HasMaxSupply(coin.marketData.value) ==>
              DistributionWidth(coin.marketData.value) == CoinDetails.DistributionWidth(coin)
    ensures !HasMaxSupply(coin.marketData.value) ==>
              DistributionWidth(coin.marketData.value) == 100.0
              && CoinDetails.DistributionWidth(coin) == 0.0
  {
  }

  /** A coin whose 24-hour change key is absent counts as rising on the new
      page and as falling here; with `null` or a number the pages agree. */
  lemma PositivityDiffers(coin: CoinDetail)
    requires coin.marketData.Some?
    ensures coin.marketData.value.priceChange24h.Absent? ==>
              CoinDetails.IsPositive(coin) && !IsPositive(coin.marketData.value)
    ensures !coin.marketData.value.priceChange24h.Absent? ==>
              (CoinDetails.IsPositive(coin) <==> IsPositive(coin.marketData.value))
  {
  }

  class LegacyCoinDetailsPage {
    var id: string
    var currency: string
    var coin: Option<CoinDetail>
    var loading: bool
    var error: Option<string>

    /** Mounted on `/coin/:id`: loading, in dollars, nothing fetched yet. */
    constructor (routeId: string)
      ensures id == routeId && currency == "usd" && coin.None? && loading && error.None?
    {
      id := routeId;
      currency := "usd";
      coin := None;
      loading := true;
      error := None;
    }

    /** Loading first; then the error screen when there is an error or no
        coin; otherwise the coin. */
    function View(): (r: Screen)
      reads this
      ensures r.LoadingScreen? <==> loading
      ensures r.ErrorScreen? <==> !loading && (error.Some? || coin.None?)
      ensures r.ErrorScreen? ==> r.message == (if error.Some? then error.value else NotFound)
      ensures r.DetailsScreen? ==> Some(r.coin) == coin
    {
      if loading then LoadingScreen
      else if error.Some? || coin.None? then
        ErrorScreen(if error.Some? then error.value else NotFound)
      else DetailsScreen(coin.value)
    }

    /** A new route id, possible in any state; the fetch effect is keyed on
        the id and the currency, and runs again when the id differs. */
    method Navigate(routeId: string) returns (refetch: bool)
      modifies this`id
      ensures id == routeId && refetch == (routeId != old(id))
    {
      refetch := routeId != id;
      id := routeId;
    }

    /** The currency selector, rendered only on the details screen (neither
        loading nor an error nor a missing coin); the fetch runs again when
        the currency differs. */
    method SelectCurrency(cur: string) returns (refetch: bool)
      requires !loading && error.None? && coin.Some?
      modifies this`currency
      ensures currency == cur && refetch == (cur != old(currency))
      ensures View().DetailsScreen?
    {
      refetch := cur != currency;
      currency := cur;
    }

    /** `fetchCoinDetails` up to its `await`. */
    method BeginFetch()
      modifies this`loading
      ensures loading
    {
      loading := true;
    }

    /** `fetchCoinDetails` after its `await`: a response replaces the coin
        (a null body leaves none) and clears the error; a failure records
        the prefixed message and keeps whatever coin was there. */
    method CompleteFetch(outcome: Response<Option<CoinDetail>>)
      modifies this`coin, this`error, this`loading
      ensures !loading
      ensures outcome.Received? ==> coin == outcome.body && error.None?
      ensures outcome.Failed? ==>
                coin == old(coin) && error == Some(ErrorPrefix + outcome.message)
      ensures outcome.Failed? ==> View() == ErrorScreen(ErrorPrefix + outcome.message)
      ensures outcome.Received? && outcome.body.None? ==> View() == ErrorScreen(NotFound)
    {
      if outcome.Received? {
        coin := outcome.body;
        error := None;
      } else {
        error := Some(ErrorPrefix + outcome.message);
      }
      loading := false;
    }
  }
}
