/** The coin-detail page (components/CoinDetails.jsx): a fetch that never
    shows an error, because any failure or invalid body selects a record
    from a two-entry offline table (bitcoin when the id is unknown). */
module CoinDetails {
  import opened Common
  import opened CoinDisplay
  import Text

  // ---------------------------------------------------------- fallback data

  function BitcoinRecord(): CoinDetail {
    CoinDetail("bitcoin", "Bitcoin", "BTC",
      "https://coin-images.coingecko.com/coins/images/1/large/bitcoin.png", Some(1),
      Some(MarketData(
        map["usd" := 45000.0, "brl" := 225000.0, "eur" := 41000.0],
        map["usd" := 880000000000.0, "brl" := 4400000000000.0, "eur" := 800000000000.0],
        map["usd" := 30000000000.0, "brl" := 150000000000.0, "eur" := 27000000000.0],
        Known(2.5),
        map["usd" := 2.5, "brl" := 2.5, "eur" := 2.5],
        map["usd" := 5.2, "brl" := 5.2, "eur" := 5.2],
        19500000.0, Some(21000000.0), Some(21000000.0))))
  }

  function EthereumRecord(): CoinDetail {
    CoinDetail("ethereum", "Ethereum", "ETH",
      "https://coin-images.coingecko.com/coins/images/279/large/ethereum.png", Some(2),
      Some(MarketData(
        map["usd" := 2400.0, "brl" := 12000.0, "eur" := 2200.0],
        map["usd" := 288000000000.0, "brl" := 1440000000000.0, "eur" := 260000000000.0],
        map["usd" := 15000000000.0, "brl" := 75000000000.0, "eur" := 13500000000.0],
        Known(1.8),
        map["usd" := 1.8, "brl" := 1.8, "eur" := 1.8],
        map["usd" := 3.5, "brl" := 3.5, "eur" := 3.5],
        120000000.0, None, None)))
  }

  /** `FRONTEND_FALLBACK_DATA` */
  function FallbackTable(): (t: map<string, CoinDetail>)
    ensures t.Keys == {"bitcoin", "ethereum"}
    ensures forall k :: k in t ==> t[k].id == k
  {
    map["bitcoin" := BitcoinRecord(), "ethereum" := EthereumRecord()]
  }

  /** `FRONTEND_FALLBACK_DATA[id.toLowerCase()] || FRONTEND_FALLBACK_DATA.bitcoin` */
  function FallbackRecord(id: string): (r: CoinDetail)
    ensures Text.Lower(id) in FallbackTable() ==> r == FallbackTable()[Text.Lower(id)]
    ensures Text.Lower(id) !in FallbackTable() ==> r == BitcoinRecord()
    ensures r.id == (if Text.Lower(id) == "ethereum" then "ethereum" else "bitcoin")
  {
    var key := Text.Lower(id);
    if key in FallbackTable() then FallbackTable()[key] else BitcoinRecord()
  }

  /** Whatever the id, the offline record is complete: it has market data
      with a positive price in each of the three selectable currencies. */
  lemma FallbackRecordComplete(id: string)
    ensures FallbackRecord(id).marketData.Some?
    ensures forall cur :: cur in {"usd", "brl", "eur"} ==>
              cur in FallbackRecord(id).marketData.value.currentPrice
              && FallbackRecord(id).marketData.value.currentPrice[cur] > 0.0
  {
  }

  /** A mixed-case id selects its record: "BitCoin" is the bitcoin entry. */
  lemma FallbackIgnoresCase()
    ensures FallbackRecord("BitCoin") == BitcoinRecord()
    ensures FallbackRecord("ETHEREUM") == EthereumRecord()
  {
    LowerBitCoin();
    LowerEthereum();
  }

  lemma LowerBitCoin()
    ensures Text.Lower("BitCoin") == "bitcoin"
  {
    var l := Text.Lower("BitCoin");
    forall i | 0 <= i < 7 ensures l[i] == "bitcoin"[i] {
    }
  }

  lemma LowerEthereum()
    ensures Text.Lower("ETHEREUM") == "ethereum"
  {
    var l := Text.Lower("ETHEREUM");
    forall i | 0 <= i < 8 ensures l[i] == "ethereum"[i] {
    }
  }

  // ----------------------------------------------------------- the fetch

  /** `response.data && response.data.id`: a body that is present and has a
      non-empty id. */
  predicate Accepted(outcome: Response<Option<CoinDetail>>)
    ensures outcome.Failed? ==> !Accepted(outcome)
    ensures Accepted(outcome) ==> outcome.body.Some? && outcome.body.value.id != ""
  {
    outcome.Received? && outcome.body.Some? && outcome.body.value.id != ""
  }

  /** The coin a completed fetch installs: the response, or the offline record. */
  function FetchedCoin(id: string, outcome: Response<Option<CoinDetail>>): (r: CoinDetail)
    ensures Accepted(outcome) ==> r == outcome.body.value
    ensures !Accepted(outcome) ==> r == FallbackRecord(id)
    ensures r.id != ""
  {
    if Accepted(outcome) then outcome.body.value else FallbackRecord(id)
  }

  // ------------------------------------------------------------ defaults

  /** `md?.current_price?.[currency] || 0` */
  function DisplayedPrice(coin: CoinDetail, currency: string): (r: real)
    ensures coin.marketData.Some? && currency in coin.marketData.value.currentPrice ==>
              r == coin.marketData.value.currentPrice[currency]
    ensures coin.marketData.None? || currency !in coin.marketData.value.currentPrice ==> r == 0.0
  {
    match coin.marketData
    case None => 0.0
    case Some(md) => OrZero(Lookup(md.currentPrice, currency))
  }

  /** `md?.price_change_percentage_24h || 0`: an absent key and `null` both
      read 0. */
  function PriceChange24h(coin: CoinDetail): (r: real)
    ensures coin.marketData.Some? && coin.marketData.value.priceChange24h.Known? ==>
              r == coin.marketData.value.priceChange24h.value
    ensures coin.marketData.None? || !coin.marketData.value.priceChange24h.Known? ==> r == 0.0
  {
    match coin.marketData
    case None => 0.0
    case Some(md) => if md.priceChange24h.Known? then md.priceChange24h.value else 0.0
  }

  /** `priceChange24h >= 0`: a coin without a known change counts as rising. */
  predicate IsPositive(coin: CoinDetail)
    ensures coin.marketData.None? || !coin.marketData.value.priceChange24h.Known? ==> IsPositive(coin)
  {
    PriceChange24h(coin) >= 0.0
  }

  /** `md?.max_supply ? circulating / max * 100 : null`, the percentage handed
      to the circulating-supply bar; none for a coin without market data. */
  function SupplyShare(coin: CoinDetail): (r: Option<real>)
    ensures coin.marketData.None? ==> r.None?
    ensures coin.marketData.Some? ==> r == SupplyPercentage(coin.marketData.value)
  {
    match coin.marketData
    case None => None
    case Some(md) => SupplyPercentage(md)
  }

  /** Width of the distribution bar:
      `md?.max_supply ? circulating / max * 100 : 0` (empty without a cap or
      without market data). */
  function DistributionWidth(coin: CoinDetail): (r: real)
    ensures coin.marketData.Some? && HasMaxSupply(coin.marketData.value) ==>
              r == SupplyPercentage(coin.marketData.value).value
    ensures coin.marketData.None? || !HasMaxSupply(coin.marketData.value) ==> r == 0.0
  {
    match coin.marketData
    case None => 0.0
    case Some(md) =>
      if HasMaxSupply(md) then md.circulatingSupply / md.maxSupply.value * 100.0 else 0.0
  }

  // ------------------------------------------------------------ the page

  class CoinDetailsPage {
    var id: string
    var currency: string
    var coin: Option<CoinDetail>
    var loading: bool
    var useFallback: bool

    /** A page is never done loading without a coin to show. */
    ghost predicate Valid()
      reads this
    {
      !loading ==> coin.Some?
    }

    /** Mounted on `/coin/:id`: loading, no coin yet. */
    constructor (routeId: string)
      ensures Valid()
      ensures id == routeId && currency == "brl" && coin.None? && loading && !useFallback
    {
      id := routeId;
      currency := "brl";
      coin := None;
      loading := true;
      useFallback := false;
    }

    /** What is rendered: the loading screen or the coin, never an error. */
    function View(): (r: Screen)
      requires Valid()
      reads this
      ensures r.LoadingScreen? <==> loading
      ensures !r.ErrorScreen?
    {
      if loading then LoadingScreen else DetailsScreen(coin.value)
    }

    /** A new route id; the fetch effect (keyed on the id only) runs again
        when it differs. */
    method Navigate(routeId: string) returns (refetch: bool)
      requires Valid()
      modifies this`id
      ensures Valid()
      ensures id == routeId && refetch == (routeId != old(id))
    {
      refetch := routeId != id;
      id := routeId;
    }

    /** The currency selector, rendered only once loading is over; the
        fetch effect is keyed on the id alone, so it does not run again. */
    method SelectCurrency(cur: string) returns (refetch: bool)
      requires Valid() && !loading
      modifies this`currency
      ensures Valid()
      ensures currency == cur && !refetch
    {
      currency := cur;
      refetch := false;
    }

    /** `fetchCoinDetails` up to its `await`. */
    method BeginFetch()
      requires Valid()
      modifies this`loading
      ensures Valid()
      ensures loading
    {
      loading := true;
    }

    /** `fetchCoinDetails` after its `await`: an accepted body is shown; any
        other outcome shows the offline record and raises `useFallback`. The
        flag is never lowered again, not even by a later accepted fetch. */
    method CompleteFetch(outcome: Response<Option<CoinDetail>>)
      requires Valid()
      modifies this`coin, this`useFallback, this`loading
      ensures Valid()
      ensures !loading && coin == Some(FetchedCoin(id, outcome))
      ensures useFallback == (old(useFallback) || !Accepted(outcome))
      ensures View() == DetailsScreen(FetchedCoin(id, outcome))
    {
      if Accepted(outcome) {
        coin := Some(outcome.body.value);
      } else {
        coin := Some(FallbackRecord(id));
        useFallback := true;
      }
      loading := false;
    }
  }
}
