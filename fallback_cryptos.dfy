/** The offline listing of constants/fallbackCryptos.js: twenty coin records
    the dashboard starts from and falls back to. Each sparkline is 168 points
    filled with the coin's price; for most coins every point `i` is then
    offset by `Math.sin(i / 10) * amplitude`. The sine is a library call the
    model does not compute: it is the parameter `wave`, with `wave(i)`
    standing for `Math.sin(i / 10)`. */
module FallbackCryptos {
  import opened Text
  import opened CoinList

  /** Points per sparkline: `Array(168)`, one per hour of the week. */
  const SparklinePoints: nat := 168

  /** `Array(168).fill(price).map((v, i) => v + Math.sin(i / 10) * amplitude)` */
  function Wavy(id: string, name: string, symbol: string, image: string,
                price: real, cap: real, change: real, amplitude: real,
                wave: nat -> real): Coin
  {
    Coin(id, name, symbol, image, price, cap, change,
         seq(SparklinePoints, i requires 0 <= i => price + wave(i) * amplitude))
  }

  /** `Array(168).fill(price)` */
  function Flat(id: string, name: string, symbol: string, image: string,
                price: real, cap: real, change: real): Coin
  {
    Coin(id, name, symbol, image, price, cap, change, seq(SparklinePoints, i => price))
  }

  const Img := "https://coin-images.coingecko.com/coins/images/"

  /** `FALLBACK_CRYPTOS`, in file order. */
  function Records(wave: nat -> real): (r: seq<Coin>)
    ensures |r| == 20
    ensures forall i :: 0 <= i < |r| ==> |r[i].sparkline| == SparklinePoints
  {
    [ Wavy("bitcoin", "Bitcoin", "btc", Img + "1/large/bitcoin.png",
           45000.0, 880000000000.0, 2.5, 1000.0, wave),
      Wavy("ethereum", "Ethereum", "eth", Img + "279/large/ethereum.png",
           2400.0, 288000000000.0, 1.8, 100.0, wave),
      Flat("tether", "Tether", "usdt", Img + "325/large/Tether.png",
           1.00, 83000000000.0, 0.01),
      Wavy("binancecoin", "BNB", "bnb", Img + "825/large/bnb-icon2_2x.png",
           310.0, 48000000000.0, 0.5, 10.0, wave),
      Wavy("solana", "Solana", "sol", Img + "4128/large/solana.png",
           100.0, 42000000000.0, 5.2, 5.0, wave),
      Wavy("ripple", "XRP", "xrp", Img + "44/large/xrp.png",
           0.62, 33000000000.0, 1.2, 0.1, wave),
      Flat("usd-coin", "USD Coin", "usdc", Img + "6319/large/usdc.png",
           1.00, 25000000000.0, 0.02),
      Wavy("cardano", "Cardano", "ada", Img + "975/large/cardano.png",
           0.48, 17000000000.0, 0.8, 0.05, wave),
      Wavy("dogecoin", "Dogecoin", "doge", Img + "5/large/dogecoin.png",
           0.08, 11000000000.0, 2.1, 0.01, wave),
      Wavy("tron", "TRON", "trx", Img + "1094/large/tron-logo.png",
           0.11, 9700000000.0, 0.3, 0.02, wave),
      Wavy("chainlink", "Chainlink", "link", Img + "877/large/chainlink-new-logo.png",
           14.50, 8500000000.0, 1.5, 1.0, wave),
      Wavy("polkadot", "Polkadot", "dot", Img + "12171/large/polkadot.png",
           6.80, 8700000000.0, 0.9, 0.5, wave),
      Wavy("matic-network", "Polygon", "matic", Img + "4713/large/matic-token-icon.png",
           0.85, 7900000000.0, 1.3, 0.1, wave),
      Wavy("shiba-inu", "Shiba Inu", "shib", Img + "11939/large/shiba.png",
           0.000008, 4700000000.0, 0.7, 0.000001, wave),
      Wavy("litecoin", "Litecoin", "ltc", Img + "2/large/litecoin.png",
           71.0, 5200000000.0, 0.4, 2.0, wave),
      Wavy("bitcoin-cash", "Bitcoin Cash", "bch", Img + "780/large/bitcoin-cash-circle.png",
           240.0, 4700000000.0, 1.1, 5.0, wave),
      Wavy("avalanche-2", "Avalanche", "avax", Img + "12559/large/Avalanche_Circle_RedWhite_Trans.png",
           36.0, 13000000000.0, 2.3, 2.0, wave),
      Flat("dai", "Dai", "dai", Img + "9956/large/Badge_Dai.png",
           1.00, 5300000000.0, 0.01),
      Wavy("leo-token", "UNUS SED LEO", "leo", Img + "8418/large/leo-token.png",
           4.10, 3800000000.0, 0.2, 0.2, wave),
      Wavy("uniswap", "Uniswap", "uni", Img + "12504/large/uniswap.png",
           6.20, 4700000000.0, 0.8, 0.3, wave) ]
  }

  /** Every record has a positive price and market cap, whatever the sine values. */
  lemma PricesPositive(wave: nat -> real)
    ensures forall i :: 0 <= i < |Records(wave)| ==>
              Records(wave)[i].currentPrice > 0.0 && Records(wave)[i].marketCap > 0.0
  {
  }

  /** Every symbol is written in lower case, as CoinGecko sends it. */
  lemma SymbolsLower(wave: nat -> real)
    ensures forall i :: 0 <= i < |Records(wave)| ==> IsLower(Records(wave)[i].symbol)
  {
  }

  /** The record ids, in file order. */
  function Ids(coins: seq<Coin>): (r: seq<string>)
    ensures |r| == |coins|
    ensures forall i :: 0 <= i < |coins| ==> r[i] == coins[i].id
  {
    if coins == [] then [] else [coins[0].id] + Ids(coins[1..])
  }

  predicate Distinct(s: seq<string>) {
    forall i, j :: 0 <= i < j < |s| ==> s[i] != s[j]
  }

  /** The ids of `FALLBACK_CRYPTOS`, in file order. */
  const RecordIds: seq<string> :=
    ["bitcoin", "ethereum", "tether", "binancecoin", "solana", "ripple", "usd-coin",
     "cardano", "dogecoin", "tron", "chainlink", "polkadot", "matic-network", "shiba-inu",
     "litecoin", "bitcoin-cash", "avalanche-2", "dai", "leo-token", "uniswap"]

  /** Whatever the sine values, record `i` carries id `RecordIds[i]`. */
  lemma RecordIdsInOrder(wave: nat -> real)
    ensures forall i :: 0 <= i < |Records(wave)| ==> Records(wave)[i].id == RecordIds[i]
  {
  }

  /** Length and first letter: already different for every pair of ids. */
  function Key(s: string): (int, char) {
    (|s|, if s == [] then ' ' else s[0])
  }

  lemma RecordIdsDistinct()
    ensures Distinct(RecordIds)
  {
    var keys := seq(|RecordIds|, i requires 0 <= i < |RecordIds| => Key(RecordIds[i]));
    assert keys == [(7, 'b'), (8, 'e'), (6, 't'), (11, 'b'), (6, 's'), (6, 'r'), (8, 'u'),
                    (7, 'c'), (8, 'd'), (4, 't'), (9, 'c'), (8, 'p'), (13, 'm'), (9, 's'),
                    (8, 'l'), (12, 'b'), (11, 'a'), (3, 'd'), (9, 'l'), (7, 'u')];
    forall i, j | 0 <= i < j < |RecordIds| ensures RecordIds[i] != RecordIds[j] {
      assert keys[i] != keys[j];
    }
  }

  /** Whatever the sine values, the twenty ids are pairwise distinct (the
      views key rows and cards by id). */
  lemma IdsDistinct(wave: nat -> real)
    ensures Distinct(Ids(Records(wave)))
  {
    RecordIdsInOrder(wave);
    RecordIdsDistinct();
    var ids := Ids(Records(wave));
    forall i, j | 0 <= i < j < |ids| ensures ids[i] != ids[j] {
      assert ids[i] == RecordIds[i] && ids[j] == RecordIds[j];
    }
  }

  /** Priced at one dollar, with every sparkline point at one dollar. */
  predicate PeggedFlat(c: Coin) {
    c.currentPrice == 1.00 && forall k :: 0 <= k < |c.sparkline| ==> c.sparkline[k] == 1.00
  }

  /** The stablecoins (tether, usd-coin, dai: records 3, 7 and 18 of the
      file) are pegged at 1.00 with a flat sparkline, for any sine values;
      by `IdsDistinct` no other record carries those ids. */
  lemma StablecoinsFlat(wave: nat -> real)
    ensures Records(wave)[2].id == "tether" && PeggedFlat(Records(wave)[2])
    ensures Records(wave)[6].id == "usd-coin" && PeggedFlat(Records(wave)[6])
    ensures Records(wave)[17].id == "dai" && PeggedFlat(Records(wave)[17])
  {
    var r := Records(wave);
    assert r[2] == Flat("tether", "Tether", "usdt", Img + "325/large/Tether.png",
                        1.00, 83000000000.0, 0.01);
    assert r[6] == Flat("usd-coin", "USD Coin", "usdc", Img + "6319/large/usdc.png",
                        1.00, 25000000000.0, 0.02);
    assert r[17] == Flat("dai", "Dai", "dai", Img + "9956/large/Badge_Dai.png",
                         1.00, 5300000000.0, 0.01);
  }
}
