/** The coin-detail record and the display helpers written identically in
    components/CoinDetails.jsx and assets/components/CoinDetails.jsx:
    `formatCompactNumber`, the `SupplyProgress` bar, the rank label and the
    `|| 0` defaults. */
module CoinDisplay {
  import opened Common

  /** A number field of a JSON body that tells an absent key (`undefined`)
      apart from an explicit `null`: the two compare differently (`null >= 0`
      holds, `undefined >= 0` does not). */
  datatype Field = Absent | Null | Known(value: real)

  /** The `market_data` block; per-currency fields are maps from currency
      code, and the other missing numbers are None. */
  datatype MarketData = MarketData(
    currentPrice: map<string, real>,
    marketCap: map<string, real>,
    totalVolume: map<string, real>,
    priceChange24h: Field,
    priceChange24hInCurrency: map<string, real>,
    priceChange7dInCurrency: map<string, real>,
    circulatingSupply: real,
    totalSupply: Option<real>,
    maxSupply: Option<real>)

  /** One coin-detail response (`/api/coin/:id`). */
  datatype CoinDetail = CoinDetail(
    id: string,
    name: string,
    symbol: string,
    image: string,
    marketCapRank: Option<int>,
    marketData: Option<MarketData>)

  /** What the detail page renders. */
  datatype Screen = LoadingScreen | ErrorScreen(message: string) | DetailsScreen(coin: CoinDetail)

  // ------------------------------------------------------- compact numbers

  datatype Suffix = Trillions | Billions | Millions | Thousands | Plain

  /** The power of ten a suffix stands for. */
  function Scale(s: Suffix): (r: real)
    ensures r >= 1.0
  {
    match s
    case Trillions => 1000000000000.0
    case Billions => 1000000000.0
    case Millions => 1000000.0
    case Thousands => 1000.0
    case Plain => 1.0
  }

  /** `formatCompactNumber` before `toFixed` turns it into text: the em dash,
      or the number divided by its suffix's scale, the suffix, and the count
      of decimals. */
  datatype Compact = Dash | Scaled(mantissa: real, suffix: Suffix, decimals: nat)

  function Abs(x: real): (r: real)
    ensures r >= 0.0 && (r == x || r == -x)
  {
    if x < 0.0 then -x else x
  }

  /** The suffix is picked by the magnitude: T from 1e12, B from 1e9, M from
      1e6, K from 1e3. */
  function SuffixFor(x: real): Suffix {
    var a := Abs(x);
    if a >= 1000000000000.0 then Trillions
    else if a >= 1000000000.0 then Billions
    else if a >= 1000000.0 then Millions
    else if a >= 1000.0 then Thousands
    else Plain
  }

  /** `!num && num !== 0` gives "—": a missing number (zero is shown). Any
      other number is shown as mantissa and suffix, which multiply back to
      the number; unsuffixed numbers below 0.01, negatives included, get 6
      decimals, everything else 2. */
  function FormatCompactNumber(num: Option<real>): (r: Compact)
    ensures r.Dash? <==> num.None?
    ensures num.Some? ==> r.suffix == SuffixFor(num.value)
    ensures num.Some? ==> r.mantissa * Scale(r.suffix) == num.value
    ensures num.Some? ==> r.decimals == if r.suffix == Plain && num.value < 0.01 then 6 else 2
  {
    match num
    case None => Dash
    case Some(x) =>
      var s := SuffixFor(x);
      Scaled(x / Scale(s), s, if s == Plain && x < 0.01 then 6 else 2)
  }

  /** The mantissa of a suffixed number has between one and three integer
      digits (T excepted, which has no upper bound); an unsuffixed one is
      below 1000 in magnitude. */
  lemma CompactMantissaRange(x: real)
    ensures var r := FormatCompactNumber(Some(x));
            (r.suffix != Plain ==> Abs(r.mantissa) >= 1.0)
            && (r.suffix != Trillions ==> Abs(r.mantissa) < 1000.0)
  {
    var r := FormatCompactNumber(Some(x));
    var k := Scale(r.suffix);
    assert Abs(x) == Abs(r.mantissa) * k by {
      assert x == r.mantissa * k;
      if x < 0.0 { assert -x == (-r.mantissa) * k; }
    }
    match r.suffix
    case Trillions =>
    case Billions =>
    case Millions =>
    case Thousands =>
    case Plain =>
  }

  /** Zero is not missing: it is shown plainly, with six decimals. */
  lemma CompactZero()
    ensures FormatCompactNumber(Some(0.0)) == Scaled(0.0, Plain, 6)
  {
  }

  // ------------------------------------------------------------ the rank

  datatype RankText = Ranked(rank: int) | NotAvailable

  /** `coin.market_cap_rank || "N/A"`: a missing rank and rank 0 are both "N/A". */
  function RankLabel(rank: Option<int>): (r: RankText)
    ensures r.NotAvailable? <==> (rank.None? || rank.value == 0)
    ensures r.Ranked? ==> r.rank == rank.value
  {
    if rank.None? || rank.value == 0 then NotAvailable else Ranked(rank.value)
  }

  // ----------------------------------------------------------- defaults

  /** `x || 0` for a number that may be missing. */
  function OrZero(x: Option<real>): (r: real)
    ensures x.Some? ==> r == x.value
    ensures x.None? ==> r == 0.0
  {
    if x.Some? then x.value else 0.0
  }

  /** `m?.[key]`: a lookup that may miss. */
  function Lookup(m: map<string, real>, key: string): (r: Option<real>)
    ensures r.Some? <==> key in m
    ensures r.Some? ==> r.value == m[key]
  {
    if key in m then Some(m[key]) else None
  }

  // ------------------------------------------------------------- supply

  /** `max_supply` is truthy: present and not zero. */
  predicate HasMaxSupply(md: MarketData) {
    md.maxSupply.Some? && md.maxSupply.value != 0.0
  }

  /** `md.max_supply ? circulating / max * 100 : null` */
  function SupplyPercentage(md: MarketData): (r: Option<real>)
    ensures r.Some? <==> HasMaxSupply(md)
    ensures r.Some? ==> r.value * md.maxSupply.value == md.circulatingSupply * 100.0
  {
    if HasMaxSupply(md) then Some(md.circulatingSupply / md.maxSupply.value * 100.0) else None
  }

  /** `SupplyProgress`: the bar is drawn only for a truthy percentage (present
      and non-zero), with width `Math.min(percentage, 100)`. */
  function ProgressBarWidth(percentage: Option<real>): (r: Option<real>)
    ensures r.Some? <==> percentage.Some? && percentage.value != 0.0
    ensures r.Some? ==> r.value <= 100.0
    ensures r.Some? ==> r.value == percentage.value || (r.value == 100.0 && percentage.value > 100.0)
  {
    if percentage.Some? && percentage.value != 0.0 then Some(if percentage.value <= 100.0 then percentage.value else 100.0) else None
  }

  /** For a coin with part of a capped supply in circulation the bar is drawn
      and its width is exactly the share in circulation, at most 100. */
  lemma SupplyBarOfCappedCoin(md: MarketData)
    requires md.maxSupply.Some? && 0.0 < md.circulatingSupply <= md.maxSupply.value
    ensures SupplyPercentage(md).Some?
    ensures ProgressBarWidth(SupplyPercentage(md)).Some?
    ensures 0.0 < ProgressBarWidth(SupplyPercentage(md)).value <= 100.0
    ensures ProgressBarWidth(SupplyPercentage(md)).value
            == md.circulatingSupply / md.maxSupply.value * 100.0
  {
    var c, m := md.circulatingSupply, md.maxSupply.value;
    assert 0.0 < c / m <= 1.0 by {
      assert c / m * m == c;
    }
  }
}
