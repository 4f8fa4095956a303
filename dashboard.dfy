/** The dashboard page (pages/Dashboard.jsx): a state machine over the coin
    list, the fallback flag, the loading flag, the search text and the two
    carousel indices, driven by the fetch effect, the two auto-advance timers,
    the search box and the pagers. */
module Dashboard {
  import opened Common
  import opened CoinList
  import Dots
  import FallbackCryptos

  /** `perPageCards` and `perPageTable`. */
  const PerPageCards: nat := 12
  const PerPageTable: nat := 12

  /** Names longer than this are cut in the top/bottom five. */
  const NameLimit: nat := 12

  // ------------------------------------------------------ fallback listing

  /** `{ usd: 1, brl: 5, eur: 0.92 }[currency] || 1` */
  function ConversionRate(currency: string): (r: real)
    ensures r > 0.0
    ensures currency == "brl" ==> r == 5.0
    ensures currency == "eur" ==> r == 0.92
    ensures currency != "brl" && currency != "eur" ==> r == 1.0
  {
    if currency == "usd" then 1.0
    else if currency == "brl" then 5.0
    else if currency == "eur" then 0.92
    else 1.0
  }

  /** `{ ...coin, current_price: p * rate, market_cap: m * rate,
        sparkline_in_7d: { price: points.map(p => p * rate) } }` */
  function ConvertCoin(c: Coin, rate: real): (r: Coin)
    ensures r.id == c.id && r.name == c.name && r.symbol == c.symbol && r.image == c.image
    ensures r.change24h == c.change24h
    ensures r.currentPrice == c.currentPrice * rate && r.marketCap == c.marketCap * rate
    ensures |r.sparkline| == |c.sparkline|
    ensures forall k :: 0 <= k < |c.sparkline| ==> r.sparkline[k] == c.sparkline[k] * rate
  {
    c.(currentPrice := c.currentPrice * rate,
       marketCap := c.marketCap * rate,
       sparkline := seq(|c.sparkline|, k requires 0 <= k < |c.sparkline| => c.sparkline[k] * rate))
  }

  /** `FALLBACK_CRYPTOS.map(coin => ConvertCoin(coin, rate))` */
  function ConvertAll(coins: seq<Coin>, rate: real): (r: seq<Coin>)
    ensures |r| == |coins|
    ensures forall i :: 0 <= i < |coins| ==> r[i] == ConvertCoin(coins[i], rate)
  {
    if coins == [] then [] else [ConvertCoin(coins[0], rate)] + ConvertAll(coins[1..], rate)
  }

  /** In dollars the fallback listing is the static one, unchanged. */
  lemma ConvertAtRateOne(coins: seq<Coin>)
    ensures ConvertAll(coins, 1.0) == coins
  {
    forall i | 0 <= i < |coins| ensures ConvertAll(coins, 1.0)[i] == coins[i] {
      assert ConvertCoin(coins[i], 1.0).sparkline == coins[i].sparkline;
    }
  }

  /** Converting twice is converting once by the product of the rates. */
  lemma ConvertComposes(coins: seq<Coin>, r1: real, r2: real)
    ensures ConvertAll(ConvertAll(coins, r1), r2) == ConvertAll(coins, r1 * r2)
  {
    forall i | 0 <= i < |coins|
      ensures ConvertAll(ConvertAll(coins, r1), r2)[i] == ConvertAll(coins, r1 * r2)[i]
    {
      ConvertCoinComposes(coins[i], r1, r2);
    }
  }

  lemma ConvertCoinComposes(c: Coin, r1: real, r2: real)
    ensures ConvertCoin(ConvertCoin(c, r1), r2) == ConvertCoin(c, r1 * r2)
  {
    var a, b := ConvertCoin(ConvertCoin(c, r1), r2), ConvertCoin(c, r1 * r2);
    MulAssoc(c.currentPrice, r1, r2);
    MulAssoc(c.marketCap, r1, r2);
    forall k | 0 <= k < |c.sparkline| ensures a.sparkline[k] == b.sparkline[k] {
      MulAssoc(c.sparkline[k], r1, r2);
    }
  }

  lemma MulAssoc(x: real, r1: real, r2: real)
    ensures (x * r1) * r2 == x * (r1 * r2)
  {
  }

  lemma ConvertAllCons(c: Coin, s: seq<Coin>, rate: real)
    ensures ConvertAll([c] + s, rate) == [ConvertCoin(c, rate)] + ConvertAll(s, rate)
  {
  }

  lemma ConvertAllTail(s: seq<Coin>, rate: real)
    requires s != []
    ensures ConvertAll(s, rate)[1..] == ConvertAll(s[1..], rate)
  {
  }

  /** Conversion touches neither names nor symbols, so searching the
      converted list finds the converted matches. */
  lemma {:induction false} FilterCommutesWithConvert(coins: seq<Coin>, query: string, rate: real)
    ensures Filter(ConvertAll(coins, rate), query) == ConvertAll(Filter(coins, query), rate)
  {
    if coins != [] {
      FilterCommutesWithConvert(coins[1..], query, rate);
      ConvertAllTail(coins, rate);
      ConvertAllCons(coins[0], Filter(coins[1..], query), rate);
    }
  }

  /** A positive rate keeps prices in the same order. */
  lemma ScaleKeepsOrder(o: Order, a: Coin, b: Coin, rate: real)
    requires rate > 0.0
    ensures Precedes(o, ConvertCoin(a, rate), ConvertCoin(b, rate)) <==> Precedes(o, a, b)
  {
    var x, y := a.currentPrice, b.currentPrice;
    if x <= y { assert x * rate <= y * rate; } else { assert y * rate < x * rate; }
  }

  lemma ConvertKeepsSorted(o: Order, s: seq<Coin>, rate: real)
    requires rate > 0.0 && SortedBy(o, s)
    ensures SortedBy(o, ConvertAll(s, rate))
  {
    forall i, j | 0 <= i < j < |s| ensures Precedes(o, ConvertAll(s, rate)[i], ConvertAll(s, rate)[j]) {
      ScaleKeepsOrder(o, s[i], s[j], rate);
    }
  }

  lemma {:induction false} InsertCommutesWithConvert(o: Order, x: Coin, s: seq<Coin>, rate: real)
    requires rate > 0.0 && SortedBy(o, s)
    ensures SortedBy(o, ConvertAll(s, rate))
    ensures Insert(o, ConvertCoin(x, rate), ConvertAll(s, rate)) == ConvertAll(Insert(o, x, s), rate)
  {
    ConvertKeepsSorted(o, s, rate);
    if s == [] {
      ConvertAllCons(x, s, rate);
    } else {
      ScaleKeepsOrder(o, x, s[0], rate);
      ConvertAllTail(s, rate);
      if Precedes(o, x, s[0]) {
        ConvertAllCons(x, s, rate);
      } else {
        InsertCommutesWithConvert(o, x, s[1..], rate);
        ConvertAllCons(s[0], Insert(o, x, s[1..]), rate);
      }
    }
  }

  /** Sorting the converted list is converting the sorted list. */
  lemma {:induction false} SortCommutesWithConvert(o: Order, s: seq<Coin>, rate: real)
    requires rate > 0.0
    ensures SortBy(o, ConvertAll(s, rate)) == ConvertAll(SortBy(o, s), rate)
  {
    if s != [] {
      SortCommutesWithConvert(o, s[1..], rate);
      ConvertAllTail(s, rate);
      InsertCommutesWithConvert(o, s[0], SortBy(o, s[1..]), rate);
    }
  }

  /** The top and bottom five of the converted fallback listing are the
      converted top and bottom five: a positive rate does not reorder coins. */
  lemma ExtremesCommuteWithConvert(coins: seq<Coin>, rate: real)
    requires rate > 0.0
    ensures TopFive(ConvertAll(coins, rate)) == ConvertAll(TopFive(coins), rate)
    ensures BottomFive(ConvertAll(coins, rate)) == ConvertAll(BottomFive(coins), rate)
  {
    SortCommutesWithConvert(Descending, coins, rate);
    SortCommutesWithConvert(Ascending, coins, rate);
    var k := Min(5, |coins|);
    ConvertAllPrefix(SortBy(Descending, coins), rate, k);
    ConvertAllPrefix(SortBy(Ascending, coins), rate, k);
  }

  lemma ConvertAllPrefix(s: seq<Coin>, rate: real, k: nat)
    requires k <= |s|
    ensures ConvertAll(s, rate)[..k] == ConvertAll(s[..k], rate)
  {
  }

  // ---------------------------------------------------------- live listing

  /** `res.data && Array.isArray(res.data) && res.data.length > 2`; a body
      that is missing or not an array is None. */
  predicate LiveAccepted(outcome: Response<Option<seq<Coin>>>)
    ensures outcome.Failed? ==> !LiveAccepted(outcome)
    ensures LiveAccepted(outcome) ==> outcome.Received? && outcome.body.Some? && |outcome.body.value| >= 3
  {
    outcome.Received? && outcome.body.Some? && |outcome.body.value| > 2
  }

  // ------------------------------------------------------------ auto-advance

  /** Started from the first page, the timer visits the pages in order and
      wraps after the last: after `k` ticks the index is the first entry of
      page `k mod pages`. */
  lemma {:induction false} AutoAdvanceCycles(k: nat, perPage: nat, length: nat)
    requires perPage > 0 && length > 0
    ensures AdvanceTimes(k, 0, perPage, length)
            == (k % Dots.PageCount(length, perPage)) * perPage
  {
    var pages := Dots.PageCount(length, perPage);
    assert pages > 0;
    if k == 0 {
      assert k % pages == 0;
    } else {
      AutoAdvanceCycles(k - 1, perPage, length);
      var j := (k - 1) % pages;
      var prev := AdvanceTimes(k - 1, 0, perPage, length);
      assert prev == j * perPage;
      assert AdvanceTimes(k, 0, perPage, length) == AdvanceStep(prev, perPage, length);
      ModSucc(k - 1, pages);
      AdvanceFromPage(j, perPage, length);
      var next := AdvanceTimes(k, 0, perPage, length);
      if j == pages - 1 {
        assert k % pages == 0 && next == 0;
        assert (k % pages) * perPage == 0;
      } else {
        assert k % pages == j + 1 && next == (j + 1) * perPage;
      }
    }
  }

  /** From the first entry of page `j` a tick goes to the next page's first
      entry, or back to 0 from the last page. */
  lemma AdvanceFromPage(j: nat, perPage: nat, length: nat)
    requires perPage > 0 && j < Dots.PageCount(length, perPage)
    ensures AdvanceStep(j * perPage, perPage, length)
            == if j == Dots.PageCount(length, perPage) - 1 then 0 else (j + 1) * perPage
  {
    var pages := Dots.PageCount(length, perPage);
    assert j * perPage + perPage == (j + 1) * perPage;
    if j < pages - 1 {
      Dots.MulMonotone(j + 1, pages - 1, perPage);
    }
  }

  lemma ModSucc(a: nat, m: nat)
    requires m > 0
    ensures (a + 1) % m == if a % m == m - 1 then 0 else a % m + 1
  {
    var q, r := a / m, a % m;
    assert a == q * m + r;
    if r == m - 1 {
      Dots.DivModUnique(a + 1, m, q + 1, 0);
    } else {
      Dots.DivModUnique(a + 1, m, q, r + 1);
    }
  }

  /** Name shown in the top/bottom five: `name.substring(0, 12)` followed by
      "..." when the name is longer than 12 characters. */
  function ShortName(name: string): (r: string)
    ensures |name| <= NameLimit ==> r == name
    ensures |name| > NameLimit ==> |r| == NameLimit + 3 && r[..NameLimit] == name[..NameLimit]
    ensures |name| > NameLimit ==> r[NameLimit..] == "..."
  {
    Text.Ellipsize(name, NameLimit)
  }

  // -------------------------------------------------------------- the page

  class DashboardPage {
    /** `FALLBACK_CRYPTOS` */
    const fallback: seq<Coin>
    var cryptos: seq<Coin>
    var usingFallback: bool
    var loading: bool
    var search: string
    var currency: string
    var cardIndex: nat
    var tableIndex: nat
    var autoScroll: bool

    /** The initial state: the static listing, flagged as fallback. */
    constructor (wave: nat -> real)
      ensures fallback == FallbackCryptos.Records(wave)
      ensures cryptos == fallback && usingFallback && !loading
      ensures search == "" && currency == "brl" && autoScroll
      ensures cardIndex == 0 && tableIndex == 0
    {
      fallback := FallbackCryptos.Records(wave);
      cryptos := FallbackCryptos.Records(wave);
      usingFallback := true;
      loading := false;
      search := "";
      currency := "brl";
      autoScroll := true;
      cardIndex := 0;
      tableIndex := 0;
    }

    /** `filteredCryptos` */
    function Filtered(): (r: seq<Coin>)
      reads this
      ensures |r| <= |cryptos|
      ensures search == "" ==> r == cryptos
    {
      FilterEmptyQuery(cryptos);
      Filter(cryptos, search)
    }

    /** The timers run only when auto-scroll is on, the search box is empty
      and no fetch is in flight. */
    predicate AutoAdvanceEnabled()
      reads this
    {
      autoScroll && search == "" && !loading
    }

    /** Each carousel index is 0 or points into the filtered list. */
    predicate IndicesInList()
      reads this
    {
      (cardIndex == 0 || cardIndex < |Filtered()|) && (tableIndex == 0 || tableIndex < |Filtered()|)
    }

    /** The cards on screen: `filteredCryptos.slice(cardIndex, cardIndex + 12)`. */
    function VisibleCards(): (r: seq<Coin>)
      reads this
      ensures |r| <= PerPageCards
      ensures |r| == Max(0, Min(PerPageCards, |Filtered()| - cardIndex))
      ensures forall k :: 0 <= k < |r| ==> cardIndex + k < |Filtered()| && r[k] == Filtered()[cardIndex + k]
    {
      PageSlice(Filtered(), cardIndex, PerPageCards)
    }

    /** The table rows on screen, row `idx` numbered `tableIndex + idx + 1`. */
    function VisibleRows(): (r: seq<Coin>)
      reads this
      ensures |r| <= PerPageTable
      ensures |r| == Max(0, Min(PerPageTable, |Filtered()| - tableIndex))
      ensures forall idx :: 0 <= idx < |r| ==>
                RowNumber(tableIndex, idx) <= |Filtered()| && r[idx] == Filtered()[RowNumber(tableIndex, idx) - 1]
    {
      PageSlice(Filtered(), tableIndex, PerPageTable)
    }

    /** A pager is rendered only when no fetch is in flight (the page is then
        a spinner) and the filtered list needs more than one page. */
    predicate CardPagerShown()
      reads this
    {
      !loading && |Filtered()| > PerPageCards
    }

    predicate TablePagerShown()
      reads this
    {
      !loading && |Filtered()| > PerPageTable
    }

    /** The currency selector, rendered only when no fetch is in flight. The
        fetch effect is keyed on the currency: it runs again exactly when the
        currency changes. */
    method SelectCurrency(cur: string) returns (refetch: bool)
      requires !loading
      modifies this`currency
      ensures currency == cur
      ensures refetch == (cur != old(currency))
    {
      refetch := cur != currency;
      currency := cur;
    }

    /** `fetchData` up to its `await`: `setLoading(true)`. */
    method BeginFetch()
      modifies this`loading
      ensures loading
    {
      loading := true;
    }

    /** `fetchData` after its `await`: a live list of more than two coins is
        taken as is; anything else (an error, a missing or non-array body, two
        coins or fewer) installs the static listing converted to the selected
        currency. `finally` clears the loading flag. The carousel indices are
        left where they were. */
    method CompleteFetch(outcome: Response<Option<seq<Coin>>>)
      modifies this`cryptos, this`usingFallback, this`loading
      ensures !loading
      ensures LiveAccepted(outcome) ==> cryptos == outcome.body.value && !usingFallback
      ensures !LiveAccepted(outcome) ==>
                cryptos == ConvertAll(fallback, ConversionRate(currency)) && usingFallback
      ensures usingFallback <==> !LiveAccepted(outcome)
    {
      if LiveAccepted(outcome) {
        cryptos := outcome.body.value;
        usingFallback := false;
      } else {
        cryptos := ConvertAll(fallback, ConversionRate(currency));
        usingFallback := true;
      }
      loading := false;
    }

    /** One tick of the card timer (every 5 s while enabled). */
    method TickCards()
      modifies this`cardIndex
      ensures cardIndex == if AutoAdvanceEnabled() then AdvanceStep(old(cardIndex), PerPageCards, |cryptos|)
                           else old(cardIndex)
      ensures old(IndicesInList()) ==> IndicesInList()
    {
      if AutoAdvanceEnabled() {
        cardIndex := AdvanceStep(cardIndex, PerPageCards, |cryptos|);
      }
    }

    /** One tick of the table timer (every 6 s while enabled). */
    method TickTable()
      modifies this`tableIndex
      ensures tableIndex == if AutoAdvanceEnabled() then AdvanceStep(old(tableIndex), PerPageTable, |cryptos|)
                            else old(tableIndex)
      ensures old(IndicesInList()) ==> IndicesInList()
    {
      if AutoAdvanceEnabled() {
        tableIndex := AdvanceStep(tableIndex, PerPageTable, |cryptos|);
      }
    }

    /** Typing in the search box, rendered only when no fetch is in flight,
        resets both carousels to the first page. */
    method EditSearch(query: string)
      requires !loading
      modifies this`search, this`cardIndex, this`tableIndex
      ensures search == query && cardIndex == 0 && tableIndex == 0
      ensures IndicesInList()
    {
      search := query;
      cardIndex := 0;
      tableIndex := 0;
    }

    /** The auto-scroll button, rendered only when no fetch is in flight. */
    method ToggleAutoScroll()
      requires !loading
      modifies this`autoScroll
      ensures autoScroll == !old(autoScroll)
    {
      autoScroll := !autoScroll;
    }

    /** A click on the card pager, which exists only when no fetch is in
        flight; it moves the index when the pager is rendered and the button
        enabled. */
    method PressCardPager(a: Dots.PagerAction)
      requires !loading
      modifies this`cardIndex
      ensures var target := Dots.Press(|Filtered()|, old(cardIndex), PerPageCards, a);
              cardIndex == if CardPagerShown() && target.Some? then target.value else old(cardIndex)
      ensures old(IndicesInList()) ==> IndicesInList()
    {
      if CardPagerShown() {
        var target := Dots.Press(|Filtered()|, cardIndex, PerPageCards, a);
        if target.Some? {
          if cardIndex < |Filtered()| {
            Dots.PressStaysInList(|Filtered()|, cardIndex, PerPageCards, a);
          }
          cardIndex := target.value;
        }
      }
    }

    /** A click on the table pager, which exists only when no fetch is in
        flight; it moves the index when the pager is rendered and the button
        enabled. */
    method PressTablePager(a: Dots.PagerAction)
      requires !loading
      modifies this`tableIndex
      ensures var target := Dots.Press(|Filtered()|, old(tableIndex), PerPageTable, a);
              tableIndex == if TablePagerShown() && target.Some? then target.value else old(tableIndex)
      ensures old(IndicesInList()) ==> IndicesInList()
    {
      if TablePagerShown() {
        var target := Dots.Press(|Filtered()|, tableIndex, PerPageTable, a);
        if target.Some? {
          if tableIndex < |Filtered()| {
            Dots.PressStaysInList(|Filtered()|, tableIndex, PerPageTable, a);
          }
          tableIndex := target.value;
        }
      }
    }
  }
}
