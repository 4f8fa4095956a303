/** The older single-file dashboard (App.jsx): its own pager that renders one
    dot per page, a page state without loading or fallback flags, a fetch
    whose failure only logs, and the news ticker's title truncation. */
module App {
  import opened Common
  import opened CoinList
  import Dots

  const PerPageCards: nat := 4
  const PerPageTable: nat := 10

  /** News titles longer than this are cut. */
  const TitleLimit: nat := 80

  // ------------------------------------------------------------ legacy dots

  /** `Array.from({ length: pages })`: one dot per page. */
  function DotCount(total: nat, perPage: nat): (r: nat)
    requires perPage > 0
    ensures r * perPage >= total && (r == 0 || (r - 1) * perPage < total)
  {
    Dots.PageCount(total, perPage)
  }

  /** `index / perPage === i`, a division of numbers, not of integers. */
  predicate DotActive(index: nat, perPage: nat, i: nat)
    requires perPage > 0
    ensures index == 0 ==> (DotActive(index, perPage, i) <==> i == 0)
    ensures DotActive(index, perPage, i) ==> i <= index
  {
    (index as real) / (perPage as real) == i as real
  }

  /** Dot `i` is active exactly when the index is the first entry of page `i`. */
  lemma DotActiveIffPageStart(index: nat, perPage: nat, i: nat)
    requires perPage > 0
    ensures DotActive(index, perPage, i) <==> index == i * perPage
  {
    var x, p := index as real, perPage as real;
    if x / p == i as real {
      assert x == (i as real) * p;
      assert (i * perPage) as real == (i as real) * p;
    }
    if index == i * perPage {
      assert x == (i as real) * p;
    }
  }

  /** Unlike the newer pager, which always highlights `floor(index / perPage)`,
      this one highlights nothing once the index is not a multiple of
      `perPage`; on a multiple the two agree. */
  lemma ActivationDiffersFromNewPager(index: nat, perPage: nat, i: nat)
    requires perPage > 0
    ensures index % perPage != 0 ==> !DotActive(index, perPage, i)
    ensures index % perPage == 0 ==> (DotActive(index, perPage, i) <==> Dots.Highlighted(index, perPage, i))
  {
    DotActiveIffPageStart(index, perPage, i);
    if index == i * perPage {
      Dots.FirstEntryOfPage(i, perPage);
      Dots.DivModUnique(index, perPage, i, 0);
    }
    if index % perPage == 0 && Dots.Highlighted(index, perPage, i) {
      Dots.DivModUnique(index, perPage, index / perPage, 0);
    }
  }

  /** At most one dot is active. */
  lemma AtMostOneDotActive(index: nat, perPage: nat, i: nat, j: nat)
    requires perPage > 0 && DotActive(index, perPage, i) && DotActive(index, perPage, j)
    ensures i == j
  {
    DotActiveIffPageStart(index, perPage, i);
    DotActiveIffPageStart(index, perPage, j);
    Dots.FirstEntryOfPage(i, perPage);
    Dots.FirstEntryOfPage(j, perPage);
  }

  /** Clicking dot `i` sets the index to `i * perPage`, which lies in the list
      and makes dot `i` the active one. */
  lemma DotClickActivates(total: nat, perPage: nat, i: nat)
    requires perPage > 0 && i < DotCount(total, perPage)
    ensures i * perPage < total
    ensures DotActive(i * perPage, perPage, i)
  {
    Dots.MulMonotone(i, DotCount(total, perPage) - 1, perPage);
    DotActiveIffPageStart(i * perPage, perPage, i);
  }

  // ------------------------------------------------------------------ news

  datatype NewsItem = NewsItem(title: string, url: string)

  /** `title.length > 80 ? title.substring(0, 80) + '...' : title` */
  function TickerTitle(title: string): (r: string)
    ensures |title| <= TitleLimit ==> r == title
    ensures |title| > TitleLimit ==> |r| == TitleLimit + 3 && r[..TitleLimit] == title[..TitleLimit]
                                     && r[TitleLimit..] == "..."
  {
    Text.Ellipsize(title, TitleLimit)
  }

  // -------------------------------------------------------------- the page

  class AppPage {
    var cryptos: seq<Coin>
    var news: seq<NewsItem>
    var search: string
    var currency: string
    var cardIndex: nat
    var tableIndex: nat
    var autoScroll: bool

    /** The initial state: nothing loaded yet. */
    constructor ()
      ensures cryptos == [] && news == [] && search == "" && currency == "usd"
      ensures cardIndex == 0 && tableIndex == 0 && autoScroll
    {
      cryptos := [];
      news := [];
      search := "";
      currency := "usd";
      cardIndex := 0;
      tableIndex := 0;
      autoScroll := true;
    }

    function Filtered(): (r: seq<Coin>)
      reads this
      ensures |r| <= |cryptos|
      ensures search == "" ==> r == cryptos
    {
      FilterEmptyQuery(cryptos);
      Filter(cryptos, search)
    }

    /** No loading flag here: only auto-scroll and the search box gate the timers. */
    predicate AutoAdvanceEnabled()
      reads this
    {
      autoScroll && search == ""
    }

    /** The pagers are rendered whenever the filtered list is non-empty. */
    predicate DotsRendered()
      reads this
    {
      |Filtered()| > 0
    }

    predicate IndicesInList()
      reads this
    {
      (cardIndex == 0 || cardIndex < |Filtered()|) && (tableIndex == 0 || tableIndex < |Filtered()|)
    }

    /** `filteredCryptos.slice(cardIndex, cardIndex + 4)` */
    function VisibleCards(): (r: seq<Coin>)
      reads this
      ensures |r| <= PerPageCards
      ensures |r| == Max(0, Min(PerPageCards, |Filtered()| - cardIndex))
      ensures forall k :: 0 <= k < |r| ==> cardIndex + k < |Filtered()| && r[k] == Filtered()[cardIndex + k]
    {
      PageSlice(Filtered(), cardIndex, PerPageCards)
    }

    /** `filteredCryptos.slice(tableIndex, tableIndex + 10)`, row `idx`
        numbered `tableIndex + idx + 1`. */
    function VisibleRows(): (r: seq<Coin>)
      reads this
      ensures |r| <= PerPageTable
      ensures |r| == Max(0, Min(PerPageTable, |Filtered()| - tableIndex))
      ensures forall idx :: 0 <= idx < |r| ==>
                RowNumber(tableIndex, idx) <= |Filtered()| && r[idx] == Filtered()[RowNumber(tableIndex, idx) - 1]
    {
      PageSlice(Filtered(), tableIndex, PerPageTable)
    }

    /** The currency selector. Both fetches (`fetchData` and `fetchNews`) sit
        in one effect keyed on the currency: they run again exactly when the
        currency changes. */
    method SelectCurrency(cur: string) returns (refetch: bool)
      modifies this`currency
      ensures currency == cur
      ensures refetch == (cur != old(currency))
    {
      refetch := cur != currency;
      currency := cur;
    }

    /** `fetchData`: a response replaces the list; a failure is only logged. */
    method CompleteFetch(outcome: Response<seq<Coin>>)
      modifies this`cryptos
      ensures cryptos == if outcome.Received? then outcome.body else old(cryptos)
    {
      if outcome.Received? {
        cryptos := outcome.body;
      }
    }

    /** `fetchNews`: same shape as `fetchData`. */
    method CompleteNewsFetch(outcome: Response<seq<NewsItem>>)
      modifies this`news
      ensures news == if outcome.Received? then outcome.body else old(news)
    {
      if outcome.Received? {
        news := outcome.body;
      }
    }

    method TickCards()
      modifies this`cardIndex
      ensures cardIndex == if AutoAdvanceEnabled() then AdvanceStep(old(cardIndex), PerPageCards, |cryptos|)
                           else old(cardIndex)
      ensures old(IndicesInList()) ==> IndicesInList()
    {
      if AutoAdvanceEnabled() {
        cardIndex := AdvanceStep(cardIndex, PerPageCards, |cryptos|);
      }
    }

    method TickTable()
      modifies this`tableIndex
      ensures tableIndex == if AutoAdvanceEnabled() then AdvanceStep(old(tableIndex), PerPageTable, |cryptos|)
                            else old(tableIndex)
      ensures old(IndicesInList()) ==> IndicesInList()
    {
      if AutoAdvanceEnabled() {
        tableIndex := AdvanceStep(tableIndex, PerPageTable, |cryptos|);
      }
    }

    method EditSearch(query: string)
      modifies this`search, this`cardIndex, this`tableIndex
      ensures search == query && cardIndex == 0 && tableIndex == 0
      ensures IndicesInList()
    {
      search := query;
      cardIndex := 0;
      tableIndex := 0;
    }

    method ToggleAutoScroll()
      modifies this`autoScroll
      ensures autoScroll == !old(autoScroll)
    {
      autoScroll := !autoScroll;
    }

    /** A click on card dot `i`, which exists only when the dots are rendered. */
    method PressCardDot(i: nat)
      modifies this`cardIndex
      ensures cardIndex == if DotsRendered() && i < DotCount(|Filtered()|, PerPageCards)
                           then i * PerPageCards else old(cardIndex)
      ensures old(IndicesInList()) ==> IndicesInList()
    {
      if DotsRendered() && i < DotCount(|Filtered()|, PerPageCards) {
        DotClickActivates(|Filtered()|, PerPageCards, i);
        cardIndex := i * PerPageCards;
      }
    }

    /** A click on table dot `i`. */
    method PressTableDot(i: nat)
      modifies this`tableIndex
      ensures tableIndex == if DotsRendered() && i < DotCount(|Filtered()|, PerPageTable)
                            then i * PerPageTable else old(tableIndex)
      ensures old(IndicesInList()) ==> IndicesInList()
    {
      if DotsRendered() && i < DotCount(|Filtered()|, PerPageTable) {
        DotClickActivates(|Filtered()|, PerPageTable, i);
        tableIndex := i * PerPageTable;
      }
    }
  }
}
