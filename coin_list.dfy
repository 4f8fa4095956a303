/** The list pipeline shared by the dashboard views (pages/Dashboard.jsx and
    the older App.jsx): the search filter, the top/bottom five by price, the
    visible page of a carousel and the auto-advance step. */
module CoinList {
  import opened Common
  import opened Text

  /** One market-listing record as the views use it. */
  datatype Coin = Coin(
    id: string,
    name: string,
    symbol: string,
    image: string,
    currentPrice: real,
    marketCap: real,
    change24h: real,
    sparkline: seq<real>)

  // ---------------------------------------------------------------- search

  /** The search predicate: the lower-cased name or symbol includes the
      lower-cased query. */
  predicate Matches(c: Coin, query: string)
    ensures query == "" ==> Matches(c, query)
    ensures Matches(c, query) ==> |query| <= |c.name| || |query| <= |c.symbol|
  {
    ContainsEmpty(Lower(c.name));
    Contains(Lower(c.name), Lower(query)) || Contains(Lower(c.symbol), Lower(query))
  }

  /** `cryptos.filter(coin => Matches(coin, search))`. */
  function Filter(coins: seq<Coin>, query: string): (r: seq<Coin>)
    ensures |r| <= |coins|
    ensures forall c :: c in r ==> c in coins && Matches(c, query)
  {
    if coins == [] then []
    else (if Matches(coins[0], query) then [coins[0]] else []) + Filter(coins[1..], query)
  }

  /** The filter keeps exactly the matching coins, each as often as it occurs. */
  lemma {:induction false} FilterKeepsExactlyMatches(coins: seq<Coin>, query: string, c: Coin)
    ensures multiset(Filter(coins, query))[c] == if Matches(c, query) then multiset(coins)[c] else 0
  {
    if coins != [] {
      FilterKeepsExactlyMatches(coins[1..], query, c);
      var rest := Filter(coins[1..], query);
      assert coins == [coins[0]] + coins[1..];
      assert multiset(coins) == multiset{coins[0]} + multiset(coins[1..]);
      if Matches(coins[0], query) {
        assert Filter(coins, query) == [coins[0]] + rest;
        assert multiset(Filter(coins, query)) == multiset{coins[0]} + multiset(rest);
      } else {
        assert Filter(coins, query) == rest;
      }
    }
  }

  /** The filter preserves order: filtering a concatenation concatenates the
      filtered parts. */
  lemma {:induction false} FilterDistributes(a: seq<Coin>, b: seq<Coin>, query: string)
    ensures Filter(a + b, query) == Filter(a, query) + Filter(b, query)
  {
    if a == [] {
      assert a + b == b;
    } else {
      assert (a + b)[1..] == a[1..] + b;
      FilterDistributes(a[1..], b, query);
    }
  }

  /** An empty search keeps the whole list, in order. */
  lemma {:induction false} FilterEmptyQuery(coins: seq<Coin>)
    ensures Filter(coins, "") == coins
  {
    if coins != [] {
      ContainsEmpty(Lower(coins[0].name));
      FilterEmptyQuery(coins[1..]);
    }
  }

  // ------------------------------------------------------- top / bottom five

  datatype Order = Ascending | Descending

  /** The comparator of `sort`: `a - b` (ascending) or `b - a` (descending)
      on `current_price`. */
  predicate Precedes(o: Order, a: Coin, b: Coin) {
    match o
    case Ascending => a.currentPrice <= b.currentPrice
    case Descending => a.currentPrice >= b.currentPrice
  }

  predicate SortedBy(o: Order, s: seq<Coin>) {
    forall i, j :: 0 <= i < j < |s| ==> Precedes(o, s[i], s[j])
  }

  /** A coin that precedes everything in a sorted list can go in front of it. */
  lemma ConsSorted(o: Order, a: Coin, s: seq<Coin>)
    requires SortedBy(o, s)
    requires forall y :: y in multiset(s) ==> Precedes(o, a, y)
    ensures SortedBy(o, [a] + s)
  {
    forall i, j | 0 <= i < j < |[a] + s| ensures Precedes(o, ([a] + s)[i], ([a] + s)[j]) {
      if i == 0 {
        assert s[j - 1] in multiset(s);
      }
    }
  }

  function Insert(o: Order, x: Coin, s: seq<Coin>): (r: seq<Coin>)
    requires SortedBy(o, s)
    ensures SortedBy(o, r)
    ensures multiset(r) == multiset(s) + multiset{x}
    ensures |r| == |s| + 1
  {
    if s == [] || Precedes(o, x, s[0]) then
      ConsSorted(o, x, s);
      [x] + s
    else
      var rest := Insert(o, x, s[1..]);
      assert s == [s[0]] + s[1..];
      HeadPrecedesTail(o, s);
      assert Precedes(o, s[0], x);
      assert forall y :: y in multiset(rest) ==> y in multiset(s[1..]) || y == x;
      ConsSorted(o, s[0], rest);
      [s[0]] + rest
  }

  /** The head of a sorted list precedes everything after it. */
  lemma HeadPrecedesTail(o: Order, s: seq<Coin>)
    requires SortedBy(o, s) && s != []
    ensures forall y :: y in multiset(s[1..]) ==> Precedes(o, s[0], y)
  {
    forall y | y in multiset(s[1..]) ensures Precedes(o, s[0], y) {
      var k :| 0 <= k < |s[1..]| && s[1..][k] == y;
      assert s[k + 1] == y;
    }
  }

  /** A sorted copy of the list (`[...cryptos].sort(cmp)`); the list itself is
      a value and is left as it was. */
  function SortBy(o: Order, s: seq<Coin>): (r: seq<Coin>)
    ensures SortedBy(o, r)
    ensures multiset(r) == multiset(s)
    ensures |r| == |s|
  {
    if s == [] then []
    else
      assert s == [s[0]] + s[1..];
      Insert(o, s[0], SortBy(o, s[1..]))
  }

  /** `[...cryptos].sort((a, b) => b.current_price - a.current_price).slice(0, 5)` */
  function TopFive(coins: seq<Coin>): (r: seq<Coin>)
    ensures |r| == Min(5, |coins|)
    ensures SortedBy(Descending, r)
  {
    SortedPrefixIsExtreme(Descending, SortBy(Descending, coins), Min(5, |coins|));
    SortBy(Descending, coins)[..Min(5, |coins|)]
  }

  /** `[...cryptos].sort((a, b) => a.current_price - b.current_price).slice(0, 5)` */
  function BottomFive(coins: seq<Coin>): (r: seq<Coin>)
    ensures |r| == Min(5, |coins|)
    ensures SortedBy(Ascending, r)
  {
    SortedPrefixIsExtreme(Ascending, SortBy(Ascending, coins), Min(5, |coins|));
    SortBy(Ascending, coins)[..Min(5, |coins|)]
  }

  /** The first `k` of a list sorted by `o` beat every coin left behind. */
  lemma PrefixOfSortedIsExtreme(o: Order, s: seq<Coin>, k: nat, x: Coin)
    requires SortedBy(o, s) && k <= |s|
    requires x in multiset(s) - multiset(s[..k])
    ensures forall i :: 0 <= i < k ==> Precedes(o, s[i], x)
  {
    assert s == s[..k] + s[k..];
    assert multiset(s) - multiset(s[..k]) == multiset(s[k..]);
    assert x in s[k..];
    var j :| 0 <= j < |s[k..]| && s[k..][j] == x;
    assert s[k + j] == x;
  }

  /** The first `k` coins of a sorted list are sorted, drawn from the list,
      and precede every coin they leave out. */
  lemma SortedPrefixIsExtreme(o: Order, s: seq<Coin>, k: nat)
    requires SortedBy(o, s) && k <= |s|
    ensures SortedBy(o, s[..k])
    ensures multiset(s[..k]) <= multiset(s)
    ensures forall x, i :: x in multiset(s) - multiset(s[..k]) && 0 <= i < k
              ==> Precedes(o, s[..k][i], x)
  {
    var t := s[..k];
    assert s == t + s[k..];
    assert multiset(s) == multiset(t) + multiset(s[k..]);
    forall x, i | x in multiset(s) - multiset(t) && 0 <= i < k
      ensures Precedes(o, t[i], x)
    {
      PrefixOfSortedIsExtreme(o, s, k, x);
    }
  }

  /** `top5` holds the min(5, n) highest-priced coins in non-increasing order:
      it is drawn from the list, and every coin it leaves out is priced no
      higher than any coin it shows. */
  lemma TopFiveAreHighest(coins: seq<Coin>)
    ensures |TopFive(coins)| == Min(5, |coins|)
    ensures SortedBy(Descending, TopFive(coins))
    ensures multiset(TopFive(coins)) <= multiset(coins)
    ensures forall x, i :: x in multiset(coins) - multiset(TopFive(coins)) && 0 <= i < |TopFive(coins)|
              ==> x.currentPrice <= TopFive(coins)[i].currentPrice
  {
    SortedPrefixIsExtreme(Descending, SortBy(Descending, coins), Min(5, |coins|));
  }

  /** `bottom5` holds the min(5, n) lowest-priced coins in non-decreasing order. */
  lemma BottomFiveAreLowest(coins: seq<Coin>)
    ensures |BottomFive(coins)| == Min(5, |coins|)
    ensures SortedBy(Ascending, BottomFive(coins))
    ensures multiset(BottomFive(coins)) <= multiset(coins)
    ensures forall x, i :: x in multiset(coins) - multiset(BottomFive(coins)) && 0 <= i < |BottomFive(coins)|
              ==> BottomFive(coins)[i].currentPrice <= x.currentPrice
  {
    SortedPrefixIsExtreme(Ascending, SortBy(Ascending, coins), Min(5, |coins|));
  }

  // ----------------------------------------------------------------- paging

  /** `list.slice(start, start + count)`, which clamps both ends to the list. */
  function PageSlice(s: seq<Coin>, start: nat, count: nat): (r: seq<Coin>)
    ensures |r| == Max(0, Min(count, |s| - start))
    ensures forall k :: 0 <= k < |r| ==> r[k] == s[start + k]
  {
    s[Min(start, |s|)..Min(start + count, |s|)]
  }

  /** With pages starting at multiples of `perPage`, the coin at position `i`
      is shown on page `i / perPage`, in slot `i % perPage`: the pages cover
      the whole list. */
  lemma PagesCoverList(s: seq<Coin>, perPage: nat, i: nat)
    requires perPage > 0 && i < |s|
    ensures i % perPage < |PageSlice(s, (i / perPage) * perPage, perPage)|
    ensures PageSlice(s, (i / perPage) * perPage, perPage)[i % perPage] == s[i]
  {
    assert (i / perPage) * perPage + i % perPage == i;
  }

  /** Row `idx` of a table page that starts at `start` is numbered
      `start + idx + 1`, which is its 1-based position in the whole list. */
  function RowNumber(start: nat, idx: nat): (r: nat)
    ensures r >= 1 && r > start
  {
    start + idx + 1
  }

  lemma RowNumberIsPosition(s: seq<Coin>, start: nat, perPage: nat, idx: nat)
    requires idx < |PageSlice(s, start, perPage)|
    ensures 1 <= RowNumber(start, idx) <= |s|
    ensures PageSlice(s, start, perPage)[idx] == s[RowNumber(start, idx) - 1]
  {
  }

  // ---------------------------------------------------------- auto-advance

  /** One tick of the carousel timer:
      `prev + perPage >= length ? 0 : prev + perPage`. */
  function AdvanceStep(prev: nat, perPage: nat, length: nat): (r: nat)
    ensures r == 0 || (r == prev + perPage && r < length)
    ensures prev + perPage < length ==> r == prev + perPage
    ensures prev + perPage >= length ==> r == 0
  {
    if prev + perPage >= length then 0 else prev + perPage
  }

  /** `k` ticks of the timer. */
  function AdvanceTimes(k: nat, start: nat, perPage: nat, length: nat): nat {
    if k == 0 then start else AdvanceStep(AdvanceTimes(k - 1, start, perPage, length), perPage, length)
  }
}
