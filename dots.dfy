/** The pager under the dashboard's card grid and table
    (components/Dots.jsx): page count, current page, the prev/next targets
    with their clamps, and the sliding window of at most five page dots. */
module Dots {
  import opened Common

  /** `Math.ceil(total / perPage)`: the fewest pages of `perPage` entries that
      hold `total` entries. */
  function PageCount(total: nat, perPage: nat): (p: nat)
    requires perPage > 0
    ensures p * perPage >= total
    ensures p == 0 || (p - 1) * perPage < total
  {
    if total % perPage == 0 then total / perPage else total / perPage + 1
  }

  /** `Math.floor(index / perPage)`: the page the first shown entry lies on. */
  function CurrentPage(index: nat, perPage: nat): (p: nat)
    requires perPage > 0
    ensures p * perPage <= index < (p + 1) * perPage
  {
    index / perPage
  }

  /** The page count is the smallest `p` with `p * perPage >= total`. */
  lemma PageCountIsLeast(total: nat, perPage: nat, q: nat)
    requires perPage > 0 && q * perPage >= total
    ensures PageCount(total, perPage) <= q
  {
    var p := PageCount(total, perPage);
    if p > q {
      assert (p - 1) * perPage >= q * perPage by {
        assert p - 1 >= q;
        MulMonotone(q, p - 1, perPage);
      }
    }
  }

  lemma MulMonotone(a: nat, b: nat, c: nat)
    requires a <= b
    ensures a * c <= b * c
  {
  }

  /** An entry inside the list lies on a page that exists. */
  lemma CurrentPageExists(total: nat, index: nat, perPage: nat)
    requires perPage > 0 && index < total
    ensures CurrentPage(index, perPage) < PageCount(total, perPage)
  {
    var c, p := CurrentPage(index, perPage), PageCount(total, perPage);
    if c >= p {
      MulMonotone(p, c, perPage);
    }
  }

  // ------------------------------------------------------------ prev / next

  /** `index === 0` */
  predicate PrevDisabled(index: nat) {
    index == 0
  }

  /** `index + perPage >= total` */
  predicate NextDisabled(total: nat, index: nat, perPage: nat) {
    index + perPage >= total
  }

  /** `Math.max(0, index - perPage)` */
  function PrevTarget(index: nat, perPage: nat): (r: nat)
    ensures r <= index
    ensures index >= perPage ==> r == index - perPage
    ensures index < perPage ==> r == 0
  {
    Max(0, index - perPage)
  }

  /** `Math.min(total - perPage, index + perPage)`; negative when the list is
      shorter than a page, but the button is then disabled. */
  function NextTarget(total: nat, index: nat, perPage: nat): (r: int)
    ensures r <= index + perPage && r <= total - perPage
    ensures r == index + perPage || r == total - perPage
  {
    Min(total - perPage, index + perPage)
  }

  /** Prev, when enabled, moves strictly back and never below zero. */
  lemma PrevMovesBack(index: nat, perPage: nat)
    requires perPage > 0 && !PrevDisabled(index)
    ensures 0 <= PrevTarget(index, perPage) < index
  {
  }

  /** Next, when enabled, moves strictly forward and still leaves a whole page
      of entries from the new index on. */
  lemma NextMovesForward(total: nat, index: nat, perPage: nat)
    requires perPage > 0 && !NextDisabled(total, index, perPage)
    ensures index < NextTarget(total, index, perPage)
    ensures NextTarget(total, index, perPage) + perPage <= total
  {
  }

  // ------------------------------------------------------------ dot window

  /** How many dot slots are mapped: `Math.min(pages, 5)`. */
  function Slots(total: nat, index: nat, perPage: nat): nat
    requires perPage > 0
  {
    Min(PageCount(total, perPage), 5)
  }

  /** First page of the window: `Math.max(0, currentPage - 2)` when there are
      more than five pages, page 0 otherwise. */
  function WindowStart(total: nat, index: nat, perPage: nat): nat
    requires perPage > 0
  {
    if PageCount(total, perPage) > 5 then Max(0, CurrentPage(index, perPage) - 2) else 0
  }

  /** One past the last page of the window: `Math.min(pages, start + 5)`. */
  function WindowEnd(total: nat, index: nat, perPage: nat): nat
    requires perPage > 0
  {
    var pages := PageCount(total, perPage);
    if pages > 5 then Min(pages, WindowStart(total, index, perPage) + 5) else pages
  }

  /** The page shown by dot slot `i`, or None when the slot renders `null`. */
  function DotAt(total: nat, index: nat, perPage: nat, i: nat): (r: Option<nat>)
    requires perPage > 0
    ensures i < Slots(total, index, perPage) && r.Some? ==> r.value < PageCount(total, perPage)
    ensures PageCount(total, perPage) <= 5 ==> r == Some(i)
    ensures PageCount(total, perPage) > 5 && r.Some? ==>
              WindowStart(total, index, perPage) <= r.value < WindowEnd(total, index, perPage)
  {
    if PageCount(total, perPage) > 5 then
      var start := WindowStart(total, index, perPage);
      if start + i >= WindowEnd(total, index, perPage) then None else Some(start + i)
    else Some(i)
  }

  /** The pages of the rendered dots from slot `i` on, in slot order. */
  function DotsFrom(total: nat, index: nat, perPage: nat, i: nat): seq<nat>
    requires perPage > 0
    decreases Slots(total, index, perPage) - i
  {
    if i >= Slots(total, index, perPage) then []
    else
      (match DotAt(total, index, perPage, i) case None => [] case Some(p) => [p])
      + DotsFrom(total, index, perPage, i + 1)
  }

  /** The pages whose dots are rendered, left to right. */
  function ShownPages(total: nat, index: nat, perPage: nat): (r: seq<nat>)
    requires perPage > 0
    ensures |r| <= 5
    ensures forall k :: 0 <= k < |r| ==> r[k] < PageCount(total, perPage)
    ensures forall k, l :: 0 <= k < l < |r| ==> r[k] < r[l]
  {
    DotsFromIsRun(total, index, perPage, 0);
    DotsFrom(total, index, perPage, 0)
  }

  /** The run of consecutive pages `from, from + 1, ..., to - 1`. */
  function Run(from: nat, to: nat): (r: seq<nat>)
    ensures |r| == Max(0, to - from)
    ensures forall k :: 0 <= k < |r| ==> (r[k] == from + k)
    decreases (to as int) - (from as int)
  {
    if from >= to then [] else [from] + Run(from + 1, to)
  }

  lemma {:induction false} DotsFromIsRun(total: nat, index: nat, perPage: nat, i: nat)
    requires perPage > 0
    requires i <= Slots(total, index, perPage)
    ensures DotsFrom(total, index, perPage, i)
         == Run(WindowStart(total, index, perPage) + i, WindowEnd(total, index, perPage))
    decreases Slots(total, index, perPage) - i
  {
    var start, end := WindowStart(total, index, perPage), WindowEnd(total, index, perPage);
    var slots := Slots(total, index, perPage);
    assert end <= start + slots;
    if i < slots {
      DotsFromIsRun(total, index, perPage, i + 1);
      if start + i >= end {
        assert DotsFrom(total, index, perPage, i + 1) == [];
      }
    }
  }

  /** The window shows at most `min(pages, 5)` dots. With at most five pages
      they are exactly pages 0 .. pages-1; with more, they are the consecutive
      pages from `max(0, currentPage - 2)` up to `min(pages, start + 5)`, all of
      them real pages. */
  lemma ShownPagesWindow(total: nat, index: nat, perPage: nat)
    requires perPage > 0
    ensures |ShownPages(total, index, perPage)| <= Min(PageCount(total, perPage), 5)
    ensures PageCount(total, perPage) <= 5 ==>
              ShownPages(total, index, perPage) == Run(0, PageCount(total, perPage))
    ensures PageCount(total, perPage) > 5 ==>
              ShownPages(total, index, perPage)
              == Run(Max(0, CurrentPage(index, perPage) - 2),
                     Min(PageCount(total, perPage), Max(0, CurrentPage(index, perPage) - 2) + 5))
    ensures forall p :: p in ShownPages(total, index, perPage) ==> p < PageCount(total, perPage)
  {
    DotsFromIsRun(total, index, perPage, 0);
  }

  /** While the index points into the list, the current page's dot is in the
      window. */
  lemma CurrentPageIsShown(total: nat, index: nat, perPage: nat)
    requires perPage > 0 && index < total
    ensures CurrentPage(index, perPage) in ShownPages(total, index, perPage)
  {
    DotsFromIsRun(total, index, perPage, 0);
    CurrentPageExists(total, index, perPage);
    var start, end := WindowStart(total, index, perPage), WindowEnd(total, index, perPage);
    var run := Run(start, end);
    assert run[CurrentPage(index, perPage) - start] == CurrentPage(index, perPage);
  }

  /** `currentPage === pageToShow` */
  predicate Highlighted(index: nat, perPage: nat, page: nat)
    requires perPage > 0
  {
    CurrentPage(index, perPage) == page
  }

  /** Exactly one rendered dot is highlighted while the index points into the
      list: the window holds the current page once. */
  lemma ExactlyOneHighlighted(total: nat, index: nat, perPage: nat)
    requires perPage > 0 && index < total
    ensures exists k :: 0 <= k < |ShownPages(total, index, perPage)|
              && Highlighted(index, perPage, ShownPages(total, index, perPage)[k])
    ensures forall k, l :: 0 <= k < l < |ShownPages(total, index, perPage)|
              ==> !(Highlighted(index, perPage, ShownPages(total, index, perPage)[k])
                    && Highlighted(index, perPage, ShownPages(total, index, perPage)[l]))
  {
    CurrentPageIsShown(total, index, perPage);
    DotsFromIsRun(total, index, perPage, 0);
  }

  // ---------------------------------------------------------------- clicks

  datatype PagerAction = PressPrev | PressNext | PressDot(slot: nat)

  /** The index handed to `setIndex` by a click, or None when the button is
      disabled or the slot renders no dot. */
  function Press(total: nat, index: nat, perPage: nat, a: PagerAction): (r: Option<nat>)
    requires perPage > 0
    ensures a.PressPrev? ==> (r.Some? <==> index != 0)
    ensures a.PressPrev? && index != 0 ==> r == Some(PrevTarget(index, perPage))
    ensures a.PressPrev? && r.Some? ==> r.value < index
    ensures a.PressNext? ==> (r.Some? <==> index + perPage < total)
    ensures a.PressNext? && r.Some? ==> index < r.value && r.value + perPage <= total
    ensures a.PressNext? && r.Some? ==> r.value as int == NextTarget(total, index, perPage)
    ensures a.PressDot? && r.Some? ==> r.value < total
    ensures a.PressDot? && a.slot < Slots(total, index, perPage) && DotAt(total, index, perPage, a.slot).Some? ==>
              r == Some(DotAt(total, index, perPage, a.slot).value * perPage)
  {
    match a
    case PressPrev => if PrevDisabled(index) then None else Some(PrevTarget(index, perPage))
    case PressNext =>
      if NextDisabled(total, index, perPage) then None
      else Some(NextTarget(total, index, perPage) as nat)
    case PressDot(slot) => DotTarget(total, index, perPage, slot)
  }

  /** `setIndex(page * perPage)` for the page shown in dot `slot`, if any. */
  function DotTarget(total: nat, index: nat, perPage: nat, slot: nat): (r: Option<nat>)
    requires perPage > 0
    ensures r.Some? ==> r.value < total && r.value % perPage == 0
    ensures slot < Slots(total, index, perPage) && DotAt(total, index, perPage, slot).Some? ==>
              r == Some(DotAt(total, index, perPage, slot).value * perPage)
    ensures slot >= Slots(total, index, perPage) || DotAt(total, index, perPage, slot).None? ==> r.None?
  {
    if slot < Slots(total, index, perPage) then
      match DotAt(total, index, perPage, slot)
      case None => None
      case Some(p) =>
        DotPageInList(total, index, perPage, slot);
        assert p * perPage < total && (p * perPage) % perPage == 0;
        Some(p * perPage)
    else None
  }

  /** A click keeps the index inside the list, and a dot click lands on the
      first entry of its page, which then becomes the highlighted one. */
  lemma PressStaysInList(total: nat, index: nat, perPage: nat, a: PagerAction)
    requires perPage > 0 && index < total
    ensures Press(total, index, perPage, a).Some? ==> Press(total, index, perPage, a).value < total
    ensures a.PressDot? && Press(total, index, perPage, a).Some? ==>
              Press(total, index, perPage, a).value == DotAt(total, index, perPage, a.slot).value * perPage
              && Highlighted(Press(total, index, perPage, a).value, perPage,
                             DotAt(total, index, perPage, a.slot).value)
  {
    if a.PressDot? && a.slot < Slots(total, index, perPage) {
      var d := DotAt(total, index, perPage, a.slot);
      if d.Some? {
        DotPageInList(total, index, perPage, a.slot);
      }
    }
  }

  /** The page of a rendered dot exists, so its first entry is in the list,
      and that entry lies on that very page. */
  lemma DotPageInList(total: nat, index: nat, perPage: nat, slot: nat)
    requires perPage > 0 && slot < Slots(total, index, perPage)
    requires DotAt(total, index, perPage, slot).Some?
    ensures DotAt(total, index, perPage, slot).value * perPage < total
    ensures CurrentPage(DotAt(total, index, perPage, slot).value * perPage, perPage)
            == DotAt(total, index, perPage, slot).value
    ensures DotAt(total, index, perPage, slot).value * perPage % perPage == 0
  {
    var p := DotAt(total, index, perPage, slot).value;
    var pages := PageCount(total, perPage);
    assert p < pages;
    MulMonotone(p, pages - 1, perPage);
    FirstEntryOfPage(p, perPage);
  }

  lemma FirstEntryOfPage(p: nat, perPage: nat)
    requires perPage > 0
    ensures (p * perPage) / perPage == p && (p * perPage) % perPage == 0
  {
    DivModUnique(p * perPage, perPage, p, 0);
  }

  /** Quotient and remainder are the only such pair. */
  lemma DivModUnique(x: int, m: int, q: int, r: int)
    requires m > 0 && 0 <= r < m && x == q * m + r
    ensures x / m == q && x % m == r
  {
    var q0, r0 := x / m, x % m;
    assert x == q0 * m + r0 && 0 <= r0 < m;
    var d := q - q0;
    assert d * m == r0 - r by {
      assert q * m - q0 * m == (q - q0) * m;
    }
    if d >= 1 {
      MulMonotone(1, d, m);
    }
  }
}
