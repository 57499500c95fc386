/** The bottom-stack index selector, `generateBottomIndexes`
    (Source/HFCardCollectionViewLayout.swift lines 747-786): which items are
    drawn compressed at the bottom of the screen while a card is revealed or
    all cards are collapsed. */
module BottomStack {
  import opened Wrappers
  import opened Geometry

  predicate StrictlyIncreasing(xs: seq<int>) {
    forall i, j :: 0 <= i < j < |xs| ==> xs[i] < xs[j]
  }

  /** `Array(lo ... hi)`: Swift traps when `hi < lo`, hence the requires. */
  function Range(lo: int, hi: int): (r: seq<int>)
    requires lo <= hi + 1
    ensures |r| == hi - lo + 1
    ensures forall i :: 0 <= i < |r| ==> r[i] == lo + i
    ensures StrictlyIncreasing(r)
    ensures forall x :: x in r <==> lo <= x <= hi
  {
    var r := seq(hi - lo + 1, i => lo + i);
    assert forall x :: lo <= x <= hi ==> x in r by {
      forall x | lo <= x <= hi ensures x in r {
        assert r[x - lo] == x;
      }
    }
    r
  }

  /** `xs.filter({ $0 != r })` on an increasing sequence. */
  function Without(xs: seq<int>, r: int): (ys: seq<int>)
    requires StrictlyIncreasing(xs)
    ensures StrictlyIncreasing(ys)
    ensures forall x :: x in ys <==> x in xs && x != r
    ensures |ys| == |xs| - (if r in xs then 1 else 0)
  {
    if xs == [] then []
    else
      var tail := Without(xs[1..], r);
      assert forall x :: x in xs <==> x == xs[0] || x in xs[1..];
      assert forall x :: x in xs[1..] ==> xs[0] < x;
      if xs[0] == r then tail
      else
        assert forall j :: 0 <= j < |tail| ==> tail[j] in xs[1..];
        [xs[0]] + tail
  }

  /** Number of elements of `xs` below `k`: the rank `k` would have in `xs`. */
  function CountLess(xs: seq<int>, k: int): nat {
    if xs == [] then 0 else (if xs[0] < k then 1 else 0) + CountLess(xs[1..], k)
  }

  lemma {:induction false} CountLessSplit(xs: seq<int>, k: int, j: nat)
    requires StrictlyIncreasing(xs) && j <= |xs|
    requires forall i :: 0 <= i < j ==> xs[i] < k
    requires forall i :: j <= i < |xs| ==> k <= xs[i]
    ensures CountLess(xs, k) == j
  {
    if xs != [] {
      if j == 0 {
        CountLessSplit(xs[1..], k, 0);
      } else {
        CountLessSplit(xs[1..], k, j - 1);
      }
    }
  }

  /** In an increasing sequence, the element at position `j` has rank `j`. */
  lemma CountLessAtElement(xs: seq<int>, j: int)
    requires StrictlyIncreasing(xs) && 0 <= j < |xs|
    ensures CountLess(xs, xs[j]) == j
  {
    CountLessSplit(xs, xs[j], j);
  }

  /** Moving the bound up by one counts `k` once if it is an element. */
  lemma {:induction false} CountLessStep(xs: seq<int>, k: int)
    requires StrictlyIncreasing(xs)
    ensures CountLess(xs, k + 1) == CountLess(xs, k) + (if k in xs then 1 else 0)
  {
    if xs != [] {
      CountLessStep(xs[1..], k);
      assert k in xs <==> k == xs[0] || k in xs[1..];
      if k == xs[0] {
        assert k !in xs[1..] by {
          assert forall i :: 1 <= i < |xs| ==> xs[0] < xs[i];
        }
      }
    }
  }

  lemma {:induction false} CountLessWithout(xs: seq<int>, r: int, k: int)
    requires StrictlyIncreasing(xs)
    ensures CountLess(Without(xs, r), k) == CountLess(xs, k) - (if r in xs && r < k then 1 else 0)
  {
    if xs != [] {
      CountLessWithout(xs[1..], r, k);
      assert r in xs <==> r == xs[0] || r in xs[1..];
      if r == xs[0] {
        assert r !in xs[1..] by {
          assert forall i :: 1 <= i < |xs| ==> xs[0] < xs[i];
        }
      } else {
        assert Without(xs, r) == [xs[0]] + Without(xs[1..], r);
        assert ([xs[0]] + Without(xs[1..], r))[1..] == Without(xs[1..], r);
      }
    }
  }

  /** The window `minIndex ... maxIndex` before the revealed index is removed. */
  datatype Window = Window(lo: int, hi: int)

  /** Lines 758-782: a window of `s + 1` slots around the revealed index `r`,
      moved inward at either end of the list, biased by one slot for an odd
      count, and finally clipped to the items that exist. */
  function RevealedWindow(r: int, n: int, s: nat): (win: Window)
    // for an existing revealed card the window holds it and `min(s, n - 1)`
    // further items, all of them existing
    ensures 0 <= r < n ==> 0 <= win.lo <= r <= win.hi <= n - 1 && win.hi - win.lo == MinInt(s, n - 1)
  {
    assert s == 2 * (s / 2) + s % 2;
    var half := s / 2;
    var odd := s % 2 == 1;
    var w :=
      if r - half < 0 then
        Window(0, r + half + Abs(r - half) + (if odd then 1 else 0))
      else if r + half >= n then
        Window(n - 2 * half - 1 - (if odd then 1 else 0), n - 1)
      else if odd then
        (if r - half > 0 then Window(r - half - 1, r + half) else Window(r - half, r + half + 1))
      else
        Window(r - half, r + half);
    Window(MaxInt(0, w.lo), MinInt(n - 1, w.hi))
  }

  /** An independent description of the same window: `s + 1` consecutive
      slots (fewer if there are fewer items) starting `s / 2` slots above the
      revealed index, one more for an odd count, pushed inside `[0, n - 1]`. */
  function CenteredWindow(r: int, n: int, s: nat): Window {
    var lo := MaxInt(0, MinInt(r - s / 2 - s % 2, n - 1 - s));
    Window(lo, MinInt(n - 1, lo + s))
  }

  /** The branchy source computation agrees with the closed form. */
  lemma RevealedWindowIsCentered(r: int, n: int, s: nat)
    requires 0 <= r < n
    ensures RevealedWindow(r, n, s) == CenteredWindow(r, n, s)
  {
    var half := s / 2;
    assert s == 2 * half + s % 2;
  }

  /** The window always contains the revealed index, so `Array(minIndex ...
      maxIndex)` cannot trap, and it spans `min(s, n - 1)` slots besides it. */
  lemma RevealedWindowBounds(r: int, n: int, s: nat)
    requires 0 <= r < n
    ensures var w := RevealedWindow(r, n, s);
      0 <= w.lo <= r <= w.hi <= n - 1 && w.hi - w.lo == MinInt(s, n - 1)
  {
    RevealedWindowIsCentered(r, n, s);
    assert s == 2 * (s / 2) + s % 2;
  }

  /** The selector's result: the bottom indexes, and the recorded rank of the
      revealed index within its window (`None` when the selector leaves the
      previously recorded rank untouched). */
  datatype Selection = Selection(indexes: seq<int>, rank: Option<int>)

  /** generateBottomIndexes with a revealed index `r` among `n` items and a
      configured stack of `s` cards (lines 758-785). */
  function RevealedSelection(r: int, n: int, s: nat): (sel: Selection)
    requires 0 <= r < n
    ensures StrictlyIncreasing(sel.indexes)
    ensures forall i :: i in sel.indexes ==> 0 <= i < n
    ensures r !in sel.indexes
    ensures |sel.indexes| == MinInt(s, n - 1)
    ensures sel.rank.Some? && 0 <= sel.rank.value <= |sel.indexes|
    ensures var w := RevealedWindow(r, n, s);
      forall i :: i in sel.indexes <==> w.lo <= i <= w.hi && i != r
  {
    var w := RevealedWindow(r, n, s);
    RevealedWindowBounds(r, n, s);
    Selection(Without(Range(w.lo, w.hi), r), Some(r - w.lo))
  }

  /** The recorded rank is the number of bottom cards above the revealed
      one, i.e. the revealed card's position within the bottom stack. */
  lemma RevealedRankCountsCardsAbove(r: int, n: int, s: nat)
    requires 0 <= r < n
    ensures RevealedSelection(r, n, s).rank == Some(CountLess(RevealedSelection(r, n, s).indexes, r))
  {
    var w := RevealedWindow(r, n, s);
    RevealedWindowBounds(r, n, s);
    var xs := Range(w.lo, w.hi);
    CountLessWithout(xs, r, r);
    CountLessSplit(xs, r, r - w.lo);
  }

  /** Lines 752-754 as written: with no revealed card and all cards collapsed,
      `Array(start ... max(0, start + s - 2))`, where `start` is the index of
      the card at the top of the viewport. `None` stands for Swift's trap on
      a range whose upper bound is below its lower bound. */
  function CollapsedIndexesAsWritten(start: int, s: nat): (r: Option<seq<int>>)
    ensures r.Some? ==> StrictlyIncreasing(r.value) && |r.value| >= 1
  {
    var end := MaxInt(0, start + s - 2);
    if end < start then None else Some(Range(start, end))
  }

  /** The range traps as soon as the list is scrolled past its first card
      while the stack holds at most one card: with 1 stacked card and the
      third card at the top of the viewport, there is no result. */
  lemma CollapsedIndexesAsWrittenTraps(start: int, s: nat)
    requires start >= 1 && s <= 1
    ensures CollapsedIndexesAsWritten(start, s) == None
  {
  }

  /** The collapsed selection as the rest of this model uses it: the source's
      range wherever it is defined, and the single card at the top of the
      viewport where it traps (as the range already gives at start 0). */
  function CollapsedIndexes(start: int, s: nat): (xs: seq<int>)
    ensures |xs| == 1 + MaxInt(MaxInt(0, -start), s - 2)
    ensures forall i :: 0 <= i < |xs| ==> xs[i] == start + i
    ensures StrictlyIncreasing(xs)
  {
    Range(start, MaxInt(start, MaxInt(0, start + s - 2)))
  }

  /** The corrected selection is the source's range on every input where
      that range is defined, and the source traps exactly when the list is
      scrolled past its first card with at most one stacked card. */
  lemma CollapsedIndexesAgree(start: int, s: nat)
    ensures CollapsedIndexesAsWritten(start, s).Some? ==>
      CollapsedIndexesAsWritten(start, s) == Some(CollapsedIndexes(start, s))
    ensures CollapsedIndexesAsWritten(start, s).None? <==> start >= 1 && s <= 1
    ensures CollapsedIndexesAsWritten(start, s).None? ==> CollapsedIndexes(start, s) == [start]
  {
  }

  /** generateBottomIndexes. `revealed` is the revealed card's index if the
      previous layout pass knows it; `top` is
      `Int((contentOffsetTop + temporaryTop) / cardHeadHeight)`. */
  function BottomIndexes(revealed: Option<int>, collapseAll: bool, n: int, s: nat, top: int): (sel: Selection)
    requires revealed.Some? ==> 0 <= revealed.value < n
    ensures StrictlyIncreasing(sel.indexes)
    ensures revealed.None? && !collapseAll ==> sel.indexes == [] && sel.rank.None?
    // collapsed: the consecutive cards from the top one, as the source's
    // range lists them wherever it does not trap
    ensures revealed.None? && collapseAll ==>
      && sel.rank.None? && sel.indexes != [] && sel.indexes[0] == top
      && (forall i :: 0 <= i < |sel.indexes| ==> sel.indexes[i] == top + i)
      && (CollapsedIndexesAsWritten(top, s).Some? ==> CollapsedIndexesAsWritten(top, s) == Some(sel.indexes))
    // from a card at or below the top, `s - 1` cards, but at least one; a
    // negative top reaches down to card 0 and may list more than `s`
    ensures revealed.None? && collapseAll && top >= 0 ==> |sel.indexes| == MaxInt(1, s - 1)
    ensures revealed.None? && collapseAll && top < 0 ==> |sel.indexes| == 1 + MaxInt(-top, s - 2)
    ensures revealed.Some? ==>
      && revealed.value !in sel.indexes
      && (forall i :: i in sel.indexes ==> 0 <= i < n)
      && |sel.indexes| == MinInt(s, n - 1)
  {
    match revealed
    case None =>
      if collapseAll then
        CollapsedIndexesAgree(top, s);
        Selection(CollapsedIndexes(top, s), None)
      else Selection([], None)
    case Some(r) => RevealedSelection(r, n, s)
  }
}
