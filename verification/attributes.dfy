/** The attribute generator, `generateCardCollectionViewLayoutAttributes`
    and its three per-item branches
    (Source/HFCardCollectionViewLayout.swift lines 690-868).

    The collection view has a single section, so an index path is the flat
    item index. The host's scroll state, the item sizes and the previous
    pass's attributes are plain inputs. */
module Attributes {
  import opened Wrappers
  import opened Geometry
  import opened LayoutConfig
  import opened CardMetrics
  import opened BottomStack

  /** The scroll view state one layout pass reads. */
  datatype Viewport = Viewport(
    offsetY: real,       // contentOffset.y
    frameX: real,        // frame.origin.x
    frameWidth: real,
    frameHeight: real,
    insetTop: real,      // the adjusted top content inset
    insetBottom: real)   // contentInsetBottom: the bottom inset, frozen while the keyboard is shown
  {
    /** contentOffsetTop (lines 504-506). */
    function OffsetTop(): real { offsetY + insetTop }
  }

  /** HFCardCollectionViewLayoutAttributes: frame, the uniform scale of the
      transform, alpha, isHidden, zIndex and isRevealed. */
  datatype Attr = Attr(zIndex: int, frame: Rect, scale: real, alpha: real, hidden: bool, isRevealed: bool)

  /** The top edge of a card as drawn: a transform scales a cell about its
      center. */
  function VisibleTop(a: Attr): real {
    a.frame.y + (a.frame.height - a.frame.height * a.scale) / 2.0
  }

  /** cardCollectionCellSize (lines 453-462): the delegate's size if it gives
      one, else the content width and the delegate's or the default height.
      The configured maximum height is not consulted. */
  function CellSize(custom: Option<Size>, customHeight: Option<real>, c: Config,
                    boundsWidth: real, insetLeft: real, insetRight: real): (r: Size)
    ensures custom.Some? ==> r == custom.value
    ensures custom.None? ==> r.width == boundsWidth - insetLeft - insetRight
    ensures custom.None? ==> r.height == (if customHeight.Some? then customHeight.value else c.defaultHeight)
  {
    match custom
    case Some(s) => s
    case None => Size(boundsWidth - insetLeft - insetRight, customHeight.GetOr(c.defaultHeight))
  }

  /** The cell size is the same whatever cardMaximumHeight is set to. */
  lemma CellSizeIgnoresMaximumHeight(custom: Option<Size>, customHeight: Option<real>, c: Config, m: real,
                                     boundsWidth: real, insetLeft: real, insetRight: real)
    ensures CellSize(custom, customHeight, c.(maximumHeight := m), boundsWidth, insetLeft, insetRight)
         == CellSize(custom, customHeight, c, boundsWidth, insetLeft, insetRight)
  {
  }

  /** Where a stacked card rests when nothing is scrolled: below the
      background space, one head height `h` per card above it. */
  function SlotY(c: Config, h: real, k: int): real {
    c.spaceAtTop + h * k as real
  }

  /** The head height the stacked branch uses. */
  function StackedHeadHeight(c: ValidConfig, vp: Viewport, n: int): real
    requires n >= 1
  {
    HeadHeight(c, vp.frameHeight, vp.insetTop, vp.insetBottom, n)
  }

  /** The index of the card whose head is at the top of the viewport in the
      stacked branch (line 791; the pass has already folded temporaryTop
      into the offset, so it is 0 here). */
  function TopCardIndex(c: ValidConfig, vp: Viewport, n: int): (i: int)
    requires n >= 1
    // scrolled past the background space, it is the card whose slot covers
    // the top edge of the viewport
    ensures vp.OffsetTop() >= c.spaceAtTop ==>
      var h := StackedHeadHeight(c, vp, n);
      i >= 0 && SlotY(c, h, i) <= vp.OffsetTop() < SlotY(c, h, i) + h
  {
    var x := vp.OffsetTop() - c.spaceAtTop;
    var h := StackedHeadHeight(c, vp, n);
    TruncQuotientBounds(x, h);
    if x >= 0.0 then
      DivNonNegative(x, h);
      Trunc(x / h)
    else Trunc(x / h)
  }

  /** generateNonRevealedCardsAttribute (lines 788-830) for item `k` of `n`.
      `moving` is movingCardSelectedIndex, -1 while no card is dragged. */
  function StackedAttr(c: ValidConfig, vp: Viewport, n: int, k: int, size: Size, moving: int): (a: Attr)
    requires n >= 1
    ensures a.zIndex == k && !a.isRevealed && a.scale == 1.0
    ensures a.frame.x == 0.0 && a.frame.width == size.width && a.frame.height == size.height
    // the dragged card is drawn by its snapshot, so its cell is transparent
    ensures a.alpha == (if k == moving then 0.0 else 1.0)
    // while the background space is being revealed every card rests in its slot
    ensures 0.0 <= vp.OffsetTop() <= c.spaceAtTop ==>
      !a.hidden && a.frame.y == SlotY(c, StackedHeadHeight(c, vp, n), k)
    // cards only stop (and hide) at the top when the option is on
    ensures !c.stopCardsAtTop && vp.OffsetTop() >= 0.0 ==>
      !a.hidden && a.frame.y == SlotY(c, StackedHeadHeight(c, vp, n), k)
    ensures vp.OffsetTop() < 0.0 && !c.stretchAtScrollTop ==>
      !a.hidden && a.frame.y == SlotY(c, StackedHeadHeight(c, vp, n), k)
    // scrolled into the cards: those below the top card keep their slots ...
    ensures vp.OffsetTop() > c.spaceAtTop && 0 <= TopCardIndex(c, vp, n) < k ==>
      !a.hidden && a.frame.y == SlotY(c, StackedHeadHeight(c, vp, n), k)
    // ... and, with cards stopping at the top, those up to it that are shown
    // are pinned to the top edge
    ensures vp.OffsetTop() > c.spaceAtTop && c.stopCardsAtTop && 0 <= k <= TopCardIndex(c, vp, n) && !a.hidden ==>
      a.frame.y == vp.OffsetTop()
    // a card is hidden only when scrolled into the cards with cards stopping
    // at the top, and then exactly when it lies above the top card, except
    // the one just above the card being dragged
    ensures vp.OffsetTop() <= c.spaceAtTop ==> !a.hidden
    ensures vp.OffsetTop() > c.spaceAtTop ==>
      (a.hidden <==> c.stopCardsAtTop && k < TopCardIndex(c, vp, n) && !(moving >= 0 && k + 1 == moving))
    // a hidden card more than five cards above the top one is parked far
    // above the viewport
    ensures vp.OffsetTop() > c.spaceAtTop && a.hidden && k < TopCardIndex(c, vp, n) - 5 ==>
      a.frame.y == vp.frameHeight * -1.5
  {
    var h := StackedHeadHeight(c, vp, n);
    var top := vp.OffsetTop();
    var startIndex := TopCardIndex(c, vp, n);
    var alpha := if k == moving then 0.0 else 1.0;
    var slot := Rect(0.0, SlotY(c, h, k), size.width, size.height);
    if 0.0 <= top <= c.spaceAtTop then
      Attr(k, slot, 1.0, alpha, false, false)
    else if top > c.spaceAtTop then
      var hidden := if moving >= 0 && k + 1 == moving then false
                    else c.stopCardsAtTop && k < startIndex;
      var pinned := c.stopCardsAtTop &&
        ((k != 0 && k <= startIndex) || (k == 0 && top - c.spaceAtTop > 0.0));
      var frame := if hidden && k < startIndex - 5 then slot.(y := vp.frameHeight * -1.5)
                   else if pinned then slot.(y := top)
                   else slot;
      Attr(k, frame, 1.0, alpha, hidden, false)
    else if c.stretchAtScrollTop then
      Attr(k, slot.(y := slot.y + top * (1.0 + (k + 1) as real * -0.2)), 1.0, alpha, false, false)
    else
      Attr(k, slot, 1.0, alpha, false, false)
  }

  /** Scrolled into the cards, the slot of every card after the top card
      lies below the top of the viewport. */
  lemma SlotBelowTop(c: ValidConfig, vp: Viewport, n: int, k: int)
    requires n >= 1 && vp.OffsetTop() > c.spaceAtTop && TopCardIndex(c, vp, n) < k
    ensures 0 <= TopCardIndex(c, vp, n)
    ensures SlotY(c, StackedHeadHeight(c, vp, n), k) > vp.OffsetTop()
  {
    var h := StackedHeadHeight(c, vp, n);
    var x := vp.OffsetTop() - c.spaceAtTop;
    var q := TopCardIndex(c, vp, n);
    TruncQuotientBounds(x, h);
    DivNonNegative(x, h);
    var qh := q as real * h;
    var kh := k as real * h;
    assert 0 <= q && x < qh + h;
    MulMonotoneLeft(q as real + 1.0, k as real, h);
    Distribute(q as real, 1.0, h);
    assert kh >= qh + h;
    assert SlotY(c, h, k) == c.spaceAtTop + kh;
  }

  /** With cards stopping at the top, a card that is still shown is never
      drawn above the top of the viewport: the cards above the top card are
      pinned to the top edge (or parked far above and hidden) and the others
      stay in their slots, which lie below it. */
  lemma StackedCardsStopAtTop(c: ValidConfig, vp: Viewport, n: int, k: int, size: Size, moving: int)
    requires n >= 1 && 0 <= k
    requires c.stopCardsAtTop && vp.OffsetTop() > c.spaceAtTop
    ensures var a := StackedAttr(c, vp, n, k, size, moving);
      !a.hidden ==> a.frame.y >= vp.OffsetTop()
    ensures var a := StackedAttr(c, vp, n, k, size, moving);
      k <= TopCardIndex(c, vp, n) && !a.hidden ==> a.frame.y == vp.OffsetTop()
  {
    if TopCardIndex(c, vp, n) < k {
      SlotBelowTop(c, vp, n, k);
    }
  }

  /** Pulled down past the top (a negative offset), the stretch effect moves
      every card down by a share of the pull that shrinks by a fifth per
      card, so consecutive cards separate by more than one head height. The
      first card already follows only four fifths of the pull, and card `k`
      sits `k` such separations below it. */
  lemma StretchSpreadsCards(c: ValidConfig, vp: Viewport, n: int, k: int, size: Size, size': Size, moving: int)
    requires n >= 1
    requires c.stretchAtScrollTop && vp.OffsetTop() < 0.0
    ensures StackedAttr(c, vp, n, 0, size, moving).frame.y == c.spaceAtTop + 0.8 * vp.OffsetTop()
    ensures StackedAttr(c, vp, n, k, size, moving).frame.y
         == c.spaceAtTop + 0.8 * vp.OffsetTop() + k as real * (StackedHeadHeight(c, vp, n) - vp.OffsetTop() / 5.0)
    ensures StackedAttr(c, vp, n, k + 1, size', moving).frame.y - StackedAttr(c, vp, n, k, size, moving).frame.y
         == StackedHeadHeight(c, vp, n) - vp.OffsetTop() / 5.0
    ensures StackedAttr(c, vp, n, k + 1, size', moving).frame.y - StackedAttr(c, vp, n, k, size, moving).frame.y
         > StackedHeadHeight(c, vp, n)
  {
    var h := StackedHeadHeight(c, vp, n);
    var t := vp.OffsetTop();
    Distribute(k as real, 1.0, h);
    assert h * (k + 1) as real == h * k as real + h;
    assert t * (1.0 + (k + 2) as real * -0.2) == t * (1.0 + (k + 1) as real * -0.2) - t * 0.2;
    assert t * (1.0 + (k + 1) as real * -0.2) == 0.8 * t + k as real * (-t / 5.0);
    Distribute(h, t / 5.0, k as real);
  }

  /** generateRevealedCardAttribute (lines 832-840): the revealed card at its
      full size, just inside the top edge of the visible area (below the
      background space when it is the only card). */
  function RevealedAttr(c: ValidConfig, vp: Viewport, n: int, k: int, size: Size): (a: Attr)
    ensures a.zIndex == k && a.isRevealed && !a.hidden && a.alpha == 1.0 && a.scale == 1.0
    ensures a.frame.x == 0.0 && a.frame.width == size.width && a.frame.height == size.height
    ensures vp.OffsetTop() < a.frame.y <= vp.OffsetTop() + c.spaceAtTop + 0.01
    ensures n != 1 ==> a.frame.y == vp.OffsetTop() + 0.01
    ensures n == 1 ==> a.frame.y == vp.OffsetTop() + c.spaceAtTop + 0.01
  {
    var y := if n == 1 then vp.OffsetTop() + c.spaceAtTop + 0.01 else vp.OffsetTop() + 0.01;
    Attr(k, Rect(0.0, y, size.width, size.height), 1.0, 1.0, false, true)
  }

  /** The bottom edge the bottom stack is built up from. */
  function StackBottom(vp: Viewport): real {
    vp.frameHeight + vp.offsetY - vp.insetBottom
  }

  /** Where the card of position `rank` in a bottom stack of `count` cards
      peeks out: `count - rank` lookout margins above the bottom edge. */
  function PeekTop(c: Config, vp: Viewport, count: int, rank: int): real {
    StackBottom(vp) - c.lookoutMargin * (count - rank) as real
  }

  /** Successive cards of the bottom stack peek out one lookout margin
      apart, and the front card of a stack one margin above the edge. */
  lemma PeekTopSpacing(c: Config, vp: Viewport, count: int, rank: int)
    ensures PeekTop(c, vp, count, rank + 1) - PeekTop(c, vp, count, rank) == c.lookoutMargin
    ensures PeekTop(c, vp, count, count - 1) == StackBottom(vp) - c.lookoutMargin
  {
    Distribute((count - rank) as real, 1.0, c.lookoutMargin);
    assert (count - rank) as real - 1.0 == (count - (rank + 1)) as real;
  }

  /** generateBottomCardsAttribute (lines 842-868) for item `k`. `rank` is the
      running bottomIndex (the number of bottom cards laid out before this
      one) and `count` is bottomCardCount. */
  function BottomAttr(c: Config, vp: Viewport, k: int, size: Size, bottom: seq<int>, rank: int, count: int): (a: Attr)
    requires k in bottom && c.stackShouldScale ==> c.stackedCount > 0
    ensures a.zIndex == k && !a.isRevealed
    // a bottom card is drawn scaled, its visible top `count - rank` margins
    // above the bottom edge of the visible area
    ensures k in bottom ==>
      && !a.hidden && a.alpha == 1.0
      && a.scale == CardScale(c, rank, false, count)
      && a.frame.height == size.height
      && VisibleTop(a) == PeekTop(c, vp, count, rank)
    // every other card is hidden; one whose slot would show on screen is
    // parked at the bottom edge of the viewport
    ensures k !in bottom ==> a.hidden && a.alpha == 0.0 && a.scale == 1.0
    ensures k !in bottom && Intersects(Rect(0.0, vp.offsetY, vp.frameWidth, vp.offsetY + vp.frameHeight),
                                       Rect(vp.frameX, c.headHeight * k as real, size.width, size.height)) ==>
      a.frame.y == vp.offsetY + vp.frameHeight
    ensures k !in bottom && !Intersects(Rect(0.0, vp.offsetY, vp.frameWidth, vp.offsetY + vp.frameHeight),
                                        Rect(vp.frameX, c.headHeight * k as real, size.width, size.height)) ==>
      a.frame.y == c.headHeight * k as real
  {
    var posY := c.headHeight * k as real;
    var current := Rect(vp.frameX, posY, size.width, size.height);
    var maxY := vp.offsetY + vp.frameHeight;
    var content := Rect(0.0, vp.offsetY, vp.frameWidth, maxY);
    if k in bottom then
      var margin := c.lookoutMargin;
      var base := (vp.frameHeight + vp.offsetY) - vp.insetBottom - margin * count as real;
      var scale := CardScale(c, rank, false, count);
      var yAddition := (size.height - size.height * scale) / 2.0;
      var y := base + rank as real * margin - yAddition;
      Distribute(count as real, rank as real, margin);
      Attr(k, Rect(0.0, y, size.width, size.height), scale, 1.0, false, false)
    else if Intersects(content, current) then
      Attr(k, Rect(0.0, maxY, size.width, size.height), 1.0, 0.0, true, false)
    else
      Attr(k, Rect(0.0, posY, size.width, size.height), 1.0, 0.0, true, false)
  }

  /** Everything one pass reads besides the previous attributes: the
      configuration, the scroll view, the size of every item (so the item
      count is `|sizes|`), the revealed index path, collapseAllCards,
      collectionViewTemporaryTop and movingCardSelectedIndex. */
  datatype Pass = Pass(
    config: ValidConfig,
    viewport: Viewport,
    sizes: seq<Size>,
    revealed: Option<int>,
    collapseAll: bool,
    temporaryTop: real,
    moving: int)

  /** The branch condition of line 730: nothing revealed and not collapsed. */
  predicate Stacked(p: Pass) {
    p.revealed.None? && !p.collapseAll
  }

  /** The requirement of a pass: a revealed index path names an existing
      item, and a collapsed pass that scales its bottom stack has a stack
      size to divide the scale range by (scalePerCard). */
  predicate WellFormed(p: Pass) {
    && (p.revealed.Some? ==> 0 <= p.revealed.value < |p.sizes|)
    && (p.collapseAll && p.config.stackShouldScale ==> p.config.stackedCount > 0)
  }

  /** A bottom stack whose cards can be scaled: scalePerCard is defined
      whenever there is a card to scale. */
  predicate Scalable(c: Config, bottom: seq<int>) {
    bottom != [] && c.stackShouldScale ==> c.stackedCount > 0
  }

  /** The branch choice of lines 730-738 for item `k`. */
  function ItemAttr(p: Pass, vp: Viewport, bottom: seq<int>, count: int, k: int, rank: int): (a: Attr)
    requires WellFormed(p) && 0 <= k < |p.sizes| && Scalable(p.config, bottom)
    ensures a.zIndex == k
    ensures a.isRevealed <==> p.revealed == Some(k) && !p.collapseAll
  {
    if Stacked(p) then StackedAttr(p.config, vp, |p.sizes|, k, p.sizes[k], p.moving)
    else if p.revealed == Some(k) && !p.collapseAll then RevealedAttr(p.config, vp, |p.sizes|, k, p.sizes[k])
    else BottomAttr(p.config, vp, k, p.sizes[k], bottom, rank, count)
  }

  /** Every attribute sits under the key of its own item. */
  predicate Keyed(attrs: seq<Attr>) {
    forall k :: 0 <= k < |attrs| ==> attrs[k].zIndex == k
  }

  /** revealedIndex (lines 257-262): the zIndex the previous pass gave the
      revealed item, if that pass laid it out. */
  function RevealedIndex(prev: seq<Attr>, revealed: Option<int>): (r: Option<int>)
    ensures r.Some? <==> revealed.Some? && 0 <= revealed.value < |prev|
    // the previous pass keys every attribute by its item, so the index is
    // the revealed index path's item
    ensures Keyed(prev) && r.Some? ==> r == revealed
  {
    if revealed.Some? && 0 <= revealed.value < |prev| then Some(prev[revealed.value].zIndex) else None
  }

  /** Lines 694-712: the first item a pass lays out anew. A pass that cannot
      reuse the previous attributes (none, or a different item count) lays
      out every item; otherwise it starts ten head heights above the top of
      the viewport. `endBeforeIndex` is computed there but never used. */
  function FirstRegenerated(prev: seq<Attr>, p: Pass): (start: nat)
    ensures start > 0 ==> |prev| == |p.sizes|
  {
    if prev != [] && |prev| == |p.sizes| then
      var i := Trunc((p.viewport.offsetY + p.viewport.insetTop - p.config.spaceAtTop + p.temporaryTop)
                     / p.config.headHeight) - 10;
      if i < 0 then 0 else i
    else 0
  }

  /** The `top` input of the bottom-stack selector (line 752). */
  function CollapsedTop(p: Pass): int
  {
    Trunc((p.viewport.OffsetTop() + p.temporaryTop) / p.config.headHeight)
  }

  /** The bottom stack a pass selects (line 714). */
  function Selector(prev: seq<Attr>, p: Pass): (sel: Selection)
    requires WellFormed(p) && Keyed(prev)
    ensures StrictlyIncreasing(sel.indexes) && Scalable(p.config, sel.indexes)
    ensures Stacked(p) ==> sel.indexes == []
    // the stack holds at most the configured count, except for the
    // collapsed range, which always lists the top card and from a negative
    // top reaches down to card 0
    ensures |sel.indexes| <= p.config.stackedCount ||
      (p.collapseAll && (CollapsedTop(p) < 0 || p.config.stackedCount == 0))
  {
    BottomIndexes(RevealedIndex(prev, p.revealed), p.collapseAll, |p.sizes|,
                  p.config.stackedCount, CollapsedTop(p))
  }

  /** A member of the bottom stack is laid out by the bottom branch: the
      stacked branch has an empty stack and the revealed card is never in it. */
  lemma BottomMembersTakeBottomBranch(prev: seq<Attr>, p: Pass)
    requires WellFormed(p) && Keyed(prev)
    ensures forall k :: k in Selector(prev, p).indexes ==> !Stacked(p) && !(p.revealed == Some(k) && !p.collapseAll)
  {
    var ri := RevealedIndex(prev, p.revealed);
    if ri.Some? {
      assert ri.value == p.revealed.value;
    }
  }

  /** Whether the pass folds temporaryTop into the content offset (lines
      731-732): in the stacked branch, as soon as one item is laid out. */
  predicate Folds(prev: seq<Attr>, p: Pass)
  {
    Stacked(p) && FirstRegenerated(prev, p) < |p.sizes|
  }

  function PassViewport(prev: seq<Attr>, p: Pass): Viewport
  {
    if Folds(prev, p) then p.viewport.(offsetY := p.viewport.offsetY + p.temporaryTop) else p.viewport
  }

  /** The outcome of a pass: the attributes by item, the content offset and
      temporaryTop it leaves, and the bottom-stack selection it recorded. */
  datatype LayoutResult = LayoutResult(attrs: seq<Attr>, offsetY: real, temporaryTop: real, selection: Selection)

  /** The number of bottom cards a pass lays out (bottomCardCount). */
  function PassBottomCount(prev: seq<Attr>, p: Pass): int
    requires WellFormed(p) && Keyed(prev)
  {
    BottomCardCount(|p.sizes|, p.config.stackedCount, |Selector(prev, p).indexes|)
  }

  /** The first item the item loop lays out: the first regenerated one, or
      none (the item count) when every item is reused. */
  function FirstLaidOut(prev: seq<Attr>, p: Pass): (first: nat)
    ensures first <= |p.sizes| && first <= FirstRegenerated(prev, p)
    ensures first > 0 ==> first <= |prev|
  {
    var start := FirstRegenerated(prev, p);
    if start < |p.sizes| then start else |p.sizes|
  }

  /** Items `first` to `k - 1` as the item loop lays them out after
      `prefix`, the bottom-stack rank counted from `first`. */
  function LaidOut(p: Pass, vp: Viewport, bottom: seq<int>, count: int, first: nat, k: int, prefix: seq<Attr>): (r: seq<Attr>)
    requires WellFormed(p) && Scalable(p.config, bottom)
    requires |prefix| == first <= k <= |p.sizes|
    ensures |r| == k
    decreases k
  {
    if k == first then prefix
    else LaidOut(p, vp, bottom, count, first, k - 1, prefix)
         + [ItemAttr(p, vp, bottom, count, k - 1, CountLess(bottom, k - 1) - CountLess(bottom, first))]
  }

  /** Item `k` of a pass that lays out items from `start` on after `prefix`
      (the previous attributes it reuses), in viewport `vp`, with bottom
      stack `bottom` and bottom card count `count`. */
  function ItemIn(p: Pass, vp: Viewport, bottom: seq<int>, count: int, start: nat, prefix: seq<Attr>, k: int): Attr
    requires WellFormed(p) && Scalable(p.config, bottom)
    requires 0 <= k < |p.sizes| && (k < start ==> k < |prefix|)
  {
    if k < start then prefix[k]
    else ItemAttr(p, vp, bottom, count, k, CountLess(bottom, k) - CountLess(bottom, start))
  }

  /** The loop keeps the prefix and lays out each later item by its branch. */
  lemma {:induction false} LaidOutAt(p: Pass, vp: Viewport, bottom: seq<int>, count: int, first: nat, k: int,
                                     prefix: seq<Attr>, j: int)
    requires WellFormed(p) && Scalable(p.config, bottom)
    requires |prefix| == first <= k <= |p.sizes| && 0 <= j < k
    ensures LaidOut(p, vp, bottom, count, first, k, prefix)[j] == ItemIn(p, vp, bottom, count, first, prefix, j)
    decreases k
  {
    if k > first && j < k - 1 {
      LaidOutAt(p, vp, bottom, count, first, k - 1, prefix, j);
    }
  }

  /** The attributes a pass gives item `k`: reused below the first
      regenerated item, otherwise from the item's branch, with the running
      bottom-stack rank counted from the first regenerated item. */
  function ItemOf(prev: seq<Attr>, p: Pass, k: int): (a: Attr)
    requires WellFormed(p) && Keyed(prev) && 0 <= k < |p.sizes|
    ensures a.zIndex == k
    ensures k < FirstRegenerated(prev, p) ==> a == prev[k]
    ensures k >= FirstRegenerated(prev, p) ==> (a.isRevealed <==> p.revealed == Some(k) && !p.collapseAll)
  {
    ItemIn(p, PassViewport(prev, p), Selector(prev, p).indexes, PassBottomCount(prev, p), FirstRegenerated(prev, p), prev, k)
  }

  /** The outcome of a pass: the attributes of its items, and the scroll
      position with temporaryTop folded into the offset. */
  function Layout(prev: seq<Attr>, p: Pass): (r: LayoutResult)
    requires WellFormed(p) && Keyed(prev)
    ensures |r.attrs| == |p.sizes|
    // folding temporaryTop into the offset keeps the scroll position
    ensures r.offsetY + r.temporaryTop == p.viewport.offsetY + p.temporaryTop
    ensures Folds(prev, p) ==> r.temporaryTop == 0.0
  {
    var n := |p.sizes|;
    LayoutResult(seq(n, k requires 0 <= k < n => ItemOf(prev, p, k)),
                 PassViewport(prev, p).offsetY, if Folds(prev, p) then 0.0 else p.temporaryTop, Selector(prev, p))
  }

  /** The viewport after the item loop from `first` on. */
  function FoldedViewport(p: Pass, first: int): Viewport {
    if Stacked(p) && first < |p.sizes| then p.viewport.(offsetY := p.viewport.offsetY + p.temporaryTop)
    else p.viewport
  }

  /** The item loop of lines 718-743 from item `first` on, keeping the running
      bottomIndex as the source does; `bottom` is the selected bottom stack
      and `count` the bottom card count. */
  method LayOutFrom(p: Pass, bottom: seq<int>, count: int, first: nat, prefix: seq<Attr>)
    returns (attrs: seq<Attr>, vp: Viewport, temporaryTop: real)
    requires WellFormed(p) && Scalable(p.config, bottom) && StrictlyIncreasing(bottom)
    requires |prefix| == first <= |p.sizes|
    requires forall k :: k in bottom ==> !Stacked(p) && !(p.revealed == Some(k) && !p.collapseAll)
    ensures vp == FoldedViewport(p, first)
    ensures attrs == LaidOut(p, vp, bottom, count, first, |p.sizes|, prefix)
    ensures temporaryTop == (if Stacked(p) && first < |p.sizes| then 0.0 else p.temporaryTop)
  {
    var n := |p.sizes|;
    vp := p.viewport;
    temporaryTop := p.temporaryTop;
    attrs := prefix;
    var k := first;
    var bottomIndex := 0;
    ghost var final := FoldedViewport(p, first);
    while k < n
      invariant first <= k <= n && attrs == LaidOut(p, final, bottom, count, first, k, prefix)
      invariant k == first ==> vp == p.viewport && temporaryTop == p.temporaryTop
      invariant k > first ==> vp == final
      invariant k > first ==> temporaryTop == (if Stacked(p) then 0.0 else p.temporaryTop)
      invariant bottomIndex + CountLess(bottom, first) == CountLess(bottom, k)
    {
      if Stacked(p) {
        vp := vp.(offsetY := vp.offsetY + temporaryTop);
        temporaryTop := 0.0;
      }
      // the branch of lines 730-738; only the bottom branch advances bottomIndex
      var a := ItemAttr(p, vp, bottom, count, k, bottomIndex);
      if !Stacked(p) && !(p.revealed == Some(k) && !p.collapseAll) && k in bottom {
        bottomIndex := bottomIndex + 1;
      }
      CountLessStep(bottom, k);
      attrs := attrs + [a];
      k := k + 1;
    }
  }

  /** generateCardCollectionViewLayoutAttributes (lines 690-745): reuse the
      previous attributes below the first item to lay out, select the bottom
      stack, then run the item loop. */
  method Generate(prev: seq<Attr>, p: Pass) returns (r: LayoutResult)
    requires WellFormed(p) && Keyed(prev)
    ensures r == Layout(prev, p)
    ensures |r.attrs| == |p.sizes| && Keyed(r.attrs)
  {
    var first := FirstLaidOut(prev, p);
    var sel := Selector(prev, p);
    var count := PassBottomCount(prev, p);
    BottomMembersTakeBottomBranch(prev, p);
    var attrs, vp, temporaryTop := LayOutFrom(p, sel.indexes, count, first, prev[..first]);
    r := LayoutResult(attrs, vp.offsetY, temporaryTop, sel);
    LoopIsLayout(prev, p);
    LayoutShape(prev, p);
  }

  /** The attributes of the pass are those of its items. */
  lemma LayoutItem(prev: seq<Attr>, p: Pass, k: int)
    requires WellFormed(p) && Keyed(prev) && 0 <= k < |p.sizes|
    ensures Layout(prev, p).attrs[k] == ItemOf(prev, p, k)
  {
  }

  /** A loop started at `first`, the first regenerated item `start` or the
      item count when that is beyond the last item, lays out item `k` as the
      pass does. */
  lemma LaidOutItem(p: Pass, vp: Viewport, bottom: seq<int>, count: int, first: nat, start: nat,
                    prev: seq<Attr>, k: int)
    requires WellFormed(p) && Scalable(p.config, bottom)
    requires first == (if start < |p.sizes| then start else |p.sizes|) && first <= |prev|
    requires 0 <= k < |p.sizes| && (k < start ==> k < |prev|)
    ensures LaidOut(p, vp, bottom, count, first, |p.sizes|, prev[..first])[k]
         == ItemIn(p, vp, bottom, count, start, prev, k)
  {
    LaidOutAt(p, vp, bottom, count, first, |p.sizes|, prev[..first], k);
    if k < first {
      assert prev[..first][k] == prev[k];
    }
  }

  /** The item loop produces the pass's attributes. */
  lemma LoopItem(prev: seq<Attr>, p: Pass, k: int)
    requires WellFormed(p) && Keyed(prev) && 0 <= k < |p.sizes|
    ensures var first := FirstLaidOut(prev, p);
      LaidOut(p, PassViewport(prev, p), Selector(prev, p).indexes, PassBottomCount(prev, p), first, |p.sizes|, prev[..first])[k]
      == ItemOf(prev, p, k)
  {
    LaidOutItem(p, PassViewport(prev, p), Selector(prev, p).indexes, PassBottomCount(prev, p),
                FirstLaidOut(prev, p), FirstRegenerated(prev, p), prev, k);
  }

  lemma LoopIsLayout(prev: seq<Attr>, p: Pass)
    requires WellFormed(p) && Keyed(prev)
    ensures var first := FirstLaidOut(prev, p);
      LaidOut(p, PassViewport(prev, p), Selector(prev, p).indexes, PassBottomCount(prev, p), first, |p.sizes|, prev[..first])
      == Layout(prev, p).attrs
  {
    var first := FirstLaidOut(prev, p);
    var attrs := LaidOut(p, PassViewport(prev, p), Selector(prev, p).indexes, PassBottomCount(prev, p), first, |p.sizes|, prev[..first]);
    forall k | 0 <= k < |p.sizes|
      ensures attrs[k] == Layout(prev, p).attrs[k]
    {
      LoopItem(prev, p, k);
      LayoutItem(prev, p, k);
    }
  }

  /** Every attribute of a pass sits under its own item; below the first
      regenerated item they are the previous pass's, and among the others
      exactly the revealed item is flagged, and only while the cards are not
      collapsed. */
  lemma LayoutShape(prev: seq<Attr>, p: Pass)
    requires WellFormed(p) && Keyed(prev)
    ensures Keyed(Layout(prev, p).attrs)
    ensures forall k :: 0 <= k < FirstRegenerated(prev, p) && k < |p.sizes| ==> Layout(prev, p).attrs[k] == prev[k]
    ensures forall k :: FirstRegenerated(prev, p) <= k < |p.sizes| ==>
      (Layout(prev, p).attrs[k].isRevealed <==> p.revealed == Some(k) && !p.collapseAll)
  {
    var attrs := Layout(prev, p).attrs;
    forall k | 0 <= k < |attrs|
      ensures attrs[k] == ItemOf(prev, p, k)
    {
      LayoutItem(prev, p, k);
    }
  }

  /** An item laid out anew outside the stacked and revealed branches takes
      the bottom branch with its running rank. */
  lemma BottomBranchItem(p: Pass, vp: Viewport, bottom: seq<int>, count: int, start: nat, prefix: seq<Attr>, k: int)
    requires WellFormed(p) && Scalable(p.config, bottom)
    requires start <= k < |p.sizes| && !Stacked(p) && !(p.revealed == Some(k) && !p.collapseAll)
    ensures ItemIn(p, vp, bottom, count, start, prefix, k)
         == BottomAttr(p.config, vp, k, p.sizes[k], bottom, CountLess(bottom, k) - CountLess(bottom, start), count)
  {
  }

  /** In a pass that lays out every item with a card revealed, the bottom
      stack lies within the items, excludes the revealed card and is
      complete. */
  lemma RevealedPassBottomStack(prev: seq<Attr>, p: Pass)
    requires WellFormed(p) && RevealedIndex(prev, p.revealed).Some? && Keyed(prev)
    ensures var bottom := Selector(prev, p).indexes;
      && (forall i :: i in bottom ==> 0 <= i < |p.sizes| && i != p.revealed.value)
      && PassBottomCount(prev, p) == |bottom|
      && CountLess(bottom, 0) == 0
  {
    var bottom := Selector(prev, p).indexes;
    if bottom != [] {
      assert bottom[0] in bottom;
      CountLessAtElement(bottom, 0);
      CountLessSplit(bottom, 0, 0);
    }
  }

  /** In a pass that lays out every item with a card revealed, the j-th card
      of the bottom stack takes the bottom branch with rank `j` in a full
      stack. */
  lemma RevealedPassBottomItem(prev: seq<Attr>, p: Pass, j: int)
    requires WellFormed(p) && Keyed(prev)
    requires FirstRegenerated(prev, p) == 0 && RevealedIndex(prev, p.revealed).Some?
    requires 0 <= j < |Selector(prev, p).indexes|
    ensures var bottom := Selector(prev, p).indexes;
      && 0 <= bottom[j] < |p.sizes| && bottom[j] != p.revealed.value
      && ItemOf(prev, p, bottom[j]) == BottomAttr(p.config, p.viewport, bottom[j], p.sizes[bottom[j]], bottom, j, |bottom|)
  {
    var bottom := Selector(prev, p).indexes;
    RevealedPassBottomStack(prev, p);
    assert bottom[j] in bottom;
    StackMemberItem(p, p.viewport, bottom, prev, j);
  }

  /** In a pass that lays out every item, with a card revealed, the j-th
      member of an increasing bottom stack takes the bottom branch with rank
      `j`. */
  lemma StackMemberItem(p: Pass, vp: Viewport, bottom: seq<int>, prev: seq<Attr>, j: int)
    requires WellFormed(p) && p.revealed.Some? && Scalable(p.config, bottom)
    requires StrictlyIncreasing(bottom) && CountLess(bottom, 0) == 0
    requires 0 <= j < |bottom| && 0 <= bottom[j] < |p.sizes| && bottom[j] != p.revealed.value
    ensures ItemIn(p, vp, bottom, |bottom|, 0, prev, bottom[j])
         == BottomAttr(p.config, vp, bottom[j], p.sizes[bottom[j]], bottom, j, |bottom|)
  {
    CountLessAtElement(bottom, j);
    BottomBranchItem(p, vp, bottom, |bottom|, 0, prev, bottom[j]);
  }

  /** In a pass that lays out every item with a card revealed, the j-th card
      of the bottom stack (counted from the back) is shown at scale
      CardScale(j), its visible top `|stack| - j` lookout margins above the
      bottom edge of the visible area: successive bottom cards peek out one
      margin apart (PeekTopSpacing), the front one a margin above the edge. */
  lemma RevealedPassStacksBottomCards(prev: seq<Attr>, p: Pass, j: int)
    requires WellFormed(p) && Keyed(prev)
    requires FirstRegenerated(prev, p) == 0 && RevealedIndex(prev, p.revealed).Some?
    requires 0 <= j < |Selector(prev, p).indexes|
    ensures var bottom := Selector(prev, p).indexes;
      0 <= bottom[j] < |p.sizes| && bottom[j] != p.revealed.value
    ensures var bottom := Selector(prev, p).indexes;
      var a := Layout(prev, p).attrs[bottom[j]];
      && !a.hidden && a.alpha == 1.0
      && a.scale == CardScale(p.config, j, false, |bottom|)
      && VisibleTop(a) == PeekTop(p.config, p.viewport, |bottom|, j)
  {
    var bottom := Selector(prev, p).indexes;
    RevealedPassBottomItem(prev, p, j);
    assert bottom[j] in bottom;
    LayoutItem(prev, p, bottom[j]);
  }

  /** At rest (the offset between the top and the end of the background
      space) with fixed head heights, the stacked pass puts the last card's
      bottom edge exactly the bottom space above the end of the content. */
  lemma RestingStackFillsContent(prev: seq<Attr>, p: Pass, w: real, l: real, r: real)
    requires WellFormed(p) && Keyed(prev) && Stacked(p) && !p.config.expandHeadHeight
    requires FirstRegenerated(prev, p) < |p.sizes|
    requires 0.0 <= PassViewport(prev, p).OffsetTop() <= p.config.spaceAtTop
    ensures Layout(prev, p).attrs[|p.sizes| - 1].frame.MaxY() + p.config.spaceAtBottom
         == ContentSize(p.config, |p.sizes|, p.sizes[|p.sizes| - 1].height, w, l, r).height
  {
    var n := |p.sizes|;
    assert Layout(prev, p).attrs[n - 1] == ItemOf(prev, p, n - 1);
  }
}
