/** The scalar helpers of the attribute generator: the bottom-stack scale law,
    the head height actually used, the bottom card count and the content size
    (Source/HFCardCollectionViewLayout.swift lines 508-524, 557-567, 870-885). */
module CardMetrics {
  import opened Geometry
  import opened LayoutConfig

  /** The minimum scale the scale law uses: the configured minimum, capped to
      the maximum so the range is never inverted (line 522). */
  function EffectiveMinimumScale(c: Config): (m: real)
    ensures m <= c.maximumScale
    ensures m <= c.minimumScale
    ensures m == c.minimumScale || m == c.maximumScale
  {
    if c.maximumScale < c.minimumScale then c.maximumScale else c.minimumScale
  }

  /** scalePerCard (lines 520-524): the scale range divided evenly over the
      configured stack. The source divides by the stacked-card count, which
      may be 0; that case is excluded. */
  function ScalePerCard(c: Config): (r: real)
    requires c.stackedCount > 0
    ensures r >= 0.0
    ensures r * c.stackedCount as real == c.maximumScale - EffectiveMinimumScale(c)
  {
    (c.maximumScale - EffectiveMinimumScale(c)) / c.stackedCount as real
  }

  /** bottomCardCount (lines 508-510): the number of bottom cards actually
      drawn, bounded by the item count, the configured count and the size of
      the selected bottom set. */
  function BottomCardCount(n: int, s: int, setCount: int): (r: int)
    ensures r <= n && r <= s && r <= setCount
    ensures r == n || r == s || r == setCount
  {
    MinInt(n, MinInt(s, setCount))
  }

  /** `k` steps of `p`, counted one card at a time: the product `p * k` of
      the scale law (see TimesIsProduct), in a form whose proofs stay
      linear. */
  function Times(p: real, k: int): real
    decreases if k < 0 then -k else k
  {
    if k == 0 then 0.0 else if k > 0 then Times(p, k - 1) + p else Times(p, k + 1) - p
  }

  lemma TimesStep(p: real, k: int)
    ensures Times(p, k + 1) == Times(p, k) + p
  {
  }

  lemma {:induction false} TimesIsProduct(p: real, k: int)
    ensures Times(p, k) == p * k as real
    decreases if k < 0 then -k else k
  {
    if k > 0 {
      TimesIsProduct(p, k - 1);
      Distribute((k - 1) as real, -1.0, p);
      assert p * k as real == p * (k - 1) as real + p;
    } else if k < 0 {
      TimesIsProduct(p, k + 1);
      Distribute((k + 1) as real, 1.0, p);
      assert p * k as real == p * (k + 1) as real - p;
    }
  }

  lemma {:induction false} TimesMonotone(p: real, i: int, j: int)
    requires p >= 0.0 && i <= j
    ensures Times(p, i) <= Times(p, j)
    decreases j - i
  {
    if i < j {
      TimesMonotone(p, i, j - 1);
      TimesStep(p, j - 1);
    }
  }

  /** A full stack spans the scale range exactly. */
  lemma StackSpansScaleRange(c: Config)
    requires c.stackedCount > 0
    ensures Times(ScalePerCard(c), c.stackedCount) == c.maximumScale - EffectiveMinimumScale(c)
  {
    TimesIsProduct(ScalePerCard(c), c.stackedCount);
  }

  /** calculateCardScale (lines 870-877) for the card at position `index` of
      a bottom stack of `count` cards: the maximum scale, less one
      `scalePerCard` for every card in front of it, and one more when
      `behind` (the "scale behind card" flag of the revealed card's drag-back
      gesture) applies; never above 1. */
  function CardScale(c: Config, index: int, behind: bool, count: int): (r: real)
    requires c.stackShouldScale ==> c.stackedCount > 0
    ensures r <= 1.0
    ensures !c.stackShouldScale ==> r == 1.0
    ensures c.stackShouldScale && !behind && index == count - 1 ==> r == Min(1.0, c.maximumScale)
  {
    if c.stackShouldScale then
      var perCard := ScalePerCard(c);
      var added := if behind && index < count then perCard else 0.0;
      Min(1.0, c.maximumScale - Times(perCard, count - 1 - index) - added)
    else
      1.0
  }

  /** The source writes the law as a product of reals; it is the same value. */
  lemma CardScaleAsProduct(c: Config, index: int, behind: bool, count: int)
    requires c.stackShouldScale && c.stackedCount > 0
    ensures CardScale(c, index, behind, count)
         == Min(1.0, c.maximumScale
                     - ((index as real + 1.0 - count as real) * -1.0) * ScalePerCard(c)
                     - (if behind && index < count then ScalePerCard(c) else 0.0))
  {
    TimesIsProduct(ScalePerCard(c), count - 1 - index);
    assert (index as real + 1.0 - count as real) * -1.0 == (count - 1 - index) as real;
  }

  /** Scales never decrease along the stack: the card nearest the front of
      the stack (highest position) is the largest, and each card behind it is
      smaller by one `scalePerCard`. */
  lemma CardScaleMonotone(c: Config, i: int, j: int, behind: bool, count: int)
    requires c.stackShouldScale ==> c.stackedCount > 0
    requires i <= j
    ensures CardScale(c, i, behind, count) <= CardScale(c, j, behind, count)
  {
    if c.stackShouldScale {
      TimesMonotone(ScalePerCard(c), count - 1 - j, count - 1 - i);
    }
  }

  /** No card of a valid configuration's stack is drawn smaller than the
      effective minimum scale. */
  lemma CardScaleAtLeastMinimum(c: Config, i: int, behind: bool, count: int)
    requires Valid(c) && c.stackShouldScale && c.stackedCount > 0
    requires 0 <= i < count <= c.stackedCount
    ensures EffectiveMinimumScale(c) <= CardScale(c, i, behind, count)
  {
    var p := ScalePerCard(c);
    var e := EffectiveMinimumScale(c);
    var depth := Times(p, count - 1 - i);
    var added := if behind && i < count then p else 0.0;
    TimesMonotone(p, count - i, c.stackedCount);
    TimesStep(p, count - 1 - i);
    assert Times(p, count - i) == depth + p;
    StackSpansScaleRange(c);
    assert depth + p <= c.maximumScale - e;
    assert CardScale(c, i, behind, count) == Min(1.0, c.maximumScale - depth - added);
  }

  /** The part of the viewport below the background space, shared out among
      the cards when the head height expands to fill it (line 882). */
  function AvailableHeight(c: Config, frameHeight: real, insetTop: real, insetBottom: real): real {
    frameHeight - (insetTop + insetBottom + c.spaceAtTop)
  }

  /** calculateCardHeadHeight (lines 879-885) for `n` items. The source
      divides by the item count; it is only called while laying out an
      existing item, so `n >= 1`. */
  function HeadHeight(c: Config, frameHeight: real, insetTop: real, insetBottom: real, n: int): (h: real)
    requires n >= 1
    ensures h >= c.headHeight
    ensures !c.expandHeadHeight ==> h == c.headHeight
    ensures c.expandHeadHeight ==> h * n as real >= AvailableHeight(c, frameHeight, insetTop, insetBottom)
    ensures c.expandHeadHeight && h > c.headHeight ==>
      h * n as real == AvailableHeight(c, frameHeight, insetTop, insetBottom)
  {
    if c.expandHeadHeight then
      var a := AvailableHeight(c, frameHeight, insetTop, insetBottom);
      var share := a / n as real;
      DivMul(a, n as real);
      MulMonotoneLeft(share, Max(c.headHeight, share), n as real);
      Max(c.headHeight, share)
    else
      c.headHeight
  }

  /** collectionViewContentSize (lines 557-567): the heads of all cards but
      the last, the full last card, and the extra spaces at top and bottom. */
  function ContentSize(c: Config, n: int, lastHeight: real, frameWidth: real, insetLeft: real, insetRight: real): (r: Size)
    ensures r.width == frameWidth - (insetLeft + insetRight)
    // the last card's full height and the bottom space follow the heads of
    // the `n - 1` cards above it
    ensures r.height - lastHeight - c.spaceAtBottom == c.spaceAtTop + c.headHeight * (n - 1) as real
    // with at least one card, the content holds the last card and both spaces
    ensures n >= 1 && c.headHeight >= 0.0 ==> r.height >= lastHeight + c.spaceAtTop + c.spaceAtBottom
  {
    NonNegativeProduct(c.headHeight, (n - 1) as real);
    Size(frameWidth - (insetLeft + insetRight),
         c.headHeight * (n - 1) as real + lastHeight + c.spaceAtTop + c.spaceAtBottom)
  }
}
