/** Where a scroll comes to rest, and the autoscroll that runs while a card
    is dragged near an edge (Source/HFCardCollectionViewLayout.swift lines
    617-642, 982-988 and 1101-1152). Offsets are contentOffset.y values; a
    "top-relative" offset has the top inset added, as contentOffsetTop does. */
module Scrolling {
  import opened Wrappers
  import opened Geometry
  import opened LayoutConfig

  datatype Point = Point(x: real, y: real)

  /** The background-space snap of lines 619-628 applies: the option is on,
      there is a background space, and the scroll would stop inside it. */
  predicate SnapsToBackground(c: Config, top: real) {
    c.spaceAtTopShouldSnap && c.spaceAtTop > 0.0 && 0.0 < top < c.spaceAtTop
  }

  /** The card-head snap of lines 630-640 applies: the option is on, the
      scroll would stop below the background space, and the content is more
      than one head height taller than the frame. */
  predicate SnapsToCardHead(c: Config, top: real, contentHeight: real, frameHeight: real) {
    c.snapCardHead && top > c.spaceAtTop && contentHeight > frameHeight + c.headHeight
  }

  /** targetContentOffset(forProposedContentOffset:withScrollingVelocity:)
      (lines 617-642). The velocity is not read. */
  function TargetContentOffset(c: ValidConfig, proposed: Point, insetTop: real,
                               contentHeight: real, frameHeight: real): (r: Point)
    ensures SnapsToBackground(c, proposed.y + insetTop) ==> r.x == 0.0
    ensures SnapsToCardHead(c, proposed.y + insetTop, contentHeight, frameHeight) ==> r.x == 0.0
    // a proposal no snap applies to is kept as it is
    ensures (!SnapsToBackground(c, proposed.y + insetTop)
             && !SnapsToCardHead(c, proposed.y + insetTop, contentHeight, frameHeight)) ==> r == proposed
  {
    var top := proposed.y + insetTop;
    if SnapsToBackground(c, top) then
      if top < c.spaceAtTop * 0.5 then Point(0.0, 0.0 - insetTop)
      else Point(0.0, c.spaceAtTop - insetTop)
    else if SnapsToCardHead(c, top, contentHeight, frameHeight) then
      var h := c.headHeight;
      var startIndex := Trunc((top - c.spaceAtTop) / h) + 1;
      var positionToGoUp := h * 0.5;
      var cardHeadPosition := TruncatingRemainder(top - c.spaceAtTop, h);
      if cardHeadPosition > positionToGoUp then
        Point(0.0, startIndex as real * h + (c.spaceAtTop - insetTop))
      else
        Point(0.0, startIndex as real * h - h + (c.spaceAtTop - insetTop))
    else
      proposed
  }

  /** A scroll that would stop inside the background space comes to rest at
      whichever end of it is nearer, fully showing the background (offset 0)
      or fully hiding it; a stop exactly halfway hides it. */
  lemma BackgroundSnapPicksNearerEnd(c: ValidConfig, proposed: Point, insetTop: real,
                                     contentHeight: real, frameHeight: real)
    requires SnapsToBackground(c, proposed.y + insetTop)
    ensures var t := TargetContentOffset(c, proposed, insetTop, contentHeight, frameHeight).y + insetTop;
      && (t == 0.0 || t == c.spaceAtTop)
      && RealAbs(t - (proposed.y + insetTop)) <= c.spaceAtTop / 2.0
      && (RealAbs(t - (proposed.y + insetTop)) == c.spaceAtTop / 2.0 ==> t == c.spaceAtTop)
  {
  }

  /** The card-head snap, stated over the distance `x` scrolled past the
      background space: it lands on the multiple of the head height `h`
      nearest to `x`, the smaller one on a tie. `q` and `rest` are the
      truncated quotient and the remainder of `x` by `h`. */
  lemma NearestMultiple(x: real, h: real, q: int, qh: real, rest: real, t: real)
    requires h > 0.0 && q >= 0 && qh == q as real * h && x == qh + rest && 0.0 <= rest < h
    requires t == (if rest > h * 0.5 then qh + h else qh)
    ensures t == qh || t == qh + h
    ensures RealAbs(t - x) <= h / 2.0
    ensures RealAbs(t - x) == h / 2.0 ==> t <= x
  {
  }

  /** The card-head branch in terms of the truncated quotient `q` and the
      remainder of the distance scrolled past the background space. */
  lemma CardHeadSnapTarget(c: ValidConfig, proposed: Point, insetTop: real,
                           contentHeight: real, frameHeight: real)
    requires !SnapsToBackground(c, proposed.y + insetTop)
    requires SnapsToCardHead(c, proposed.y + insetTop, contentHeight, frameHeight)
    ensures var h := c.headHeight;
      var x := proposed.y + insetTop - c.spaceAtTop;
      var q := Trunc(x / h);
      var rest := TruncatingRemainder(x, h);
      && q >= 0 && x == q as real * h + rest && 0.0 <= rest < h
      && TargetContentOffset(c, proposed, insetTop, contentHeight, frameHeight).y + insetTop - c.spaceAtTop
         == (if rest > h * 0.5 then q as real * h + h else q as real * h)
  {
    var h := c.headHeight;
    var x := proposed.y + insetTop - c.spaceAtTop;
    var q := Trunc(x / h);
    DivNonNegative(x, h);
    Distribute(q as real, 1.0, h);
  }

  /** A whole, non-negative number of head heights. */
  lemma WholeHeads(t: real, h: real, m: int)
    requires h > 0.0 && m >= 0 && t == m as real * h
    ensures t >= 0.0 && t == Trunc(t / h) as real * h
  {
    MulDivCancel(m as real, h);
    MulNonNegative(m as real, h);
  }

  /** With card-head snapping, a scroll that would stop below the background
      space comes to rest with a card head exactly at the top of the view:
      the distance scrolled past the background space becomes a whole
      number of head heights, the one nearest to the proposal (the smaller
      one on a tie). */
  lemma CardHeadSnapPicksNearestHead(c: ValidConfig, proposed: Point, insetTop: real,
                                     contentHeight: real, frameHeight: real)
    requires !SnapsToBackground(c, proposed.y + insetTop)
    requires SnapsToCardHead(c, proposed.y + insetTop, contentHeight, frameHeight)
    ensures var x := proposed.y + insetTop - c.spaceAtTop;
      var t := TargetContentOffset(c, proposed, insetTop, contentHeight, frameHeight).y + insetTop - c.spaceAtTop;
      && t >= 0.0 && t == Trunc(t / c.headHeight) as real * c.headHeight
      && RealAbs(t - x) <= c.headHeight / 2.0
      && (RealAbs(t - x) == c.headHeight / 2.0 ==> t <= x)
  {
    var h := c.headHeight;
    var x := proposed.y + insetTop - c.spaceAtTop;
    var q := Trunc(x / h);
    var qh := q as real * h;
    var rest := TruncatingRemainder(x, h);
    var t := TargetContentOffset(c, proposed, insetTop, contentHeight, frameHeight).y + insetTop - c.spaceAtTop;
    CardHeadSnapTarget(c, proposed, insetTop, contentHeight, frameHeight);
    NearestMultiple(x, h, q, qh, rest, t);
    if t == qh {
      WholeHeads(t, h, q);
    } else {
      Distribute(q as real, 1.0, h);
      WholeHeads(t, h, q + 1);
    }
  }

  /** HFCardCollectionScrollDirection. */
  datatype Direction = Unknown | Up | Down

  /** The edge where a dragged card makes the list scroll down (line 982):
      `scrollAreaBottom` above the bottom space and the frozen bottom inset. */
  function BottomAreaTop(c: Config, offsetY: real, frameHeight: real, insetBottom: real): real {
    (offsetY + frameHeight) - c.spaceAtBottom - insetBottom - c.scrollAreaBottom
  }

  /** The autoscroll decision of lines 982-988 for a touch at content
      location `touchY`: down in the bottom scroll area, up in the top one,
      otherwise the timer is stopped (`Unknown`). */
  function AutoscrollDirection(c: Config, touchY: real, offsetY: real, insetTop: real,
                               frameHeight: real, insetBottom: real): (d: Direction)
    ensures d == Down <==> touchY > BottomAreaTop(c, offsetY, frameHeight, insetBottom)
    ensures d == Up <==> touchY <= BottomAreaTop(c, offsetY, frameHeight, insetBottom)
                         && touchY - (offsetY + insetTop) < c.scrollAreaTop
  {
    if touchY > BottomAreaTop(c, offsetY, frameHeight, insetBottom) then Down
    else if (touchY - offsetY) - insetTop < c.scrollAreaTop then Up
    else Unknown
  }

  /** The top speed of the autoscroll, in points per second. */
  const MaxSpeed: real := 600.0

  /** The speed used while no drag gesture recognizer is installed. */
  const DefaultSpeed: real := 250.0

  /** How deep a touch at `y` is inside the top scroll area: 0 at the
      area's inner border and below it, the area's size at the top edge of
      the viewport and above it. */
  function UpDepth(c: Config, y: real, offsetY: real, insetTop: real): real {
    Min(Max(0.0, c.scrollAreaTop - (y - (offsetY + insetTop))), c.scrollAreaTop)
  }

  /** How deep a touch at `y` is inside the bottom scroll area. */
  function DownDepth(c: Config, y: real, offsetY: real, frameHeight: real, insetBottom: real): real {
    Min(Max(0.0, y - BottomAreaTop(c, offsetY, frameHeight, insetBottom)), c.scrollAreaBottom)
  }

  /** generateScrollSpeedMultiplier (lines 1137-1152). `touchY` is the drag
      recognizer's touch location, `None` while no recognizer is installed.
      The speed is the top speed times the share of the scroll area the touch
      is deep inside it. The source divides by the area's size, hence the
      requires. */
  function ScrollSpeed(c: Config, touchY: Option<real>, d: Direction, offsetY: real, insetTop: real,
                       frameHeight: real, insetBottom: real): (v: real)
    requires touchY.Some? && d == Up ==> c.scrollAreaTop > 0.0
    requires touchY.Some? && d == Down ==> c.scrollAreaBottom > 0.0
    ensures 0.0 <= v <= MaxSpeed
    ensures touchY.None? || d == Unknown ==> v == DefaultSpeed
    // the speed law: proportional to the depth inside the area
    ensures touchY.Some? && d == Up ==>
      v == MaxSpeed * (UpDepth(c, touchY.value, offsetY, insetTop) / c.scrollAreaTop)
    ensures touchY.Some? && d == Down ==>
      v == MaxSpeed * (DownDepth(c, touchY.value, offsetY, frameHeight, insetBottom) / c.scrollAreaBottom)
    // full speed at or past the viewport's edge, none at the area's border
    ensures touchY.Some? && d == Up && touchY.value <= offsetY + insetTop ==> v == MaxSpeed
    ensures touchY.Some? && d == Up && touchY.value - (offsetY + insetTop) >= c.scrollAreaTop ==> v == 0.0
    ensures touchY.Some? && d == Down
            && touchY.value >= BottomAreaTop(c, offsetY, frameHeight, insetBottom) + c.scrollAreaBottom
            ==> v == MaxSpeed
    ensures touchY.Some? && d == Down && touchY.value <= BottomAreaTop(c, offsetY, frameHeight, insetBottom) ==> v == 0.0
  {
    match touchY
    case None => DefaultSpeed
    case Some(y) =>
      if d == Up then
        var depth := UpDepth(c, y, offsetY, insetTop);
        SpeedShareBounds(depth, c.scrollAreaTop);
        MaxSpeed * (depth / c.scrollAreaTop)
      else if d == Down then
        var depth := DownDepth(c, y, offsetY, frameHeight, insetBottom);
        SpeedShareBounds(depth, c.scrollAreaBottom);
        MaxSpeed * (depth / c.scrollAreaBottom)
      else DefaultSpeed
  }

  /** A depth within the area is a share of it between 0 and 1. */
  lemma SpeedShareBounds(depth: real, area: real)
    requires area > 0.0 && 0.0 <= depth <= area
    ensures 0.0 <= depth / area <= 1.0
    ensures MaxSpeed * (depth / area) <= MaxSpeed
    ensures depth == area ==> depth / area == 1.0
    ensures depth == 0.0 ==> depth / area == 0.0
  {
    DivNonNegative(depth, area);
    DivMonotone(depth, area, area);
    MulDivCancel(1.0, area);
  }

  /** A direction the drag chose always scrolls: the touch is strictly
      inside the chosen area, so the speed is positive. */
  lemma ChosenDirectionMoves(c: Config, touchY: real, offsetY: real, insetTop: real,
                             frameHeight: real, insetBottom: real)
    requires c.scrollAreaTop > 0.0 && c.scrollAreaBottom > 0.0
    ensures var d := AutoscrollDirection(c, touchY, offsetY, insetTop, frameHeight, insetBottom);
      d != Unknown ==> ScrollSpeed(c, Some(touchY), d, offsetY, insetTop, frameHeight, insetBottom) > 0.0
  {
    var d := AutoscrollDirection(c, touchY, offsetY, insetTop, frameHeight, insetBottom);
    if d == Up {
      var depth := Min(Max(0.0, c.scrollAreaTop - (touchY - (offsetY + insetTop))), c.scrollAreaTop);
      DivPositive(depth, c.scrollAreaTop);
    } else if d == Down {
      var depth := Min(Max(0.0, touchY - BottomAreaTop(c, offsetY, frameHeight, insetBottom)), c.scrollAreaBottom);
      DivPositive(depth, c.scrollAreaBottom);
    }
  }

  /** Scrolling up speeds up as the touch moves toward the top edge. */
  lemma UpSpeedGrowsTowardEdge(c: Config, y1: real, y2: real, offsetY: real, insetTop: real,
                               frameHeight: real, insetBottom: real)
    requires c.scrollAreaTop > 0.0 && y1 <= y2
    ensures ScrollSpeed(c, Some(y1), Up, offsetY, insetTop, frameHeight, insetBottom)
         >= ScrollSpeed(c, Some(y2), Up, offsetY, insetTop, frameHeight, insetBottom)
  {
    var a := c.scrollAreaTop;
    var d1 := Min(Max(0.0, a - (y1 - (offsetY + insetTop))), a);
    var d2 := Min(Max(0.0, a - (y2 - (offsetY + insetTop))), a);
    DivMonotone(d2, d1, a);
    MulMonotoneLeft(d2 / a, d1 / a, MaxSpeed);
  }

  /** Scrolling down speeds up as the touch moves toward the bottom edge. */
  lemma DownSpeedGrowsTowardEdge(c: Config, y1: real, y2: real, offsetY: real, insetTop: real,
                                 frameHeight: real, insetBottom: real)
    requires c.scrollAreaBottom > 0.0 && y1 <= y2
    ensures ScrollSpeed(c, Some(y1), Down, offsetY, insetTop, frameHeight, insetBottom)
         <= ScrollSpeed(c, Some(y2), Down, offsetY, insetTop, frameHeight, insetBottom)
  {
    var a := c.scrollAreaBottom;
    var e := BottomAreaTop(c, offsetY, frameHeight, insetBottom);
    var d1 := Min(Max(0.0, y1 - e), a);
    var d2 := Min(Max(0.0, y2 - e), a);
    DivMonotone(d1, d2, a);
    MulMonotoneLeft(d1 / a, d2 / a, MaxSpeed);
  }

  /** The scroll state one autoscroll tick reads. */
  datatype ScrollState = ScrollState(
    offsetY: real,        // contentOffset.y
    insetTop: real,       // the adjusted top content inset
    insetBottom: real,    // contentInsetBottom
    contentHeight: real,
    frameHeight: real)
  {
    /** The lowest offset: the top of the content at the top inset. */
    function MinY(): real { 0.0 - insetTop }
    /** The highest offset: the end of the content (at least one frame) at
        the bottom inset. */
    function MaxY(): real { Max(contentHeight, frameHeight) - frameHeight + insetBottom }
  }

  /** One tick of autoscrollHandler (lines 1101-1135): the new content
      offset. `speed` is the speed law's value and `duration` the display
      link's frame duration; the distance is rounded to whole points and
      clamped at the end of the content in the direction of travel. */
  function AutoscrollTick(s: ScrollState, d: Direction, speed: real, duration: real): (y: real)
    ensures d == Unknown ==> y == s.offsetY
    ensures d == Up ==> y >= s.MinY()
    ensures d == Down ==> y <= s.MaxY()
  {
    var distance := RoundHalfEven(speed * duration) as real;
    match d
    case Unknown => s.offsetY
    case Up =>
      var up := -distance;
      if s.offsetY + up <= s.MinY() then s.offsetY + (-s.offsetY - s.insetTop) else s.offsetY + up
    case Down =>
      if s.offsetY + distance >= s.MaxY() then s.offsetY + (s.MaxY() - s.offsetY) else s.offsetY + distance
  }

  /** A tick moves by the rounded distance, or stops at the end of the
      content: an up tick from inside the content never moves down, a down
      tick never moves up, and neither passes the end it heads for. */
  lemma TickMovesTowardEnd(s: ScrollState, d: Direction, speed: real, duration: real)
    requires speed * duration >= 0.0
    ensures var y := AutoscrollTick(s, d, speed, duration);
      var distance := RoundHalfEven(speed * duration) as real;
      && (d == Up && s.offsetY >= s.MinY() ==>
            s.MinY() <= y <= s.offsetY && (y == s.MinY() || y == s.offsetY - distance))
      && (d == Down && s.offsetY <= s.MaxY() ==>
            s.offsetY <= y <= s.MaxY() && (y == s.MaxY() || y == s.offsetY + distance))
  {
  }

  /** The offsets after ticking in one direction with the given per-tick
      distances (speed times frame duration). */
  function Autoscroll(s: ScrollState, d: Direction, steps: seq<real>): (y: real)
    // with no direction the handler returns at once
    ensures d == Unknown ==> y == s.offsetY
    // after a tick the offset lies within the end it is heading for, from
    // wherever it started
    ensures d == Up && steps != [] ==> y >= s.MinY()
    ensures d == Down && steps != [] ==> y <= s.MaxY()
    decreases |steps|
  {
    if steps == [] then s.offsetY
    else Autoscroll(s.(offsetY := AutoscrollTick(s, d, steps[0], 1.0)), d, steps[1..])
  }

  /** However long the drag holds the card in the top area, the list never
      scrolls past the top of the content and never back down. */
  lemma {:induction false} AutoscrollUpStaysInContent(s: ScrollState, steps: seq<real>)
    requires s.offsetY >= s.MinY()
    requires forall i :: 0 <= i < |steps| ==> steps[i] >= 0.0
    ensures s.MinY() <= Autoscroll(s, Up, steps) <= s.offsetY
    decreases |steps|
  {
    if steps != [] {
      TickMovesTowardEnd(s, Up, steps[0], 1.0);
      var next := s.(offsetY := AutoscrollTick(s, Up, steps[0], 1.0));
      assert forall i :: 0 <= i < |steps[1..]| ==> steps[1..][i] >= 0.0 by {
        forall i | 0 <= i < |steps[1..]| ensures steps[1..][i] >= 0.0 {
          assert steps[1..][i] == steps[i + 1];
        }
      }
      AutoscrollUpStaysInContent(next, steps[1..]);
    }
  }

  /** However long the drag holds the card in the bottom area, the list
      never scrolls past the end of the content and never back up. */
  lemma {:induction false} AutoscrollDownStaysInContent(s: ScrollState, steps: seq<real>)
    requires s.offsetY <= s.MaxY()
    requires forall i :: 0 <= i < |steps| ==> steps[i] >= 0.0
    ensures s.offsetY <= Autoscroll(s, Down, steps) <= s.MaxY()
    decreases |steps|
  {
    if steps != [] {
      TickMovesTowardEnd(s, Down, steps[0], 1.0);
      var next := s.(offsetY := AutoscrollTick(s, Down, steps[0], 1.0));
      assert forall i :: 0 <= i < |steps[1..]| ==> steps[1..][i] >= 0.0 by {
        forall i | 0 <= i < |steps[1..]| ensures steps[1..][i] >= 0.0 {
          assert steps[1..][i] == steps[i + 1];
        }
      }
      AutoscrollDownStaysInContent(next, steps[1..]);
    }
  }
}
