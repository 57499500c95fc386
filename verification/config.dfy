/** The layout's public tunables and their `didSet` observers
    (Source/HFCardCollectionViewLayout.swift lines 26-232).

    Every observer is modelled as a pure update that returns the stored
    configuration together with the relayout it requests. An observer that
    clamps a value re-assigns the property and returns early; Swift does not
    re-run an observer for an assignment made inside it, so a clamped
    assignment requests no relayout at all. */
module LayoutConfig {
  import opened Geometry

  datatype Config = Config(
    firstMovableIndex: int,      // firstMovableIndex
    headHeight: real,            // cardHeadHeight, at least 20
    defaultHeight: real,         // defaultCardHeight
    expandHeadHeight: bool,      // cardShouldExpandHeadHeight
    stretchAtScrollTop: bool,    // cardShouldStretchAtScrollTop
    maximumHeight: real,         // cardMaximumHeight, at least 0
    stackedCount: int,           // bottomNumberOfStackedCards, in 0..10
    stackShouldScale: bool,      // bottomStackedCardsShouldScale
    minimumScale: real,          // bottomStackedCardsMinimumScale, at least 0
    maximumScale: real,          // bottomStackedCardsMaximumScale, at most 1
    lookoutMargin: real,         // bottomCardLookoutMargin, in 0..20
    spaceAtTop: real,            // spaceAtTopForBackgroundView, at least 0
    spaceAtTopShouldSnap: bool,  // spaceAtTopShouldSnap
    spaceAtBottom: real,         // spaceAtBottom
    scrollAreaTop: real,         // scrollAreaTop, at least 0
    scrollAreaBottom: real,      // scrollAreaBottom, at least 0
    snapCardHead: bool,          // scrollShouldSnapCardHead
    stopCardsAtTop: bool)        // scrollStopCardsAtTop

  /** The ranges the observers maintain. */
  predicate Valid(c: Config) {
    && c.headHeight >= 20.0
    && c.maximumHeight >= 0.0
    && 0 <= c.stackedCount <= 10
    && c.minimumScale >= 0.0
    && c.maximumScale <= 1.0
    && 0.0 <= c.lookoutMargin <= 20.0
    && c.spaceAtTop >= 0.0
    && c.scrollAreaTop >= 0.0
    && c.scrollAreaBottom >= 0.0
  }

  /** A configuration the property observers can produce. */
  type ValidConfig = c: Config | Valid(c)
    witness Config(0, 80.0, 250.0, true, true, 0.0, 5, true, 0.94, 1.0, 10.0,
                   0.0, true, 0.0, 120.0, 120.0, false, true)

  /** The property initialisers. */
  function Default(): (c: Config)
    ensures Valid(c)
  {
    Config(0, 80.0, 250.0, true, true, 0.0, 5, true, 0.94, 1.0, 10.0,
           0.0, true, 0.0, 120.0, 120.0, false, true)
  }

  /** One assignment to a public property. */
  datatype Setting =
    | FirstMovableIndex(index: int)
    | CardHeadHeight(height: real)
    | DefaultCardHeight(height: real)
    | CardShouldExpandHeadHeight(flag: bool)
    | CardShouldStretchAtScrollTop(flag: bool)
    | CardMaximumHeight(height: real)
    | BottomNumberOfStackedCards(count: int)
    | BottomStackedCardsShouldScale(flag: bool)
    | BottomStackedCardsMinimumScale(scale: real)
    | BottomStackedCardsMaximumScale(scale: real)
    | BottomCardLookoutMargin(margin: real)
    | SpaceAtTopForBackgroundView(space: real)
    | SpaceAtTopShouldSnap(flag: bool)
    | SpaceAtBottom(space: real)
    | ScrollAreaTop(area: real)
    | ScrollAreaBottom(area: real)
    | ScrollShouldSnapCardHead(flag: bool)
    | ScrollStopCardsAtTop(flag: bool)

  /** What an observer asks of the collection view: nothing, a layout
      invalidation, or a full data reload (bottom-stack membership depends on
      the stacked-card count, so that one reloads). */
  datatype Effect = NoRelayout | InvalidateLayout | ReloadData

  datatype Update = Update(config: Config, effect: Effect)

  /** The observer of a property that is only bounded below by `lo`: a
      smaller value is replaced by `lo` and requests nothing, any other value
      is kept and requests `onKeep`. */
  function ClampBelow(v: real, lo: real, onKeep: Effect): (r: (real, Effect))
    ensures r.0 >= lo
    ensures v >= lo ==> r == (v, onKeep)
    ensures v < lo ==> r == (lo, NoRelayout)
  {
    if v < lo then (lo, NoRelayout) else (v, onKeep)
  }

  /** cardHeadHeight's observer: at least 20. */
  function SetCardHeadHeight(c: Config, v: real): (u: Update)
    ensures u.config == c.(headHeight := u.config.headHeight)
    ensures u.config.headHeight >= 20.0
    ensures v >= 20.0 ==> u.config.headHeight == v && u.effect == InvalidateLayout
    ensures v < 20.0 ==> u.config.headHeight == 20.0 && u.effect == NoRelayout
  {
    var (h, e) := ClampBelow(v, 20.0, InvalidateLayout);
    Update(c.(headHeight := h), e)
  }

  /** cardMaximumHeight's observer: not negative. */
  function SetCardMaximumHeight(c: Config, v: real): (u: Update)
    ensures u.config == c.(maximumHeight := u.config.maximumHeight)
    ensures u.config.maximumHeight >= 0.0
    ensures v >= 0.0 ==> u.config.maximumHeight == v && u.effect == InvalidateLayout
    ensures v < 0.0 ==> u.config.maximumHeight == 0.0 && u.effect == NoRelayout
  {
    var (h, e) := ClampBelow(v, 0.0, InvalidateLayout);
    Update(c.(maximumHeight := h), e)
  }

  /** bottomNumberOfStackedCards' observer: kept in 0..10; an accepted value
      reloads all items because bottom-stack membership depends on it. */
  function SetStackedCount(c: Config, v: int): (u: Update)
    ensures u.config == c.(stackedCount := u.config.stackedCount)
    ensures 0 <= u.config.stackedCount <= 10
    ensures 0 <= v <= 10 ==> u.config.stackedCount == v && u.effect == ReloadData
    ensures v < 0 ==> u.config.stackedCount == 0 && u.effect == NoRelayout
    ensures v > 10 ==> u.config.stackedCount == 10 && u.effect == NoRelayout
  {
    if v < 0 then Update(c.(stackedCount := 0), NoRelayout)
    else if v > 10 then Update(c.(stackedCount := 10), NoRelayout)
    else Update(c.(stackedCount := v), ReloadData)
  }

  /** bottomStackedCardsMinimumScale's observer: not negative. */
  function SetMinimumScale(c: Config, v: real): (u: Update)
    ensures u.config == c.(minimumScale := u.config.minimumScale)
    ensures u.config.minimumScale >= 0.0
    ensures v >= 0.0 ==> u.config.minimumScale == v && u.effect == InvalidateLayout
    ensures v < 0.0 ==> u.config.minimumScale == 0.0 && u.effect == NoRelayout
  {
    var (m, e) := ClampBelow(v, 0.0, InvalidateLayout);
    Update(c.(minimumScale := m), e)
  }

  /** bottomStackedCardsMaximumScale's observer: at most 1. It is not bounded
      below, and it is not compared with the minimum scale here (the scale
      law caps the minimum to the maximum instead). */
  function SetMaximumScale(c: Config, v: real): (u: Update)
    ensures u.config == c.(maximumScale := u.config.maximumScale)
    ensures u.config.maximumScale <= 1.0
    ensures v <= 1.0 ==> u.config.maximumScale == v && u.effect == InvalidateLayout
    ensures v > 1.0 ==> u.config.maximumScale == 1.0 && u.effect == NoRelayout
  {
    if v > 1.0 then Update(c.(maximumScale := 1.0), NoRelayout)
    else Update(c.(maximumScale := v), InvalidateLayout)
  }

  /** bottomCardLookoutMargin's observer: kept in 0..20. */
  function SetLookoutMargin(c: Config, v: real): (u: Update)
    ensures u.config == c.(lookoutMargin := u.config.lookoutMargin)
    ensures 0.0 <= u.config.lookoutMargin <= 20.0
    ensures 0.0 <= v <= 20.0 ==> u.config.lookoutMargin == v && u.effect == InvalidateLayout
    ensures v < 0.0 ==> u.config.lookoutMargin == 0.0 && u.effect == NoRelayout
    ensures v > 20.0 ==> u.config.lookoutMargin == 20.0 && u.effect == NoRelayout
  {
    if v < 0.0 then Update(c.(lookoutMargin := 0.0), NoRelayout)
    else if v > 20.0 then Update(c.(lookoutMargin := 20.0), NoRelayout)
    else Update(c.(lookoutMargin := v), InvalidateLayout)
  }

  /** spaceAtTopForBackgroundView's observer: not negative. */
  function SetSpaceAtTop(c: Config, v: real): (u: Update)
    ensures u.config == c.(spaceAtTop := u.config.spaceAtTop)
    ensures u.config.spaceAtTop >= 0.0
    ensures v >= 0.0 ==> u.config.spaceAtTop == v && u.effect == InvalidateLayout
    ensures v < 0.0 ==> u.config.spaceAtTop == 0.0 && u.effect == NoRelayout
  {
    var (m, e) := ClampBelow(v, 0.0, InvalidateLayout);
    Update(c.(spaceAtTop := m), e)
  }

  /** scrollAreaTop's and scrollAreaBottom's observers: not negative, and
      they never request a relayout. */
  function SetScrollArea(c: Config, top: bool, v: real): (u: Update)
    ensures top ==> u.config == c.(scrollAreaTop := u.config.scrollAreaTop)
    ensures !top ==> u.config == c.(scrollAreaBottom := u.config.scrollAreaBottom)
    ensures u.effect == NoRelayout
    ensures top ==> u.config.scrollAreaTop == Max(v, 0.0)
    ensures !top ==> u.config.scrollAreaBottom == Max(v, 0.0)
  {
    var (a, _) := ClampBelow(v, 0.0, NoRelayout);
    if top then Update(c.(scrollAreaTop := a), NoRelayout)
    else Update(c.(scrollAreaBottom := a), NoRelayout)
  }

  /** Any assignment to a public property. The observers keep every range of
      `Valid`, so a configuration that starts at the defaults stays valid. */
  function Assign(c: Config, s: Setting): (u: Update)
    ensures Valid(c) ==> Valid(u.config)
  {
    match s
    case FirstMovableIndex(i) => Update(c.(firstMovableIndex := i), NoRelayout)
    case CardHeadHeight(h) => SetCardHeadHeight(c, h)
    case DefaultCardHeight(h) => Update(c.(defaultHeight := h), InvalidateLayout)
    case CardShouldExpandHeadHeight(b) => Update(c.(expandHeadHeight := b), InvalidateLayout)
    case CardShouldStretchAtScrollTop(b) => Update(c.(stretchAtScrollTop := b), InvalidateLayout)
    case CardMaximumHeight(h) => SetCardMaximumHeight(c, h)
    case BottomNumberOfStackedCards(n) => SetStackedCount(c, n)
    case BottomStackedCardsShouldScale(b) => Update(c.(stackShouldScale := b), InvalidateLayout)
    case BottomStackedCardsMinimumScale(v) => SetMinimumScale(c, v)
    case BottomStackedCardsMaximumScale(v) => SetMaximumScale(c, v)
    case BottomCardLookoutMargin(m) => SetLookoutMargin(c, m)
    case SpaceAtTopForBackgroundView(v) => SetSpaceAtTop(c, v)
    case SpaceAtTopShouldSnap(b) => Update(c.(spaceAtTopShouldSnap := b), NoRelayout)
    case SpaceAtBottom(v) => Update(c.(spaceAtBottom := v), InvalidateLayout)
    case ScrollAreaTop(v) => SetScrollArea(c, true, v)
    case ScrollAreaBottom(v) => SetScrollArea(c, false, v)
    case ScrollShouldSnapCardHead(b) => Update(c.(snapCardHead := b), NoRelayout)
    case ScrollStopCardsAtTop(b) => Update(c.(stopCardsAtTop := b), InvalidateLayout)
  }

  /** The value a setting leaves in the configuration once its observer ran. */
  function Stored(c: Config, s: Setting): Setting {
    var d := Assign(c, s).config;
    match s
    case FirstMovableIndex(_) => FirstMovableIndex(d.firstMovableIndex)
    case CardHeadHeight(_) => CardHeadHeight(d.headHeight)
    case DefaultCardHeight(_) => DefaultCardHeight(d.defaultHeight)
    case CardShouldExpandHeadHeight(_) => CardShouldExpandHeadHeight(d.expandHeadHeight)
    case CardShouldStretchAtScrollTop(_) => CardShouldStretchAtScrollTop(d.stretchAtScrollTop)
    case CardMaximumHeight(_) => CardMaximumHeight(d.maximumHeight)
    case BottomNumberOfStackedCards(_) => BottomNumberOfStackedCards(d.stackedCount)
    case BottomStackedCardsShouldScale(_) => BottomStackedCardsShouldScale(d.stackShouldScale)
    case BottomStackedCardsMinimumScale(_) => BottomStackedCardsMinimumScale(d.minimumScale)
    case BottomStackedCardsMaximumScale(_) => BottomStackedCardsMaximumScale(d.maximumScale)
    case BottomCardLookoutMargin(_) => BottomCardLookoutMargin(d.lookoutMargin)
    case SpaceAtTopForBackgroundView(_) => SpaceAtTopForBackgroundView(d.spaceAtTop)
    case SpaceAtTopShouldSnap(_) => SpaceAtTopShouldSnap(d.spaceAtTopShouldSnap)
    case SpaceAtBottom(_) => SpaceAtBottom(d.spaceAtBottom)
    case ScrollAreaTop(_) => ScrollAreaTop(d.scrollAreaTop)
    case ScrollAreaBottom(_) => ScrollAreaBottom(d.scrollAreaBottom)
    case ScrollShouldSnapCardHead(_) => ScrollShouldSnapCardHead(d.snapCardHead)
    case ScrollStopCardsAtTop(_) => ScrollStopCardsAtTop(d.stopCardsAtTop)
  }

  /** The settings whose observer clamps the assigned value. */
  predicate Clamping(s: Setting) {
    || s.CardHeadHeight? || s.CardMaximumHeight? || s.BottomNumberOfStackedCards?
    || s.BottomStackedCardsMinimumScale? || s.BottomStackedCardsMaximumScale?
    || s.BottomCardLookoutMargin? || s.SpaceAtTopForBackgroundView?
    || s.ScrollAreaTop? || s.ScrollAreaBottom?
  }

  /** A setting whose observer does not clamp is stored as assigned. */
  lemma PlainSettingStoredAsAssigned(c: Config, s: Setting)
    requires !Clamping(s)
    ensures Stored(c, s) == s
  {
  }

  lemma ClampedAssignIsFixpoint(c: Config, s: Setting)
    requires Clamping(s)
    ensures Assign(Assign(c, s).config, Stored(c, s)).config == Assign(c, s).config
  {
  }

  lemma PlainAssignIsFixpoint(c: Config, s: Setting)
    requires !Clamping(s)
    ensures Assign(Assign(c, s).config, Stored(c, s)).config == Assign(c, s).config
  {
    PlainSettingStoredAsAssigned(c, s);
  }

  /** Clamping is idempotent: re-assigning the value an observer stored
      leaves the configuration as it is. */
  lemma AssignStoredIsFixpoint(c: Config, s: Setting)
    ensures Assign(Assign(c, s).config, Stored(c, s)).config == Assign(c, s).config
  {
    if Clamping(s) {
      ClampedAssignIsFixpoint(c, s);
    } else {
      PlainAssignIsFixpoint(c, s);
    }
  }

  /** A sequence of assignments, applied in order. */
  function AssignAll(c: Config, settings: seq<Setting>): Config
    decreases |settings|
  {
    if settings == [] then c
    else AssignAll(Assign(c, settings[0]).config, settings[1..])
  }

  /** Whatever the host assigns, and in whatever order, a configuration
      that starts valid (the defaults are) stays valid. */
  lemma {:induction false} AssignAllKeepsValid(c: Config, settings: seq<Setting>)
    requires Valid(c)
    ensures Valid(AssignAll(c, settings))
    decreases |settings|
  {
    if settings != [] {
      AssignAllKeepsValid(Assign(c, settings[0]).config, settings[1..]);
    }
  }
}
