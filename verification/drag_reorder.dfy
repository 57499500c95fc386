/** Reordering cards with the long-press gesture
    (Source/HFCardCollectionViewLayout.swift lines 946-1067). The gesture's
    locations arrive already hit-tested: `touched` is the index path of the
    item under the finger, or None when there is none. The cards are the
    data source's list, which `moveItemAt` rearranges. */
module DragReorder {
  import opened Wrappers
  import opened ListOps

  /** movingCardActive, movingCardStartIndexPath,
      movingCardLastTouchedIndexPath and movingCardSelectedIndex. */
  datatype Drag = Drag(active: bool, start: Option<int>, last: Option<int>, selected: int)

  /** No drag under way (lines 476-485). */
  function Idle(): Drag {
    Drag(false, None, None, -1)
  }

  /** Where the dragged card is now: the last index path it was moved to,
      or where it started. */
  function Current(d: Drag): Option<int> {
    if d.last.Some? then d.last else d.start
  }

  /** An active drag knows where it started, and every index path it keeps
      names one of the `count` cards. */
  predicate Tracking(d: Drag, count: int) {
    d.active ==>
      && d.start.Some? && 0 <= d.start.value < count
      && (d.last.Some? ==> 0 <= d.last.value < count)
  }

  /** An item under the finger that the layout has attributes for and that
      may be moved (lines 953-958 and 995-999). */
  predicate Movable(touched: Option<int>, count: int, firstMovable: int) {
    touched.Some? && 0 <= touched.value < count && touched.value >= firstMovable
  }

  /** The `.began` state (lines 951-975): a drag starts only on a card at
      or after firstMovableIndex. */
  function DragBegin(d: Drag, touched: Option<int>, count: int, firstMovable: int): (r: Drag)
    ensures r.active <==> Movable(touched, count, firstMovable)
    ensures r.active ==> r.start == touched && r.selected == touched.value
    ensures d.last.None? ==> r.last.None?
    ensures d.last.None? ==> Tracking(r, count)
  {
    if touched.Some? && 0 <= touched.value < count then
      if touched.value < firstMovable then d.(active := false)
      else d.(active := true, start := touched, selected := touched.value)
    else d.(active := false)
  }

  /** The index path the dragged card is taken from on this step: the first
      time the finger reaches another card, the start (lines 1000-1002). */
  function From(d: Drag, t: int): Option<int> {
    if d.last.None? && d.start != Some(t) then d.start else d.last
  }

  /** A `.changed` step (lines 976-1030) as written: the card under the
      finger is moved to where the dragged card was, and the dragged card's
      index path becomes the touched one. */
  function DragStepAsWritten<T>(cards: seq<T>, d: Drag, touched: Option<int>, firstMovable: int): (r: (seq<T>, Drag))
    requires Tracking(d, |cards|)
    ensures multiset(r.0) == multiset(cards)
  {
    if !d.active || !Movable(touched, |cards|, firstMovable) then (cards, d)
    else
      var t := touched.value;
      var from := From(d, t);
      if from.Some? && from.value != t then
        (Move(cards, t, from.value), d.(last := Some(t), selected := t))
      else (cards, d.(last := from))
  }

  /** A finger that skips a card on its way down leaves the dragged card
      behind the index path the layout records for it: dragging `a` of
      [a, b, c, e] straight onto `c` gives [c, a, b, e] and records index
      path 2, which holds `b`, while `a` sits at 1. */
  lemma SkippingStepLosesCard<T>(a: T, b: T, c: T, e: T)
    requires a != b
    ensures var d := DragBegin(Idle(), Some(0), 4, 0);
      var r := DragStepAsWritten([a, b, c, e], d, Some(2), 0);
      r.1.last == Some(2) && r.0[0] == c && r.0[1] == a && r.0[2] == b && r.0[2] != a
  {
    var xs := [a, b, c, e];
    var d := DragBegin(Idle(), Some(0), 4, 0);
    assert From(d, 2) == Some(0);
    MoveFollowsIndexMap(xs, 2, 0, 0);
    MoveFollowsIndexMap(xs, 2, 0, 1);
  }

  /** A `.changed` step that moves the dragged card itself onto the touched
      index path. */
  function DragStep<T>(cards: seq<T>, d: Drag, touched: Option<int>, firstMovable: int): (r: (seq<T>, Drag))
    requires Tracking(d, |cards|)
    ensures multiset(r.0) == multiset(cards) && |r.0| == |cards|
    ensures Tracking(r.1, |r.0|)
    ensures r.1.active == d.active && r.1.start == d.start
    ensures d.active && Movable(touched, |cards|, firstMovable) ==> Current(r.1) == touched
    ensures !(d.active && Movable(touched, |cards|, firstMovable)) ==> r == (cards, d)
  {
    if !d.active || !Movable(touched, |cards|, firstMovable) then (cards, d)
    else
      var t := touched.value;
      var from := From(d, t);
      if from.Some? && from.value != t then
        (Move(cards, from.value, t), d.(last := Some(t), selected := t))
      else (cards, d.(last := from))
  }

  /** The corrected step keeps the dragged card under the index path the
      drag records for it. */
  lemma DragStepKeepsCard<T>(cards: seq<T>, d: Drag, touched: Option<int>, firstMovable: int)
    requires Tracking(d, |cards|) && d.active
    ensures var r := DragStep(cards, d, touched, firstMovable);
      var c := Current(d).value;
      var c' := Current(r.1).value;
      r.1.active && 0 <= c' < |r.0| && r.0[c'] == cards[c]
  {
    if Movable(touched, |cards|, firstMovable) {
      var t := touched.value;
      if From(d, t).Some? && From(d, t).value != t {
        assert From(d, t) == Current(d);
      }
    }
  }

  /** Between neighbouring cards, the step as written and the corrected step
      agree: both swap the two cards. */
  lemma NeighbourStepsAgree<T>(cards: seq<T>, d: Drag, touched: Option<int>, firstMovable: int)
    requires Tracking(d, |cards|) && d.active && Movable(touched, |cards|, firstMovable)
    requires Current(d).value == touched.value + 1 || touched.value == Current(d).value + 1
    ensures DragStepAsWritten(cards, d, touched, firstMovable) == DragStep(cards, d, touched, firstMovable)
  {
    var t := touched.value;
    var f := Current(d).value;
    assert From(d, t) == Current(d);
    MoveNeighboursSwaps(cards, t, f);
    MoveNeighboursSwaps(cards, f, t);
    assert cards[t := cards[f]][f := cards[t]] == cards[f := cards[t]][t := cards[f]];
  }

  /** The cards and the drag after a run of `.changed` steps. */
  function DragRun<T>(cards: seq<T>, d: Drag, touches: seq<Option<int>>, firstMovable: int): (r: (seq<T>, Drag))
    requires Tracking(d, |cards|)
    ensures |r.0| == |cards| && Tracking(r.1, |r.0|) && r.1.active == d.active
    decreases |touches|
  {
    if touches == [] then (cards, d)
    else
      var (cards', d') := DragStep(cards, d, touches[0], firstMovable);
      DragRun(cards', d', touches[1..], firstMovable)
  }

  /** However the finger wanders, the corrected drag keeps the card it
      picked up under the index path it records, and keeps every card: the
      whole run is the single relocation of that card from where it was to
      where the drag now records it. */
  lemma {:induction false} DragRunKeepsCard<T>(cards: seq<T>, d: Drag, touches: seq<Option<int>>, firstMovable: int)
    requires Tracking(d, |cards|) && d.active
    ensures var r := DragRun(cards, d, touches, firstMovable);
      var c' := Current(r.1).value;
      0 <= c' < |r.0| && r.0[c'] == cards[Current(d).value]
      && multiset(r.0) == multiset(cards)
      && r.0 == Move(cards, Current(d).value, c')
    decreases |touches|
  {
    var c := Current(d).value;
    if touches == [] {
      MoveInPlace(cards, c);
    } else {
      var (cards', d') := DragStep(cards, d, touches[0], firstMovable);
      DragStepKeepsCard(cards, d, touches[0], firstMovable);
      DragStepIsMove(cards, d, touches[0], firstMovable);
      DragRunKeepsCard(cards', d', touches[1..], firstMovable);
      var c' := Current(d').value;
      var r := DragRun(cards', d', touches[1..], firstMovable);
      MoveCompose(cards, c, c', Current(r.1).value);
    }
  }

  /** One corrected step is the relocation of the dragged card from where
      it was to where the drag now records it. */
  lemma DragStepIsMove<T>(cards: seq<T>, d: Drag, touched: Option<int>, firstMovable: int)
    requires Tracking(d, |cards|) && d.active
    ensures var r := DragStep(cards, d, touched, firstMovable);
      0 <= Current(r.1).value < |cards|
      && r.0 == Move(cards, Current(d).value, Current(r.1).value)
  {
    var c := Current(d).value;
    var r := DragStep(cards, d, touched, firstMovable);
    if Movable(touched, |cards|, firstMovable) {
      var t := touched.value;
      var from := From(d, t);
      if from.Some? && from.value != t {
        assert from == Current(d);
      } else {
        assert Current(r.1) == Current(d);
        MoveInPlace(cards, c);
      }
    } else {
      MoveInPlace(cards, c);
    }
  }

  /** The `.ended` and `.cancelled` states (lines 1033-1067): an active drag
      ends, forgetting where the card was last moved. A gesture that ends
      without an active drag changes nothing. */
  function DragEnd(d: Drag): (r: Drag)
    ensures !r.active && r.start == d.start
    ensures d.active ==> r.last.None? && r.selected == -1
    ensures !d.active ==> r == d
  {
    if d.active then d.(active := false, last := None, selected := -1) else d
  }

  function DragCancel(d: Drag): (r: Drag)
    ensures !r.active && r.last.None? && r.selected == -1 && r.start == d.start
  {
    d.(active := false, last := None, selected := -1)
  }

  /** A drag that ended can begin again: ending leaves no stale last index
      path behind, so the next drag tracks its own card. */
  lemma EndedDragRestartsClean(d: Drag, touched: Option<int>, count: int, firstMovable: int)
    requires Tracking(d, count) && d.active
    ensures Tracking(DragBegin(DragEnd(d), touched, count, firstMovable), count)
    ensures Tracking(DragBegin(DragCancel(d), touched, count, firstMovable), count)
  {
  }
}
