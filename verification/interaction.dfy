/** The reveal / unreveal / flip / collapse state machine of the layout
    (Source/HFCardCollectionViewLayout.swift lines 232-249, 287-433, 889-904
    and 1163-1176). Every animation completion is taken as an immediate
    step. The revealed card's cell is taken to exist whenever a card is
    revealed: the revealed branch of the generator places it just inside the
    top of the viewport. */
module Interaction {
  import opened Wrappers
  import opened ListOps
  import opened Geometry

  /** The interaction state: revealedIndexPath (a flat index),
      revealedCardIsFlipped, collapseAllCards, collectionViewTemporaryTop, and
      whether the revealed card's pan gesture recognizer is installed. */
  datatype CardState = CardState(
    revealed: Option<int>,
    flipped: bool,
    collapseAll: bool,
    temporaryTop: real,
    panInstalled: bool)

  /** A card is only ever flipped while it is revealed. */
  predicate Consistent(s: CardState) {
    s.flipped ==> s.revealed.Some?
  }

  /** The state before anything happens. */
  function Initial(): (s: CardState)
    ensures Consistent(s)
  {
    CardState(None, false, false, 0.0, false)
  }

  /** flipRevealedCardBack (lines 389-412): the state after the flip back,
      and whether the completion ran. A flipped card without a revealed cell
      never completes, so whatever was to follow is dropped. */
  function FlipBack(s: CardState): (r: (CardState, bool))
    ensures r.0 == s.(flipped := r.0.flipped)
    ensures r.1 ==> !r.0.flipped
  {
    if !s.flipped then (s, true)
    else if s.revealed.Some? then (s.(flipped := false), true)
    else (s, false)
  }

  /** In a consistent state the flip back always completes. */
  lemma FlipBackCompletes(s: CardState)
    requires Consistent(s)
    ensures FlipBack(s).1 && FlipBack(s).0 == s.(flipped := false)
  {
  }

  /** flipRevealedCard(toView:) (lines 360-384): a revealed card that is not
      flipped yet is flipped. */
  function FlipRevealedCard(s: CardState): (r: CardState)
    ensures r == s.(flipped := r.flipped)
    ensures r.flipped <==> s.flipped || s.revealed.Some?
    ensures Consistent(s) ==> Consistent(r)
  {
    if s.flipped then s
    else if s.revealed.Some? then s.(flipped := true)
    else s
  }

  /** Flipping a revealed card and flipping it back leaves the state as it
      was. */
  lemma FlipRoundTrip(s: CardState)
    requires s.revealed.Some? && !s.flipped
    ensures FlipBack(FlipRevealedCard(s)) == (s, true)
  {
  }

  /** deinitializeRevealedCard (lines 899-903): remove the pan recognizer
      from the revealed card's cell; without a revealed card there is no cell
      to remove it from. */
  function Deinitialize(s: CardState): (r: CardState)
    ensures r == s.(panInstalled := r.panInstalled)
    ensures r.panInstalled <==> s.panInstalled && s.revealed.None?
  {
    if s.revealed.Some? then s.(panInstalled := false) else s
  }

  /** collapseAllCards' observer (lines 232-249): flip the revealed card
      back, then forget it. The pan recognizer is left as it is. */
  function SetCollapseAll(s: CardState, v: bool): (r: CardState)
    ensures r.collapseAll == v && r.temporaryTop == s.temporaryTop && r.panInstalled == s.panInstalled
    ensures Consistent(s) ==> r.revealed.None? && !r.flipped
  {
    var (t, done) := FlipBack(s.(collapseAll := v));
    if done then t.(revealed := None) else t
  }

  /** The reveal closure of revealCardAt (lines 300-310), behind the flip
      back of lines 312-319: reveal `k` and, once the reload completes,
      install the pan recognizer on its cell. */
  function Proceed(s: CardState, k: int): (r: CardState)
    ensures r.collapseAll == s.collapseAll && r.temporaryTop == s.temporaryTop
    // the flip back completes in a consistent state, and the card is shown
    // front side up with its pan recognizer
    ensures Consistent(s) ==> r == s.(revealed := Some(k), flipped := false, panInstalled := true)
    // a flip with nothing revealed never completes, and nothing happens
    ensures !Consistent(s) ==> r == s
  {
    var (t, done) := FlipBack(s);
    if done then t.(revealed := Some(k), panInstalled := true) else t
  }

  /** revealCardAt as written (lines 287-320). A veto forgets the revealed
      card before deinitializeRevealedCard runs, which then finds no cell:
      the pan recognizer stays, and so does a flip. */
  function RevealCardAtAsWritten(s: CardState, k: int, canReveal: Option<bool>): (r: CardState)
    ensures r.temporaryTop == s.temporaryTop
    ensures s.revealed.None? && s.collapseAll ==> !r.collapseAll
    // with nothing revealed and the cards collapsed, the call only lifts the
    // collapse
    ensures s.revealed.None? && s.collapseAll ==> r == s.(collapseAll := false)
    ensures !(s.revealed.None? && s.collapseAll) && !Allows(canReveal) ==>
      r == s.(revealed := None)
  {
    if s.revealed.None? && s.collapseAll then SetCollapseAll(s, false)
    else if !Allows(canReveal) then Deinitialize(s.(revealed := None))
    else Proceed(s, k)
  }

  /** Vetoing a reveal while a flipped card is revealed leaves a flip with
      nothing revealed, the pan recognizer still installed; from then on no
      card can be revealed, since every reveal first waits for a flip back
      that never completes. */
  lemma VetoStrandsFlip(k: int, j: int)
    ensures var s := CardState(Some(k), true, false, 0.0, true);
      var t := RevealCardAtAsWritten(s, j, Some(false));
      && t == CardState(None, true, false, 0.0, true)
      && !Consistent(t)
      && (forall i :: RevealCardAtAsWritten(t, i, None) == t)
  {
  }

  /** revealCardAt with the veto branch tearing the revealed card down the
      way unrevealCard does: flip it back, remove its pan recognizer, then
      forget it. */
  function RevealCardAt(s: CardState, k: int, canReveal: Option<bool>): (r: CardState)
    ensures r.temporaryTop == s.temporaryTop
    ensures s.revealed.None? && s.collapseAll ==> !r.collapseAll
    ensures s.revealed.None? && s.collapseAll ==> r == s.(collapseAll := false)
    ensures Consistent(s) ==> Consistent(r)
    ensures Consistent(s) && !(s.revealed.None? && s.collapseAll) && !Allows(canReveal) ==>
      r.revealed.None? && !r.flipped && r.collapseAll == s.collapseAll &&
      (r.panInstalled <==> s.panInstalled && s.revealed.None?)
  {
    if s.revealed.None? && s.collapseAll then SetCollapseAll(s, false)
    else if !Allows(canReveal) then UnrevealCard(s, None)
    else Proceed(s, k)
  }

  /** Unless the reveal only lifts the collapse or is vetoed, the card is
      revealed, shown front side up, with its pan recognizer installed. */
  lemma RevealShowsCard(s: CardState, k: int, canReveal: Option<bool>)
    requires Consistent(s) && Allows(canReveal) && !(s.revealed.None? && s.collapseAll)
    ensures var r := RevealCardAt(s, k, canReveal);
      r == s.(revealed := Some(k), flipped := false, panInstalled := true)
  {
    FlipBackCompletes(s);
  }

  /** Wherever the source's veto branch finds nothing revealed, and so
      nothing to tear down, the corrected reveal agrees with it. */
  lemma RevealAgreesWhenNothingRevealed(s: CardState, k: int, canReveal: Option<bool>)
    requires s.revealed.None? && !s.flipped
    ensures RevealCardAt(s, k, canReveal) == RevealCardAtAsWritten(s, k, canReveal)
  {
  }

  /** unrevealCard (lines 325-353): nothing happens without a revealed card
      or on a veto; otherwise flip back, remove the pan recognizer and
      forget the card. */
  function UnrevealCard(s: CardState, canUnreveal: Option<bool>): (r: CardState)
    ensures r.collapseAll == s.collapseAll && r.temporaryTop == s.temporaryTop
    ensures s.revealed.None? || !Allows(canUnreveal) ==> r == s
    ensures Consistent(s) ==> Consistent(r)
    // an unreveal nobody vetoes leaves nothing revealed, flipped or
    // listening for the pan
    ensures Consistent(s) && s.revealed.Some? && Allows(canUnreveal) ==>
      r == s.(revealed := None, flipped := false, panInstalled := false)
  {
    if s.revealed.None? || !Allows(canUnreveal) then s
    else
      var (t, done) := FlipBack(s);
      if done then Deinitialize(t).(revealed := None) else t
  }

  /** Revealing a card and unrevealing it again returns to a state with
      nothing revealed. */
  lemma RevealThenUnreveal(s: CardState, k: int)
    requires Consistent(s) && s.revealed.None? && !s.collapseAll
    ensures UnrevealCard(RevealCardAt(s, k, None), None) == s.(flipped := false, panInstalled := false)
  {
    RevealShowsCard(s, k, None);
  }

  /** One step of willInsert as written (lines 414-421): an insertion at or
      above the revealed card pushes the content down one head height, and
      the revealed index path becomes the inserted one. */
  function InsertStepAsWritten(s: CardState, ip: int, headHeight: real): (r: CardState)
    ensures r.flipped == s.flipped && r.collapseAll == s.collapseAll && r.panInstalled == s.panInstalled
    ensures s.revealed.Some? && ip <= s.revealed.value ==>
      r.revealed == Some(ip) && r.temporaryTop == s.temporaryTop + headHeight
    ensures !(s.revealed.Some? && ip <= s.revealed.value) ==> r == s
  {
    if s.revealed.Some? && ip <= s.revealed.value then
      s.(temporaryTop := s.temporaryTop + headHeight, revealed := Some(ip))
    else s
  }

  /** willInsert(indexPaths:) as written: the revealed index path is kept
      or becomes one of the inserted index paths, never the shifted card's. */
  function WillInsertAsWritten(s: CardState, paths: seq<int>, headHeight: real): (r: CardState)
    ensures r.revealed.Some? <==> s.revealed.Some?
    ensures r.revealed != s.revealed ==> r.revealed.value in paths
    ensures Consistent(s) ==> Consistent(r)
    decreases |paths|
  {
    if paths == [] then s
    else WillInsertAsWritten(InsertStepAsWritten(s, paths[0], headHeight), paths[1..], headHeight)
  }

  /** With card 3 of four revealed, inserting a card at the top makes the
      layout reveal the new card 0, while the revealed card moved to 4. */
  lemma InsertLosesRevealedCard<T>(a: T, b: T, c: T, d: T, e: T)
    requires e != d
    ensures var s := WillInsertAsWritten(CardState(Some(3), false, false, 0.0, true), [0], 80.0);
      var cards := InsertAt([a, b, c, d], 0, e);
      s.revealed == Some(0) && cards[s.revealed.value] != d && cards[4] == d
  {
  }

  /** One step of willInsert with the revealed index path following its card
      down by one. */
  function InsertStep(s: CardState, ip: int, headHeight: real): (r: CardState)
    ensures r.flipped == s.flipped && r.collapseAll == s.collapseAll && r.panInstalled == s.panInstalled
    ensures r.revealed.Some? <==> s.revealed.Some?
    ensures s.revealed.Some? && ip <= s.revealed.value ==>
      r.revealed == Some(s.revealed.value + 1) && r.temporaryTop == s.temporaryTop + headHeight
    ensures !(s.revealed.Some? && ip <= s.revealed.value) ==> r == s
  {
    if s.revealed.Some? && ip <= s.revealed.value then
      s.(temporaryTop := s.temporaryTop + headHeight, revealed := Some(s.revealed.value + 1))
    else s
  }

  /** willInsert(indexPaths:), corrected. */
  function WillInsert(s: CardState, paths: seq<int>, headHeight: real): (r: CardState)
    ensures Consistent(s) ==> Consistent(r)
    ensures r.revealed.Some? <==> s.revealed.Some?
    decreases |paths|
  {
    if paths == [] then s
    else WillInsert(InsertStep(s, paths[0], headHeight), paths[1..], headHeight)
  }

  /** Each index path is a valid insertion point once the ones before it
      are inserted. */
  predicate Insertable(count: int, paths: seq<int>) {
    forall i :: 0 <= i < |paths| ==> 0 <= paths[i] <= count + i
  }

  /** The cards after inserting `items` at `paths`, one after the other. */
  function InsertAll<T>(cards: seq<T>, paths: seq<int>, items: seq<T>): (r: seq<T>)
    requires |paths| == |items| && Insertable(|cards|, paths)
    ensures |r| == |cards| + |paths|
    decreases |paths|
  {
    if paths == [] then cards
    else InsertAll(InsertAt(cards, paths[0], items[0]), paths[1..], items[1..])
  }

  /** Whatever is inserted where (and before the layout's next pass), the
      corrected revealed index path still names the card that was revealed. */
  lemma {:induction false} WillInsertTracksCard<T>(s: CardState, cards: seq<T>, paths: seq<int>, items: seq<T>, h: real)
    requires |paths| == |items| && Insertable(|cards|, paths)
    requires s.revealed.Some? && 0 <= s.revealed.value < |cards|
    ensures var r := WillInsert(s, paths, h);
      var after := InsertAll(cards, paths, items);
      r.revealed.Some? && 0 <= r.revealed.value < |after| && after[r.revealed.value] == cards[s.revealed.value]
    decreases |paths|
  {
    if paths != [] {
      var k := s.revealed.value;
      var t := InsertStep(s, paths[0], h);
      var next := InsertAt(cards, paths[0], items[0]);
      assert next[t.revealed.value] == cards[k];
      assert Insertable(|next|, paths[1..]) by {
        forall i | 0 <= i < |paths[1..]| ensures 0 <= paths[1..][i] <= |next| + i {
          assert paths[1..][i] == paths[i + 1];
        }
      }
      WillInsertTracksCard(t, next, paths[1..], items[1..], h);
    }
  }

  /** One step of willDelete as written (lines 423-433): deleting the
      revealed card unreveals it; a deletion at or above a card still
      revealed pulls the content up one head height, and the revealed index
      path becomes the deleted one. */
  function DeleteStepAsWritten(s: CardState, ip: int, headHeight: real, canUnreveal: Option<bool>): (r: CardState)
    ensures Consistent(s) ==> Consistent(r)
    ensures s.revealed.Some? && ip < s.revealed.value ==>
      r.revealed == Some(ip) && r.temporaryTop == s.temporaryTop - headHeight
    ensures s.revealed.Some? && ip > s.revealed.value ==> r == s
  {
    var t := if s.revealed == Some(ip) then UnrevealCard(s, canUnreveal) else s;
    if t.revealed.Some? && ip <= t.revealed.value then
      t.(temporaryTop := t.temporaryTop - headHeight, revealed := Some(ip))
    else t
  }

  /** With card 3 of four revealed, deleting card 0 makes the layout reveal
      card 0, formerly card 1, while the revealed card moved to 2. */
  lemma DeleteLosesRevealedCard<T>(a: T, b: T, c: T, d: T)
    requires b != d
    ensures var s := DeleteStepAsWritten(CardState(Some(3), false, false, 0.0, true), 0, 80.0, None);
      var cards := RemoveAt([a, b, c, d], 0);
      s.revealed == Some(0) && cards[s.revealed.value] != d && cards[2] == d
  {
  }

  /** One step of willDelete with the revealed index path following its card
      up by one. A revealed card whose unreveal is vetoed keeps its index
      path, which then names the card after it, as in the source. */
  function DeleteStep(s: CardState, ip: int, headHeight: real, canUnreveal: Option<bool>): (r: CardState)
    ensures Consistent(s) ==> Consistent(r)
    ensures s.revealed.Some? && ip < s.revealed.value ==>
      r.revealed == Some(s.revealed.value - 1) && r.temporaryTop == s.temporaryTop - headHeight
    ensures s.revealed.Some? && ip > s.revealed.value ==> r == s
  {
    var t := if s.revealed == Some(ip) then UnrevealCard(s, canUnreveal) else s;
    if t.revealed.Some? && ip <= t.revealed.value then
      t.(temporaryTop := t.temporaryTop - headHeight,
         revealed := Some(if ip < t.revealed.value then t.revealed.value - 1 else t.revealed.value))
    else t
  }

  /** Deleting the revealed card unreveals it unless the unreveal is
      vetoed. */
  lemma DeletingRevealedCardUnreveals(s: CardState, h: real, canUnreveal: Option<bool>)
    requires Consistent(s) && s.revealed.Some? && Allows(canUnreveal)
    ensures DeleteStep(s, s.revealed.value, h, canUnreveal).revealed.None?
  {
  }

  /** willDelete(indexPaths:), corrected. The index paths are taken one
      after the other, each numbered after the deletions before it. */
  function WillDelete(s: CardState, paths: seq<int>, headHeight: real, canUnreveal: Option<bool>): (r: CardState)
    ensures Consistent(s) ==> Consistent(r)
    decreases |paths|
  {
    if paths == [] then s
    else WillDelete(DeleteStep(s, paths[0], headHeight, canUnreveal), paths[1..], headHeight, canUnreveal)
  }

  /** Deleting a card other than the revealed one keeps the revealed index
      path on the revealed card. */
  lemma DeleteStepTracksCard<T>(s: CardState, cards: seq<T>, ip: int, h: real, canUnreveal: Option<bool>)
    requires s.revealed.Some? && 0 <= s.revealed.value < |cards| && 0 <= ip < |cards| && ip != s.revealed.value
    ensures var r := DeleteStep(s, ip, h, canUnreveal);
      var after := RemoveAt(cards, ip);
      r.revealed.Some? && 0 <= r.revealed.value < |after| && after[r.revealed.value] == cards[s.revealed.value]
  {
  }

  /** Each index path names an existing card once the ones before it are
      deleted. */
  predicate Removable(count: int, paths: seq<int>) {
    forall i :: 0 <= i < |paths| ==> 0 <= paths[i] < count - i
  }

  /** The cards after deleting the ones at `paths`, one after the other. */
  function RemoveAll<T>(cards: seq<T>, paths: seq<int>): (r: seq<T>)
    requires Removable(|cards|, paths)
    ensures |r| == |cards| - |paths|
    decreases |paths|
  {
    if paths == [] then cards
    else
      var next := RemoveAt(cards, paths[0]);
      RemovableRest(|cards|, paths);
      RemoveAll(next, paths[1..])
  }

  lemma RemovableRest(count: int, paths: seq<int>)
    requires paths != [] && Removable(count, paths)
    ensures Removable(count - 1, paths[1..])
  {
    forall i | 0 <= i < |paths[1..]| ensures 0 <= paths[1..][i] < count - 1 - i {
      assert paths[1..][i] == paths[i + 1];
    }
  }

  /** Whether deleting `paths`, one after the other, spares the card now at
      index `k`. */
  predicate Spares(k: int, paths: seq<int>)
    decreases |paths|
  {
    paths == [] || (paths[0] != k && Spares(if paths[0] < k then k - 1 else k, paths[1..]))
  }

  /** Whatever other cards are deleted, the corrected revealed index path
      still names the card that was revealed. */
  lemma {:induction false} WillDeleteTracksCard<T>(s: CardState, cards: seq<T>, paths: seq<int>, h: real,
                                                   canUnreveal: Option<bool>)
    requires Removable(|cards|, paths)
    requires s.revealed.Some? && 0 <= s.revealed.value < |cards| && Spares(s.revealed.value, paths)
    ensures var r := WillDelete(s, paths, h, canUnreveal);
      var after := RemoveAll(cards, paths);
      r.revealed.Some? && 0 <= r.revealed.value < |after| && after[r.revealed.value] == cards[s.revealed.value]
    decreases |paths|
  {
    if paths != [] {
      var k := s.revealed.value;
      var t := DeleteStep(s, paths[0], h, canUnreveal);
      var next := RemoveAt(cards, paths[0]);
      DeleteStepTracksCard(s, cards, paths[0], h, canUnreveal);
      RemovableRest(|cards|, paths);
      assert t.revealed == Some(if paths[0] < k then k - 1 else k);
      WillDeleteTracksCard(t, next, paths[1..], h, canUnreveal);
    }
  }

  /** With nothing revealed, deleting cards leaves the state as it is. */
  lemma {:induction false} DeleteLeavesUnrevealed(s: CardState, paths: seq<int>, h: real, canUnreveal: Option<bool>)
    requires s.revealed.None?
    ensures WillDelete(s, paths, h, canUnreveal) == s
    decreases |paths|
  {
    if paths != [] {
      DeleteLeavesUnrevealed(s, paths[1..], h, canUnreveal);
    }
  }

  /** Deleting the revealed card among others unreveals it, unless the
      unreveal is vetoed. */
  lemma {:induction false} WillDeleteOfRevealedUnreveals(s: CardState, paths: seq<int>, h: real,
                                                         canUnreveal: Option<bool>)
    requires Consistent(s) && s.revealed.Some? && Allows(canUnreveal) && !Spares(s.revealed.value, paths)
    ensures WillDelete(s, paths, h, canUnreveal).revealed.None?
    decreases |paths|
  {
    var t := DeleteStep(s, paths[0], h, canUnreveal);
    if paths[0] == s.revealed.value {
      DeletingRevealedCardUnreveals(s, h, canUnreveal);
      DeleteLeavesUnrevealed(t, paths[1..], h, canUnreveal);
    } else {
      WillDeleteOfRevealedUnreveals(t, paths[1..], h, canUnreveal);
    }
  }

  /** The gesture recognizers the layout is the delegate of. */
  datatype Gesture =
    | MovingCard                              // the long press that drags cards
    | Tap                                     // the tap that selects a card
    | RevealedPan(vx: real, vy: real)         // the revealed card's pan, with its velocity
    | Other

  /** gestureRecognizerShouldBegin (lines 1163-1176). */
  function GestureShouldBegin(s: CardState, g: Gesture): (b: bool)
    // while a card is revealed, cards can neither be dragged nor tapped
    ensures (g == MovingCard || g == Tap) ==> (b <==> s.revealed.None?)
    // the revealed card's pan only starts on a mostly vertical movement
    ensures g.RevealedPan? ==> (b <==> RealAbs(g.vy) > RealAbs(g.vx))
    ensures g == Other ==> b
  {
    if (g == MovingCard || g == Tap) && s.revealed.Some? then false
    else if g.RevealedPan? then RealAbs(g.vy) > RealAbs(g.vx)
    else true
  }

  /** A card left revealed by a reveal blocks dragging and tapping until an
      unreveal nobody vetoes puts it away, after which both may start again. */
  lemma RevealBlocksGestures(s: CardState, k: int, canReveal: Option<bool>, canUnreveal: Option<bool>)
    requires Consistent(s) && Allows(canReveal) && !(s.revealed.None? && s.collapseAll)
    ensures var r := RevealCardAt(s, k, canReveal);
      && !GestureShouldBegin(r, MovingCard) && !GestureShouldBegin(r, Tap)
      && (Allows(canUnreveal) ==>
            var u := UnrevealCard(r, canUnreveal);
            GestureShouldBegin(u, MovingCard) && GestureShouldBegin(u, Tap))
      && (!Allows(canUnreveal) ==>
            var u := UnrevealCard(r, canUnreveal);
            !GestureShouldBegin(u, MovingCard) && !GestureShouldBegin(u, Tap))
  {
    RevealShowsCard(s, k, canReveal);
  }

  /** The events of this state machine, with the delegate's answers. */
  datatype Event =
    | Reveal(index: int, canReveal: Option<bool>)
    | Unreveal(canUnreveal: Option<bool>)
    | Flip
    | FlipBackEvent
    | Collapse(value: bool)
    | Insert(paths: seq<int>, headHeight: real)
    | Delete(paths: seq<int>, headHeight: real, canUnreveal: Option<bool>)

  function Step(s: CardState, e: Event): (r: CardState)
    ensures Consistent(s) ==> Consistent(r)
  {
    match e
    case Reveal(k, v) => RevealCardAt(s, k, v)
    case Unreveal(v) => UnrevealCard(s, v)
    case Flip => FlipRevealedCard(s)
    case FlipBackEvent => FlipBack(s).0
    case Collapse(v) => SetCollapseAll(s, v)
    case Insert(paths, h) => WillInsert(s, paths, h)
    case Delete(paths, h, v) => WillDelete(s, paths, h, v)
  }

  function Run(s: CardState, events: seq<Event>): CardState
    decreases |events|
  {
    if events == [] then s else Run(Step(s, events[0]), events[1..])
  }

  /** Whatever happens, a card is only flipped while it is revealed, so a
      flip back always completes and a later reveal is never blocked. */
  lemma {:induction false} RunStaysConsistent(s: CardState, events: seq<Event>)
    requires Consistent(s)
    ensures Consistent(Run(s, events))
    decreases |events|
  {
    if events != [] {
      RunStaysConsistent(Step(s, events[0]), events[1..]);
    }
  }
}
