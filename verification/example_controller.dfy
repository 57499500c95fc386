/** The example app's data source and actions
    (HFCardCollectionViewLayoutExample/HFCardCollectionViewLayoutExample/ExampleViewController.swift):
    the card list, selecting a card, moving one, adding one at the top.
    The layout's side is the corrected interaction state machine. */
module ExampleController {
  import opened Wrappers
  import opened ListOps
  import opened Interaction

  /** The example's cardArray together with the layout's interaction state. */
  datatype Screen<T> = Screen(cards: seq<T>, layout: CardState)

  /** numberOfItemsInSection (lines 35-37): one item per card. */
  function NumberOfItems<T>(s: Screen<T>): (n: nat)
    ensures n == |multiset(s.cards)|
  {
    |s.cards|
  }

  /** didSelectItemAt (lines 46-52): a tap unreveals the revealed card, or,
      with none revealed, reveals the tapped one. */
  function DidSelect<T>(s: Screen<T>, k: int, canReveal: Option<bool>, canUnreveal: Option<bool>): (r: Screen<T>)
    ensures r.cards == s.cards
    ensures Consistent(s.layout) ==> Consistent(r.layout)
    // with a card revealed, any tap puts it away unless vetoed
    ensures Consistent(s.layout) && s.layout.revealed.Some? && Allows(canUnreveal) ==>
      r.layout.revealed.None? && !r.layout.flipped
    // with none revealed, a tap reveals the tapped card, or lifts the collapse
    ensures Consistent(s.layout) && s.layout.revealed.None? && Allows(canReveal) ==>
      if s.layout.collapseAll then r.layout.revealed.None? && !r.layout.collapseAll
      else r.layout.revealed == Some(k)
  {
    if s.layout.revealed.Some? then s.(layout := UnrevealCard(s.layout, canUnreveal))
    else s.(layout := RevealCardAt(s.layout, k, canReveal))
  }

  /** Tapping a card and tapping again, nobody vetoing, leaves nothing
      revealed. */
  lemma TapTwiceRestores<T>(s: Screen<T>, k: int, j: int)
    requires Consistent(s.layout) && s.layout.revealed.None? && !s.layout.collapseAll
    ensures var r := DidSelect(DidSelect(s, k, None, None), j, None, None);
      r.layout == s.layout.(flipped := false, panInstalled := false) && r.cards == s.cards
  {
    RevealThenUnreveal(s.layout, k);
  }

  /** moveItemAt (lines 54-58): take the card out and insert it at the
      destination; Swift traps on an index outside the list. */
  method MoveItem<T>(cards: seq<T>, src: int, dst: int) returns (r: seq<T>)
    requires 0 <= src < |cards| && 0 <= dst < |cards|
    ensures |r| == |cards| && multiset(r) == multiset(cards)
    ensures forall j :: 0 <= j < |cards| ==> r[MovedIndex(j, src, dst)] == cards[j]
  {
    var temp := cards[src];
    r := RemoveAt(cards, src);
    r := InsertAt(r, dst, temp);
    forall j | 0 <= j < |cards|
      ensures r[MovedIndex(j, src, dst)] == cards[j]
    {
      MoveFollowsIndexMap(cards, src, dst, j);
    }
  }

  /** addCardAction (lines 66-75): a new card goes on top; the first card of
      an empty list is revealed at once. */
  function AddCard<T>(s: Screen<T>, x: T, canReveal: Option<bool>): (r: Screen<T>)
    ensures r.cards == [x] + s.cards && NumberOfItems(r) == NumberOfItems(s) + 1
    ensures s.cards == [] ==> r.layout == RevealCardAt(s.layout, 0, canReveal)
    ensures s.cards != [] ==> r.layout == s.layout
  {
    var cards := InsertAt(s.cards, 0, x);
    if |cards| == 1 then Screen(cards, RevealCardAt(s.layout, 0, canReveal))
    else s.(cards := cards)
  }

  /** The first card added to an empty list ends up revealed, unless all
      cards are collapsed, when the reveal only lifts the collapse. */
  lemma FirstCardIsRevealed<T>(s: Screen<T>, x: T)
    requires s.cards == [] && Consistent(s.layout) && s.layout.revealed.None?
    ensures var r := AddCard(s, x, None);
      NumberOfItems(r) == 1 &&
      if s.layout.collapseAll then !r.layout.collapseAll && r.layout.revealed.None?
      else r.layout.revealed == Some(0) && r.cards[0] == x
  {
    if !s.layout.collapseAll {
      RevealShowsCard(s.layout, 0, None);
    }
  }
}
