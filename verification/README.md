# HFCardCollectionViewLayout in Dafny

A model of HFCardCollectionViewLayout. This is a UICollectionView layout that shows a wallet of cards:

- The cards are stacked so that only their heads show.
- One card can be revealed at full size. The other cards then collapse into a small scaled stack at the bottom of the screen.
- A long press drags a card to a new position.
- A drag near an edge scrolls the list automatically.
- The example app's view controller drives the layout. It keeps the card list, reveals or unreveals a card on a tap, and adds cards at the top.

## Modules

| file | module | what it models |
|---|---|---|
| `wrappers.dfy` | `Wrappers` | `Option`, and `Allows`: an absent delegate answer counts as "yes" |
| `geometry.dfy` | `Geometry` | sizes and rectangles, Swift's `Int(x)` (truncation toward zero), `truncatingRemainder`, `rint`, and small real-arithmetic facts |
| `config.dfy` | `LayoutConfig` | the public properties and their `didSet` clamps; which effect each assignment asks for (none, invalidate the layout, or reload the data) |
| `bottom_stack.dfy` | `BottomStack` | `generateBottomIndexes`: the window of cards around the revealed card, and the collapsed-all range |
| `card_metrics.dfy` | `CardMetrics` | `scalePerCard`, `bottomCardCount`, `calculateCardScale`, `calculateCardHeadHeight`, `collectionViewContentSize` |
| `attributes.dfy` | `Attributes` | one pass of `generateCardCollectionViewLayoutAttributes`: which items are reused, the selected bottom stack, and the three branches (stacked, revealed, bottom) |
| `scrolling.dfy` | `Scrolling` | `targetContentOffset` (the two snaps), the choice of autoscroll direction, the speed law, and the autoscroll tick |
| `interaction.dfy` | `Interaction` | reveal, unreveal, flip, collapse-all, `willInsert`, `willDelete`, and `gestureRecognizerShouldBegin` as a state machine |
| `drag_reorder.dfy` | `DragReorder` | the long-press reorder: the start guard, the move step, end and cancel |
| `list_ops.dfy` | `ListOps` | Swift's `Array.insert(_:at:)`, `Array.remove(at:)`, and the remove-then-insert move |
| `example_controller.dfy` | `ExampleController` | the example app: `numberOfItems` (`NumberOfItems`), `didSelect`, `moveItemAt`, `addCardAction` |

## Conventions

- **Numbers.** A `CGFloat` is a `real`. `Int(x)` is `Geometry.Trunc` and `rint` is `Geometry.RoundHalfEven`.
- **Index paths.** There is one section, so an index path is the item's flat index. That index is also its `zIndex`.
- **Delegate answers** (`canRevealCardAt`, `canUnrevealCardAt`) are `Option<bool>`.
- **Animations and reloads.** Every animation completion and every `performBatchUpdates` completion is taken as an immediate step.
- **Assumption about the revealed cell.** Whenever a card is revealed, its cell is assumed to exist. The revealed branch places that cell just inside the top of the viewport.
- **Inputs the layout reads.** A layout pass (`Attributes.Pass`) takes everything else it reads as input:
  - the configuration and the scroll view's geometry;
  - each item's size, which the delegate supplies;
  - the revealed index path, `collapseAllCards`, `collectionViewTemporaryTop`, and the index of the card being dragged.

## Model

| member | source | states |
|---|---|---|
| `Geometry.Trunc` | Source/HFCardCollectionViewLayout.swift:791 | `Int(x)` lies within one of `x` and on the same side of zero |
| `Geometry.TruncatingRemainder` | Source/HFCardCollectionViewLayout.swift:632 | `x` equals the truncated quotient times `d` plus the remainder; for `x >= 0` the remainder is in `[0, d)` |
| `Geometry.RoundHalfEven` | Source/HFCardCollectionViewLayout.swift:1112 | `rint` is within one half of `x`, and a tie goes to the even neighbour |
| `LayoutConfig.Default` | Source/HFCardCollectionViewLayout.swift:31-227 | the initial property values satisfy every range the observers enforce |
| `LayoutConfig.ClampBelow` | Source/HFCardCollectionViewLayout.swift:38-46 | a value below the bound is replaced by the bound and asks for no relayout; any other value is kept and asks for the property's own effect |
| `LayoutConfig.SetCardHeadHeight` | Source/HFCardCollectionViewLayout.swift:38-46 | the head height becomes at least 20; a value of 20 or more is kept and invalidates the layout; a smaller one becomes 20 with no relayout; no other property changes |
| `LayoutConfig.SetCardMaximumHeight` | Source/HFCardCollectionViewLayout.swift:81-89 | the maximum height is never negative; a negative value becomes 0 with no relayout |
| `LayoutConfig.SetStackedCount` | Source/HFCardCollectionViewLayout.swift:96-108 | the stacked count stays in 0..10; an accepted value reloads the data; a clamped one triggers nothing |
| `LayoutConfig.SetMinimumScale` | Source/HFCardCollectionViewLayout.swift:122-130 | the minimum scale is never negative |
| `LayoutConfig.SetMaximumScale` | Source/HFCardCollectionViewLayout.swift:135-143 | the maximum scale is at most 1, with no lower bound |
| `LayoutConfig.SetLookoutMargin` | Source/HFCardCollectionViewLayout.swift:150-162 | the lookout margin stays in 0..20 |
| `LayoutConfig.SetSpaceAtTop` | Source/HFCardCollectionViewLayout.swift:167-175 | the background space is never negative |
| `LayoutConfig.SetScrollArea` | Source/HFCardCollectionViewLayout.swift:194-213 | each scroll area stores `max(v, 0)` and never asks for a relayout |
| `LayoutConfig.Assign` | Source/HFCardCollectionViewLayout.swift:31-227 | every property assignment keeps a valid configuration valid |
| `LayoutConfig.AssignStoredIsFixpoint` | Source/HFCardCollectionViewLayout.swift:38-213 | assigning again the value an observer stored changes nothing, so the clamps are idempotent |
| `LayoutConfig.AssignAllKeepsValid` | Source/HFCardCollectionViewLayout.swift:31-227 | any sequence of assignments, starting from a valid configuration, ends valid |
| `BottomStack.Range` | Source/HFCardCollectionViewLayout.swift:754 | `Array(lo ... hi)` lists exactly `lo..hi` in increasing order |
| `BottomStack.Without` | Source/HFCardCollectionViewLayout.swift:785 | the filter keeps the order and drops exactly the revealed index |
| `BottomStack.RevealedWindow` | Source/HFCardCollectionViewLayout.swift:758-782 | for an existing revealed card, the window contains it, lies within the items, and spans `min(s, n - 1)` further slots |
| `BottomStack.RevealedWindowIsCentered` | Source/HFCardCollectionViewLayout.swift:758-782 | the source's four-way window computation equals a closed form: `s + 1` consecutive slots starting `s/2` (plus one if `s` is odd) above the revealed card, pushed inside the list |
| `BottomStack.RevealedWindowBounds` | Source/HFCardCollectionViewLayout.swift:758-782 | the window contains the revealed index and spans `min(s, n - 1)` other slots, so the range cannot trap |
| `BottomStack.RevealedSelection` | Source/HFCardCollectionViewLayout.swift:758-785 | the bottom indexes are increasing, lie within the items, exclude the revealed card and number `min(s, n - 1)`; membership is exactly "in the window and not revealed" |
| `BottomStack.RevealedRankCountsCardsAbove` | Source/HFCardCollectionViewLayout.swift:783 | the recorded `cardCollectionBottomCardsRevealedIndex` is the number of bottom cards above the revealed card |
| `BottomStack.CollapsedIndexesAsWritten` | Source/HFCardCollectionViewLayout.swift:752-754 | the collapsed-all range as written; when defined it is increasing and non-empty |
| `BottomStack.CollapsedIndexesAsWrittenTraps` | Source/HFCardCollectionViewLayout.swift:752-754 | with at most one stacked card and the list scrolled past its first card, the range traps |
| `BottomStack.CollapsedIndexes` | Source/HFCardCollectionViewLayout.swift:752-754 | the corrected collapsed selection: consecutive indexes from the top card, `1 + max(0, -start, s - 2)` of them, so the top card alone where the source traps |
| `BottomStack.CollapsedIndexesAgree` | Source/HFCardCollectionViewLayout.swift:752-754 | the source's range traps exactly when the top card is past the first and `s <= 1`; on every other input it equals the corrected selection; where it traps, the corrected selection is the top card alone |
| `BottomStack.BottomIndexes` | Source/HFCardCollectionViewLayout.swift:747-786 | there is no stack when nothing is revealed and nothing is collapsed; when collapsed, the stack is the consecutive cards from the top one, equal to the source's range wherever that is defined, `max(1, s - 1)` of them from a top card at or after 0 and `1 + max(-top, s - 2)` from a negative top; with a card revealed the stack excludes it and holds `min(s, n - 1)` existing items; the stack is always increasing |
| `CardMetrics.EffectiveMinimumScale` | Source/HFCardCollectionViewLayout.swift:521-522 | the minimum scale used is capped to the maximum, so the scale range is never inverted |
| `CardMetrics.ScalePerCard` | Source/HFCardCollectionViewLayout.swift:520-524 | the per-card step is non-negative, and `s` steps span the scale range exactly |
| `CardMetrics.BottomCardCount` | Source/HFCardCollectionViewLayout.swift:508-510 | the count is the least of the item count, the configured count and the size of the selected set |
| `CardMetrics.StackSpansScaleRange` | Source/HFCardCollectionViewLayout.swift:520-524 | a full stack of steps goes from the maximum scale down to the effective minimum |
| `CardMetrics.CardScale` | Source/HFCardCollectionViewLayout.swift:870-877 | a card's scale is at most 1; it is 1 when scaling is off; the front card of the stack has the maximum scale (capped at 1) |
| `CardMetrics.CardScaleAsProduct` | Source/HFCardCollectionViewLayout.swift:870-877 | the model's stepwise scale equals the source's real-number product formula |
| `CardMetrics.CardScaleMonotone` | Source/HFCardCollectionViewLayout.swift:870-877 | scales never decrease from the back of the stack to the front |
| `CardMetrics.CardScaleAtLeastMinimum` | Source/HFCardCollectionViewLayout.swift:870-877 | no card in a stack of a valid configuration is drawn below the effective minimum scale |
| `CardMetrics.HeadHeight` | Source/HFCardCollectionViewLayout.swift:879-885 | the head height is at least the configured one; when expanding, `n` heads cover the available height, exactly so when the head grew |
| `CardMetrics.ContentSize` | Source/HFCardCollectionViewLayout.swift:557-567 | the width is the frame less the side insets; the last card's full height and the bottom space follow the background space and `n - 1` heads; with at least one card the content holds the last card and both spaces (its resting stack fills it exactly: `Attributes.RestingStackFillsContent`) |
| `Attributes.CellSize` | Source/HFCardCollectionViewLayout.swift:453-462 | the delegate's size if it gives one; otherwise the content width and the delegate's height or the default height |
| `Attributes.CellSizeIgnoresMaximumHeight` | Source/HFCardCollectionViewLayout.swift:453-462 | the cell size is the same whatever `cardMaximumHeight` is |
| `Attributes.TopCardIndex` | Source/HFCardCollectionViewLayout.swift:791 | scrolled past the background space, it is the card whose slot covers the top edge of the viewport |
| `Attributes.StackedAttr` | Source/HFCardCollectionViewLayout.swift:788-830 | stacked branch: see below |
| `Attributes.StackedCardsStopAtTop` | Source/HFCardCollectionViewLayout.swift:800-818 | with cards stopping at the top, no shown card is drawn above the top of the viewport, and the shown cards up to the top card are pinned to it |
| `Attributes.StretchSpreadsCards` | Source/HFCardCollectionViewLayout.swift:819-824 | pulled past the top, card 0 sits four fifths of the pull below the background space, and card `k` sits `k` separations of one head height plus a fifth of the pull below it, each more than one head height |
| `Attributes.RevealedAttr` | Source/HFCardCollectionViewLayout.swift:832-840 | the revealed card is flagged, shown unscaled and at full size, just inside the top of the visible area: at `offsetTop + 0.01`, or `offsetTop + spaceAtTop + 0.01` when it is the only card |
| `Attributes.PeekTopSpacing` | Source/HFCardCollectionViewLayout.swift:842-868 | successive bottom cards peek out one lookout margin apart; the front card sits one margin above the bottom edge |
| `Attributes.BottomAttr` | Source/HFCardCollectionViewLayout.swift:842-868 | bottom branch: see below |
| `Geometry.IntersectsStandardizes` | Source/HFCardCollectionViewLayout.swift:858 | the intersects test compares edges, reading a rectangle of negative height over its flipped extent |
| `Attributes.ItemAttr` | Source/HFCardCollectionViewLayout.swift:730-738 | an item is flagged revealed exactly when it is the revealed index path and the cards are not collapsed |
| `Attributes.RevealedIndex` | Source/HFCardCollectionViewLayout.swift:257-262 | defined exactly when the previous pass has the revealed index path; with attributes keyed by item it is that index path's item |
| `Attributes.FirstRegenerated` | Source/HFCardCollectionViewLayout.swift:694-712 | a pass reuses earlier attributes only when it has as many as there are items |
| `Attributes.Selector` | Source/HFCardCollectionViewLayout.swift:714 | the bottom stack a pass selects is increasing, empty in the stacked branch, and never scaled without a stack size to divide by; it holds at most the configured count, except for the collapsed range from a negative top card or with no stacked cards |
| `Attributes.BottomMembersTakeBottomBranch` | Source/HFCardCollectionViewLayout.swift:730-738 | every member of the bottom stack is laid out by the bottom branch |
| `Attributes.FirstLaidOut` | Source/HFCardCollectionViewLayout.swift:700-712 | the first item the loop lays out is within the items and not after the first regenerated one |
| `Attributes.LaidOut` | Source/HFCardCollectionViewLayout.swift:718-743 | the item loop yields one attribute per item up to `k` |
| `Attributes.ItemOf` | Source/HFCardCollectionViewLayout.swift:718-743 | below the first regenerated item an attribute is the previous pass's; every later one is flagged revealed exactly for the revealed, uncollapsed card |
| `Attributes.Layout` | Source/HFCardCollectionViewLayout.swift:690-745 | one attribute per item; folding temporaryTop into the offset keeps the scroll position; a folding pass leaves temporaryTop at 0 |
| `Attributes.LayOutFrom` | Source/HFCardCollectionViewLayout.swift:716-743 | the imperative loop with its running `bottomIndex` computes the functional definition |
| `Attributes.Generate` | Source/HFCardCollectionViewLayout.swift:690-745 | the generator equals the functional pass, and every attribute is keyed by its own item |
| `Attributes.LayoutItem` | Source/HFCardCollectionViewLayout.swift:690-745 | the pass's attribute for item `k` is that item's attribute |
| `Attributes.LoopIsLayout` | Source/HFCardCollectionViewLayout.swift:716-743 | the item loop produces exactly the pass's attributes |
| `Attributes.LayoutShape` | Source/HFCardCollectionViewLayout.swift:690-745 | attributes are keyed by item; reused ones are unchanged; among the rest exactly the revealed card is flagged, and only while not collapsed |
| `Attributes.RevealedPassBottomStack` | Source/HFCardCollectionViewLayout.swift:747-786 | in a pass with a card revealed, the bottom stack lies within the items, excludes the revealed card, and all of it is drawn |
| `Attributes.RevealedPassStacksBottomCards` | Source/HFCardCollectionViewLayout.swift:842-868 | in a full pass with a card revealed, the `j`-th bottom card is shown at scale `CardScale(j)`, with its visible top `|stack| - j` margins above the bottom edge |
| `Attributes.RestingStackFillsContent` | Source/HFCardCollectionViewLayout.swift:799-801 | at rest, the last card's bottom edge plus the bottom space is exactly the content height |
| `Scrolling.TargetContentOffset` | Source/HFCardCollectionViewLayout.swift:617-642 | both snaps give `x = 0`; a proposal that neither snap applies to is returned unchanged |
| `Scrolling.BackgroundSnapPicksNearerEnd` | Source/HFCardCollectionViewLayout.swift:619-628 | a stop inside the background space moves to its nearer end: fully showing the background (offset 0) or fully hiding it (offset `spaceAtTopForBackgroundView`); a tie hides it |
| `Scrolling.CardHeadSnapPicksNearestHead` | Source/HFCardCollectionViewLayout.swift:629-640 | below the background space the scroll stops a whole number of head heights in, the one nearest the proposal; a tie goes to the smaller |
| `Scrolling.AutoscrollDirection` | Source/HFCardCollectionViewLayout.swift:982-988 | the list scrolls down exactly when the touch is in the bottom area, and up exactly when the touch is not in the bottom area but in the top one |
| `Scrolling.ScrollSpeed` | Source/HFCardCollectionViewLayout.swift:1137-1152 | the speed is 600 times the share of the scroll area the touch is inside, the depth clamped to the area: 600 at or past the viewport's edge, 0 at the area's inner border; it is 250 without a drag or without a direction |
| `Scrolling.ChosenDirectionMoves` | Source/HFCardCollectionViewLayout.swift:1137-1152 | a direction the drag chose always has a positive speed |
| `Scrolling.UpSpeedGrowsTowardEdge` | Source/HFCardCollectionViewLayout.swift:1142-1144 | scrolling up gets faster as the touch nears the top edge |
| `Scrolling.DownSpeedGrowsTowardEdge` | Source/HFCardCollectionViewLayout.swift:1145-1148 | scrolling down gets faster as the touch nears the bottom edge |
| `Scrolling.AutoscrollTick` | Source/HFCardCollectionViewLayout.swift:1101-1135 | no direction means no move; up never passes the top of the content; down never passes its end |
| `Scrolling.Autoscroll` | Source/HFCardCollectionViewLayout.swift:1101-1135 | ticks without a direction never move; after at least one tick the offset is within the end the ticks head for, wherever it started |
| `Scrolling.TickMovesTowardEnd` | Source/HFCardCollectionViewLayout.swift:1112-1128 | a tick moves by the rounded distance, or stops exactly at the end it is heading for, and never moves backwards |
| `Scrolling.AutoscrollUpStaysInContent` | Source/HFCardCollectionViewLayout.swift:1116-1122 | any number of up ticks stay between the top of the content and the start offset |
| `Scrolling.AutoscrollDownStaysInContent` | Source/HFCardCollectionViewLayout.swift:1123-1128 | any number of down ticks stay between the start offset and the end of the content |
| `ListOps.InsertAt` | HFCardCollectionViewLayoutExample/HFCardCollectionViewLayoutExample/ExampleViewController.swift:69 | the new element is at `i`, earlier elements stay, later ones shift up by one, and the multiset gains exactly `x` |
| `ListOps.RemoveAt` | HFCardCollectionViewLayoutExample/HFCardCollectionViewLayoutExample/ExampleViewController.swift:56 | earlier elements stay, later ones shift down by one, and the multiset loses exactly that element |
| `ListOps.InsertUndoesRemove` | HFCardCollectionViewLayoutExample/HFCardCollectionViewLayoutExample/ExampleViewController.swift:55-57 | putting a removed element back where it was restores the list |
| `ListOps.RemoveUndoesInsert` | HFCardCollectionViewLayoutExample/HFCardCollectionViewLayoutExample/ExampleViewController.swift:56-57 | removing an inserted element restores the list |
| `ListOps.Move` | HFCardCollectionViewLayoutExample/HFCardCollectionViewLayoutExample/ExampleViewController.swift:54-58 | a move keeps the length and the multiset, and puts the moved element at the destination |
| `ListOps.MoveFollowsIndexMap` | HFCardCollectionViewLayoutExample/HFCardCollectionViewLayoutExample/ExampleViewController.swift:54-58 | every element lands where the index map says: the moved one at the destination, the ones between shifted by one, the rest in place |
| `ListOps.MoveInPlace` | HFCardCollectionViewLayoutExample/HFCardCollectionViewLayoutExample/ExampleViewController.swift:54-58 | moving an element onto its own place changes nothing |
| `ListOps.MoveRoundTrip` | HFCardCollectionViewLayoutExample/HFCardCollectionViewLayoutExample/ExampleViewController.swift:54-58 | moving an element back undoes the move |
| `ListOps.MoveCompose` | HFCardCollectionViewLayoutExample/HFCardCollectionViewLayoutExample/ExampleViewController.swift:54-58 | moving an element on from where a move put it is the same as one move from its first place |
| `ListOps.MoveNeighboursSwaps` | Source/HFCardCollectionViewLayout.swift:1017 | a move between neighbours swaps them |
| `Interaction.FlipBack` | Source/HFCardCollectionViewLayout.swift:389-412 | only the flip flag changes; a completed flip back leaves the card unflipped |
| `Interaction.FlipBackCompletes` | Source/HFCardCollectionViewLayout.swift:389-412 | in a consistent state the flip back always completes |
| `Interaction.FlipRevealedCard` | Source/HFCardCollectionViewLayout.swift:360-384 | the card ends flipped exactly when it was flipped or a card is revealed; consistency is kept |
| `Interaction.FlipRoundTrip` | Source/HFCardCollectionViewLayout.swift:360-412 | flipping a revealed card and flipping it back restores the state |
| `Interaction.Deinitialize` | Source/HFCardCollectionViewLayout.swift:899-903 | the pan recognizer is removed exactly when a card is revealed |
| `Interaction.SetCollapseAll` | Source/HFCardCollectionViewLayout.swift:232-249 | the flag is set; from a consistent state the revealed card is forgotten and unflipped; the pan recognizer is left alone |
| `Interaction.Proceed` | Source/HFCardCollectionViewLayout.swift:300-319 | from a consistent state, the card is revealed front side up with its pan recognizer; a flip with nothing revealed never completes, and nothing changes |
| `Interaction.RevealCardAtAsWritten` | Source/HFCardCollectionViewLayout.swift:287-320 | as written: with nothing revealed and the cards collapsed, the call only lifts the collapse and changes nothing else; a veto forgets the revealed card and nothing else |
| `Interaction.VetoStrandsFlip` | Source/HFCardCollectionViewLayout.swift:293-298 | a veto while a flipped card is revealed leaves a flip with nothing revealed; afterwards every reveal is a no-op |
| `Interaction.RevealCardAt` | Source/HFCardCollectionViewLayout.swift:287-320 | corrected: with nothing revealed and the cards collapsed, only the collapse is lifted; consistency is kept; a veto from a consistent state leaves nothing revealed or flipped and removes the revealed card's pan |
| `Interaction.RevealShowsCard` | Source/HFCardCollectionViewLayout.swift:300-319 | an allowed reveal shows the card front up, with its pan recognizer installed; nothing else changes |
| `Interaction.RevealAgreesWhenNothingRevealed` | Source/HFCardCollectionViewLayout.swift:293-298 | with nothing revealed or flipped, the corrected reveal equals the source's |
| `Interaction.UnrevealCard` | Source/HFCardCollectionViewLayout.swift:325-353 | with no revealed card, or on a veto, nothing changes; otherwise nothing is left revealed, flipped or listening for the pan |
| `Interaction.RevealThenUnreveal` | Source/HFCardCollectionViewLayout.swift:287-353 | revealing a card and then unrevealing it returns to the state with nothing revealed |
| `Interaction.InsertStepAsWritten` | Source/HFCardCollectionViewLayout.swift:416-419 | as written: an insertion at or above the revealed card adds one head height to temporaryTop and makes the inserted index path the revealed one; otherwise nothing changes |
| `Interaction.WillInsertAsWritten` | Source/HFCardCollectionViewLayout.swift:414-421 | as written: a card stays revealed exactly when one was, and a changed revealed index path is always one of the inserted ones |
| `Interaction.InsertLosesRevealedCard` | Source/HFCardCollectionViewLayout.swift:414-421 | as written, an insertion at the top makes the new card the revealed one |
| `Interaction.InsertStep` | Source/HFCardCollectionViewLayout.swift:416-419 | corrected: an insertion at or above the revealed card moves its index path down by one and adds one head height to temporaryTop; any other insertion changes nothing |
| `Interaction.WillInsert` | Source/HFCardCollectionViewLayout.swift:414-421 | insertions keep consistency and never reveal or unreveal a card |
| `Interaction.WillInsertTracksCard` | Source/HFCardCollectionViewLayout.swift:414-421 | after any sequence of insertions, the revealed index path names the same card |
| `Interaction.DeleteStepAsWritten` | Source/HFCardCollectionViewLayout.swift:424-432 | as written: a deletion above the revealed card takes one head height off temporaryTop and makes the deleted index path the revealed one; one below changes nothing |
| `Interaction.DeleteLosesRevealedCard` | Source/HFCardCollectionViewLayout.swift:423-433 | as written, deleting a card above the revealed one makes the wrong card revealed |
| `Interaction.DeleteStep` | Source/HFCardCollectionViewLayout.swift:424-432 | corrected: a deletion above the revealed card moves its index path up by one and takes one head height off temporaryTop; a deletion below changes nothing |
| `Interaction.DeletingRevealedCardUnreveals` | Source/HFCardCollectionViewLayout.swift:425-427 | deleting the revealed card unreveals it unless the unreveal is vetoed |
| `Interaction.WillDelete` | Source/HFCardCollectionViewLayout.swift:423-433 | deletions, taken one after the other, keep consistency |
| `Interaction.DeleteStepTracksCard` | Source/HFCardCollectionViewLayout.swift:428-431 | deleting a card other than the revealed one keeps the index path on the revealed card |
| `Interaction.WillDeleteTracksCard` | Source/HFCardCollectionViewLayout.swift:423-433 | after any sequence of deletions that spares the revealed card, the revealed index path names the same card |
| `Interaction.WillDeleteOfRevealedUnreveals` | Source/HFCardCollectionViewLayout.swift:423-433 | a sequence of deletions that deletes the revealed card leaves nothing revealed, unless the unreveal is vetoed |
| `Interaction.DeleteLeavesUnrevealed` | Source/HFCardCollectionViewLayout.swift:423-433 | with nothing revealed, deletions change nothing |
| `Interaction.GestureShouldBegin` | Source/HFCardCollectionViewLayout.swift:1163-1176 | drag and tap start exactly when nothing is revealed; the revealed card's pan starts exactly on a mostly vertical movement; anything else starts |
| `Interaction.RevealBlocksGestures` | Source/HFCardCollectionViewLayout.swift:1163-1176 | once a card is revealed, dragging and tapping cannot start; an unreveal nobody vetoes lets both start again, and a vetoed one keeps them blocked |
| `Interaction.Step` | Source/HFCardCollectionViewLayout.swift:232-433 | every event keeps "flipped implies revealed" |
| `Interaction.RunStaysConsistent` | Source/HFCardCollectionViewLayout.swift:232-433 | any sequence of events keeps "flipped implies revealed", so a flip back always completes |
| `DragReorder.DragBegin` | Source/HFCardCollectionViewLayout.swift:951-975 | a drag becomes active exactly on an existing card at or after `firstMovableIndex`, and records it as start and selection |
| `DragReorder.DragStepAsWritten` | Source/HFCardCollectionViewLayout.swift:976-1031 | as written: the step only rearranges the cards (same multiset) |
| `DragReorder.SkippingStepLosesCard` | Source/HFCardCollectionViewLayout.swift:1000-1022 | as written, a drag that skips a card records an index path that holds another card |
| `DragReorder.DragStep` | Source/HFCardCollectionViewLayout.swift:976-1031 | corrected: the cards are rearranged, the drag stays well formed, and the dragged card's recorded path becomes the touched item; an inactive drag or a touch on no item or on a fixed card changes nothing |
| `DragReorder.DragStepKeepsCard` | Source/HFCardCollectionViewLayout.swift:1000-1022 | a corrected step keeps the dragged card at its recorded index path |
| `DragReorder.DragStepIsMove` | Source/HFCardCollectionViewLayout.swift:1000-1022 | a corrected step relocates the dragged card from its recorded index path to the new one, and does nothing else |
| `DragReorder.NeighbourStepsAgree` | Source/HFCardCollectionViewLayout.swift:1017-1022 | between neighbouring cards, the step as written and the corrected step agree |
| `DragReorder.DragRun` | Source/HFCardCollectionViewLayout.swift:976-1031 | a run of steps keeps the card count and the drag's bookkeeping |
| `DragReorder.DragRunKeepsCard` | Source/HFCardCollectionViewLayout.swift:976-1031 | however the finger wanders, the run's cards equal one relocation of the dragged card from where it started to its recorded index path, so no card is lost or duplicated and the others keep their order |
| `DragReorder.DragEnd` | Source/HFCardCollectionViewLayout.swift:1033-1059 | an active drag ends and forgets its last path; an inactive one is unchanged |
| `DragReorder.DragCancel` | Source/HFCardCollectionViewLayout.swift:1060-1067 | a cancel always deactivates the drag and resets its selection |
| `DragReorder.EndedDragRestartsClean` | Source/HFCardCollectionViewLayout.swift:1033-1067 | after an end or a cancel, a new drag starts well formed |
| `ExampleController.NumberOfItems` | HFCardCollectionViewLayoutExample/HFCardCollectionViewLayoutExample/ExampleViewController.swift:35-37 | one item per card, duplicates included |
| `ExampleController.DidSelect` | HFCardCollectionViewLayoutExample/HFCardCollectionViewLayoutExample/ExampleViewController.swift:46-52 | a tap puts the revealed card away; with none revealed, it reveals the tapped card or lifts the collapse; the cards are untouched |
| `ExampleController.TapTwiceRestores` | HFCardCollectionViewLayoutExample/HFCardCollectionViewLayoutExample/ExampleViewController.swift:46-52 | two taps with no veto leave nothing revealed |
| `ExampleController.MoveItem` | HFCardCollectionViewLayoutExample/HFCardCollectionViewLayoutExample/ExampleViewController.swift:54-58 | every card lands where the move's index map says, and no card is lost |
| `ExampleController.AddCard` | HFCardCollectionViewLayoutExample/HFCardCollectionViewLayoutExample/ExampleViewController.swift:66-75 | the new card goes first and the item count grows by one; a reveal of it is requested exactly when the list was empty |
| `ExampleController.FirstCardIsRevealed` | HFCardCollectionViewLayoutExample/HFCardCollectionViewLayoutExample/ExampleViewController.swift:66-75 | the first card added to an empty list ends up revealed, or, if the cards were collapsed, the collapse is lifted |

Details for the two longer rows:

- **`Attributes.StackedAttr` (stacked branch).**
  - The dragged card is transparent.
  - At rest, when stretching is off, or when cards do not stop at the top, every card is shown in its slot.
  - Once scrolled into the cards, the cards below the top card keep their slots, and the shown cards up to the top card are pinned to the top edge.
  - Pulled past the top with stretching on, card 0 sits at four fifths of the pull below the background space, and each further card one head height plus a fifth of the pull lower (`Attributes.StretchSpreadsCards`).
  - A card is hidden only once scrolled into the cards, and then exactly when cards stop at the top, it lies above the top card, and it is not the card just above the one being dragged. A hidden card more than five cards above the top card is parked one and a half frame heights above the content.
- **`Attributes.BottomAttr` (bottom branch).**
  - A card in the stack is shown at the scale for its rank, with its visible top `count - rank` margins above the bottom edge.
  - Every other card is hidden. If its slot would be on screen, it is parked at the bottom edge; otherwise it stays in its slot.
  - "On screen" is the source's test of line 858: the slot intersects a content rectangle of height `offsetY + frameHeight`. That rectangle is not the visible area, and its height is negative once the content is pulled down by more than a frame height. `Geometry.Intersects` standardizes it, as Core Graphics does (`Geometry.IntersectsStandardizes`).

## Notes on the code

- **Scale direction.** The bottom-stack scale `maxScale - ((i + 1 - count) * -1) * scalePerCard` grows with the rank: the last rank has the maximum scale and rank 0 the smallest (`CardMetrics.CardScaleMonotone`, `CardMetrics.CardScale`).
- **Stretch multiplier.** The stretch multiplier is `1 + (index + 1) * -0.2` (line 821), so card 0 already follows only four fifths of the pull (`Attributes.StretchSpreadsCards`).
- **Minimum and maximum scale.** The setters do not order the two scales. The scale law caps the minimum to the maximum instead (line 522, `CardMetrics.EffectiveMinimumScale`).
- **`cardMaximumHeight`** is clamped at 0 when it is set, but the layout never reads it (`Attributes.CellSizeIgnoresMaximumHeight`).
- **`endBeforeIndex`** (line 701) is computed but never used. A pass lays out every item from the first regenerated one to the end.

## Left out

- **Drawing and animation.** Drawing, UIKit animations, snapshots, `zPosition`, and the keyboard notifications are left out. Only the layout state and the numbers the layout computes are modelled.
- **The revealed card's pan handler** (`revealedCardPanGestureHandler`, lines 906-942) is left out. It only moves the revealed cell's transform and calls `unrevealCard`, which is modelled.
- **`prepare(forCollectionViewUpdates:)` and the disappearance attributes** (lines 645-688) are left out. They only choose animation start and end frames.
- **Several sections.** The model has one section; the source's loop over sections flattens the items the same way.
- **Hit testing.** `indexPathForItem(at:)` and the fallback to the last touched location (lines 990-993) are left out. The drag step receives the hit-tested index path instead. A hit-tested item is assumed to have a visible cell.
- **Stale revealed index paths.** A pass requires the revealed index path to name an existing item. The source can hold a stale index path after the data source shrinks without `willDelete`; that case is not modelled.
- **Division by zero.** Where the source divides, a zero divisor is a precondition rather than modelled: the stacked-card count in `scalePerCard`, the item count in the head height, and a scroll area in the speed law. For a layout pass this means a pass with all cards collapsed, scaling on and no stacked cards is excluded (`Attributes.WellFormed`), because its collapsed range still lists a card to scale.
- **Delegate callbacks.** The `willReveal`/`didReveal`/`willUnreveal`/`didUnreveal` callbacks, `completion` blocks, and `isScrollEnabled` are left out. They do not feed back into the layout state.
- **Pan recognizer reference.** When a second card is revealed without an unreveal, the source replaces the reference to the pan recognizer without removing the old one. The model keeps only whether a recognizer is referenced.
- `Interaction.WillInsert`: only the revealed index path and temporaryTop are tracked, not the cell contents. Insertion paths that are not valid insertion points are excluded, because they trap in Swift's array. Each path is read as numbered after the insertions before it, which is UIKit's numbering for a batch of insertions given in increasing order; tracking is not promised for other orders.
- `Interaction.WillDelete`: each path is read as numbered after the deletions before it. UIKit numbers a batch of deletions before the update, which agrees when the paths come in decreasing order; tracking is not promised for other orders.
- `ExampleController.AddCard`: the example does not call `willInsert`, and the model does not add that call.
- **The example's `deleteCardAtIndex0orSelected`** is left out. It is not one of the modelled actions.

## Findings

| source | as written | input that shows it | evidently intended | confidence | as-written member | corrected member |
|---|---|---|---|---|---|---|
| Source/HFCardCollectionViewLayout.swift:752-754 | `Array(startIndex ... max(0, startIndex + s - 2))` | collapse all with `bottomNumberOfStackedCards` 1 while the third card is at the top: the range `2 ... 1` traps | the same range wherever it is defined, and the top card alone where it traps, as the range gives at start 0 | high, not executed | `BottomStack.CollapsedIndexesAsWrittenTraps` | `BottomStack.CollapsedIndexes` |
| Source/HFCardCollectionViewLayout.swift:293-298 | a veto sets `revealedIndexPath = nil` before `deinitializeRevealedCard`, which then finds no cell | a flipped, revealed card 0, then a vetoed reveal: the card stays flipped with nothing revealed, and every later reveal waits on a flip back that never completes | tear the revealed card down as `unrevealCard` does | medium, not executed | `Interaction.VetoStrandsFlip` | `Interaction.RevealCardAt` |
| Source/HFCardCollectionViewLayout.swift:414-433 | `self.revealedIndexPath = indexPath` on an insert or delete at or above the revealed card | card 3 of four revealed; inserting at 0 marks card 0 revealed, although the revealed card moved to 4 | move the revealed index path by one with its card | medium, not executed | `Interaction.InsertLosesRevealedCard` | `Interaction.WillInsertTracksCard` |
| Source/HFCardCollectionViewLayout.swift:1017-1022 | `moveItemAt: currentTouchedIndexPath, to: movingCardLastTouchedIndexPath` | dragging `a` of `[a, b, c, e]` straight onto `c`: the cards become `[c, a, b, e]` and index path 2, which holds `b`, is recorded as the dragged card's | move the dragged card to the touched index path | medium, not executed | `DragReorder.SkippingStepLosesCard` | `DragReorder.DragRunKeepsCard` |

For the first finding, `BottomStack.CollapsedIndexesAgree` proves that the correction changes only the trapping inputs. The deletion half of the third finding is shown by `Interaction.DeleteLosesRevealedCard` and corrected by `Interaction.WillDeleteTracksCard`. For the fourth finding, `DragReorder.NeighbourStepsAgree` shows that the two versions agree whenever the finger moves one card at a time, which is the common case.
