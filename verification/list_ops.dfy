/** Swift's `Array.insert(_:at:)` and `Array.remove(at:)`, and the
    remove-then-insert relocation the example's data source performs for
    `moveItemAt` (ExampleViewController.swift lines 54-58). */
module ListOps {

  /** `xs.insert(x, at: i)`; Swift traps outside `0 ... count`. */
  function InsertAt<T>(xs: seq<T>, i: int, x: T): (r: seq<T>)
    requires 0 <= i <= |xs|
    ensures |r| == |xs| + 1 && r[i] == x
    ensures forall j :: 0 <= j < i ==> r[j] == xs[j]
    ensures forall j :: i < j < |r| ==> r[j] == xs[j - 1]
    ensures multiset(r) == multiset(xs) + multiset{x}
  {
    assert xs == xs[..i] + xs[i..];
    xs[..i] + [x] + xs[i..]
  }

  /** `xs.remove(at: i)`; Swift traps outside `0 ..< count`. */
  function RemoveAt<T>(xs: seq<T>, i: int): (r: seq<T>)
    requires 0 <= i < |xs|
    ensures |r| == |xs| - 1
    ensures forall j :: 0 <= j < i ==> r[j] == xs[j]
    ensures forall j :: i <= j < |r| ==> r[j] == xs[j + 1]
    ensures multiset(r) + multiset{xs[i]} == multiset(xs)
  {
    assert xs == xs[..i] + [xs[i]] + xs[i + 1..];
    xs[..i] + xs[i + 1..]
  }

  /** Inserting an element where it was removed restores the list. */
  lemma InsertUndoesRemove<T>(xs: seq<T>, i: int)
    requires 0 <= i < |xs|
    ensures InsertAt(RemoveAt(xs, i), i, xs[i]) == xs
  {
  }

  /** Removing an inserted element restores the list. */
  lemma RemoveUndoesInsert<T>(xs: seq<T>, i: int, x: T)
    requires 0 <= i <= |xs|
    ensures RemoveAt(InsertAt(xs, i, x), i) == xs
  {
  }

  /** The relocation of `moveItemAt`: take the element at `src` out, then
      insert it at `dst` of the shortened list. */
  function Move<T>(xs: seq<T>, src: int, dst: int): (r: seq<T>)
    requires 0 <= src < |xs| && 0 <= dst < |xs|
    ensures |r| == |xs| && r[dst] == xs[src]
    ensures multiset(r) == multiset(xs)
  {
    InsertAt(RemoveAt(xs, src), dst, xs[src])
  }

  /** Where the element at `j` ends up when the element at `src` is moved
      to `dst`: the moved one lands on `dst`, those between close the gap,
      the others stay. */
  function MovedIndex(j: int, src: int, dst: int): int {
    if j == src then dst
    else if src < j <= dst then j - 1
    else if dst <= j < src then j + 1
    else j
  }

  /** The relocation agrees with the index map, element by element. */
  lemma MoveFollowsIndexMap<T>(xs: seq<T>, src: int, dst: int, j: int)
    requires 0 <= src < |xs| && 0 <= dst < |xs| && 0 <= j < |xs|
    ensures 0 <= MovedIndex(j, src, dst) < |xs|
    ensures Move(xs, src, dst)[MovedIndex(j, src, dst)] == xs[j]
  {
  }

  /** Moving an element onto its own place changes nothing. */
  lemma MoveInPlace<T>(xs: seq<T>, i: int)
    requires 0 <= i < |xs|
    ensures Move(xs, i, i) == xs
  {
    InsertUndoesRemove(xs, i);
  }

  /** Moving an element back undoes the move. */
  lemma MoveRoundTrip<T>(xs: seq<T>, src: int, dst: int)
    requires 0 <= src < |xs| && 0 <= dst < |xs|
    ensures Move(Move(xs, src, dst), dst, src) == xs
  {
    var ys := Move(xs, src, dst);
    assert RemoveAt(ys, dst) == RemoveAt(xs, src);
    InsertUndoesRemove(xs, src);
  }

  /** Two moves in a row, the second taking the element from where the
      first put it, are one move. */
  lemma MoveCompose<T>(xs: seq<T>, a: int, b: int, c: int)
    requires 0 <= a < |xs| && 0 <= b < |xs| && 0 <= c < |xs|
    ensures Move(Move(xs, a, b), b, c) == Move(xs, a, c)
  {
    assert RemoveAt(Move(xs, a, b), b) == RemoveAt(xs, a);
  }

  /** A move between neighbours swaps them. */
  lemma MoveNeighboursSwaps<T>(xs: seq<T>, src: int, dst: int)
    requires 0 <= src < |xs| && 0 <= dst < |xs| && (dst == src + 1 || src == dst + 1)
    ensures Move(xs, src, dst) == xs[src := xs[dst]][dst := xs[src]]
  {
  }
}
