/** The carousel cursor shared by the gallery cards, the hero rotator, the
    image modal and the cross-fading collection cards: an index into a fixed,
    non-empty sequence of `n` items that wraps around at both ends. */
module Carousel {

  /** `goToNext`: `(c + 1) % n`. */
  function Next(c: int, n: int): (r: int)
    requires 0 <= c < n
    ensures 0 <= r < n
    ensures c < n - 1 ==> r == c + 1
    ensures c == n - 1 ==> r == 0
  {
    (c + 1) % n
  }

  /** `goToPrevious`: `(c - 1 + n) % n`. */
  function Previous(c: int, n: int): (r: int)
    requires 0 <= c < n
    ensures 0 <= r < n
    ensures 0 < c ==> r == c - 1
    ensures c == 0 ==> r == n - 1
  {
    (c - 1 + n) % n
  }

  /** `next` and `previous` undo each other. */
  lemma NextPreviousInverse(c: int, n: int)
    requires 0 <= c < n
    ensures Previous(Next(c, n), n) == c
    ensures Next(Previous(c, n), n) == c
  {
  }

  /** With a single item both directions leave the cursor at 0. */
  lemma SingleItemIsFixedPoint()
    ensures Next(0, 1) == 0 && Previous(0, 1) == 0
  {
  }

  /** The cursor after `k` consecutive `next` steps. */
  function Advance(c: int, n: int, k: nat): (r: int)
    requires 0 <= c < n
    ensures 0 <= r < n
    decreases k
  {
    if k == 0 then c else Next(Advance(c, n, k - 1), n)
  }

  /** The cursor after `k` consecutive `previous` steps. */
  function Retreat(c: int, n: int, k: nat): (r: int)
    requires 0 <= c < n
    ensures 0 <= r < n
    decreases k
  {
    if k == 0 then c else Previous(Retreat(c, n, k - 1), n)
  }

  /** Stepping forward `j` and then `k` times is stepping forward `j + k` times. */
  lemma {:induction false} AdvanceCompose(c: int, n: int, j: nat, k: nat)
    requires 0 <= c < n
    ensures Advance(Advance(c, n, j), n, k) == Advance(c, n, j + k)
    decreases k
  {
    if k > 0 {
      AdvanceCompose(c, n, j, k - 1);
    }
  }

  /** Before the end of the sequence is reached, `k` steps add `k`. */
  lemma {:induction false} AdvanceBeforeWrap(c: int, n: int, k: nat)
    requires 0 <= c && c + k < n
    ensures Advance(c, n, k) == c + k
    decreases k
  {
    if k > 0 {
      AdvanceBeforeWrap(c, n, k - 1);
    }
  }

  /** `n` consecutive `next` steps bring the cursor back to where it started. */
  lemma FullCycle(c: int, n: int)
    requires 0 <= c < n
    ensures Advance(c, n, n) == c
  {
    AdvanceBeforeWrap(c, n, n - 1 - c);
    assert Advance(c, n, n - c) == 0;
    AdvanceBeforeWrap(0, n, c);
    AdvanceCompose(c, n, n - c, c);
  }

  /** `k` steps back undo `k` steps forward. */
  lemma {:induction false} RetreatUndoesAdvance(c: int, n: int, k: nat)
    requires 0 <= c < n
    ensures Retreat(Advance(c, n, k), n, k) == c
    decreases k
  {
    if k > 0 {
      var a := Advance(c, n, k - 1);
      NextPreviousInverse(a, n);
      RetreatAfterFirstStep(Next(a, n), n, k);
      assert Retreat(Advance(c, n, k), n, k) == Retreat(a, n, k - 1);
      RetreatUndoesAdvance(c, n, k - 1);
    }
  }

  /** The first of `k` steps back may be taken first. */
  lemma {:induction false} RetreatAfterFirstStep(c: int, n: int, k: nat)
    requires 0 <= c < n && k > 0
    ensures Retreat(c, n, k) == Retreat(Previous(c, n), n, k - 1)
    decreases k
  {
    if k > 1 {
      RetreatAfterFirstStep(c, n, k - 1);
    }
  }

  /** A user or timer action on a carousel. */
  datatype NavEvent = GoToNext | GoToPrevious | GoToIndex(index: int)

  /** `goToIndex` does no bounds check: its callers, the indicator buttons,
      only pass indices of existing items. */
  predicate Admissible(e: NavEvent, n: int)
  {
    e.GoToIndex? ==> 0 <= e.index < n
  }

  function Step(c: int, n: int, e: NavEvent): (r: int)
    requires 0 <= c < n && Admissible(e, n)
    ensures 0 <= r < n
    ensures e.GoToIndex? ==> r == e.index
  {
    match e
    case GoToNext => Next(c, n)
    case GoToPrevious => Previous(c, n)
    case GoToIndex(i) => i
  }

  /** The cursor after a whole sequence of actions: it never leaves `[0, n)`. */
  function Run(c: int, n: int, events: seq<NavEvent>): (r: int)
    requires 0 <= c < n
    requires forall k :: 0 <= k < |events| ==> Admissible(events[k], n)
    ensures 0 <= r < n
    decreases |events|
  {
    if events == [] then c else Run(Step(c, n, events[0]), n, events[1..])
  }

  /** Indicator dot `i` is highlighted exactly when it is the cursor. */
  function Indicators(c: int, n: nat): (r: seq<bool>)
    requires 0 <= c < n
    ensures |r| == n && r[c]
    ensures forall i :: 0 <= i < n && i != c ==> !r[i]
  {
    seq(n, i => i == c)
  }

  /** The per-instance cursor state (`currentIndex`) over `n` items. */
  class Cursor {
    const n: nat
    var index: int

    ghost predicate Valid()
      reads this
    {
      0 <= index < n
    }

    constructor (n: nat, start: int)
      requires 0 <= start < n
      ensures Valid() && this.n == n && index == start
    {
      this.n := n;
      index := start;
    }

    method GoToNext()
      requires Valid()
      modifies this
      ensures Valid() && index == Next(old(index), n)
    {
      index := (index + 1) % n;
    }

    method GoToPrevious()
      requires Valid()
      modifies this
      ensures Valid() && index == Previous(old(index), n)
    {
      index := (index - 1 + n) % n;
    }

    method GoToIndex(i: int)
      requires Valid() && 0 <= i < n
      modifies this
      ensures Valid() && index == i
    {
      index := i;
    }
  }
}
