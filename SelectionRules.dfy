/**
 * The selection rules of SelectableTextView as values: the selected slice,
 * the exchange rule that keeps start <= end, and how a handle drag moves the
 * two offsets. The class in SelectableView changes its fields step by step and
 * is proved to agree with these functions; the lemmas here state what the
 * rules guarantee over single moves and over whole drags.
 */
module SelectionRules {
  import opened Basics

  /** INVALID_OFFSET: the value of both offsets outside select mode. */
  const InvalidOffset: int := 0

  // ---------------------------------------------------------------------------
  // The `selection` getter and the all-selected flag
  // ---------------------------------------------------------------------------

  /**
   * `text.subSequence(start, end)`: the characters from `start` up to, not
   * including, `end`; None where the platform throws IndexOutOfBoundsException
   * (a negative start, an end past the text, or start after end).
   */
  function Slice(text: string, start: int, end: int): (r: Option<string>)
    ensures r.Some? <==> 0 <= start <= end <= |text|
    ensures r.Some? ==> |r.value| == end - start
    ensures r.Some? ==> forall k :: 0 <= k < |r.value| ==> r.value[k] == text[start + k]
  {
    if 0 <= start <= end <= |text| then Some(text[start..end]) else None
  }

  /** The notified all-selected flag (the slice equals the text) holds exactly for the range [0, |text|]. */
  lemma AllSelectedIffWholeRange(text: string, start: int, end: int)
    requires Slice(text, start, end).Some?
    ensures Slice(text, start, end).value == text <==> start == 0 && end == |text|
  {
  }

  /**
   * `select(start, end)` stores `max(0, start)` and `min(|text|, end)` and
   * does not reorder them: the resulting selection exists exactly when
   * 0 <= end, start <= |text| and start <= end; in-range bounds are kept as
   * given; bounds at or beyond both ends select the whole text.
   */
  lemma SelectedRange(text: string, start: int, end: int)
    ensures var r := Slice(text, CoerceAtLeast(start, 0), CoerceAtMost(end, |text|));
            && (r.Some? <==> 0 <= end && start <= |text| && start <= end)
            && (0 <= start <= end <= |text| ==> r == Some(text[start..end]))
            && (start <= 0 && |text| <= end ==> r == Some(text))
  {
    if start <= 0 && |text| <= end {
      assert text[0..|text|] == text;
    }
  }

  // ---------------------------------------------------------------------------
  // Dragging the handles
  // ---------------------------------------------------------------------------

  /** The drag-relevant part of the view: both offsets and which handles are held. */
  datatype DragState = DragState(start: int, end: int, handlingStart: bool, handlingEnd: bool)

  /** The outcome of a move: the new drag state and whether the listener is notified. */
  datatype Step = Step(next: DragState, notifies: bool)

  /** Each handle as its (offset, held) pair; the exchange rule permutes these pairs. */
  function Handles(d: DragState): multiset<(int, bool)>
  {
    multiset{(d.start, d.handlingStart), (d.end, d.handlingEnd)}
  }

  /** How many handles are held. */
  function HeldCount(d: DragState): nat
  {
    (if d.handlingStart then 1 else 0) + (if d.handlingEnd then 1 else 0)
  }

  /**
   * exchangeHandleIfShould: when start has passed end the two offsets swap
   * roles, each taking its held flag along, so the finger keeps the handle
   * it is dragging. Afterwards start <= end; nothing changes when they were
   * already in order.
   */
  function Exchanged(d: DragState): (r: DragState)
    ensures r.start <= r.end
    ensures Handles(r) == Handles(d)
    ensures HeldCount(r) == HeldCount(d)
    ensures d.start <= d.end ==> r == d
  {
    if d.start > d.end then DragState(d.end, d.start, d.handlingEnd, d.handlingStart) else d
  }

  /**
   * A move of the end handle to `newOffset`: ignored, without notification,
   * when the offset equals either bound (the selection must not become empty
   * and only a real change is reported); otherwise the end handle's pair
   * moves to `newOffset`, the exchange rule reorders, and the result is a
   * non-empty selection.
   */
  function EndHandleMoved(d: DragState, newOffset: int): (r: Step)
    ensures r.notifies <==> newOffset != d.start && newOffset != d.end
    ensures !r.notifies ==> r.next == d
    ensures r.notifies ==> r.next.start < r.next.end
    ensures r.notifies ==> Handles(r.next) == Handles(d.(end := newOffset))
  {
    if d.start != newOffset && d.end != newOffset then Step(Exchanged(d.(end := newOffset)), true)
    else Step(d, false)
  }

  /**
   * A move of the start handle to `newOffset`: the same rule as for the end
   * handle, except at the trailing edge: when `newOffset` equals the end and
   * the end is the text length, start becomes end - 1 and the listener is
   * notified, even when start already was end - 1.
   */
  function StartHandleMoved(d: DragState, newOffset: int, textLength: int): (r: Step)
    ensures r.notifies <==> (newOffset != d.start && newOffset != d.end) || (newOffset == d.end == textLength)
    ensures !r.notifies ==> r.next == d
    ensures newOffset != d.start && newOffset != d.end ==>
              r.next.start < r.next.end && Handles(r.next) == Handles(d.(start := newOffset))
    ensures newOffset == d.end == textLength ==> r.next == d.(start := d.end - 1)
  {
    if d.end != newOffset && d.start != newOffset then Step(Exchanged(d.(start := newOffset)), true)
    else if d.end == newOffset && d.end == textLength then Step(d.(start := d.end - 1), true)
    else Step(d, false)
  }

  /**
   * The ACTION_MOVE branch: a held end handle takes precedence over a held
   * start handle; with no handle held nothing changes.
   */
  function Moved(d: DragState, newOffset: int, textLength: int): (r: Step)
    ensures d.handlingEnd ==> r == EndHandleMoved(d, newOffset)
    ensures !d.handlingEnd && d.handlingStart ==> r == StartHandleMoved(d, newOffset, textLength)
    ensures !d.handlingEnd && !d.handlingStart ==> r == Step(d, false)
  {
    if d.handlingEnd then EndHandleMoved(d, newOffset)
    else if d.handlingStart then StartHandleMoved(d, newOffset, textLength)
    else Step(d, false)
  }

  /** A move with no handle held changes nothing and notifies nobody. */
  lemma MoveWithoutHandleIsIgnored(d: DragState, newOffset: int, textLength: int)
    requires !d.handlingStart && !d.handlingEnd
    ensures Moved(d, newOffset, textLength) == Step(d, false)
  {
  }

  /**
   * One move keeps a non-empty selection inside the text non-empty and inside
   * the text, as long as the layout reports an offset inside the text.
   */
  lemma MoveKeepsSelection(d: DragState, newOffset: int, textLength: int)
    requires 0 <= d.start < d.end <= textLength
    requires 0 <= newOffset <= textLength
    ensures var e := Moved(d, newOffset, textLength).next;
            0 <= e.start < e.end <= textLength
  {
  }

  /** A move never changes how many handles are held. */
  lemma MoveKeepsHeldCount(d: DragState, newOffset: int, textLength: int)
    ensures HeldCount(Moved(d, newOffset, textLength).next) == HeldCount(d)
  {
  }

  /**
   * After a move that changed the selection, the handle whose offset is now
   * the finger's offset is the held one, whichever logical role it plays;
   * the one exception is the trailing-edge rule, which leaves the start
   * handle one character short of the finger.
   */
  lemma FingerKeepsItsHandle(d: DragState, newOffset: int, textLength: int)
    requires Moved(d, newOffset, textLength).notifies
    requires !(newOffset == d.end == textLength)
    ensures var e := Moved(d, newOffset, textLength).next;
            && (e.start == newOffset ==> e.handlingStart)
            && (e.end == newOffset ==> e.handlingEnd)
  {
  }

  /**
   * The trailing-edge rule on an empty text: with both offsets at 0 and the
   * start handle held, a move to offset 0 sets start to -1, and the selection
   * getter then throws.
   */
  lemma TrailingEdgeOnEmptyText(d: DragState)
    requires d.start == 0 && d.end == 0 && d.handlingStart && !d.handlingEnd
    ensures Moved(d, 0, 0) == Step(d.(start := -1), true)
    ensures Slice("", Moved(d, 0, 0).next.start, Moved(d, 0, 0).next.end).None?
  {
  }

  /** The trailing-edge rule notifies even when it leaves the selection as it was. */
  lemma TrailingEdgeNotifiesWithoutChange(d: DragState, textLength: int)
    requires d.handlingStart && !d.handlingEnd && d.end == textLength && d.start == textLength - 1
    ensures Moved(d, textLength, textLength) == Step(d, true)
  {
  }

  // ---------------------------------------------------------------------------
  // Whole drags
  // ---------------------------------------------------------------------------

  /** The drag state after the ACTION_MOVE events whose layout offsets are `offsets`, in order. */
  function AfterMoves(d: DragState, offsets: seq<int>, textLength: int): DragState
    decreases |offsets|
  {
    if offsets == [] then d
    else AfterMoves(Moved(d, offsets[0], textLength).next, offsets[1..], textLength)
  }

  /**
   * The selection never collapses during a drag: starting from a non-empty
   * selection inside the text, any sequence of moves to offsets inside the
   * text leaves 0 <= start < end <= |text|.
   */
  lemma {:induction false} DragNeverCollapses(d: DragState, offsets: seq<int>, textLength: int)
    requires 0 <= d.start < d.end <= textLength
    requires forall k :: 0 <= k < |offsets| ==> 0 <= offsets[k] <= textLength
    ensures var e := AfterMoves(d, offsets, textLength);
            0 <= e.start < e.end <= textLength
    decreases |offsets|
  {
    if offsets != [] {
      MoveKeepsSelection(d, offsets[0], textLength);
      DragNeverCollapses(Moved(d, offsets[0], textLength).next, offsets[1..], textLength);
    }
  }

  /** A drag never grabs or releases a handle: the number of held handles is constant. */
  lemma {:induction false} DragKeepsHeldCount(d: DragState, offsets: seq<int>, textLength: int)
    ensures HeldCount(AfterMoves(d, offsets, textLength)) == HeldCount(d)
    decreases |offsets|
  {
    if offsets != [] {
      MoveKeepsHeldCount(d, offsets[0], textLength);
      DragKeepsHeldCount(Moved(d, offsets[0], textLength).next, offsets[1..], textLength);
    }
  }
}
