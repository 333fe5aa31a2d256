/**
 * SelectableTextView: a text view with a manually entered select mode, two
 * draggable handles and a single selection-change listener. The fields are
 * those of the widget; each method changes them the way the widget does and
 * states the new state in terms of SelectionRules and Geometry.
 *
 * The listener is observed through a ghost log of notices. The host is
 * represented by parameters: the measured layout, the view width, and the
 * character offset it resolves for a touch position.
 */
module SelectableView {
  import opened Basics
  import opened Geometry
  import opened SelectionRules

  datatype MotionAction = ActionDown | ActionMove | ActionUp | ActionOther
  datatype MotionEvent = MotionEvent(action: MotionAction, x: int, y: int)

  /** What `onTouchEvent` returns: `true` itself, or whatever the base text view answers. */
  datatype TouchResult = Consumed | DelegatedToSuper

  /**
   * One delivery to the listener: the selected slice and whether it equals
   * the whole text; or the IndexOutOfBoundsException that the `selection`
   * getter raises instead when the offsets do not delimit a slice.
   */
  datatype Notice = SelectionChanged(selection: string, isAllSelected: bool) | SelectionOutOfBounds

  /** What `notifySelectionChanged` delivers for the offsets [start, end]: nothing without a listener. */
  ghost function NoticesFor(hasListener: bool, text: string, start: int, end: int): seq<Notice>
  {
    if !hasListener then []
    else match Slice(text, start, end)
      case Some(s) => [SelectionChanged(s, s == text)]
      case None => [SelectionOutOfBounds]
  }

  class SelectableTextView {
    const text: string
    var startCharOffset: int
    var endCharOffset: int
    var startHandleCenter: Point
    var endHandleCenter: Point
    var isHandlingStart: bool
    var isHandlingEnd: bool
    var isInSelectMode: bool
    /** The padding saved by `setPadding`, restored when select mode ends. */
    var originalPaddings: Paddings
    /** The padding the view currently lays out with. */
    var paddings: Paddings
    var hasListener: bool
    /** Every delivery to the listener so far, oldest first. */
    ghost var notices: seq<Notice>

    /** A fresh view over `text` whose initial padding is saved as the original one. */
    constructor (text: string, padding: Paddings)
      ensures this.text == text
      ensures startCharOffset == 0 && endCharOffset == 0
      ensures startHandleCenter == Point(InvalidOffset, InvalidOffset)
      ensures endHandleCenter == Point(InvalidOffset, InvalidOffset)
      ensures !isHandlingStart && !isHandlingEnd && !isInSelectMode
      ensures paddings == padding && originalPaddings == padding
      ensures !hasListener && notices == []
    {
      this.text := text;
      startCharOffset, endCharOffset := 0, 0;
      startHandleCenter := Point(InvalidOffset, InvalidOffset);
      endHandleCenter := Point(InvalidOffset, InvalidOffset);
      isHandlingStart, isHandlingEnd, isInSelectMode := false, false, false;
      paddings := padding;
      originalPaddings := padding;
      hasListener := false;
      notices := [];
    }

    /** The offsets and held handles as a value. */
    function Drag(): DragState
      reads this
    {
      DragState(startCharOffset, endCharOffset, isHandlingStart, isHandlingEnd)
    }

    /** The `selection` property; None where the platform's subSequence throws. */
    function Selection(): Option<string>
      reads this
    {
      Slice(text, startCharOffset, endCharOffset)
    }

    /** isEventInHandle: whether the touch lands on the handle centred at `handleCenter`. */
    function IsEventInHandle(event: MotionEvent, handleCenter: Point): bool
      reads this
    {
      InHandle(isInSelectMode, handleCenter, paddings.top, event.x, event.y)
    }

    method SetOnSelectionChangListener(attached: bool)
      modifies this`hasListener
      ensures hasListener == attached
    {
      hasListener := attached;
    }

    method RemoveOnSelectionChangeListener()
      modifies this`hasListener
      ensures !hasListener
    {
      hasListener := false;
    }

    /** Delivers the current slice and the all-selected flag to the listener, if there is one. */
    method NotifySelectionChanged()
      modifies this`notices
      ensures notices == old(notices) + NoticesFor(hasListener, text, startCharOffset, endCharOffset)
    {
      if hasListener {
        match Selection()
        case Some(s) =>
          notices := notices + [SelectionChanged(s, s == text)];
        case None =>
          notices := notices + [SelectionOutOfBounds];
      }
    }

    /** The overridden setPadding: applies the padding and saves it as the original one. */
    method SetPadding(left: int, top: int, right: int, bottom: int)
      modifies this`paddings, this`originalPaddings
      ensures paddings == Paddings(left, top, right, bottom)
      ensures originalPaddings == paddings
    {
      paddings := Paddings(left, top, right, bottom);
      originalPaddings := Paddings(left, top, right, bottom);
    }

    /**
     * Applies the padding for the current mode through the base class, so the
     * saved original padding is left alone.
     */
    method AdjustPaddings()
      modifies this`paddings
      ensures paddings == AdjustedPaddings(isInSelectMode, originalPaddings)
    {
      if isInSelectMode {
        var top := CoerceAtLeast(originalPaddings.top, HandleRadius);
        var bottom := CoerceAtLeast(originalPaddings.bottom, HandleRadius);
        var left := CoerceAtLeast(originalPaddings.left, HandleRadius);
        var right := CoerceAtLeast(originalPaddings.right, HandleRadius);
        paddings := Paddings(left, top, right, bottom);
      } else {
        paddings := originalPaddings;
      }
    }

    /**
     * Enters select mode with start raised to 0 and end lowered to the text
     * length (neither reordered nor clamped from the other side), makes room
     * for the handles and notifies the listener.
     */
    method Select(start: int, end: int)
      modifies this`isInSelectMode, this`startCharOffset, this`endCharOffset, this`paddings, this`notices
      ensures isInSelectMode
      ensures startCharOffset == CoerceAtLeast(start, 0) && endCharOffset == CoerceAtMost(end, |text|)
      ensures 0 <= start <= end <= |text| ==> Selection() == Some(text[start..end])
      ensures paddings == AdjustedPaddings(true, originalPaddings)
      ensures notices == old(notices) + NoticesFor(hasListener, text, startCharOffset, endCharOffset)
    {
      isInSelectMode := true;
      startCharOffset := CoerceAtLeast(start, 0);
      endCharOffset := CoerceAtMost(end, |text|);
      AdjustPaddings();
      NotifySelectionChanged();
    }

    /** Enters select mode with the whole text selected; the listener hears the text with the flag set. */
    method SelectAll()
      modifies this`isInSelectMode, this`startCharOffset, this`endCharOffset, this`paddings, this`notices
      ensures isInSelectMode
      ensures Selection() == Some(text)
      ensures paddings == AdjustedPaddings(true, originalPaddings)
      ensures notices == old(notices) + (if hasListener then [SelectionChanged(text, true)] else [])
    {
      Select(0, |text|);
      assert text[0..|text|] == text;
    }

    /**
     * Leaves select mode: both offsets become InvalidOffset, so the selection
     * is empty, the original padding comes back and the listener hears the
     * empty selection.
     */
    method Unselect()
      modifies this`isInSelectMode, this`startCharOffset, this`endCharOffset, this`paddings, this`notices
      ensures !isInSelectMode
      ensures startCharOffset == InvalidOffset && endCharOffset == InvalidOffset
      ensures Selection() == Some([])
      ensures paddings == originalPaddings
      ensures notices == old(notices) + (if hasListener then [SelectionChanged([], text == [])] else [])
    {
      isInSelectMode := false;
      startCharOffset := InvalidOffset;
      endCharOffset := InvalidOffset;
      AdjustPaddings();
      NotifySelectionChanged();
    }

    /** Detaching from the window ends select mode. */
    method OnDetachedFromWindow()
      modifies this`isInSelectMode, this`startCharOffset, this`endCharOffset, this`paddings, this`notices
      ensures !isInSelectMode
      ensures startCharOffset == InvalidOffset && endCharOffset == InvalidOffset
      ensures paddings == originalPaddings
      ensures notices == old(notices) + (if hasListener then [SelectionChanged([], text == [])] else [])
    {
      Unselect();
    }

    /**
     * exchangeHandleIfShould: swaps the offsets, and with them which handle is
     * held, when start has passed end; notifies the listener in either case.
     */
    method ExchangeHandleIfShould()
      modifies this`startCharOffset, this`endCharOffset, this`isHandlingStart, this`isHandlingEnd, this`notices
      ensures Drag() == Exchanged(old(Drag()))
      ensures notices == old(notices) + NoticesFor(hasListener, text, startCharOffset, endCharOffset)
    {
      if startCharOffset > endCharOffset {
        var temp := startCharOffset;
        startCharOffset := endCharOffset;
        endCharOffset := temp;
        var tempFlag := isHandlingStart;
        isHandlingStart := isHandlingEnd;
        isHandlingEnd := tempFlag;
      }
      NotifySelectionChanged();
    }

    /** The ACTION_MOVE branch for a held end handle, with `newOffset` the offset under the finger. */
    method MoveEndHandle(newOffset: int)
      modifies this`startCharOffset, this`endCharOffset, this`isHandlingStart, this`isHandlingEnd, this`notices
      ensures var step := EndHandleMoved(old(Drag()), newOffset);
              && Drag() == step.next
              && notices == old(notices) +
                   (if step.notifies then NoticesFor(hasListener, text, startCharOffset, endCharOffset) else [])
    {
      if startCharOffset != newOffset && endCharOffset != newOffset {
        endCharOffset := newOffset;
        ExchangeHandleIfShould();
      }
    }

    /** The ACTION_MOVE branch for a held start handle, including the trailing-edge rule. */
    method MoveStartHandle(newOffset: int)
      modifies this`startCharOffset, this`endCharOffset, this`isHandlingStart, this`isHandlingEnd, this`notices
      ensures var step := StartHandleMoved(old(Drag()), newOffset, |text|);
              && Drag() == step.next
              && notices == old(notices) +
                   (if step.notifies then NoticesFor(hasListener, text, startCharOffset, endCharOffset) else [])
    {
      if endCharOffset != newOffset && startCharOffset != newOffset {
        startCharOffset := newOffset;
        ExchangeHandleIfShould();
      } else if endCharOffset == newOffset && endCharOffset == |text| {
        startCharOffset := endCharOffset - 1;
        NotifySelectionChanged();
      }
    }

    /**
     * The touch handling. ACTION_DOWN grabs the end handle if the touch is on
     * it, else the start handle if it is on that one; ACTION_MOVE drags the
     * held handle to `offsetForPosition(x, y)` by the rules of `Moved`;
     * ACTION_UP releases both handles; anything else is left to the base view.
     */
    method OnTouchEvent(event: MotionEvent, offsetForPosition: (int, int) -> int) returns (result: TouchResult)
      modifies this`startCharOffset, this`endCharOffset, this`isHandlingStart, this`isHandlingEnd, this`notices
      ensures event.action == ActionDown ==>
                && startCharOffset == old(startCharOffset) && endCharOffset == old(endCharOffset)
                && notices == old(notices)
                && (IsEventInHandle(event, endHandleCenter) ==>
                      isHandlingEnd && isHandlingStart == old(isHandlingStart) && result == Consumed)
                && (!IsEventInHandle(event, endHandleCenter) && IsEventInHandle(event, startHandleCenter) ==>
                      isHandlingStart && isHandlingEnd == old(isHandlingEnd) && result == Consumed)
                && (!IsEventInHandle(event, endHandleCenter) && !IsEventInHandle(event, startHandleCenter) ==>
                      Drag() == old(Drag()) && result == DelegatedToSuper)
      ensures event.action == ActionMove ==>
                var step := Moved(old(Drag()), offsetForPosition(event.x, event.y), |text|);
                && Drag() == step.next
                && notices == old(notices) +
                     (if step.notifies then NoticesFor(hasListener, text, startCharOffset, endCharOffset) else [])
                && result == (if old(isHandlingEnd || isHandlingStart) then Consumed else DelegatedToSuper)
      ensures event.action == ActionUp ==>
                && !isHandlingStart && !isHandlingEnd
                && startCharOffset == old(startCharOffset) && endCharOffset == old(endCharOffset)
                && notices == old(notices) && result == DelegatedToSuper
      ensures event.action == ActionOther ==>
                Drag() == old(Drag()) && notices == old(notices) && result == DelegatedToSuper
    {
      match event.action
      case ActionDown =>
        if IsEventInHandle(event, endHandleCenter) {
          isHandlingEnd := true;
          return Consumed;
        } else if IsEventInHandle(event, startHandleCenter) {
          isHandlingStart := true;
          return Consumed;
        }
        return DelegatedToSuper;
      case ActionMove =>
        if isHandlingEnd {
          MoveEndHandle(offsetForPosition(event.x, event.y));
          return Consumed;
        } else if isHandlingStart {
          MoveStartHandle(offsetForPosition(event.x, event.y));
          return Consumed;
        }
        return DelegatedToSuper;
      case ActionUp =>
        isHandlingStart := false;
        isHandlingEnd := false;
        return DelegatedToSuper;
      case ActionOther =>
        return DelegatedToSuper;
    }

    /**
     * onDraw: outside select mode (or when gone) only the text is drawn, which
     * is `Some([])`; in select mode the highlight rectangles are drawn and the
     * handle centres recorded for hit testing. None: the draw fails for want
     * of a layout, leaving the centres as they were.
     */
    method OnDraw(layout: Option<TextLayout>, width: int, gone: bool) returns (highlight: Option<seq<Rect>>)
      modifies this`startHandleCenter, this`endHandleCenter
      ensures !isInSelectMode || gone ==>
                && highlight == Some([])
                && startHandleCenter == old(startHandleCenter) && endHandleCenter == old(endHandleCenter)
      ensures isInSelectMode && !gone ==>
                highlight == Highlight(layout, paddings, width, startCharOffset, endCharOffset)
      ensures isInSelectMode && !gone && layout.Some? ==>
                Some((startHandleCenter, endHandleCenter)) == HandleCenters(layout, paddings, startCharOffset, endCharOffset)
      ensures layout.None? ==> startHandleCenter == old(startHandleCenter) && endHandleCenter == old(endHandleCenter)
    {
      if !isInSelectMode || gone {
        return Some([]);
      }
      highlight := Highlight(layout, paddings, width, startCharOffset, endCharOffset);
      var centers := HandleCenters(layout, paddings, startCharOffset, endCharOffset);
      if centers.Some? {
        startHandleCenter := centers.value.0;
        endHandleCenter := centers.value.1;
      }
    }
  }

  /** Selecting everything, then "llo", then leaving select mode on "Hello World", as the listener sees it. */
  method HelloWorldScenario()
  {
    var view := new SelectableTextView("Hello World", Paddings(0, 0, 0, 0));
    view.SetOnSelectionChangListener(true);
    view.Select(0, 11);
    assert view.notices == [SelectionChanged("Hello World", true)];
    view.Select(2, 5);
    assert "Hello World"[2..5] == "llo";
    assert view.notices[1] == SelectionChanged("llo", false);
    view.Unselect();
    assert view.Selection() == Some("");
    assert view.notices[2] == SelectionChanged("", false);
  }

  /**
   * Dragging the end handle of "llo" back past the start: afterwards the
   * selection is "e" and the finger holds the start handle. Before the first
   * draw both handle centres are (0, 0); with the top padding inflated to 12
   * the touch (0, 12) lands on the end handle, which is tested first.
   */
  method CrossingDragScenario()
  {
    var view := new SelectableTextView("Hello World", Paddings(0, 0, 0, 0));
    view.Select(2, 5);
    var r := view.OnTouchEvent(MotionEvent(ActionDown, 0, 12), (x, y) => 1);
    assert r == Consumed && view.isHandlingEnd && !view.isHandlingStart;
    r := view.OnTouchEvent(MotionEvent(ActionMove, 0, 12), (x, y) => 1);
    assert view.startCharOffset == 1 && view.endCharOffset == 2;
    assert view.isHandlingStart && !view.isHandlingEnd;
    assert "Hello World"[1..2] == "e";
    assert view.Selection() == Some("e");
    r := view.OnTouchEvent(MotionEvent(ActionUp, 0, 12), (x, y) => 1);
    assert !view.isHandlingStart && !view.isHandlingEnd;
  }
}
