/**
 * The pixel side of SelectableTextView: line geometry with its fallbacks for a
 * missing layout, the highlight rectangles and handle centres computed in
 * `onDraw`, the square touch target of a handle, and the padding that keeps the
 * handles visible. Pixel values that the platform keeps as floats are integers
 * here: only the line helpers are integer-valued in the source;
 * `primaryHorizontal` is the caret x after `toInt()` truncation, and touch
 * coordinates are taken as already rounded to integers.
 */
module Geometry {
  import opened Basics

  /** HANDLE_RADIUS: the radius of a handle's circle, and the least padding in select mode. */
  const HandleRadius: int := 12
  /** HANDLE_TOUCH_RADIUS: half the side of a handle's square touch target. */
  const HandleTouchRadius: int := 40

  datatype Point = Point(x: int, y: int)
  datatype Rect = Rect(left: int, top: int, right: int, bottom: int)
  datatype Paddings = Paddings(left: int, top: int, right: int, bottom: int)

  /**
   * The host's measured text layout: the line holding an offset, a line's
   * top and bottom (without padding) and the caret x of an offset. The view's
   * `layout` is `Option<TextLayout>`: None until the first measurement pass.
   */
  datatype TextLayout = TextLayout(
    lineForOffset: int -> int,
    lineTop: int -> int,
    lineBottom: int -> int,
    primaryHorizontal: int -> int)

  /** Lines have non-negative height and a later line starts below an earlier one ends. */
  ghost predicate WellFormed(l: TextLayout)
  {
    && (forall line :: l.lineTop(line) <= l.lineBottom(line))
    && (forall line, later :: line < later ==> l.lineBottom(line) <= l.lineTop(later))
  }

  // ---------------------------------------------------------------------------
  // Line helpers (getLineTop, getLineBottom, getLineHeight, getLineForOffset)
  // ---------------------------------------------------------------------------

  /** getLineTop: a line's top edge shifted by the top padding; 0 without a layout. */
  function LineTop(layout: Option<TextLayout>, paddingTop: int, line: int): (y: int)
    ensures layout.None? ==> y == 0
    ensures layout.Some? && WellFormed(layout.value) ==> y <= LineBottom(layout, paddingTop, line)
  {
    if layout.None? then 0 else layout.value.lineTop(line) + paddingTop
  }

  /** getLineBottom: a line's bottom edge shifted by the top padding; 0 without a layout. */
  function LineBottom(layout: Option<TextLayout>, paddingTop: int, line: int): (y: int)
    ensures layout.None? ==> y == 0
  {
    if layout.None? then 0 else layout.value.lineBottom(line) + paddingTop
  }

  function LineHeight(layout: Option<TextLayout>, paddingTop: int, line: int): (h: int)
    ensures layout.Some? && WellFormed(layout.value) ==> h >= 0
  {
    LineBottom(layout, paddingTop, line) - LineTop(layout, paddingTop, line)
  }

  /** getLineForOffset: the line holding an offset; line 0 without a layout. */
  function LineForOffset(layout: Option<TextLayout>, offset: int): (line: int)
    ensures layout.None? ==> line == 0
  {
    if layout.None? then 0 else layout.value.lineForOffset(offset)
  }

  /** Before the first measurement pass every line query answers 0 instead of failing. */
  lemma NoLayoutFallback(paddingTop: int, line: int, offset: int)
    ensures LineTop(None, paddingTop, line) == 0 && LineBottom(None, paddingTop, line) == 0
    ensures LineHeight(None, paddingTop, line) == 0 && LineForOffset(None, offset) == 0
  {
  }

  /** The top padding shifts a line's top and bottom alike, so it never changes the line's height. */
  lemma LineHeightIgnoresPadding(l: TextLayout, paddingTop: int, line: int)
    ensures LineHeight(Some(l), paddingTop, line) == l.lineBottom(line) - l.lineTop(line)
  {
  }

  /**
   * getCoordinateOffset: the caret x of an offset (plus the left padding) and
   * the unpadded top of its line. It dereferences the layout without a
   * fallback, so it fails (None) before the first measurement pass.
   */
  function CoordinateOffset(layout: Option<TextLayout>, paddingLeft: int, offset: int): (p: Option<Point>)
    ensures p.Some? <==> layout.Some?
  {
    if layout.None? then None
    else
      var line := LineForOffset(layout, offset);
      Some(Point(layout.value.primaryHorizontal(offset) + paddingLeft, layout.value.lineTop(line)))
  }

  // ---------------------------------------------------------------------------
  // onDraw: highlight rectangles and handle centres
  // ---------------------------------------------------------------------------

  /**
   * The highlight rectangles of the selection [start, end], in drawing order:
   * a full-width block for the lines strictly between the start and end lines
   * when there is one, then either one rectangle between the two carets (same
   * line) or a partial rectangle on each of the two lines. The content spans
   * from `padding.left` to `width - padding.right`. None: the draw fails on the
   * missing layout.
   */
  function Highlight(layout: Option<TextLayout>, padding: Paddings, width: int, start: int, end: int)
    : (r: Option<seq<Rect>>)
    ensures r.Some? <==> layout.Some?
  {
    if layout.None? then None
    else
      var startLine := LineForOffset(layout, start);
      var endLine := LineForOffset(layout, end);
      var startFullLine := startLine + 1;
      var endFullLine := endLine - 1;
      var middle :=
        if startFullLine <= endFullLine
        then [Rect(padding.left, LineTop(layout, padding.top, startFullLine),
                   width - padding.right, LineBottom(layout, padding.top, endFullLine))]
        else [];
      var startPoint := CoordinateOffset(layout, padding.left, start).value;
      var endPoint := CoordinateOffset(layout, padding.left, end).value;
      if startLine == endLine then
        Some(middle + [Rect(startPoint.x, LineTop(layout, padding.top, startLine),
                            endPoint.x, LineBottom(layout, padding.top, endLine))])
      else
        Some(middle + [Rect(startPoint.x, LineTop(layout, padding.top, startLine),
                            width - padding.right, LineBottom(layout, padding.top, startLine)),
                       Rect(padding.left, LineTop(layout, padding.top, endLine),
                            endPoint.x, LineBottom(layout, padding.top, endLine))])
  }

  /** One rectangle per boundary line, plus one block for all the lines in between when there are any. */
  lemma HighlightBlockCount(l: TextLayout, padding: Paddings, width: int, start: int, end: int)
    requires l.lineForOffset(start) <= l.lineForOffset(end)
    ensures var lines := l.lineForOffset(end) - l.lineForOffset(start) + 1;
            |Highlight(Some(l), padding, width, start, end).value| == if lines < 3 then lines else 3
  {
  }

  /**
   * Every line from the start line to the end line lies vertically inside some
   * highlight rectangle, and a line strictly between the two is covered over
   * the whole content width.
   */
  lemma HighlightCoversSelectedLines(l: TextLayout, padding: Paddings, width: int, start: int, end: int, line: int)
    returns (i: nat)
    requires WellFormed(l)
    requires l.lineForOffset(start) <= line <= l.lineForOffset(end)
    ensures var rects := Highlight(Some(l), padding, width, start, end).value;
            && i < |rects|
            && rects[i].top <= LineTop(Some(l), padding.top, line)
            && LineBottom(Some(l), padding.top, line) <= rects[i].bottom
            && (l.lineForOffset(start) < line < l.lineForOffset(end) ==>
                  rects[i].left == padding.left && rects[i].right == width - padding.right)
  {
    var startLine, endLine := l.lineForOffset(start), l.lineForOffset(end);
    var rects := Highlight(Some(l), padding, width, start, end).value;
    var hasMiddle := startLine + 1 <= endLine - 1;
    if line == startLine {
      i := if hasMiddle then 1 else 0;
    } else if line == endLine {
      i := if hasMiddle then 2 else 1;
    } else {
      i := 0;
      if line != startLine + 1 {
        assert l.lineTop(startLine + 1) <= l.lineBottom(startLine + 1) <= l.lineTop(line);
      }
      if line != endLine - 1 {
        assert l.lineBottom(line) <= l.lineTop(endLine - 1) <= l.lineBottom(endLine - 1);
      }
    }
  }

  /**
   * The highlight rectangles never overlap vertically (no area is painted
   * twice) and all stay within the band from the top of the start line to the
   * bottom of the end line.
   */
  lemma HighlightBandsDisjoint(l: TextLayout, padding: Paddings, width: int, start: int, end: int)
    requires WellFormed(l)
    requires l.lineForOffset(start) <= l.lineForOffset(end)
    ensures var rects := Highlight(Some(l), padding, width, start, end).value;
            && (forall i, j :: 0 <= i < j < |rects| ==>
                  rects[i].bottom <= rects[j].top || rects[j].bottom <= rects[i].top)
            && (forall i :: 0 <= i < |rects| ==>
                  && LineTop(Some(l), padding.top, l.lineForOffset(start)) <= rects[i].top
                  && rects[i].bottom <= LineBottom(Some(l), padding.top, l.lineForOffset(end)))
  {
  }

  /** Whether the pixel (x, y) lies in a rectangle, which is filled over [left, right) x [top, bottom). */
  predicate InRect(r: Rect, x: int, y: int)
  {
    r.left <= x < r.right && r.top <= y < r.bottom
  }

  /** Whether the pixel (x, y) is highlighted by some rectangle of `rects`. */
  predicate Painted(rects: seq<Rect>, x: int, y: int)
  {
    exists i :: 0 <= i < |rects| && InRect(rects[i], x, y)
  }

  /**
   * Which pixels of the two boundary lines are highlighted. On a single line,
   * exactly those from the start caret to the end caret; otherwise, on the
   * start line exactly those from the start caret to the right content edge,
   * and on the end line exactly those from the left content edge to the end
   * caret.
   */
  lemma HighlightPaintsBoundaryLines(l: TextLayout, padding: Paddings, width: int, start: int, end: int, x: int, y: int)
    requires WellFormed(l)
    requires l.lineForOffset(start) <= l.lineForOffset(end)
    ensures var rects := Highlight(Some(l), padding, width, start, end).value;
            var startLine, endLine := l.lineForOffset(start), l.lineForOffset(end);
            var startX := CoordinateOffset(Some(l), padding.left, start).value.x;
            var endX := CoordinateOffset(Some(l), padding.left, end).value.x;
            var onStartLine := LineTop(Some(l), padding.top, startLine) <= y < LineBottom(Some(l), padding.top, startLine);
            var onEndLine := LineTop(Some(l), padding.top, endLine) <= y < LineBottom(Some(l), padding.top, endLine);
            && (startLine == endLine && onStartLine ==> (Painted(rects, x, y) <==> startX <= x < endX))
            && (startLine < endLine && onStartLine ==> (Painted(rects, x, y) <==> startX <= x < width - padding.right))
            && (startLine < endLine && onEndLine ==> (Painted(rects, x, y) <==> padding.left <= x < endX))
  {
    var rects := Highlight(Some(l), padding, width, start, end).value;
    var startLine, endLine := l.lineForOffset(start), l.lineForOffset(end);
    var top := LineTop(Some(l), padding.top, startLine);
    var bottom := LineBottom(Some(l), padding.top, startLine);
    var n := |rects|;
    if startLine == endLine {
      assert n == 1;
      if top <= y < bottom && Painted(rects, x, y) {
        var i :| 0 <= i < n && InRect(rects[i], x, y);
        assert i == 0;
      }
      if top <= y < bottom && InRect(rects[0], x, y) {
        assert Painted(rects, x, y);
      }
    } else {
      assert l.lineBottom(startLine) <= l.lineTop(endLine);
      if startLine + 1 <= endLine - 1 {
        assert l.lineBottom(startLine) <= l.lineTop(startLine + 1);
        assert l.lineBottom(endLine - 1) <= l.lineTop(endLine);
      }
      if Painted(rects, x, y) {
        var i :| 0 <= i < n && InRect(rects[i], x, y);
        assert i == n - 2 || i == n - 1 || i == 0;
      }
      if InRect(rects[n - 2], x, y) || InRect(rects[n - 1], x, y) {
        assert Painted(rects, x, y);
      }
    }
  }

  /**
   * The two handle centres set in `onDraw`: the start handle sits at the start
   * caret on the top edge of its line, the end handle at the end caret on the
   * bottom edge of its line. None: the draw fails on the missing layout.
   */
  function HandleCenters(layout: Option<TextLayout>, padding: Paddings, start: int, end: int)
    : (r: Option<(Point, Point)>)
    ensures r.Some? <==> layout.Some?
    ensures r.Some? ==>
              && r.value.0.y == LineTop(layout, padding.top, LineForOffset(layout, start))
              && r.value.1.y == LineBottom(layout, padding.top, LineForOffset(layout, end))
              && r.value.0.x == layout.value.primaryHorizontal(start) + padding.left
              && r.value.1.x == layout.value.primaryHorizontal(end) + padding.left
  {
    if layout.None? then None
    else
      var startPoint := CoordinateOffset(layout, padding.left, start).value;
      var endPoint := CoordinateOffset(layout, padding.left, end).value;
      var endLine := LineForOffset(layout, end);
      Some((Point(startPoint.x, startPoint.y + padding.top),
            Point(endPoint.x, endPoint.y + padding.top + LineHeight(layout, padding.top, endLine))))
  }

  // ---------------------------------------------------------------------------
  // isEventInHandle
  // ---------------------------------------------------------------------------

  /**
   * Whether a touch at (x, y) lands on the handle centred at `center`: never
   * outside select mode; otherwise inside the closed square of half-side
   * HandleTouchRadius around the centre moved down by the top padding.
   */
  function InHandle(inSelectMode: bool, center: Point, paddingTop: int, x: int, y: int): (r: bool)
    ensures r <==> inSelectMode
                   && Abs(x - center.x) <= HandleTouchRadius
                   && Abs(y - (center.y + paddingTop)) <= HandleTouchRadius
  {
    if !inSelectMode then false
    else
      var left := center.x - HandleTouchRadius;
      var right := center.x + HandleTouchRadius;
      var top := center.y - HandleTouchRadius + paddingTop;
      var bottom := center.y + HandleTouchRadius + paddingTop;
      x >= left && x <= right && y >= top && y <= bottom
  }

  /**
   * The handle centre already includes the top padding and the hit test adds
   * it once more, so the point where a handle is drawn is on its own touch
   * target exactly when the top padding is at most HandleTouchRadius.
   */
  lemma DrawnCenterHit(center: Point, paddingTop: int)
    ensures InHandle(true, center, paddingTop, center.x, center.y) <==> -HandleTouchRadius <= paddingTop <= HandleTouchRadius
  {
  }

  // ---------------------------------------------------------------------------
  // adjustPaddings
  // ---------------------------------------------------------------------------

  /** A side inflated for the handles: at least HandleRadius, at least the original, and one of the two. */
  predicate Inflated(side: int, original: int)
  {
    side >= HandleRadius && side >= original && (side == HandleRadius || side == original)
  }

  /**
   * The padding `adjustPaddings` installs: in select mode every side is
   * inflated to make room for the handles, otherwise the saved original
   * padding comes back unchanged.
   */
  function AdjustedPaddings(inSelectMode: bool, original: Paddings): (p: Paddings)
    ensures !inSelectMode ==> p == original
    ensures inSelectMode ==>
              && Inflated(p.left, original.left) && Inflated(p.top, original.top)
              && Inflated(p.right, original.right) && Inflated(p.bottom, original.bottom)
  {
    if inSelectMode then
      Paddings(CoerceAtLeast(original.left, HandleRadius), CoerceAtLeast(original.top, HandleRadius),
               CoerceAtLeast(original.right, HandleRadius), CoerceAtLeast(original.bottom, HandleRadius))
    else
      original
  }
}
