# SelectableTextView selection model

A Dafny model of the selection state machine in `SelectableTextView`, an Android text view. You enter its select mode by calling it; the view then highlights a character range and shows two draggable handles. It reports every change to a single listener.

The model has four modules:

- `Basics`: `Option`, `Abs`, plus Kotlin's `coerceAtLeast` and `coerceAtMost` on `Int`.
- `Geometry`: the pixel side of the view:
  - the line helpers, which return 0 when no layout exists yet;
  - the highlight rectangles and handle centres computed in `onDraw`;
  - the square touch target of a handle;
  - the padding that select mode installs.
- `SelectionRules`: the selection rules as values:
  - the `selection` slice;
  - the exchange rule;
  - the start- and end-handle move rules, including the trailing-edge special case;
  - whole drags as sequences of moves.
- `SelectableView`: the class `SelectableTextView`:
  - It has the widget's own fields: `startCharOffset`, `endCharOffset`, the handle centres, `isHandlingStart`, `isHandlingEnd`, `isInSelectMode`, `originalPaddings`, the current paddings and the listener slot.
  - Its methods change those fields step by step, as the widget does.
  - Each method's contract gives the new state in terms of `SelectionRules` and `Geometry`.
  - The listener is a ghost log of notices, each one `(slice, isAllSelected)`.

Some things the view relies on come from the host. These become parameters:

- the measured text layout: `Option<TextLayout>`, where `None` means the layout is still null;
- the view width and whether the view is gone;
- the character offset the layout resolves for a touch position: a function `(x, y) -> offset`.

Where the platform would throw, the model has an explicit error value:

- `subSequence` throws when the offsets are out of order or out of range. `Slice` is then `None`, and the log records `SelectionOutOfBounds`.
- `getCoordinateOffset` dereferences a null layout. `CoordinateOffset`, `Highlight` and `HandleCenters` are then `None`.

Some behaviours of the code are easy to miss:

- `select` raises only the start to 0 and lowers only the end to the text length. It never reorders them. So `select(5, 2)`, or a start beyond the text, leaves offsets that do not delimit a slice. The next `selection` read then throws (`SelectedRange` states exactly when the selection exists).
- The trailing-edge rule notifies even when the start offset was already `end - 1` (`TrailingEdgeNotifiesWithoutChange`).
- On an empty text it sets the start offset to -1 (`TrailingEdgeOnEmptyText`).
- The original padding is saved at construction and again by every call of the overridden `setPadding`.
- The hit test adds the top padding to a handle centre that already includes it. So the point where a handle is drawn lies on its own touch target only when the top padding is at most 40 (`DrawnCenterHit`).

## Model

| member | source | states |
|---|---|---|
| `Basics.CoerceAtLeast` | selectabletextview/src/main/java/com/ctc/selectabletextview/SelectableTextView.kt:282-285 | the result is the larger of the value and the minimum, and is one of the two |
| `Basics.CoerceAtMost` | selectabletextview/src/main/java/com/ctc/selectabletextview/SelectableTextView.kt:324 | the result is the smaller of the value and the maximum, and is one of the two |
| `Geometry.LineTop` | selectabletextview/src/main/java/com/ctc/selectabletextview/SelectableTextView.kt:199-201 | with no layout the top is 0; on a well-formed layout a line's top is never below its bottom |
| `Geometry.LineBottom` | selectabletextview/src/main/java/com/ctc/selectabletextview/SelectableTextView.kt:209-211 | with no layout the bottom is 0 |
| `Geometry.LineForOffset` | selectabletextview/src/main/java/com/ctc/selectabletextview/SelectableTextView.kt:229-231 | with no layout every offset is on line 0 |
| `Geometry.LineHeight` | selectabletextview/src/main/java/com/ctc/selectabletextview/SelectableTextView.kt:219-221 | a line's height is never negative on a well-formed layout |
| `Geometry.NoLayoutFallback` | selectabletextview/src/main/java/com/ctc/selectabletextview/SelectableTextView.kt:199-231 | with no layout, line top, bottom, height and line-for-offset are all 0 |
| `Geometry.LineHeightIgnoresPadding` | selectabletextview/src/main/java/com/ctc/selectabletextview/SelectableTextView.kt:219-221 | the top padding cancels out: a line's height is its layout bottom minus its layout top |
| `Geometry.CoordinateOffset` | selectabletextview/src/main/java/com/ctc/selectabletextview/SelectableTextView.kt:239-244 | the caret point exists exactly when a layout exists (there is no fallback here) |
| `Geometry.Highlight` | selectabletextview/src/main/java/com/ctc/selectabletextview/SelectableTextView.kt:44-88 | the highlight can be computed exactly when a layout exists |
| `Geometry.HighlightBlockCount` | selectabletextview/src/main/java/com/ctc/selectabletextview/SelectableTextView.kt:46-88 | when the start line is not after the end line, there are min(number of lines spanned, 3) rectangles: one per boundary line plus one block for the lines between |
| `Geometry.HighlightCoversSelectedLines` | selectabletextview/src/main/java/com/ctc/selectabletextview/SelectableTextView.kt:44-88 | on a well-formed layout, every line from the start line to the end line lies vertically inside some rectangle; each interior line is covered across the full content width |
| `Geometry.HighlightBandsDisjoint` | selectabletextview/src/main/java/com/ctc/selectabletextview/SelectableTextView.kt:44-88 | on a well-formed layout, no two rectangles overlap vertically, and all lie between the start line's top and the end line's bottom |
| `Geometry.HighlightPaintsBoundaryLines` | selectabletextview/src/main/java/com/ctc/selectabletextview/SelectableTextView.kt:63-88 | on a well-formed layout: on a single line exactly the pixels from the start caret to the end caret are highlighted; otherwise exactly those from the start caret to the right content edge on the start line, and from the left content edge to the end caret on the end line |
| `Geometry.HandleCenters` | selectabletextview/src/main/java/com/ctc/selectabletextview/SelectableTextView.kt:93-110 | the start handle sits at the start caret on its line's top; the end handle sits at the end caret on its line's bottom; without a layout the draw fails |
| `Geometry.InHandle` | selectabletextview/src/main/java/com/ctc/selectabletextview/SelectableTextView.kt:268-275 | a touch hits a handle exactly when the view is in select mode and the touch is within 40 of the centre in x and within 40 of (centre y + paddingTop) in y |
| `Geometry.DrawnCenterHit` | selectabletextview/src/main/java/com/ctc/selectabletextview/SelectableTextView.kt:268-275 | the drawn centre of a handle is on its own touch target exactly when the top padding is between -40 and 40 |
| `Geometry.AdjustedPaddings` | selectabletextview/src/main/java/com/ctc/selectabletextview/SelectableTextView.kt:280-295 | in select mode every side is at least 12 and at least the original, and equals one of the two; otherwise the padding is the original one |
| `SelectionRules.Slice` | selectabletextview/src/main/java/com/ctc/selectabletextview/SelectableTextView.kt:347-348 | the selection exists exactly when 0 <= start <= end <= length; it then has end - start characters, and character k of it is character start + k of the text |
| `SelectionRules.AllSelectedIffWholeRange` | selectabletextview/src/main/java/com/ctc/selectabletextview/SelectableTextView.kt:300-305 | the all-selected flag (the slice equals the text) holds exactly when start is 0 and end is the text length |
| `SelectionRules.SelectedRange` | selectabletextview/src/main/java/com/ctc/selectabletextview/SelectableTextView.kt:321-328 | after clamping, the selection exists exactly when 0 <= end, start <= length and start <= end; in-range bounds select text[start..end]; bounds beyond both ends select the whole text |
| `SelectionRules.Exchanged` | selectabletextview/src/main/java/com/ctc/selectabletextview/SelectableTextView.kt:249-259 | afterwards start <= end; the (offset, held) pairs of the two handles are only permuted, so the held count is kept; nothing changes when the offsets were already ordered |
| `SelectionRules.EndHandleMoved` | selectabletextview/src/main/java/com/ctc/selectabletextview/SelectableTextView.kt:142-151 | it notifies exactly when the new offset differs from both bounds, and otherwise changes nothing; after a change start < end, and the end handle's pair has moved to the new offset |
| `SelectionRules.StartHandleMoved` | selectabletextview/src/main/java/com/ctc/selectabletextview/SelectableTextView.kt:152-165 | the same rule for the start handle, except at the trailing edge (new offset = end = length), where start becomes end - 1 and the listener is notified |
| `SelectionRules.Moved` | selectabletextview/src/main/java/com/ctc/selectabletextview/SelectableTextView.kt:141-169 | with the end handle held the end-handle rule applies (even if the start handle is held too); with only the start handle held the start-handle rule applies; with neither held nothing changes and nobody is notified |
| `SelectionRules.MoveWithoutHandleIsIgnored` | selectabletextview/src/main/java/com/ctc/selectabletextview/SelectableTextView.kt:166-168 | a move with no handle held changes nothing and does not notify |
| `SelectionRules.MoveKeepsSelection` | selectabletextview/src/main/java/com/ctc/selectabletextview/SelectableTextView.kt:141-165 | one move to an offset inside the text keeps 0 <= start < end <= length |
| `SelectionRules.MoveKeepsHeldCount` | selectabletextview/src/main/java/com/ctc/selectabletextview/SelectableTextView.kt:141-165 | a move never changes how many handles are held |
| `SelectionRules.FingerKeepsItsHandle` | selectabletextview/src/main/java/com/ctc/selectabletextview/SelectableTextView.kt:249-257 | after a move that changed something (other than at the trailing edge), the handle now at the finger's offset is the held one |
| `SelectionRules.TrailingEdgeOnEmptyText` | selectabletextview/src/main/java/com/ctc/selectabletextview/SelectableTextView.kt:158-161 | on an empty text, the trailing-edge rule sets start to -1, and the selection getter then throws |
| `SelectionRules.TrailingEdgeNotifiesWithoutChange` | selectabletextview/src/main/java/com/ctc/selectabletextview/SelectableTextView.kt:158-162 | when start is already end - 1 at the trailing edge, the move notifies without changing anything |
| `SelectionRules.DragNeverCollapses` | selectabletextview/src/main/java/com/ctc/selectabletextview/SelectableTextView.kt:141-165 | a drag, however many moves long, keeps a non-empty selection inside the text non-empty and inside the text |
| `SelectionRules.DragKeepsHeldCount` | selectabletextview/src/main/java/com/ctc/selectabletextview/SelectableTextView.kt:141-169 | a drag never grabs or releases a handle |
| `SelectableView.SelectableTextView.constructor` | selectabletextview/src/main/java/com/ctc/selectabletextview/SelectableTextView.kt:381-387 | both offsets are 0, both centres are (0, 0), no handle is held, the view is not in select mode, the initial padding is saved as the original, and there is no listener |
| `SelectableView.SelectableTextView.SetOnSelectionChangListener` | selectabletextview/src/main/java/com/ctc/selectabletextview/SelectableTextView.kt:353-355 | the single listener slot is filled or emptied |
| `SelectableView.SelectableTextView.RemoveOnSelectionChangeListener` | selectabletextview/src/main/java/com/ctc/selectabletextview/SelectableTextView.kt:360-362 | the listener slot is emptied |
| `SelectableView.SelectableTextView.NotifySelectionChanged` | selectabletextview/src/main/java/com/ctc/selectabletextview/SelectableTextView.kt:300-306 | with a listener, exactly one notice is logged: the current slice with its all-selected flag, or the getter's exception; without one, nothing is logged |
| `SelectableView.SelectableTextView.SetPadding` | selectabletextview/src/main/java/com/ctc/selectabletextview/SelectableTextView.kt:184-191 | the padding is applied and saved as the original |
| `SelectableView.SelectableTextView.AdjustPaddings` | selectabletextview/src/main/java/com/ctc/selectabletextview/SelectableTextView.kt:280-295 | the current padding becomes the one for the current mode; the saved original is outside its frame, so it is never changed |
| `SelectableView.SelectableTextView.Select` | selectabletextview/src/main/java/com/ctc/selectabletextview/SelectableTextView.kt:321-328 | select mode on; start = max(0, s) and end = min(length, e); in-range bounds give the selection text[s..e]; the padding is inflated; one notice for the new selection |
| `SelectableView.SelectableTextView.SelectAll` | selectabletextview/src/main/java/com/ctc/selectabletextview/SelectableTextView.kt:311-313 | select mode on, the selection is the whole text, and the listener hears (text, true) |
| `SelectableView.SelectableTextView.Unselect` | selectabletextview/src/main/java/com/ctc/selectabletextview/SelectableTextView.kt:333-340 | select mode off, both offsets are 0, the selection is empty, the original padding is restored, and the listener hears ("", text is empty) |
| `SelectableView.SelectableTextView.OnDetachedFromWindow` | selectabletextview/src/main/java/com/ctc/selectabletextview/SelectableTextView.kt:179-182 | detaching from the window has the same effect as `unselect` |
| `SelectableView.SelectableTextView.ExchangeHandleIfShould` | selectabletextview/src/main/java/com/ctc/selectabletextview/SelectableTextView.kt:249-259 | the offsets and held flags become `Exchanged` of the old ones, and exactly one notification is attempted |
| `SelectableView.SelectableTextView.MoveEndHandle` | selectabletextview/src/main/java/com/ctc/selectabletextview/SelectableTextView.kt:142-151 | the state follows `EndHandleMoved`, and a notice is logged only when it reports a change |
| `SelectableView.SelectableTextView.MoveStartHandle` | selectabletextview/src/main/java/com/ctc/selectabletextview/SelectableTextView.kt:152-165 | the state follows `StartHandleMoved`, including the trailing edge; a notice is logged only when it reports a change |
| `SelectableView.SelectableTextView.OnTouchEvent` | selectabletextview/src/main/java/com/ctc/selectabletextview/SelectableTextView.kt:126-177 | DOWN grabs the end handle if hit, else the start handle if hit, setting only that flag; MOVE follows `Moved`; UP releases both handles; other actions change nothing |
| `SelectableView.SelectableTextView.OnDraw` | selectabletextview/src/main/java/com/ctc/selectabletextview/SelectableTextView.kt:39-123 | outside select mode, or when gone, there is no highlight and the centres stay; in select mode the highlight is `Highlight` and the centres become `HandleCenters` |

## Left out

- Canvas drawing is not modelled: paint colours, stroke widths, the circles and tick lines of the handles, and `invalidate()`. These are rendering side effects. Only the highlight rectangles and the handle centres are kept.
- The Android `Layout` is a parameter, not a model: `getLineForOffset`, `getLineTop`, `getLineBottom`, `getPrimaryHorizontal` and the view's `getOffsetForPosition` are host functions. `WellFormed` is the only assumption made about line geometry, and only the geometry lemmas use it.
- Floats are integers. The line helpers return integer-valued floats, so nothing is lost there. The caret x from `getPrimaryHorizontal` is generally fractional; `primaryHorizontal` stands for the value after the source's `toInt()` truncation. Touch coordinates (`event.x`, `event.y`) are fractional too and are taken as already rounded to integers, so the hit test does not model sub-pixel touches at the edge of a touch target.
- Offsets count UTF-16 code units, as `text.length` and `subSequence` do. `text: string` stands for the sequence of code units, read through an injective encoding, since a Dafny `char` cannot hold a lone surrogate. So the model does not show that the trailing-edge `end - 1` can split a surrogate pair.
- Kotlin `Int` is 32 bits, and pixel sums such as the touch-target bounds and the end handle's centre can wrap around. The model uses unbounded integers and ignores that wrap-around.
- `super.onTouchEvent` is not modelled: its answer is `DelegatedToSuper`. The same goes for `parent.requestDisallowInterceptTouchEvent`. ACTION_CANCEL, which the source does not handle, is part of `ActionOther`.
- Exceptions do not propagate. A throwing `selection` read inside a notification is logged as `SelectionOutOfBounds`. Notifying is always the last state change of its caller, so no later field update is lost. A throwing draw is `None`.
- The listener's identity and its UI effects are not modelled. The single slot is a flag, and every delivery goes to one ghost log.
- `setText`, inherited from the base text view, is not modelled. `text` is a constant, so the model does not show the offsets going stale after a text change: a shorter text set in select mode leaves `endCharOffset` past the text, and the next `selection` read or notification throws. Visibility appears only as the `gone` argument of `OnDraw`.
- The platform may call the overridden `setPadding` from the superclass constructor, before the `init` block runs. That ordering is not modelled: the constructor takes the initial padding as a parameter.
- `SelectionRules.DragNeverCollapses` and `SelectionRules.MoveKeepsSelection` assume every offset the layout reports is inside the text. The platform answers -1 when no layout exists, and such moves fall outside these lemmas.
- app/src/main/java/com/example/selectabletextview/MainActivity.kt is not part of this model. It is UI glue: it wires click to `unselect`, long click to `selectAll`, and a listener that shows the slice.
