/**
 * The text controller's implementation record: the text as a buffer of code
 * points, the editing data (cursor, selection handles, pre-edit run, queued
 * input events, the editing state) and the rules that move them.
 *
 * The editing data is a value (`EventData`) held by the `Impl` object, which
 * reassigns it; the rules on it are functions over that value and a read-only
 * `Context` drawn from the rest of the object. Glyph geometry, the font
 * client, and the decorator's notion of where things are on screen are given
 * as the functions of a `Geometry` value.
 */
module TextControllerImpl {
  import opened Wrappers
  import opened PropertyMap
  import opened Layout
  import SelectionPopup

  /** Text as a sequence of Unicode code points (UTF-32). */
  type Text = seq<int>

  // Key codes, as dali-core defines them.
  const KEY_ESCAPE: int := 9
  const KEY_BACKSPACE: int := 22
  const KEY_CURSOR_UP: int := 111
  const KEY_CURSOR_LEFT: int := 113
  const KEY_CURSOR_RIGHT: int := 114
  const KEY_CURSOR_DOWN: int := 116

  // Gesture states, as dali-core numbers them.
  const GESTURE_STARTED: int := 1
  const GESTURE_CONTINUING: int := 2

  // ----- Events -----

  datatype EventType =
    | CursorKeyEvent | TapEvent | PanEvent | LongPressEvent | GrabHandleEvent
    | LeftSelectionHandleEvent | RightSelectionHandleEvent | SelectEvent | SelectAllEvent

  /**
   * A queued input event. Each of the source's three parameters is a union of an
   * int, an unsigned and a float; the first is only ever read as an integer and
   * the other two only as floats, so the model keeps those views.
   */
  datatype Event = Event(eventType: EventType, p1: int, p2: real, p3: real)

  /** A new event of a type, all three parameters zeroed. */
  function NewEvent(eventType: EventType): (e: Event)
    ensures e.eventType == eventType && e.p1 == 0 && e.p2 == 0.0 && e.p3 == 0.0
  {
    Event(eventType, 0, 0.0, 0.0)
  }

  // ----- The editing state machine -----

  datatype State =
    | Inactive | Interrupted | Selecting | SelectionChanged | Editing | EditingWithPopup
    | EditingWithGrabHandle | EditingWithPastePopup | GrabHandlePanning | SelectionHandlePanning

  /** The states in which text is being edited. */
  predicate IsEditingState(s: State)
  {
    s == Editing || s == EditingWithPopup || s == EditingWithGrabHandle || s == EditingWithPastePopup
  }

  /** Exactly the four editing states are editing states. */
  lemma EditingStates()
    ensures forall s: State :: IsEditingState(s) <==>
              s in {Editing, EditingWithPopup, EditingWithGrabHandle, EditingWithPastePopup}
  {
  }

  datatype ActiveCursor = CursorNone | CursorPrimary | CursorBoth

  datatype HandleType = GrabHandle | LeftSelectionHandle | RightSelectionHandle

  /** What the controller has told the decorator: the active cursor, blinking, which
      handles and whether the popup are active, and the popup's enabled buttons. */
  datatype Decorator = Decorator(activeCursor: ActiveCursor, cursorBlinking: bool,
                                 grabHandleActive: bool, leftHandleActive: bool, rightHandleActive: bool,
                                 popupActive: bool, popupButtons: set<SelectionPopup.Button>)

  /** The editing data of a controller with text input enabled. */
  datatype EventData = EventData(
    decorator: Decorator,
    hasImfManager: bool,
    placeholderTextActive: Text,
    placeholderTextInactive: Text,
    eventQueue: seq<Event>,
    scrollPosition: Vector2,
    state: State,
    primaryCursorPosition: nat,
    leftSelectionPosition: nat,
    rightSelectionPosition: nat,
    preEditStartPosition: nat,
    preEditLength: nat,
    isShowingPlaceholderText: bool,
    preEditFlag: bool,
    decoratorUpdated: bool,
    cursorBlinkEnabled: bool,
    grabHandleEnabled: bool,
    grabHandlePopupEnabled: bool,
    selectionEnabled: bool,
    horizontalScrollingEnabled: bool,
    verticalScrollingEnabled: bool,
    updateCursorPosition: bool,
    updateLeftSelectionPosition: bool,
    updateRightSelectionPosition: bool,
    scrollAfterUpdatePosition: bool,
    scrollAfterDelete: bool,
    allTextSelected: bool)

  /** Fresh editing data: inactive, everything at zero, no queued events, no pre-edit. */
  function NewEventData(decorator: Decorator, hasImfManager: bool): EventData
  {
    EventData(decorator, hasImfManager, [], [], [], VECTOR2_ZERO, Inactive, 0, 0, 0, 0, 0,
              false, false, false, true, true, true, true, true, false, false, false, false, false, false, false)
  }

  datatype ModifyEventType = TextReplaced | TextInserted | TextDeleted

  /** The layout operations a relayout may do. The source's mask has more bits; those the
      controller never names on their own are folded into `OtherOperations`. */
  datatype Operation = Layout | Align | UpdateActualSize | Reorder | OtherOperations

  const ALL_OPERATIONS: set<Operation> := {Layout, Align, UpdateActualSize, Reorder, OtherOperations}
  const SIZE_OPERATIONS: set<Operation> := {Layout, Align, UpdateActualSize, Reorder}

  /** A laid out line: its ascender and (negative) descender. */
  datatype LineRun = LineRun(ascender: real, descender: real)

  /** What the controller keeps of the logical and visual models besides the text. */
  datatype ModelData = ModelData(numberOfGlyphs: nat, lines: seq<LineRun>, numberOfGlyphPositions: nat,
                                 actualSize: Vector2, firstParagraphRightToLeft: bool)

  /** Calls out of the controller, counted: relayout requests to the control, the control's
      text-changed and max-length-reached callbacks, and resets of the input method. */
  datatype Calls = Calls(relayoutRequests: nat, textChanged: nat, maxLengthReached: nat, imfResets: nat)

  /** The rest of the controller, as the editing rules read it. */
  datatype Context = Context(text: Text, controlSize: Vector2, actualSize: Vector2, alignmentOffset: Vector2,
                             clipboardEmpty: bool, numberOfGlyphs: nat, numberOfLines: nat)

  /** Where the decorator element scrolling makes visible is. */
  datatype ScrollTarget = PrimaryCursorTarget | LeftHandleTarget | RightHandleTarget | MatchCursorTarget

  /**
   * Glyph geometry and character classes: the character index closest to a point in
   * text coordinates; the cursor index after skipping the glyphs that form one
   * character; white space; the scroll position after making a decorator element
   * visible; and how a handle-drag event changes the editing data.
   */
  datatype Geometry = Geometry(closestCursorIndex: (real, real) -> nat,
                               newCursorIndex: nat -> nat,
                               isWhiteSpace: int -> bool,
                               scrollFor: (ScrollTarget, Vector2) -> Vector2,
                               onHandleEvent: (EventData, Event) -> EventData)

  // ----- The modify-event queue -----

  /** Queuing a modify event: a replacement cancels everything queued before it. */
  function QueuedModifyEvents(queue: seq<ModifyEventType>, t: ModifyEventType): (r: seq<ModifyEventType>)
    ensures |r| > 0 && r[|r| - 1] == t
    ensures t == TextReplaced ==> |r| == 1
    ensures t != TextReplaced ==> |r| == |queue| + 1 && r[..|queue|] == queue
  {
    if t == TextReplaced then [t] else queue + [t]
  }

  // ----- Popup buttons -----

  /**
   * The popup buttons for the editing state. While selecting: cut and copy, paste and
   * clipboard when the clipboard has content, and select-all unless everything is
   * selected. While editing with the popup: select and select-all when real text is
   * shown, and paste and clipboard when the clipboard has content. Otherwise none.
   */
  function PopupButtons(ctx: Context, ed: EventData): (r: set<SelectionPopup.Button>)
    ensures SelectionPopup.Cut in r <==> ed.state in {Selecting, SelectionChanged}
    ensures SelectionPopup.Copy in r <==> ed.state in {Selecting, SelectionChanged}
    ensures SelectionPopup.Paste in r <==>
              ed.state in {Selecting, SelectionChanged, EditingWithPopup} && !ctx.clipboardEmpty
    ensures SelectionPopup.Clipboard in r <==>
              ed.state in {Selecting, SelectionChanged, EditingWithPopup} && !ctx.clipboardEmpty
    ensures SelectionPopup.SelectAll in r <==>
              (ed.state in {Selecting, SelectionChanged} && !ed.allTextSelected) ||
              (ed.state == EditingWithPopup && |ctx.text| != 0 && !ed.isShowingPlaceholderText)
    ensures SelectionPopup.Select in r <==>
              ed.state == EditingWithPopup && |ctx.text| != 0 && !ed.isShowingPlaceholderText
    ensures SelectionPopup.NoButton !in r
  {
    var paste: set<SelectionPopup.Button> := if !ctx.clipboardEmpty then {SelectionPopup.Paste, SelectionPopup.Clipboard} else {};
    if ed.state == Selecting || ed.state == SelectionChanged then
      {SelectionPopup.Cut, SelectionPopup.Copy} + paste +
      (if !ed.allTextSelected then {SelectionPopup.SelectAll} else {})
    else if ed.state == EditingWithPopup then
      (if |ctx.text| != 0 && !ed.isShowingPlaceholderText then {SelectionPopup.Select, SelectionPopup.SelectAll} else {}) +
      paste
    else {}
  }

  /** Setting the popup buttons changes only the decorator's buttons. */
  function SetPopupButtonsSpec(ctx: Context, ed: EventData): EventData
  {
    ed.(decorator := ed.decorator.(popupButtons := PopupButtons(ctx, ed)))
  }

  // ----- State changes -----

  /** The decorator after entering `newState`, with `e` already in the new state. */
  function EnteredDecorator(ctx: Context, e: EventData): Decorator
  {
    var d := e.decorator;
    var popup := e.grabHandlePopupEnabled;
    var blink := if e.cursorBlinkEnabled then true else d.cursorBlinking;
    match e.state
    case Inactive =>
      d.(activeCursor := CursorNone, cursorBlinking := false, grabHandleActive := false,
         leftHandleActive := false, rightHandleActive := false, popupActive := false)
    case Interrupted =>
      d.(grabHandleActive := false, leftHandleActive := false, rightHandleActive := false, popupActive := false)
    case Selecting =>
      d.(activeCursor := CursorNone, cursorBlinking := false, grabHandleActive := false,
         leftHandleActive := true, rightHandleActive := true,
         popupButtons := if popup then PopupButtons(ctx, e) else d.popupButtons,
         popupActive := if popup then true else d.popupActive)
    case SelectionChanged =>
      if popup then d.(popupButtons := PopupButtons(ctx, e), activeCursor := CursorNone, popupActive := true) else d
    case Editing =>
      d.(activeCursor := CursorPrimary, cursorBlinking := blink, grabHandleActive := false,
         leftHandleActive := false, rightHandleActive := false,
         popupActive := if popup then false else d.popupActive)
    case EditingWithPopup =>
      d.(activeCursor := CursorPrimary, cursorBlinking := blink,
         leftHandleActive := if e.selectionEnabled then false else d.leftHandleActive,
         rightHandleActive := if e.selectionEnabled then false else d.rightHandleActive,
         grabHandleActive := if e.selectionEnabled then d.grabHandleActive else true,
         popupButtons := if popup then PopupButtons(ctx, e) else d.popupButtons,
         popupActive := if popup then true else d.popupActive)
    case EditingWithGrabHandle =>
      d.(activeCursor := CursorPrimary, cursorBlinking := blink, grabHandleActive := true,
         leftHandleActive := false, rightHandleActive := false,
         popupActive := if popup then false else d.popupActive)
    case EditingWithPastePopup => d
    case SelectionHandlePanning =>
      d.(activeCursor := CursorNone, cursorBlinking := false, grabHandleActive := false,
         leftHandleActive := true, rightHandleActive := true,
         popupActive := if popup then false else d.popupActive)
    case GrabHandlePanning =>
      d.(activeCursor := CursorPrimary, cursorBlinking := blink, grabHandleActive := true,
         leftHandleActive := false, rightHandleActive := false,
         popupActive := if popup then false else d.popupActive)
  }

  /**
   * Changing the editing state. Nothing happens when the state does not change.
   * Otherwise the state is the new one; entering INACTIVE deactivates the cursor, all
   * three handles and the popup; entering SELECTING activates both selection handles and
   * deactivates the grab handle; the editing states, except the paste-popup one, show
   * the primary cursor. Only the state, the decorator and the decorator-updated flag
   * change.
   */
  function ChangeStateSpec(ctx: Context, ed: EventData, newState: State): (r: EventData)
    ensures ed.state == newState ==> r == ed
    ensures r.state == newState
    ensures r == ed.(state := r.state, decorator := r.decorator, decoratorUpdated := r.decoratorUpdated)
    ensures ed.state != newState && newState == Inactive ==>
              r.decorator.activeCursor == CursorNone && !r.decorator.grabHandleActive &&
              !r.decorator.leftHandleActive && !r.decorator.rightHandleActive && !r.decorator.popupActive
    ensures ed.state != newState && newState == Selecting ==>
              r.decorator.leftHandleActive && r.decorator.rightHandleActive && !r.decorator.grabHandleActive
    ensures ed.state != newState && IsEditingState(newState) && newState != EditingWithPastePopup ==>
              r.decorator.activeCursor == CursorPrimary && r.decoratorUpdated
    ensures ed.state != newState && newState == EditingWithPastePopup ==> r == ed.(state := newState)
  {
    if ed.state == newState then ed
    else
      var e := ed.(state := newState);
      if newState == EditingWithPastePopup then e
      else e.(decorator := EnteredDecorator(ctx, e), decoratorUpdated := true)
  }

  // ----- Word selection -----

  /** The start of the run of non-white-space characters that ends at `i`. */
  function WordStart(text: Text, isWhiteSpace: int -> bool, i: nat): (r: nat)
    requires i <= |text|
    ensures r <= i
    ensures r == 0 || isWhiteSpace(text[r - 1])
    ensures forall k :: r <= k < i ==> !isWhiteSpace(text[k])
  {
    if i == 0 || isWhiteSpace(text[i - 1]) then i else WordStart(text, isWhiteSpace, i - 1)
  }

  /** The end of the run of non-white-space characters that starts at `j`. */
  function WordEnd(text: Text, isWhiteSpace: int -> bool, j: nat): (r: nat)
    requires j <= |text|
    ensures j <= r <= |text|
    ensures r == |text| || isWhiteSpace(text[r])
    ensures forall k :: j <= k < r ==> !isWhiteSpace(text[k])
    decreases |text| - j
  {
    if j == |text| || isWhiteSpace(text[j]) then j else WordEnd(text, isWhiteSpace, j + 1)
  }

  /** Walks back from `i` over non-white-space characters. */
  method ScanWordStart(text: Text, isWhiteSpace: int -> bool, i: nat) returns (start: nat)
    requires i <= |text|
    ensures start == WordStart(text, isWhiteSpace, i)
  {
    start := i;
    while start > 0 && !isWhiteSpace(text[start - 1])
      invariant start <= i
      invariant WordStart(text, isWhiteSpace, start) == WordStart(text, isWhiteSpace, i)
    {
      start := start - 1;
    }
  }

  /** Walks forward from `j` over non-white-space characters. */
  method ScanWordEnd(text: Text, isWhiteSpace: int -> bool, j: nat) returns (end: nat)
    requires j <= |text|
    ensures end == WordEnd(text, isWhiteSpace, j)
  {
    end := j;
    while end < |text| && !isWhiteSpace(text[end])
      invariant j <= end <= |text|
      invariant WordEnd(text, isWhiteSpace, end) == WordEnd(text, isWhiteSpace, j)
    {
      end := end + 1;
    }
  }

  /**
   * The selection for a hit character: the maximal run of non-white-space characters
   * containing it; a white-space hit selects nothing at the hit; a hit outside the text
   * leaves the given indices as they were.
   */
  function SelectionIndices(text: Text, isWhiteSpace: int -> bool, hit: nat, start: nat, end: nat): (r: (nat, nat))
    ensures hit >= |text| ==> r == (start, end)
    ensures hit < |text| && isWhiteSpace(text[hit]) ==> r == (hit, hit)
    ensures hit < |text| && !isWhiteSpace(text[hit]) ==>
              r.0 <= hit < r.1 <= |text| &&
              (forall k :: r.0 <= k < r.1 ==> !isWhiteSpace(text[k])) &&
              (r.0 == 0 || isWhiteSpace(text[r.0 - 1])) &&
              (r.1 == |text| || isWhiteSpace(text[r.1]))
  {
    if hit >= |text| then (start, end)
    else if isWhiteSpace(text[hit]) then (hit, hit)
    else (WordStart(text, isWhiteSpace, hit), WordEnd(text, isWhiteSpace, hit + 1))
  }

  // ----- Lines -----

  /** The height of the first `n` lines, each ascender minus descender. */
  function CumulativeHeight(lines: seq<LineRun>, n: nat): real
    requires n <= |lines|
  {
    if n == 0 then 0.0 else CumulativeHeight(lines, n - 1) + (lines[n - 1].ascender + -lines[n - 1].descender)
  }

  /** Where line `k` ends, measured from the top of the text. */
  function LineBottom(lines: seq<LineRun>, k: nat): real
    requires k < |lines|
  {
    CumulativeHeight(lines, k + 1)
  }

  // ----- Scrolling -----

  /**
   * Clamping one scroll coordinate so that the text fills the control. When the text is
   * larger than the control the result lies between -space and the negated alignment
   * offset, a scroll already there is kept, and one outside goes to the nearer bound;
   * otherwise the scroll is zero.
   */
  function ClampedScroll(scroll: real, actual: real, control: real, alignmentOffset: real): (r: real)
    ensures actual > control ==>
              -(actual - control + alignmentOffset) <= r <= -alignmentOffset &&
              (-(actual - control + alignmentOffset) <= scroll <= -alignmentOffset ==> r == scroll) &&
              (scroll < -(actual - control + alignmentOffset) ==> r == -(actual - control + alignmentOffset)) &&
              (scroll > -alignmentOffset ==> r == -alignmentOffset)
    ensures actual <= control ==> r == 0.0
  {
    if actual > control then
      var space := (actual - control) + alignmentOffset;
      var s := if scroll < -space then -space else scroll;
      if s > -alignmentOffset then -alignmentOffset else s
    else 0.0
  }

  function ClampHorizontalSpec(ctx: Context, ed: EventData, actualSize: Vector2): (r: EventData)
    ensures r.scrollPosition.y == ed.scrollPosition.y
    ensures r.scrollPosition.x == ClampedScroll(ed.scrollPosition.x, actualSize.x, ctx.controlSize.x, ctx.alignmentOffset.x)
    ensures r == ed.(scrollPosition := r.scrollPosition, decoratorUpdated := r.decoratorUpdated)
  {
    if actualSize.x > ctx.controlSize.x then
      ed.(scrollPosition := Vector2(ClampedScroll(ed.scrollPosition.x, actualSize.x, ctx.controlSize.x, ctx.alignmentOffset.x),
                                    ed.scrollPosition.y),
          decoratorUpdated := true)
    else ed.(scrollPosition := Vector2(0.0, ed.scrollPosition.y))
  }

  function ClampVerticalSpec(ctx: Context, ed: EventData, actualSize: Vector2): (r: EventData)
    ensures r.scrollPosition.x == ed.scrollPosition.x
    ensures r.scrollPosition.y == ClampedScroll(ed.scrollPosition.y, actualSize.y, ctx.controlSize.y, ctx.alignmentOffset.y)
    ensures r == ed.(scrollPosition := r.scrollPosition, decoratorUpdated := r.decoratorUpdated)
  {
    if actualSize.y > ctx.controlSize.y then
      ed.(scrollPosition := Vector2(ed.scrollPosition.x,
                                    ClampedScroll(ed.scrollPosition.y, actualSize.y, ctx.controlSize.y, ctx.alignmentOffset.y)),
          decoratorUpdated := true)
    else ed.(scrollPosition := Vector2(ed.scrollPosition.x, 0.0))
  }

  // ----- Selection handles -----

  /** Placing the selection handles at two different indices; equal indices change nothing. */
  function RepositionSpec(ed: EventData, selectionStart: nat, selectionEnd: nat): (r: EventData)
    ensures selectionStart == selectionEnd ==> r == ed
    ensures selectionStart != selectionEnd ==>
              r == ed.(leftSelectionPosition := selectionStart, rightSelectionPosition := selectionEnd, decoratorUpdated := true)
  {
    if selectionStart == selectionEnd then ed
    else ed.(leftSelectionPosition := selectionStart, rightSelectionPosition := selectionEnd, decoratorUpdated := true)
  }

  /** After placing a selection handle, all text is selected exactly when one handle is at
      the start of the text and the other at its end. */
  function UpdateSelectionHandleSpec(ctx: Context, ed: EventData, handle: HandleType): (r: EventData)
    ensures handle == GrabHandle ==> r == ed
    ensures r == ed.(allTextSelected := r.allTextSelected)
    ensures handle != GrabHandle ==>
              (r.allTextSelected <==>
                 (ed.leftSelectionPosition == 0 && ed.rightSelectionPosition == |ctx.text|) ||
                 (ed.rightSelectionPosition == 0 && ed.leftSelectionPosition == |ctx.text|))
  {
    if handle == GrabHandle then ed
    else
      var startOfSelection := MinNat(ed.leftSelectionPosition, ed.rightSelectionPosition);
      var endOfSelection := MaxNat(ed.leftSelectionPosition, ed.rightSelectionPosition);
      ed.(allTextSelected := startOfSelection == 0 && endOfSelection == |ctx.text|)
  }

  function MinNat(a: nat, b: nat): nat { if a < b then a else b }
  function MaxNat(a: nat, b: nat): nat { if a < b then b else a }

  /** Select-all, with selection enabled, puts the handles at 0 and the text length (when the
      text is not empty) and asks for both handles to be updated. */
  function SelectAllSpec(ctx: Context, ed: EventData): (r: EventData)
    ensures !ed.selectionEnabled ==> r == ed
    ensures ed.selectionEnabled && |ctx.text| > 0 ==>
              r.leftSelectionPosition == 0 && r.rightSelectionPosition == |ctx.text|
    ensures ed.selectionEnabled ==>
              r.updateLeftSelectionPosition && r.updateRightSelectionPosition && r.scrollAfterUpdatePosition
  {
    if ed.selectionEnabled then
      RepositionSpec(ed, 0, |ctx.text|).(scrollAfterUpdatePosition := true,
                                         updateLeftSelectionPosition := true,
                                         updateRightSelectionPosition := true)
    else ed
  }

  // ----- Input events -----

  /**
   * A cursor key. Left moves the cursor back, to the start of the character before it,
   * and does nothing at position 0; right moves it past the character after it and does
   * nothing at or past the end of the text; up and down do nothing. Every cursor key asks
   * for the cursor to be updated and scrolled to.
   */
  function CursorKeySpec(ctx: Context, g: Geometry, ed: EventData, event: Event): (r: EventData)
    ensures r.updateCursorPosition && r.scrollAfterUpdatePosition
    ensures r == ed.(primaryCursorPosition := r.primaryCursorPosition, updateCursorPosition := true,
                     scrollAfterUpdatePosition := true)
    ensures event.p1 == KEY_CURSOR_LEFT && ed.primaryCursorPosition == 0 ==> r.primaryCursorPosition == 0
    ensures event.p1 == KEY_CURSOR_LEFT && ed.primaryCursorPosition > 0 ==>
              r.primaryCursorPosition == g.newCursorIndex(ed.primaryCursorPosition - 1)
    ensures event.p1 == KEY_CURSOR_RIGHT && ed.primaryCursorPosition >= |ctx.text| ==>
              r.primaryCursorPosition == ed.primaryCursorPosition
    ensures event.p1 == KEY_CURSOR_RIGHT && ed.primaryCursorPosition < |ctx.text| ==>
              r.primaryCursorPosition == g.newCursorIndex(ed.primaryCursorPosition)
    ensures event.p1 != KEY_CURSOR_LEFT && event.p1 != KEY_CURSOR_RIGHT ==>
              r.primaryCursorPosition == ed.primaryCursorPosition
  {
    var cursor :=
      if event.p1 == KEY_CURSOR_LEFT then
        (if ed.primaryCursorPosition > 0 then g.newCursorIndex(ed.primaryCursorPosition - 1) else ed.primaryCursorPosition)
      else if event.p1 == KEY_CURSOR_RIGHT then
        (if |ctx.text| > ed.primaryCursorPosition then g.newCursorIndex(ed.primaryCursorPosition) else ed.primaryCursorPosition)
      else ed.primaryCursorPosition;
    ed.(primaryCursorPosition := cursor, updateCursorPosition := true, scrollAfterUpdatePosition := true)
  }

  /** A single tap puts the cursor at the tapped character (at 0 over the placeholder text). */
  function TapSpec(ctx: Context, g: Geometry, ed: EventData, event: Event): (r: EventData)
    ensures event.p1 != 1 ==> r == ed
    ensures event.p1 == 1 ==> r.updateCursorPosition && r.scrollAfterUpdatePosition
    ensures event.p1 == 1 && ed.isShowingPlaceholderText ==> r.primaryCursorPosition == 0
  {
    if event.p1 == 1 then
      var cursor :=
        if !ed.isShowingPlaceholderText then
          g.closestCursorIndex(event.p2 - ed.scrollPosition.x - ctx.alignmentOffset.x,
                               event.p3 - ed.scrollPosition.y - ctx.alignmentOffset.y)
        else 0;
      ed.(primaryCursorPosition := cursor, updateCursorPosition := true, scrollAfterUpdatePosition := true)
    else ed
  }

  /** A pan that starts or continues scrolls by its displacement, then clamps, in each
      direction where scrolling is enabled. */
  function PanSpec(ctx: Context, ed: EventData, event: Event): (r: EventData)
    ensures event.p1 != GESTURE_STARTED && event.p1 != GESTURE_CONTINUING ==> r == ed
    ensures !ed.horizontalScrollingEnabled && !ed.verticalScrollingEnabled ==> r == ed
  {
    if event.p1 == GESTURE_STARTED || event.p1 == GESTURE_CONTINUING then
      var e1 :=
        if ed.horizontalScrollingEnabled then
          ClampHorizontalSpec(ctx, ed.(scrollPosition := Vector2(ed.scrollPosition.x + event.p2, ed.scrollPosition.y)),
                              ctx.actualSize)
        else ed;
      if e1.verticalScrollingEnabled then
        ClampVerticalSpec(ctx, e1.(scrollPosition := Vector2(e1.scrollPosition.x, e1.scrollPosition.y + event.p3)),
                          ctx.actualSize)
      else e1
    else ed
  }

  /** A long press while editing opens the popup. */
  function LongPressSpec(ctx: Context, ed: EventData): (r: EventData)
    ensures ed.state != Editing ==> r == ed
    ensures ed.state == Editing ==> r.state == EditingWithPopup && r.decoratorUpdated
  {
    if ed.state == Editing then ChangeStateSpec(ctx, ed, EditingWithPopup).(decoratorUpdated := true) else ed
  }

  /** Selecting the word at a point of the text: nothing over the placeholder text or
      before anything is laid out; a miss (white space or outside the text) goes back to
      editing; a word places the handles around it. */
  function SelectWordAtSpec(ctx: Context, g: Geometry, ed: EventData, x: real, y: real): EventData
  {
    if ed.isShowingPlaceholderText then ed
    else if ctx.numberOfGlyphs == 0 || ctx.numberOfLines == 0 then ed
    else
      var indices := SelectionIndices(ctx.text, g.isWhiteSpace, g.closestCursorIndex(x, y), 0, 0);
      if indices.0 == indices.1 then ChangeStateSpec(ctx, ed, Editing)
      else RepositionSpec(ed, indices.0, indices.1)
  }

  /** A select event selects the word under it and asks for the handles that moved to be
      updated. */
  function SelectSpec(ctx: Context, g: Geometry, ed: EventData, event: Event): (r: EventData)
    ensures !ed.selectionEnabled ==> r == ed
  {
    if ed.selectionEnabled then
      var e1 := SelectWordAtSpec(ctx, g, ed, event.p2 - ed.scrollPosition.x - ctx.alignmentOffset.x,
                                 event.p3 - ed.scrollPosition.y - ctx.alignmentOffset.y);
      var updateLeft := ed.leftSelectionPosition != e1.leftSelectionPosition;
      var updateRight := ed.rightSelectionPosition != e1.rightSelectionPosition;
      e1.(updateLeftSelectionPosition := updateLeft, updateRightSelectionPosition := updateRight,
          scrollAfterUpdatePosition := (updateLeft || updateRight) &&
                                       e1.leftSelectionPosition != e1.rightSelectionPosition)
    else ed
  }

  /** One queued event, handed to the handler for its type. */
  function DispatchOne(ctx: Context, g: Geometry, ed: EventData, event: Event): EventData
  {
    match event.eventType
    case CursorKeyEvent => CursorKeySpec(ctx, g, ed, event)
    case TapEvent => TapSpec(ctx, g, ed, event)
    case LongPressEvent => LongPressSpec(ctx, ed)
    case PanEvent => PanSpec(ctx, ed, event)
    case GrabHandleEvent => g.onHandleEvent(ed, event)
    case LeftSelectionHandleEvent => g.onHandleEvent(ed, event)
    case RightSelectionHandleEvent => g.onHandleEvent(ed, event)
    case SelectEvent => SelectSpec(ctx, g, ed, event)
    case SelectAllEvent => SelectAllSpec(ctx, ed)
  }

  /** The first `n` events, handled in queue order. */
  function DispatchUpTo(ctx: Context, g: Geometry, ed: EventData, events: seq<Event>, n: nat): EventData
    requires n <= |events|
  {
    if n == 0 then ed else DispatchOne(ctx, g, DispatchUpTo(ctx, g, ed, events, n - 1), events[n - 1])
  }

  /** Updating one selection handle after the events: whether all text is selected, a scroll
      to the handle when asked, the popup buttons, and the handle's update flag cleared. */
  function HandleUpdateSpec(ctx: Context, g: Geometry, ed: EventData, handle: HandleType, target: ScrollTarget): (r: EventData)
    requires handle != GrabHandle
  {
    var e1 := UpdateSelectionHandleSpec(ctx, ed, handle);
    var e2 := if e1.scrollAfterUpdatePosition then e1.(scrollPosition := g.scrollFor(target, e1.scrollPosition)) else e1;
    var e3 := SetPopupButtonsSpec(ctx, e2).(decoratorUpdated := true);
    if handle == LeftSelectionHandle then e3.(updateLeftSelectionPosition := false)
    else e3.(updateRightSelectionPosition := false)
  }

  /**
   * What follows the events: a cursor update (with its scroll) takes precedence over a
   * scroll after deletion, which takes precedence over the selection-handle updates.
   * Each clears its own request and marks the decorator updated.
   */
  function AfterEvents(ctx: Context, g: Geometry, ed: EventData): (r: EventData)
    ensures !r.updateCursorPosition
    ensures ed.updateCursorPosition || ed.scrollAfterDelete ==> r.decoratorUpdated
    ensures ed.updateCursorPosition ==> !r.scrollAfterUpdatePosition
    ensures ed.updateCursorPosition ==> r.primaryCursorPosition == ed.primaryCursorPosition
  {
    if ed.updateCursorPosition then
      var e1 :=
        if ed.scrollAfterUpdatePosition then
          ed.(scrollPosition := g.scrollFor(PrimaryCursorTarget, ed.scrollPosition), scrollAfterUpdatePosition := false)
        else ed;
      e1.(decoratorUpdated := true, updateCursorPosition := false)
    else if ed.scrollAfterDelete then
      ed.(scrollPosition := g.scrollFor(MatchCursorTarget, ed.scrollPosition), decoratorUpdated := true,
          scrollAfterDelete := false)
    else
      HandlesAfterEvents(ctx, g, ed)
  }

  /** The selection handles that asked for it are updated, left then right; a scroll by
      either clears the pending scroll. */
  function HandlesAfterEvents(ctx: Context, g: Geometry, ed: EventData): (r: EventData)
  {
    var leftScroll := ed.updateLeftSelectionPosition && ed.scrollAfterUpdatePosition;
    var e1 := if ed.updateLeftSelectionPosition then HandleUpdateSpec(ctx, g, ed, LeftSelectionHandle, LeftHandleTarget) else ed;
    var rightScroll := e1.updateRightSelectionPosition && e1.scrollAfterUpdatePosition;
    var e2 := if e1.updateRightSelectionPosition then HandleUpdateSpec(ctx, g, e1, RightSelectionHandle, RightHandleTarget) else e1;
    if leftScroll || rightScroll then e2.(scrollAfterUpdatePosition := false) else e2
  }

  /**
   * Processing the input events: every queued event is handled in order, then the
   * updates they asked for are done; the queue ends empty, and what is returned is
   * whether the decorator was updated, the flag then being cleared.
   */
  function ProcessInputEventsSpec(ctx: Context, g: Geometry, ed: EventData): (r: (EventData, bool))
    ensures r.0.eventQueue == [] && !r.0.decoratorUpdated && !r.0.updateCursorPosition
    ensures DispatchUpTo(ctx, g, ed, ed.eventQueue, |ed.eventQueue|).updateCursorPosition ==> r.1
    ensures DispatchUpTo(ctx, g, ed, ed.eventQueue, |ed.eventQueue|).scrollAfterDelete ==> r.1
  {
    var e := AfterEvents(ctx, g, DispatchUpTo(ctx, g, ed, ed.eventQueue, |ed.eventQueue|));
    (e.(eventQueue := [], decoratorUpdated := false), e.decoratorUpdated)
  }

  // ----- Selection retrieval -----

  const U32: int := 0x1_0000_0000

  /**
   * The slice the selected text is taken from, as written: it starts at the left handle
   * and its length is right minus left, both in 32-bit unsigned arithmetic, and it is
   * taken when start plus length (again wrapping) is within the text.
   */
  function SelectionSliceAsWritten(left: nat, right: nat, length: nat): Option<(nat, nat)>
    requires left < U32 && right < U32
  {
    if left == right then None
    else
      var count := (right - left) % U32;
      if (left + count) % U32 <= length then Some((left, count)) else None
  }

  /** With the left handle after the right one the check passes while the slice runs past
      the end of the text: handles at 3 and 1 on a five-character text. */
  lemma CrossedHandlesReadPastTheText()
    ensures SelectionSliceAsWritten(3, 1, 5) == Some((3, 0xFFFF_FFFE))
    ensures 3 + 0xFFFF_FFFE > 5
  {
  }

  /** The slice between the two handles, whichever is first, when it lies in the text. */
  function SelectionSlice(left: nat, right: nat, length: nat): (r: Option<(nat, nat)>)
    ensures r.Some? <==> left != right && (if left < right then right else left) <= length
    ensures r.Some? ==> r.value.0 == (if left < right then left else right) &&
                        r.value.0 + r.value.1 == (if left < right then right else left) &&
                        r.value.0 + r.value.1 <= length && r.value.1 > 0
  {
    if left == right then None
    else
      var first := if left < right then left else right;
      var last := if left < right then right else left;
      if last <= length then Some((first, last - first)) else None
  }

  /** Both agree whenever the left handle comes first. */
  lemma SelectionSliceAgreesWhenOrdered(left: nat, right: nat, length: nat)
    requires left < right < U32
    ensures SelectionSlice(left, right, length) == SelectionSliceAsWritten(left, right, length)
  {
  }

  /**
   * Retrieving the selection: nothing when the handles coincide or the slice is not in
   * the text; otherwise the slice's text, the slice removed when asked, and the cursor at
   * the slice's start.
   */
  function RetrieveSelectionSpec(text: Text, ed: EventData, deleteAfterRetrieval: bool): (r: (Text, Text, EventData))
    ensures ed.leftSelectionPosition == ed.rightSelectionPosition ==> r == ([], text, ed)
    ensures ed.leftSelectionPosition < ed.rightSelectionPosition <= |text| ==>
              r.0 == text[ed.leftSelectionPosition..ed.rightSelectionPosition] &&
              r.2.primaryCursorPosition == ed.leftSelectionPosition &&
              (deleteAfterRetrieval ==> r.1 == text[..ed.leftSelectionPosition] + text[ed.rightSelectionPosition..]) &&
              (!deleteAfterRetrieval ==> r.1 == text)
    ensures SelectionSlice(ed.leftSelectionPosition, ed.rightSelectionPosition, |text|).None? ==> r == ([], text, ed)
  {
    match SelectionSlice(ed.leftSelectionPosition, ed.rightSelectionPosition, |text|)
    case None => ([], text, ed)
    case Some((start, count)) =>
      (text[start..start + count],
       if deleteAfterRetrieval then text[..start] + text[start + count..] else text,
       ed.(primaryCursorPosition := start, scrollAfterDelete := true, decoratorUpdated := true))
  }

  // ----- Fonts -----

  /**
   * A point size in 26.6 fixed point, truncated toward zero as a C++ cast does. The source's
   * type is unsigned, and a negative size is truncated here as a signed cast would.
   */
  function PointSize26Dot6(pointSize: real): (r: int)
    ensures pointSize >= 0.0 ==> r as real <= pointSize * 64.0 < r as real + 1.0
    ensures pointSize < 0.0 ==> r as real - 1.0 < pointSize * 64.0 <= r as real
  {
    if pointSize >= 0.0 then (pointSize * 64.0).Floor else -((-pointSize * 64.0).Floor)
  }

  /** The default font: its description, point size and the id the font client gave it. */
  class FontDefaults {
    var fontDescription: string
    var defaultPointSize: real
    var fontId: nat

    constructor(platformDefault: string)
      ensures fontDescription == platformDefault && defaultPointSize == 0.0 && fontId == 0
    {
      fontDescription := platformDefault;
      defaultPointSize := 0.0;
      fontId := 0;
    }

    /** The font client is asked only while no id is cached; a cached id is returned as is. */
    method GetFontId(fontClient: (string, int) -> nat) returns (id: nat)
      modifies this`fontId
      ensures old(fontId) != 0 ==> id == old(fontId) && fontId == old(fontId)
      ensures old(fontId) == 0 ==> id == fontClient(fontDescription, PointSize26Dot6(defaultPointSize)) && fontId == id
    {
      if fontId == 0 {
        var pointSize := PointSize26Dot6(defaultPointSize);
        fontId := fontClient(fontDescription, pointSize);
      }
      id := fontId;
    }
  }

  // ----- The implementation object -----

  /** Everything the controller's implementation holds, as a value. */
  datatype ImplState = ImplState(
    text: Text,
    eventData: Option<EventData>,
    modifyEvents: seq<ModifyEventType>,
    operationsPending: set<Operation>,
    maximumNumberOfCharacters: nat,
    recalculateNaturalSize: bool,
    controlSize: Vector2,
    alignmentOffset: Vector2,
    model: ModelData,
    clipboardItems: Option<nat>,
    horizontalAlignment: HorizontalAlignment,
    verticalAlignment: VerticalAlignment,
    calls: Calls)

  predicate ClipboardEmpty(clipboardItems: Option<nat>)
  {
    clipboardItems.None? || clipboardItems.value == 0
  }

  function ContextOf(s: ImplState): Context
  {
    Context(s.text, s.controlSize, s.model.actualSize, s.alignmentOffset, ClipboardEmpty(s.clipboardItems),
            s.model.numberOfGlyphs, |s.model.lines|)
  }

  // ----- Steps of the implementation, on its state -----

  function RequestRelayoutOf(s: ImplState): ImplState
  {
    s.(calls := s.calls.(relayoutRequests := s.calls.relayoutRequests + 1))
  }

  function QueueModifyOf(s: ImplState, t: ModifyEventType): ImplState
  {
    RequestRelayoutOf(s.(modifyEvents := QueuedModifyEvents(s.modifyEvents, t)))
  }

  function PlaceholderClearedOf(s: ImplState): (r: ImplState)
    ensures r.eventData.Some? == s.eventData.Some?
  {
    if s.eventData.Some? then s.(eventData := Some(s.eventData.value.(isShowingPlaceholderText := false))) else s
  }

  function ClearPreEditOf(s: ImplState): (r: ImplState)
    ensures r.eventData.Some? == s.eventData.Some?
  {
    if s.eventData.Some? then
      s.(eventData := Some(s.eventData.value.(preEditFlag := false, preEditStartPosition := 0, preEditLength := 0)))
    else s
  }

  function ResetImfOf(s: ImplState): (r: ImplState)
    ensures r.eventData.Some? == s.eventData.Some?
  {
    if s.eventData.Some? then
      var ed := s.eventData.value;
      s.(eventData := Some(ed.(preEditFlag := false, preEditStartPosition := 0, preEditLength := 0)),
         calls := if ed.hasImfManager then s.calls.(imfResets := s.calls.imfResets + 1) else s.calls)
    else s
  }

  function ChangeStateOf(s: ImplState, newState: State): (r: ImplState)
    ensures r.eventData.Some? == s.eventData.Some?
    ensures s.eventData.Some? ==> r.eventData.value.state == newState &&
                                  r.eventData.value.eventQueue == s.eventData.value.eventQueue
  {
    if s.eventData.Some? then s.(eventData := Some(ChangeStateSpec(ContextOf(s), s.eventData.value, newState))) else s
  }

  /** Processing the input events on the whole state: without editing data nothing
      changes and nothing is reported; otherwise only the editing data changes. */
  function ProcessInputEventsOf(s: ImplState, g: Geometry): (r: (ImplState, bool))
    ensures s.eventData.None? ==> r == (s, false)
    ensures r.0 == s.(eventData := r.0.eventData)
    ensures s.eventData.Some? ==>
              r.0.eventData.Some? && r.0.eventData.value.eventQueue == [] && !r.0.eventData.value.decoratorUpdated
  {
    if s.eventData.None? then (s, false)
    else
      var processed := ProcessInputEventsSpec(ContextOf(s), g, s.eventData.value);
      (s.(eventData := Some(processed.0)), processed.1)
  }

  class Impl {
    var text: Text
    var eventData: Option<EventData>
    var modifyEvents: seq<ModifyEventType>
    var operationsPending: set<Operation>
    var maximumNumberOfCharacters: nat
    var recalculateNaturalSize: bool
    var controlSize: Vector2
    var alignmentOffset: Vector2
    var model: ModelData
    /** The system clipboard's number of items; none when there is no clipboard. */
    var clipboardItems: Option<nat>
    var horizontalAlignment: HorizontalAlignment
    var verticalAlignment: VerticalAlignment
    var calls: Calls

    function Snapshot(): ImplState
      reads this
    {
      ImplState(text, eventData, modifyEvents, operationsPending, maximumNumberOfCharacters, recalculateNaturalSize,
                controlSize, alignmentOffset, model, clipboardItems, horizontalAlignment, verticalAlignment, calls)
    }

    function Ctx(): Context
      reads this`text, this`controlSize, this`model, this`alignmentOffset, this`clipboardItems
    {
      Context(text, controlSize, model.actualSize, alignmentOffset, ClipboardEmpty(clipboardItems),
              model.numberOfGlyphs, |model.lines|)
    }

    /** A new implementation: no text, no editing data, nothing pending, at most 50 characters. */
    constructor(clipboardItems: Option<nat>)
      ensures text == [] && eventData == None && modifyEvents == [] && operationsPending == {}
      ensures maximumNumberOfCharacters == 50 && recalculateNaturalSize
      ensures controlSize == VECTOR2_ZERO && alignmentOffset == VECTOR2_ZERO
      ensures model == ModelData(0, [], 0, VECTOR2_ZERO, false) && this.clipboardItems == clipboardItems
      ensures horizontalAlignment == HorizontalBegin && verticalAlignment == VerticalTop
      ensures calls == Calls(0, 0, 0, 0)
    {
      text := [];
      eventData := None;
      modifyEvents := [];
      operationsPending := {};
      maximumNumberOfCharacters := 50;
      recalculateNaturalSize := true;
      controlSize := VECTOR2_ZERO;
      alignmentOffset := VECTOR2_ZERO;
      model := ModelData(0, [], 0, VECTOR2_ZERO, false);
      this.clipboardItems := clipboardItems;
      horizontalAlignment := HorizontalBegin;
      verticalAlignment := VerticalTop;
      calls := Calls(0, 0, 0, 0);
    }

    method RequestRelayout()
      modifies this`calls
      ensures calls == old(calls).(relayoutRequests := old(calls).relayoutRequests + 1)
      ensures Snapshot() == RequestRelayoutOf(old(Snapshot()))
    {
      calls := calls.(relayoutRequests := calls.relayoutRequests + 1);
    }

    method QueueModifyEvent(t: ModifyEventType)
      modifies this`modifyEvents, this`calls
      ensures modifyEvents == QueuedModifyEvents(old(modifyEvents), t)
      ensures calls == old(calls).(relayoutRequests := old(calls).relayoutRequests + 1)
      ensures Snapshot() == QueueModifyOf(old(Snapshot()), t)
    {
      if t == TextReplaced {
        modifyEvents := [];
      }
      modifyEvents := modifyEvents + [t];
      RequestRelayout();
    }

    /** Placeholder text is available when there is editing data and either placeholder
        text is non-empty. */
    predicate IsPlaceholderAvailable()
      reads this`eventData
    {
      eventData.Some? && (|eventData.value.placeholderTextInactive| != 0 || |eventData.value.placeholderTextActive| != 0)
    }

    predicate IsShowingPlaceholderText()
      reads this`eventData
    {
      eventData.Some? && eventData.value.isShowingPlaceholderText
    }

    /** Real text is shown when the placeholder is not and the text is not empty. */
    predicate IsShowingRealText()
      reads this`eventData, this`text
    {
      !IsShowingPlaceholderText() && |text| != 0
    }

    method PlaceholderCleared()
      modifies this`eventData
      ensures eventData == (if old(eventData).Some? then Some(old(eventData).value.(isShowingPlaceholderText := false)) else None)
      ensures Snapshot() == PlaceholderClearedOf(old(Snapshot()))
    {
      if eventData.Some? {
        eventData := Some(eventData.value.(isShowingPlaceholderText := false));
      }
    }

    method ClearPreEditFlag()
      modifies this`eventData
      ensures old(eventData).None? ==> eventData == None
      ensures old(eventData).Some? ==>
                eventData == Some(old(eventData).value.(preEditFlag := false, preEditStartPosition := 0, preEditLength := 0))
      ensures Snapshot() == ClearPreEditOf(old(Snapshot()))
    {
      if eventData.Some? {
        eventData := Some(eventData.value.(preEditFlag := false, preEditStartPosition := 0, preEditLength := 0));
      }
    }

    method ResetImfManager()
      modifies this`eventData, this`calls
      ensures old(eventData).None? ==> eventData == None && calls == old(calls)
      ensures old(eventData).Some? ==>
                eventData == Some(old(eventData).value.(preEditFlag := false, preEditStartPosition := 0, preEditLength := 0)) &&
                calls == (if old(eventData).value.hasImfManager then old(calls).(imfResets := old(calls).imfResets + 1) else old(calls))
      ensures Snapshot() == ResetImfOf(old(Snapshot()))
    {
      if eventData.Some? {
        if eventData.value.hasImfManager {
          calls := calls.(imfResets := calls.imfResets + 1);
        }
        ClearPreEditFlag();
      }
    }

    /** The clipboard is empty when there is none or it holds no items. */
    predicate IsClipboardEmpty()
      reads this`clipboardItems
    {
      ClipboardEmpty(clipboardItems)
    }

    method SetPopupButtons()
      requires eventData.Some?
      modifies this`eventData
      ensures eventData == Some(SetPopupButtonsSpec(old(Ctx()), old(eventData).value))
    {
      var buttons: set<SelectionPopup.Button> := {};
      var ed := eventData.value;
      if ed.state == Selecting || ed.state == SelectionChanged {
        buttons := {SelectionPopup.Cut, SelectionPopup.Copy};
        if !IsClipboardEmpty() {
          buttons := buttons + {SelectionPopup.Paste};
          buttons := buttons + {SelectionPopup.Clipboard};
        }
        if !ed.allTextSelected {
          buttons := buttons + {SelectionPopup.SelectAll};
        }
      } else if ed.state == EditingWithPopup {
        if |text| != 0 && !IsShowingPlaceholderText() {
          buttons := {SelectionPopup.Select, SelectionPopup.SelectAll};
        }
        if !IsClipboardEmpty() {
          buttons := buttons + {SelectionPopup.Paste};
          buttons := buttons + {SelectionPopup.Clipboard};
        }
      }
      assert buttons == PopupButtons(Ctx(), ed);
      eventData := Some(ed.(decorator := ed.decorator.(popupButtons := buttons)));
    }

    method ChangeState(newState: State)
      modifies this`eventData
      ensures old(eventData).None? ==> eventData == None
      ensures old(eventData).Some? ==> eventData == Some(ChangeStateSpec(old(Ctx()), old(eventData).value, newState))
      ensures Snapshot() == ChangeStateOf(old(Snapshot()), newState)
    {
      if eventData.None? {
        return;
      }
      if eventData.value.state != newState {
        var e := eventData.value.(state := newState);
        if newState != EditingWithPastePopup {
          e := e.(decorator := EnteredDecorator(Ctx(), e), decoratorUpdated := true);
        }
        eventData := Some(e);
      }
    }

    /** The index of the first line whose cumulative height exceeds `y`; past the last line,
        the last line; with no lines, 0. */
    method GetClosestLine(y: real) returns (lineIndex: nat)
      ensures (exists k :: 0 <= k < |model.lines| && y < LineBottom(model.lines, k)) ==>
                lineIndex < |model.lines| && y < LineBottom(model.lines, lineIndex) &&
                forall k :: 0 <= k < lineIndex ==> y >= LineBottom(model.lines, k)
      ensures (forall k :: 0 <= k < |model.lines| ==> y >= LineBottom(model.lines, k)) ==>
                lineIndex == if |model.lines| == 0 then 0 else |model.lines| - 1
    {
      var totalHeight := 0.0;
      lineIndex := 0;
      var lines := model.lines;
      while lineIndex < |lines|
        invariant lineIndex <= |lines|
        invariant totalHeight == CumulativeHeight(lines, lineIndex)
        invariant forall k :: 0 <= k < lineIndex ==> y >= LineBottom(lines, k)
      {
        totalHeight := totalHeight + (lines[lineIndex].ascender + -lines[lineIndex].descender);
        assert totalHeight == LineBottom(lines, lineIndex);
        if y < totalHeight {
          return;
        }
        lineIndex := lineIndex + 1;
      }
      if lineIndex == 0 {
        return 0;
      }
      lineIndex := lineIndex - 1;
    }

    /**
     * The word around the character closest to a point. A hit on a non-white-space
     * character yields the maximal run of non-white-space characters containing it; a
     * white-space hit yields an empty selection at the hit; a hit outside the text leaves
     * the indices as they were.
     */
    method FindSelectionIndices(visualX: real, visualY: real, g: Geometry, startIndex: nat, endIndex: nat)
      returns (start: nat, end: nat)
      ensures (start, end) == SelectionIndices(text, g.isWhiteSpace, g.closestCursorIndex(visualX, visualY), startIndex, endIndex)
      ensures g.closestCursorIndex(visualX, visualY) >= |text| ==> start == startIndex && end == endIndex
      ensures g.closestCursorIndex(visualX, visualY) < |text| ==>
                start <= g.closestCursorIndex(visualX, visualY) <= end <= |text| &&
                forall k :: start <= k < end ==> !g.isWhiteSpace(text[k])
    {
      var hitCharacter := g.closestCursorIndex(visualX, visualY);
      start, end := startIndex, endIndex;
      if hitCharacter >= |text| {
        return;
      }
      start := hitCharacter;
      end := hitCharacter;
      if !g.isWhiteSpace(text[hitCharacter]) {
        start := ScanWordStart(text, g.isWhiteSpace, hitCharacter);
        end := ScanWordEnd(text, g.isWhiteSpace, hitCharacter + 1);
      }
    }

    method ClampHorizontalScroll(actualSize: Vector2)
      requires eventData.Some?
      modifies this`eventData
      ensures eventData == Some(ClampHorizontalSpec(old(Ctx()), old(eventData).value, actualSize))
    {
      var ed := eventData.value;
      if actualSize.x > controlSize.x {
        var space := (actualSize.x - controlSize.x) + alignmentOffset.x;
        var x := if ed.scrollPosition.x < -space then -space else ed.scrollPosition.x;
        x := if x > -alignmentOffset.x then -alignmentOffset.x else x;
        eventData := Some(ed.(scrollPosition := Vector2(x, ed.scrollPosition.y), decoratorUpdated := true));
      } else {
        eventData := Some(ed.(scrollPosition := Vector2(0.0, ed.scrollPosition.y)));
      }
    }

    method ClampVerticalScroll(actualSize: Vector2)
      requires eventData.Some?
      modifies this`eventData
      ensures eventData == Some(ClampVerticalSpec(old(Ctx()), old(eventData).value, actualSize))
    {
      var ed := eventData.value;
      if actualSize.y > controlSize.y {
        var space := (actualSize.y - controlSize.y) + alignmentOffset.y;
        var y := if ed.scrollPosition.y < -space then -space else ed.scrollPosition.y;
        y := if y > -alignmentOffset.y then -alignmentOffset.y else y;
        eventData := Some(ed.(scrollPosition := Vector2(ed.scrollPosition.x, y), decoratorUpdated := true));
      } else {
        eventData := Some(ed.(scrollPosition := Vector2(ed.scrollPosition.x, 0.0)));
      }
    }

    method RepositionSelectionHandles(selectionStart: nat, selectionEnd: nat)
      requires eventData.Some?
      modifies this`eventData
      ensures eventData == Some(RepositionSpec(old(eventData).value, selectionStart, selectionEnd))
    {
      if selectionStart == selectionEnd {
        return;
      }
      eventData := Some(eventData.value.(leftSelectionPosition := selectionStart, rightSelectionPosition := selectionEnd,
                                         decoratorUpdated := true));
    }

    method UpdateSelectionHandle(handle: HandleType)
      requires eventData.Some?
      modifies this`eventData
      ensures eventData == Some(UpdateSelectionHandleSpec(old(Ctx()), old(eventData).value, handle))
    {
      if handle != LeftSelectionHandle && handle != RightSelectionHandle {
        return;
      }
      var ed := eventData.value;
      var startOfSelection := MinNat(ed.leftSelectionPosition, ed.rightSelectionPosition);
      var endOfSelection := MaxNat(ed.leftSelectionPosition, ed.rightSelectionPosition);
      eventData := Some(ed.(allTextSelected := startOfSelection == 0 && endOfSelection == |text|));
    }

    method OnSelectAllEvent()
      modifies this`eventData
      ensures old(eventData).None? ==> eventData == None
      ensures old(eventData).Some? ==> eventData == Some(SelectAllSpec(old(Ctx()), old(eventData).value))
    {
      if eventData.None? {
        return;
      }
      if eventData.value.selectionEnabled {
        RepositionSelectionHandles(0, |text|);
        eventData := Some(eventData.value.(scrollAfterUpdatePosition := true, updateLeftSelectionPosition := true,
                                           updateRightSelectionPosition := true));
      }
    }

    method OnCursorKeyEvent(event: Event, g: Geometry)
      modifies this`eventData
      ensures old(eventData).None? ==> eventData == None
      ensures old(eventData).Some? ==> eventData == Some(CursorKeySpec(old(Ctx()), g, old(eventData).value, event))
    {
      if eventData.None? {
        return;
      }
      var ed := eventData.value;
      var keyCode := event.p1;
      var cursor := ed.primaryCursorPosition;
      if keyCode == KEY_CURSOR_LEFT {
        if cursor > 0 {
          cursor := g.newCursorIndex(cursor - 1);
        }
      } else if keyCode == KEY_CURSOR_RIGHT {
        if |text| > cursor {
          cursor := g.newCursorIndex(cursor);
        }
      }
      eventData := Some(ed.(primaryCursorPosition := cursor, updateCursorPosition := true, scrollAfterUpdatePosition := true));
    }

    method OnTapEvent(event: Event, g: Geometry)
      modifies this`eventData
      ensures old(eventData).None? ==> eventData == None
      ensures old(eventData).Some? ==> eventData == Some(TapSpec(old(Ctx()), g, old(eventData).value, event))
    {
      if eventData.Some? {
        var ed := eventData.value;
        if event.p1 == 1 {
          if !IsShowingPlaceholderText() {
            var xPosition := event.p2 - ed.scrollPosition.x - alignmentOffset.x;
            var yPosition := event.p3 - ed.scrollPosition.y - alignmentOffset.y;
            ed := ed.(primaryCursorPosition := g.closestCursorIndex(xPosition, yPosition));
          } else {
            ed := ed.(primaryCursorPosition := 0);
          }
          eventData := Some(ed.(updateCursorPosition := true, scrollAfterUpdatePosition := true));
        }
      }
    }

    method OnPanEvent(event: Event)
      modifies this`eventData
      ensures old(eventData).None? ==> eventData == None
      ensures old(eventData).Some? ==> eventData == Some(PanSpec(old(Ctx()), old(eventData).value, event))
    {
      if eventData.None? {
        return;
      }
      if event.p1 == GESTURE_STARTED || event.p1 == GESTURE_CONTINUING {
        var actualSize := model.actualSize;
        ghost var ctx := Ctx();
        var ed0 := eventData.value;
        if ed0.horizontalScrollingEnabled {
          eventData := Some(ed0.(scrollPosition := Vector2(ed0.scrollPosition.x + event.p2, ed0.scrollPosition.y)));
          ClampHorizontalScroll(actualSize);
        }
        var e1 := eventData.value;
        assert e1 ==
               if ed0.horizontalScrollingEnabled then
                 ClampHorizontalSpec(ctx, ed0.(scrollPosition := Vector2(ed0.scrollPosition.x + event.p2, ed0.scrollPosition.y)), actualSize)
               else ed0;
        assert Ctx() == ctx;
        if e1.verticalScrollingEnabled {
          eventData := Some(e1.(scrollPosition := Vector2(e1.scrollPosition.x, e1.scrollPosition.y + event.p3)));
          ClampVerticalScroll(actualSize);
        }
      }
    }

    method OnLongPressEvent()
      requires eventData.Some?
      modifies this`eventData
      ensures eventData == Some(LongPressSpec(old(Ctx()), old(eventData).value))
    {
      if eventData.value.state == Editing {
        ChangeState(EditingWithPopup);
        eventData := Some(eventData.value.(decoratorUpdated := true));
      }
    }

    method OnHandleEvent(event: Event, g: Geometry)
      requires eventData.Some?
      modifies this`eventData
      ensures eventData == Some(g.onHandleEvent(old(eventData).value, event))
    {
      eventData := Some(g.onHandleEvent(eventData.value, event));
    }

    method RepositionSelectionHandlesAt(visualX: real, visualY: real, g: Geometry)
      requires eventData.Some?
      modifies this`eventData
      ensures eventData == Some(SelectWordAtSpec(old(Ctx()), g, old(eventData).value, visualX, visualY))
    {
      if IsShowingPlaceholderText() {
        return;
      }
      if model.numberOfGlyphs == 0 || |model.lines| == 0 {
        return;
      }
      var selectionStart, selectionEnd := FindSelectionIndices(visualX, visualY, g, 0, 0);
      if selectionStart == selectionEnd {
        ChangeState(Editing);
        return;
      }
      RepositionSelectionHandles(selectionStart, selectionEnd);
    }

    method OnSelectEvent(event: Event, g: Geometry)
      modifies this`eventData
      ensures old(eventData).None? ==> eventData == None
      ensures old(eventData).Some? ==> eventData == Some(SelectSpec(old(Ctx()), g, old(eventData).value, event))
    {
      if eventData.None? {
        return;
      }
      var ed := eventData.value;
      if ed.selectionEnabled {
        var xPosition := event.p2 - ed.scrollPosition.x - alignmentOffset.x;
        var yPosition := event.p3 - ed.scrollPosition.y - alignmentOffset.y;
        var leftPosition := ed.leftSelectionPosition;
        var rightPosition := ed.rightSelectionPosition;
        RepositionSelectionHandlesAt(xPosition, yPosition, g);
        var e1 := eventData.value;
        var updateLeft := leftPosition != e1.leftSelectionPosition;
        var updateRight := rightPosition != e1.rightSelectionPosition;
        eventData := Some(e1.(updateLeftSelectionPosition := updateLeft, updateRightSelectionPosition := updateRight,
                              scrollAfterUpdatePosition := (updateLeft || updateRight) &&
                                                           e1.leftSelectionPosition != e1.rightSelectionPosition));
      }
    }

    /** Hands one event to its handler. */
    method Dispatch(event: Event, g: Geometry)
      requires eventData.Some?
      modifies this`eventData
      ensures eventData == Some(DispatchOne(old(Ctx()), g, old(eventData).value, event))
    {
      match event.eventType {
        case CursorKeyEvent => OnCursorKeyEvent(event, g);
        case TapEvent => OnTapEvent(event, g);
        case LongPressEvent => OnLongPressEvent();
        case PanEvent => OnPanEvent(event);
        case GrabHandleEvent => OnHandleEvent(event, g);
        case LeftSelectionHandleEvent => OnHandleEvent(event, g);
        case RightSelectionHandleEvent => OnHandleEvent(event, g);
        case SelectEvent => OnSelectEvent(event, g);
        case SelectAllEvent => OnSelectAllEvent();
      }
    }

    /** Updates one selection handle after the events. */
    method UpdateHandleAfterEvents(handle: HandleType, target: ScrollTarget, g: Geometry) returns (scrolled: bool)
      requires eventData.Some? && handle != GrabHandle
      modifies this`eventData
      ensures eventData == Some(HandleUpdateSpec(old(Ctx()), g, old(eventData).value, handle, target))
      ensures scrolled == old(eventData).value.scrollAfterUpdatePosition
    {
      UpdateSelectionHandle(handle);
      scrolled := false;
      if eventData.value.scrollAfterUpdatePosition {
        var ed := eventData.value;
        eventData := Some(ed.(scrollPosition := g.scrollFor(target, ed.scrollPosition)));
        scrolled := true;
      }
      SetPopupButtons();
      var ed := eventData.value.(decoratorUpdated := true);
      if handle == LeftSelectionHandle {
        eventData := Some(ed.(updateLeftSelectionPosition := false));
      } else {
        eventData := Some(ed.(updateRightSelectionPosition := false));
      }
    }

    /** The updates the events asked for. */
    method UpdateAfterEvents(g: Geometry)
      requires eventData.Some?
      modifies this`eventData
      ensures eventData == Some(AfterEvents(old(Ctx()), g, old(eventData).value))
    {
      var ed := eventData.value;
      if ed.updateCursorPosition {
        if ed.scrollAfterUpdatePosition {
          ed := ed.(scrollPosition := g.scrollFor(PrimaryCursorTarget, ed.scrollPosition), scrollAfterUpdatePosition := false);
        }
        eventData := Some(ed.(decoratorUpdated := true, updateCursorPosition := false));
      } else if ed.scrollAfterDelete {
        eventData := Some(ed.(scrollPosition := g.scrollFor(MatchCursorTarget, ed.scrollPosition), decoratorUpdated := true,
                              scrollAfterDelete := false));
      } else {
        UpdateHandles(g);
      }
    }

    method UpdateHandles(g: Geometry)
      requires eventData.Some?
      modifies this`eventData
      ensures eventData == Some(HandlesAfterEvents(old(Ctx()), g, old(eventData).value))
    {
      ghost var ctx := Ctx();
      var ed := eventData.value;
      var leftScroll := false;
      var rightScroll := false;
      if ed.updateLeftSelectionPosition {
        leftScroll := UpdateHandleAfterEvents(LeftSelectionHandle, LeftHandleTarget, g);
      }
      var e1 := eventData.value;
      assert e1 == if ed.updateLeftSelectionPosition then HandleUpdateSpec(ctx, g, ed, LeftSelectionHandle, LeftHandleTarget) else ed;
      assert Ctx() == ctx;
      if e1.updateRightSelectionPosition {
        rightScroll := UpdateHandleAfterEvents(RightSelectionHandle, RightHandleTarget, g);
      }
      var e2 := eventData.value;
      assert e2 == if e1.updateRightSelectionPosition then HandleUpdateSpec(ctx, g, e1, RightSelectionHandle, RightHandleTarget) else e1;
      if leftScroll || rightScroll {
        eventData := Some(e2.(scrollAfterUpdatePosition := false));
      }
    }

    /** Handles the queued input events; without editing data nothing happens and the
        answer is false. */
    method ProcessInputEvents(g: Geometry) returns (decoratorUpdated: bool)
      modifies this`eventData
      ensures old(eventData).None? ==> eventData == None && !decoratorUpdated
      ensures old(eventData).Some? ==>
                (eventData.Some? && eventData.value == ProcessInputEventsSpec(old(Ctx()), g, old(eventData).value).0) &&
                decoratorUpdated == ProcessInputEventsSpec(old(Ctx()), g, old(eventData).value).1
      ensures (Snapshot(), decoratorUpdated) == ProcessInputEventsOf(old(Snapshot()), g)
    {
      if eventData.None? {
        return false;
      }
      var ctx := Ctx();
      var ed0 := eventData.value;
      var queue := ed0.eventQueue;
      var i := 0;
      while i < |queue|
        invariant i <= |queue|
        invariant Ctx() == ctx
        invariant eventData == Some(DispatchUpTo(ctx, g, ed0, queue, i))
      {
        Dispatch(queue[i], g);
        i := i + 1;
      }
      UpdateAfterEvents(g);
      var e := eventData.value;
      assert e == AfterEvents(ctx, g, DispatchUpTo(ctx, g, ed0, ed0.eventQueue, |ed0.eventQueue|));
      decoratorUpdated := e.decoratorUpdated;
      eventData := Some(e.(eventQueue := [], decoratorUpdated := false));
      assert (eventData.value, decoratorUpdated) == ProcessInputEventsSpec(ctx, g, ed0);
    }

    /** Retrieves the selected text, removing it when asked. */
    method RetrieveSelection(deleteAfterRetrieval: bool) returns (selectedText: Text)
      requires eventData.Some?
      modifies this`eventData, this`text
      ensures eventData.Some?
      ensures (selectedText, text, eventData.value) == RetrieveSelectionSpec(old(text), old(eventData).value, deleteAfterRetrieval)
    {
      var ed := eventData.value;
      if ed.leftSelectionPosition == ed.rightSelectionPosition {
        return [];
      }
      selectedText := [];
      var startOfSelectedText := if ed.leftSelectionPosition < ed.rightSelectionPosition then ed.leftSelectionPosition else ed.rightSelectionPosition;
      var endOfSelectedText := if ed.leftSelectionPosition < ed.rightSelectionPosition then ed.rightSelectionPosition else ed.leftSelectionPosition;
      var lengthOfSelectedText := endOfSelectedText - startOfSelectedText;
      if startOfSelectedText + lengthOfSelectedText <= |text| {
        selectedText := text[startOfSelectedText..startOfSelectedText + lengthOfSelectedText];
        if deleteAfterRetrieval {
          text := text[..startOfSelectedText] + text[startOfSelectedText + lengthOfSelectedText..];
        }
        eventData := Some(ed.(primaryCursorPosition := startOfSelectedText, scrollAfterDelete := true, decoratorUpdated := true));
      }
    }
  }
}
