# DALi toolkit text input, visuals and caches, and the C# view registry

This project is a Dafny model of the event-thread logic of several parts of the DALi UI toolkit and
of its C# binding. It covers:

- **Text controller** (`TextControllerImpl`, `TextController`). The text being edited is a buffer of
  Unicode code points. The model also holds the primary cursor, the left and right selection handles,
  the pre-edit (input method) run, the maximum number of characters, and the queues of input events
  and modify events. The editing state machine (inactive, editing, selecting, ...) activates the grab
  and selection handles and the popup, and computes the popup's buttons. Insert, remove, backspace,
  cursor keys, taps, select-all, word selection, selection retrieval, scroll clamping and the
  relayout's pending operations are each a function from the implementation state to the new state.
  The `Impl` and `Controller` classes update that state in place and are proved to follow those
  functions.
- **Rolling image cache** (`RollingImageCache`). This is the bounded frame queue of an animated
  image. The URL index wraps, each frame has a ready flag, and the observer is told when the front
  frame becomes ready.
- **N-patch loader** (`NPatchLoader`). This is an append-only cache keyed by URL. Its identifiers
  start at 1, and it computes the stretch ranges of a border.
- **Glyph-atlas renderer bookkeeping** (`AtlasRenderer`). It covers:
  - per-baseline extents and mesh records stitched per atlas and colour;
  - reference-count deltas for the glyph cache and per-font block sizes;
  - underline quads, and the underline and shadow rules that glyphs are added under.
- **Text selection popup** (`SelectionPopup`). The option list is ordered by priority. The toolbar
  holds the enabled options with dividers between them. The model also covers the customisable sizes
  and button images.
- **Visuals**:
  - the base visual's stage and pre-multiplied-alpha flags, depth index, size and custom shader
    (`VisualBase`);
  - the colour visual and its blend rule (`ColorVisual`);
  - the text visual's key and alignment codecs and property maps (`TextVisual`);
  - the image visual's settings, natural size and cacheability (`ImageVisual`);
  - the older image renderer's name-keyed fitting and sampling modes (`ImageRenderer`);
  - what the two image modules share (`ImageCommon`).
- **C# view registry and spin control** (`ViewRegistration`, `Int32Text`, `SpinControl`). The
  registry maps native handles to views and type names to factories. It registers a view type's
  readable, scriptable properties and writes property values with conversion errors. The spin control
  clamps its value, restores the value on invalid input and steps on up and down keys.

The engine objects the code talks to are parameters of the model:

- the font client, the layout engine and glyph geometry;
- the decorator's positions, the clipboard and the input method manager;
- the texture manager and the image loader;
- the native type registry.

Calls made to these objects are recorded as flags, counters or lists in the state.

Property values and maps are modelled in `PropertyMap`. A map is an ordered list of entries keyed by
index or by name. `Wrappers` holds `Option` and `Result`.

## Model

| member | source | states |
|---|---|---|
| TextControllerImpl.NewEvent | dali-toolkit/internal/text/text-controller-impl.h:65-71 | a new input event has the given type and all its parameters zero |
| TextControllerImpl.EditingStates | dali-toolkit/internal/text/text-controller-impl.h:122-125 | the editing states are exactly editing, editing with popup, editing with grab handle and editing with paste popup |
| TextControllerImpl.QueuedModifyEvents | dali-toolkit/internal/text/text-controller-impl.h:278-292 | a text-replaced event cancels every queued event before it; any other event is appended behind those already queued |
| TextControllerImpl.PopupButtons | dali-toolkit/internal/text/text-controller-impl.cpp:1016-1058 | cut and copy are offered exactly while selecting; paste and clipboard while selecting or in the editing popup with something on the clipboard; select-all while selecting unless all text is selected, or in the editing popup over real text; select only in the editing popup over real text |
| TextControllerImpl.ChangeStateSpec | dali-toolkit/internal/text/text-controller-impl.cpp:1060-1206 | changing to the current state does nothing; otherwise the state becomes the new one; going inactive hides cursor, handles and popup; selecting shows both selection handles and hides the grab handle; an editing state shows the primary cursor; the paste popup state only records the state; nothing outside state and decorator changes |
| TextControllerImpl.WordStart | dali-toolkit/internal/text/text-controller-impl.cpp:1249-1256 | the word start is at or before the hit, at the text start or just after a white space, with no white space between it and the hit |
| TextControllerImpl.WordEnd | dali-toolkit/internal/text/text-controller-impl.cpp:1257-1265 | the word end is at or after its start point, at the text end or on a white space, with no white space before it |
| TextControllerImpl.SelectionIndices | dali-toolkit/internal/text/text-controller-impl.cpp:1234-1267 | a hit past the text keeps the old indices; a hit on white space selects an empty range there; otherwise the range is the whole word around the hit, bounded by white space or the text ends |
| TextControllerImpl.ClampedScroll | dali-toolkit/internal/text/text-controller-impl.cpp:1728-1760 | with text wider than the control the scroll position is kept between the far end and the alignment offset, and unchanged when already there; with text that fits, the scroll position is zero |
| TextControllerImpl.ClampHorizontalSpec | dali-toolkit/internal/text/text-controller-impl.cpp:1728-1743 | the horizontal scroll is clamped to the actual width and the vertical scroll is left alone |
| TextControllerImpl.ClampVerticalSpec | dali-toolkit/internal/text/text-controller-impl.cpp:1745-1760 | the vertical scroll is clamped to the actual height and the horizontal scroll is left alone |
| TextControllerImpl.RepositionSpec | dali-toolkit/internal/text/text-controller-impl.cpp:909-975 | an empty selection leaves the handles alone; otherwise the left and right handles move to the selection's start and end and the decorator is refreshed |
| TextControllerImpl.UpdateSelectionHandleSpec | dali-toolkit/internal/text/text-controller-impl.cpp:1698-1726 | the grab handle changes nothing; for a selection handle, all text counts as selected exactly when the handles span the whole text, in either order |
| TextControllerImpl.SelectAllSpec | dali-toolkit/internal/text/text-controller-impl.cpp:816-833 | with selection disabled nothing happens; otherwise both handles are asked to update, and over non-empty text they go to the start and end of the text |
| TextControllerImpl.CursorKeySpec | dali-toolkit/internal/text/text-controller-impl.cpp:463-498 | left moves the cursor to the new index before it unless already at the start; right moves it to the new index from it unless at the end; other keys keep it; the cursor is always asked to update and scroll |
| TextControllerImpl.TapSpec | dali-toolkit/internal/text/text-controller-impl.cpp:500-525 | only a single tap acts; it updates and scrolls to the cursor, which goes to 0 while placeholder text is shown |
| TextControllerImpl.PanSpec | dali-toolkit/internal/text/text-controller-impl.cpp:527-564 | only a started or continuing pan acts, and only when some scrolling direction is enabled |
| TextControllerImpl.LongPressSpec | dali-toolkit/internal/text/text-controller-impl.cpp:566-573 | a long press while editing opens the editing popup; in any other state it does nothing |
| TextControllerImpl.SelectSpec | dali-toolkit/internal/text/text-controller-impl.cpp:788-814 | with selection disabled a select event does nothing |
| TextControllerImpl.AfterEvents | dali-toolkit/internal/text/text-controller-impl.cpp:206-280 | after the events the cursor update is done; a cursor update or a delete refreshes the decorator; a cursor update keeps the cursor where the events put it and clears the pending scroll |
| TextControllerImpl.ProcessInputEventsSpec | dali-toolkit/internal/text/text-controller-impl.cpp:146-282 | processing empties the event queue and the decorator-updated flag, and reports an update whenever the events moved the cursor or deleted text |
| TextControllerImpl.SelectionSliceAsWritten | dali-toolkit/internal/text/text-controller-impl.cpp:844-848 | the slice start is the left handle and its length is right minus left in 32-bit unsigned arithmetic |
| TextControllerImpl.CrossedHandlesReadPastTheText | dali-toolkit/internal/text/text-controller-impl.cpp:844-848 | with the left handle at 3, the right at 1 and five characters, the 32-bit length wraps to 4294967294 and the slice reaches far past the text; the bounds test passes only because the sum wraps as well |
| TextControllerImpl.SelectionSlice | dali-toolkit/internal/text/text-controller-impl.cpp:835-869 | a selection is read exactly when the handles differ and the further one is inside the text; the slice then runs from the nearer handle to the further one and is not empty |
| TextControllerImpl.SelectionSliceAgreesWhenOrdered | dali-toolkit/internal/text/text-controller-impl.cpp:844-848 | with the left handle before the right one the corrected slice and the code as written agree |
| TextControllerImpl.RetrieveSelectionSpec | dali-toolkit/internal/text/text-controller-impl.cpp:835-869 | equal handles, or a selection outside the text, give an empty selection and change nothing; otherwise the selected text is the characters between the handles, the cursor moves to the left handle, and deleting removes exactly those characters |
| TextControllerImpl.PointSize26Dot6 | dali-toolkit/internal/text/text-controller-impl.h:208 | the 26.6 fixed-point size is the point size times 64, truncated toward zero |
| TextControllerImpl.FontDefaults.constructor | dali-toolkit/internal/text/text-controller-impl.h:188-202 | new font defaults use the platform font description, size zero and no font id yet |
| TextControllerImpl.FontDefaults.GetFontId | dali-toolkit/internal/text/text-controller-impl.h:204-213 | a font id already found is returned unchanged; otherwise the id is asked for with the 26.6 point size and remembered |
| TextControllerImpl.PlaceholderClearedOf | dali-toolkit/internal/text/text-controller-impl.h:333-341 | clearing the placeholder never creates or drops the event data |
| TextControllerImpl.ClearPreEditOf | dali-toolkit/internal/text/text-controller-impl.h:343-351 | clearing the pre-edit flag never creates or drops the event data |
| TextControllerImpl.ResetImfOf | dali-toolkit/internal/text/text-controller-impl.h:353-365 | resetting the input method never creates or drops the event data |
| TextControllerImpl.ChangeStateOf | dali-toolkit/internal/text/text-controller-impl.cpp:1060-1206 | a change of state reaches only a controller with event data, sets the new state and keeps the event queue |
| TextControllerImpl.ProcessInputEventsOf | dali-toolkit/internal/text/text-controller-impl.cpp:146-282 | without event data nothing happens and nothing is reported; with it, the queue ends empty, the decorator flag is cleared, and nothing outside the event data changes |
| TextControllerImpl.Impl.constructor | dali-toolkit/internal/text/text-controller-impl.h:228-262 | a new controller core has no text, no event data, no queued modify events and no pending operations, a maximum of 50 characters, natural size to recalculate, begin/top alignment, and has made no outside calls |
| TextControllerImpl.Impl.RequestRelayout | dali-toolkit/internal/text/text-controller-impl.cpp:1848-1851 | one relayout request is made and nothing else changes |
| TextControllerImpl.Impl.QueueModifyEvent | dali-toolkit/internal/text/text-controller-impl.h:278-292 | the modify queue becomes QueuedModifyEvents and exactly one relayout is requested |
| TextControllerImpl.Impl.PlaceholderCleared | dali-toolkit/internal/text/text-controller-impl.h:333-341 | existing event data stops showing placeholder text; nothing else changes |
| TextControllerImpl.Impl.ClearPreEditFlag | dali-toolkit/internal/text/text-controller-impl.h:343-351 | existing event data has its pre-edit flag, start and length cleared |
| TextControllerImpl.Impl.ResetImfManager | dali-toolkit/internal/text/text-controller-impl.h:353-365 | existing event data has its pre-edit cleared and, when an input method is attached, one reset is sent to it |
| TextControllerImpl.Impl.SetPopupButtons | dali-toolkit/internal/text/text-controller-impl.cpp:1016-1058 | the popup offers the buttons PopupButtons lists for the current state |
| TextControllerImpl.Impl.ChangeState | dali-toolkit/internal/text/text-controller-impl.cpp:1060-1206 | the event data afterwards is ChangeStateSpec of the event data before |
| TextControllerImpl.Impl.GetClosestLine | dali-toolkit/internal/text/text-controller-impl.cpp:1208-1232 | the loop finds the first line whose bottom is below y, and the last line when y is below every line |
| TextControllerImpl.Impl.FindSelectionIndices | dali-toolkit/internal/text/text-controller-impl.cpp:1234-1267 | the two loops compute SelectionIndices: the whole word around the hit character, with no white space inside |
| TextControllerImpl.ScanWordStart | dali-toolkit/internal/text/text-controller-impl.cpp:1249-1256 | the backward loop stops at WordStart: the first index of the run of non-white-space characters ending at the hit |
| TextControllerImpl.ScanWordEnd | dali-toolkit/internal/text/text-controller-impl.cpp:1257-1265 | the forward loop stops at WordEnd: the end of the run of non-white-space characters starting after the hit |
| TextControllerImpl.Impl.ClampHorizontalScroll | dali-toolkit/internal/text/text-controller-impl.cpp:1728-1743 | the event data afterwards is ClampHorizontalSpec of the event data before |
| TextControllerImpl.Impl.ClampVerticalScroll | dali-toolkit/internal/text/text-controller-impl.cpp:1745-1760 | the event data afterwards is ClampVerticalSpec of the event data before |
| TextControllerImpl.Impl.RepositionSelectionHandles | dali-toolkit/internal/text/text-controller-impl.cpp:909-975 | the event data afterwards is RepositionSpec of the event data before |
| TextControllerImpl.Impl.UpdateSelectionHandle | dali-toolkit/internal/text/text-controller-impl.cpp:1698-1726 | the event data afterwards is UpdateSelectionHandleSpec of the event data before |
| TextControllerImpl.Impl.OnSelectAllEvent | dali-toolkit/internal/text/text-controller-impl.cpp:816-833 | the event data afterwards is SelectAllSpec of the event data before |
| TextControllerImpl.Impl.OnCursorKeyEvent | dali-toolkit/internal/text/text-controller-impl.cpp:463-498 | the event data afterwards is CursorKeySpec of the event data before |
| TextControllerImpl.Impl.OnTapEvent | dali-toolkit/internal/text/text-controller-impl.cpp:500-525 | the event data afterwards is TapSpec of the event data before |
| TextControllerImpl.Impl.OnPanEvent | dali-toolkit/internal/text/text-controller-impl.cpp:527-564 | the event data afterwards is PanSpec of the event data before |
| TextControllerImpl.Impl.OnLongPressEvent | dali-toolkit/internal/text/text-controller-impl.cpp:566-573 | the event data afterwards is LongPressSpec of the event data before |
| TextControllerImpl.Impl.OnHandleEvent | dali-toolkit/internal/text/text-controller-impl.cpp:575-786 | the handle event's effect is given by the decorator geometry |
| TextControllerImpl.Impl.RepositionSelectionHandlesAt | dali-toolkit/internal/text/text-controller-impl.cpp:977-1014 | the word at the touched point is selected, as the selection-indices search finds it |
| TextControllerImpl.Impl.OnSelectEvent | dali-toolkit/internal/text/text-controller-impl.cpp:788-814 | the event data afterwards is SelectSpec of the event data before |
| TextControllerImpl.Impl.Dispatch | dali-toolkit/internal/text/text-controller-impl.cpp:158-205 | each queued event goes to its own handler, according to its type |
| TextControllerImpl.Impl.UpdateHandleAfterEvents | dali-toolkit/internal/text/text-controller-impl.cpp:234-267 | a selection handle is repositioned after the events and reports whether a scroll was pending |
| TextControllerImpl.Impl.UpdateAfterEvents | dali-toolkit/internal/text/text-controller-impl.cpp:206-280 | the event data afterwards is AfterEvents of the event data before |
| TextControllerImpl.Impl.UpdateHandles | dali-toolkit/internal/text/text-controller-impl.cpp:229-270 | the left then the right selection handle are updated when they asked for it, as HandleUpdateSpec says, and a scroll by either clears the pending scroll |
| TextControllerImpl.Impl.ProcessInputEvents | dali-toolkit/internal/text/text-controller-impl.cpp:146-282 | the loop over the queue followed by the cursor and handle updates computes ProcessInputEventsSpec |
| TextControllerImpl.Impl.RetrieveSelection | dali-toolkit/internal/text/text-controller-impl.cpp:835-869 | the selected text, the remaining text and the event data afterwards are those of RetrieveSelectionSpec |
| TextController.Min | dali-toolkit/internal/text/text-controller.cpp:1260 | the smaller of two counts is at most each and equal to one of them |
| TextController.PushEventOf | dali-toolkit/internal/text/text-controller.cpp:1300-1418 | queuing an input event never creates or drops the event data |
| TextController.ResetTextOf | dali-toolkit/internal/text/text-controller.cpp:674-688 | resetting leaves no text and no placeholder shown, clears glyphs and lines, asks for every operation and a new natural size, and makes no outside call |
| TextController.ShowPlaceholderOf | dali-toolkit/internal/text/text-controller.cpp:1491-1549 | without placeholder text available nothing changes; otherwise the active or inactive placeholder (by state) becomes the shown text, the cursor goes to 0, the handles are hidden, only a text-replaced modify event is queued and every operation is asked for |
| TextController.ReplaceTextOf | dali-toolkit/internal/text/text-controller.cpp:81-112 | non-empty text becomes the model's text and queues a text-replaced event; empty text shows the placeholder instead |
| TextController.SetTextEffects | dali-toolkit/internal/text/text-controller.cpp:74-134 | setting non-empty text makes it the shown text, with the cursor after its last character, the input queue and pre-edit cleared, the scroll reset and exactly one text-changed callback |
| TextController.SetTextThenGetText | dali-toolkit/internal/text/text-controller.cpp:74-151 | getting the text after setting it gives back what was set, whether or not a placeholder is shown for empty text |
| TextController.SetMaximumNumberOfCharactersOf | dali-toolkit/internal/text/text-controller.cpp:200-206 | a non-negative maximum is stored; a negative one is ignored; nothing else changes |
| TextController.SetPlaceholderTextOf | dali-toolkit/internal/text/text-controller.cpp:163-183 | without event data nothing changes; otherwise the chosen placeholder text is stored, and an empty control then shows it |
| TextController.SetPlaceholderThenGet | dali-toolkit/internal/text/text-controller.cpp:163-198 | getting a placeholder text after setting it gives back what was set |
| TextController.BackspaceAtStartErasesNextCharacter | dali-toolkit/internal/text/text-controller.cpp:314-357 | as written, a backspace with the cursor at 0 computes the unsigned index 0 - 1, wraps back to 0 and erases the character after the cursor: on "ab" it leaves "b" and reports a removal |
| TextController.RemoveIndex | dali-toolkit/internal/text/text-controller.cpp:330-333 | no removal start exactly when a negative offset reaches back past the start of the text; an offset whose magnitude is at most the cursor moves the start by the offset, and a larger positive offset is dropped, the start staying at the cursor |
| TextController.RemoveIndexAgreesUnlessBeforeStart | dali-toolkit/internal/text/text-controller.cpp:330-346 | the corrected start is the one the code computes exactly when the offset does not reach back past the start of the text |
| TextController.RemoveStart | dali-toolkit/internal/text/text-controller.cpp:330-333 | the validation of the cursor index computes exactly RemoveIndex |
| TextController.RemoveTextOf | dali-toolkit/internal/text/text-controller.cpp:314-357 | nothing is removed while the placeholder is shown, when RemoveIndex gives no start, or when the start is past the end; otherwise up to numberOfChars characters from the start are erased, never past the end, the cursor moves to the start, and a removal is reported exactly then |
| TextController.BackspaceRemovesCharacterBeforeCursor | dali-toolkit/internal/text/text-controller.cpp:314-357 | a backspace at the text start removes nothing; elsewhere it removes exactly the character before the cursor and moves the cursor back by one |
| TextController.OverlongTextLeavesRoom | dali-toolkit/internal/text/text-controller.cpp:1257-1261 | as written, with 60 characters in a model whose maximum is 50 the unsigned room wraps to 4294967286, so text can still be inserted |
| TextController.Room | dali-toolkit/internal/text/text-controller.cpp:1257-1261 | the room left is what brings the count up to the maximum, and none once the count has reached it |
| TextController.RoomAgreesWithinMaximum | dali-toolkit/internal/text/text-controller.cpp:1257-1261 | within the maximum the corrected room is the room the code computes |
| TextController.InsertCharactersOf | dali-toolkit/internal/text/text-controller.cpp:1257-1280 | inserting keeps the event data |
| TextController.InsertCharactersPlacesText | dali-toolkit/internal/text/text-controller.cpp:1257-1280 | as many characters as there is room for are inserted at the cursor (or at the end when the cursor is past it), the text around them is kept, the cursor moves past them, the maximum is reported reached exactly when characters were dropped, and text within the maximum stays within it |
| TextController.RemovePreEditOf | dali-toolkit/internal/text/text-controller.cpp:1224-1233 | removing the pre-edit run keeps the event data |
| TextController.TrackPreEditOf | dali-toolkit/internal/text/text-controller.cpp:1235-1254 | tracking the pre-edit state keeps the event data |
| TextController.InsertTextOf | dali-toolkit/internal/text/text-controller.cpp:1183-1298 | inserting keeps the event data, and inserting nothing changes nothing |
| TextController.InsertTextKeepsWithinMaximum | dali-toolkit/internal/text/text-controller.cpp:1183-1298 | text within the maximum number of characters stays within it after any insertion |
| TextController.PreEditTracking | dali-toolkit/internal/text/text-controller.cpp:1235-1254 | a pre-edit insertion that fits starts a pre-edit run at the cursor as long as the inserted text; a commit ends the run |
| TextController.PreEditRunReplaced | dali-toolkit/internal/text/text-controller.cpp:1224-1233 | with a pre-edit run in progress, the next insertion first removes up to the run's length from the run's start, or from the cursor when the offset back to the run is larger than the cursor, and puts the cursor at the run's start |
| TextController.KeyboardFocusGainOf | dali-toolkit/internal/text/text-controller.cpp:1069-1085 | gaining focus never creates or drops the event data |
| TextController.KeyboardFocusLostOf | dali-toolkit/internal/text/text-controller.cpp:1087-1103 | losing focus never creates or drops the event data |
| TextController.BackspaceOf | dali-toolkit/internal/text/text-controller.cpp:1132-1153 | a backspace keeps the event data |
| TextController.KeyEventOf | dali-toolkit/internal/text/text-controller.cpp:1105-1181 | a key event is never consumed; without event data or on key release nothing changes; a key press leaves the controller editing |
| TextController.CursorKeyIsQueued | dali-toolkit/internal/text/text-controller.cpp:1123-1131 | a cursor key press queues exactly one cursor-key event carrying the key code |
| TextController.BackspaceEmptyingTextShowsPlaceholder | dali-toolkit/internal/text/text-controller.cpp:1132-1177 | a backspace that empties the text calls text-changed once and shows the placeholder when there is one, and leaves no text otherwise |
| TextController.EscapeEndsInEditing | dali-toolkit/internal/text/text-controller.cpp:1118-1122 | escape makes the controller lose focus and go inactive, but the key press that follows returns it to editing |
| TextController.TappedStateOf | dali-toolkit/internal/text/text-controller.cpp:1300-1344 | a single tap starts editing, a double tap starts selecting when selection is enabled, other taps change nothing, and the queue is kept |
| TextController.TapEventOf | dali-toolkit/internal/text/text-controller.cpp:1300-1344 | without event data nothing happens; with it, one tap event carrying the count and position is queued, the state follows TappedStateOf and the pre-edit flag is cleared |
| TextController.PanEventOf | dali-toolkit/internal/text/text-controller.cpp:1346-1360 | without event data nothing happens; with it, one pan event with the gesture state and displacement is queued |
| TextController.DecorationEventOf | dali-toolkit/internal/text/text-controller.cpp:1372-1418 | without event data nothing happens; with it, one event of the handle's type with the handle state and position is queued |
| TextController.ModelRebuiltOf | dali-toolkit/internal/text/text-controller.cpp:716-731 | a text replacement rebuilds the model: only the size operations stay pending, the natural size is recalculated, and text, event data and modify queue are kept |
| TextController.TextEditedOf | dali-toolkit/internal/text/text-controller.cpp:733-777 | an insertion or deletion asks to update and scroll to the cursor |
| TextController.ModifyEventsUpTo | dali-toolkit/internal/text/text-controller.cpp:643-672 | handling modify events changes neither the text nor the control size nor the modify queue nor the outside calls |
| TextController.ProcessModifyEventsOf | dali-toolkit/internal/text/text-controller.cpp:643-672 | processing handles each queued modify event by its own type and then empties the queue |
| TextController.ModifyEventsAsWrittenUpTo | dali-toolkit/internal/text/text-controller.cpp:647-668 | as written, every queued event is handled by the first event's type |
| TextController.ProcessModifyEventsAsWrittenOf | dali-toolkit/internal/text/text-controller.cpp:643-672 | as written, processing keeps the event data |
| TextController.InsertionAfterReplacementIsLost | dali-toolkit/internal/text/text-controller.cpp:647-668 | with a text-replaced event followed by a text-inserted event, the code as written never updates the cursor, while handling each event by its own type does |
| TextController.ModifyEventsAgreeOnOneType | dali-toolkit/internal/text/text-controller.cpp:647-668 | when every queued event has the same type, the code as written and the corrected dispatch agree |
| TextController.TruncateTowardZero | dali-toolkit/internal/text/text-controller.cpp:1018-1047 | a real converted to an integer is truncated toward zero |
| TextController.CalculateTextAlignmentOf | dali-toolkit/internal/text/text-controller.cpp:995-1057 | aligning changes only the alignment offset |
| TextController.AlignmentOffsets | dali-toolkit/internal/text/text-controller.cpp:995-1057 | begin alignment gives offset 0 and end alignment the free space; right-to-left text swaps begin and end; centre is half the free space truncated; vertically top gives 0, bottom the free height and centre half of it truncated |
| TextController.RelayoutOf | dali-toolkit/internal/text/text-controller.cpp:587-641 | a control size below the epsilon clears the glyph positions and reports an update exactly when there were some; otherwise everything pending is done, the modify and input queues are emptied and the control size is stored |
| TextController.LayOutOf | dali-toolkit/internal/text/text-controller.cpp:604-640 | a full relayout leaves nothing pending, empties the modify and input queues and stores the control size |
| TextController.Controller.constructor | dali-toolkit/internal/text/text-controller.cpp:1587-1598 | a new controller owns a fresh core with no text, no event data, no modify events and a maximum of 50 characters |
| TextController.Controller.EnableTextInput | dali-toolkit/internal/text/text-controller.cpp:66-72 | enabling text input creates event data only once; later calls keep the existing event data |
| TextController.Controller.ResetText | dali-toolkit/internal/text/text-controller.cpp:674-688 | the core afterwards is ResetTextOf of the core before |
| TextController.Controller.ResetCursorPosition | dali-toolkit/internal/text/text-controller.cpp:690-704 | the cursor is reset as the source does, through its state function |
| TextController.Controller.ResetScrollPosition | dali-toolkit/internal/text/text-controller.cpp:706-714 | the scroll position is reset as the source does, through its state function |
| TextController.Controller.ShowPlaceholderText | dali-toolkit/internal/text/text-controller.cpp:1491-1549 | the core afterwards is ShowPlaceholderOf of the core before |
| TextController.Controller.TextChanged | dali-toolkit/internal/text/text-controller.cpp:133 | the text-changed callback is counted once |
| TextController.Controller.SetText | dali-toolkit/internal/text/text-controller.cpp:74-134 | the core afterwards is SetTextOf, whose effects SetTextEffects and SetTextThenGetText state |
| TextController.Controller.ReplaceText | dali-toolkit/internal/text/text-controller.cpp:81-112 | the core moves as ReplaceTextOf says: new text queued as a replacement, or the placeholder shown |
| TextController.Controller.ClearEventQueue | dali-toolkit/internal/text/text-controller.cpp:122-127 | the queued input events are dropped and nothing else changes |
| TextController.Controller.GetText | dali-toolkit/internal/text/text-controller.cpp:136-151 | returns the shown text, or empty text while the placeholder is shown |
| TextController.Controller.GetLogicalCursorPosition | dali-toolkit/internal/text/text-controller.cpp:153-161 | returns the primary cursor position, or 0 without event data |
| TextController.Controller.SetPlaceholderText | dali-toolkit/internal/text/text-controller.cpp:163-183 | the core afterwards is SetPlaceholderTextOf of the core before |
| TextController.Controller.GetPlaceholderText | dali-toolkit/internal/text/text-controller.cpp:185-198 | returns the placeholder text SetPlaceholderThenGet reads back |
| TextController.Controller.SetMaximumNumberOfCharacters | dali-toolkit/internal/text/text-controller.cpp:200-206 | the core afterwards is SetMaximumNumberOfCharactersOf of the core before |
| TextController.Controller.GetMaximumNumberOfCharacters | dali-toolkit/internal/text/text-controller.cpp:208-211 | returns the maximum number of characters |
| TextController.Controller.RemoveText | dali-toolkit/internal/text/text-controller.cpp:314-357 | the core and the result follow RemoveTextOf |
| TextController.Controller.RemovePreEdit | dali-toolkit/internal/text/text-controller.cpp:1224-1233 | the core and the result follow RemovePreEditOf |
| TextController.Controller.TrackPreEdit | dali-toolkit/internal/text/text-controller.cpp:1235-1254 | the core afterwards follows TrackPreEditOf |
| TextController.Controller.InsertCharacters | dali-toolkit/internal/text/text-controller.cpp:1257-1280 | the core and the result follow InsertCharactersOf, whose meaning InsertCharactersPlacesText states |
| TextController.Controller.InsertText | dali-toolkit/internal/text/text-controller.cpp:1183-1298 | the core afterwards follows InsertTextOf |
| TextController.Controller.MaxLengthReached | dali-toolkit/internal/text/text-controller.cpp:1296 | the max-length-reached callback is counted once |
| TextController.Controller.KeyboardFocusGainEvent | dali-toolkit/internal/text/text-controller.cpp:1069-1085 | the core afterwards follows KeyboardFocusGainOf |
| TextController.Controller.KeyboardFocusLostEvent | dali-toolkit/internal/text/text-controller.cpp:1087-1103 | the core afterwards follows KeyboardFocusLostOf |
| TextController.Controller.KeyEvent | dali-toolkit/internal/text/text-controller.cpp:1105-1181 | the core and the result follow KeyEventOf |
| TextController.Controller.Backspace | dali-toolkit/internal/text/text-controller.cpp:1132-1155 | the core and the result follow BackspaceOf: the character before the cursor goes, an emptied text shows the placeholder and asks for a cursor update, any other removal queues a text-deleted event, and the answer is whether anything was removed |
| TextController.Controller.TapEvent | dali-toolkit/internal/text/text-controller.cpp:1300-1344 | the core afterwards follows TapEventOf |
| TextController.Controller.PanEvent | dali-toolkit/internal/text/text-controller.cpp:1346-1360 | the core afterwards follows PanEventOf |
| TextController.Controller.DecorationEvent | dali-toolkit/internal/text/text-controller.cpp:1372-1418 | the core afterwards follows DecorationEventOf |
| TextController.Controller.TextReplacedEvent | dali-toolkit/internal/text/text-controller.cpp:716-731 | the core afterwards follows ModelRebuiltOf |
| TextController.Controller.TextEditedEvent | dali-toolkit/internal/text/text-controller.cpp:733-777 | the core afterwards follows TextEditedOf |
| TextController.Controller.ProcessModifyEvents | dali-toolkit/internal/text/text-controller.cpp:643-672 | the loop over the queue computes ProcessModifyEventsOf, the corrected dispatch |
| TextController.Controller.CalculateTextAlignment | dali-toolkit/internal/text/text-controller.cpp:995-1057 | the core afterwards follows CalculateTextAlignmentOf |
| TextController.Controller.Relayout | dali-toolkit/internal/text/text-controller.cpp:587-641 | the core and the result follow RelayoutOf |
| TextController.Controller.LayOut | dali-toolkit/internal/text/text-controller.cpp:604-640 | laying out at a size that is not too small: the core and the result follow LayOutOf, so nothing stays pending, the modify and input queues end empty and the control size is the new size |
| TextController.Controller.AlignAndProcessInput | dali-toolkit/internal/text/text-controller.cpp:631-637 | the alignment offset is computed for the new size, then the queued input events are handled as ProcessInputEventsOf says, and the decorator flag is reported |
| NPatchLoader.FirstMatch | dali-toolkit/internal/visuals/npatch-loader.cpp:48-58 | the search finds the first cached entry with the url, none earlier has it, and nothing is found only when no entry has it |
| NPatchLoader.BorderedData | dali-toolkit/internal/visuals/npatch-loader.cpp:84-110 | an entry loaded with an explicit border keeps the url, hash and image size, and gets one stretch range per axis running from the near border to the image size minus the far border |
| NPatchLoader.FirstMatchStable | dali-toolkit/internal/visuals/npatch-loader.cpp:48-58 | appending an entry does not change where an url already cached is found |
| NPatchLoader.FirstMatchAppended | dali-toolkit/internal/visuals/npatch-loader.cpp:48-80 | an appended entry is found at its own position when its url was not cached before |
| NPatchLoader.Loader.constructor | dali-toolkit/internal/visuals/npatch-loader.cpp:35-37 | a new loader has an empty cache |
| NPatchLoader.Loader.Load | dali-toolkit/internal/visuals/npatch-loader.cpp:43-117 | a cached url returns its position plus one and adds nothing; otherwise a nine-patch (no border) or plain image (with border) that loads is appended and its id is the new cache size; an image that fails to load returns 0 and adds nothing |
| NPatchLoader.Loader.GetNPatchData | dali-toolkit/internal/visuals/npatch-loader.cpp:119-128 | an id is found exactly when it lies between 1 and the cache size, and then gives the entry at position id - 1 |
| RollingImageCache.PushOne | dali-toolkit/internal/visuals/animated-image/rolling-image-cache.cpp:126-147 | one load step appends a not-yet-ready frame for the current url (ready at once when the texture was already uploaded), stores the requested texture id for that url and advances the url index round-robin |
| RollingImageCache.Pushes | dali-toolkit/internal/visuals/animated-image/rolling-image-cache.cpp:124-148 | n load steps append n frames whose url indices follow each other round-robin from the current index, and leave the earlier frames alone |
| RollingImageCache.PushCount | dali-toolkit/internal/visuals/animated-image/rolling-image-cache.cpp:124 | a batch loads at most the batch size and stops early only when the queue is full |
| RollingImageCache.CheckFront | dali-toolkit/internal/visuals/animated-image/rolling-image-cache.cpp:175-182 | a waiting cache whose front frame has just become ready stops waiting and notifies the observer with the front texture set; otherwise nothing changes |
| RollingImageCache.LoadBatchSpec | dali-toolkit/internal/visuals/animated-image/rolling-image-cache.cpp:117-150 | a batch appends up to the batch size of round-robin frames, fewer only when the queue fills, and keeps the earlier frames |
| RollingImageCache.PopFront | dali-toolkit/internal/visuals/animated-image/rolling-image-cache.cpp:92-95 | advancing drops the front frame, releases its texture and marks its url as having no texture |
| RollingImageCache.NextFrameSpec | dali-toolkit/internal/visuals/animated-image/rolling-image-cache.cpp:90-110 | the next frame releases the old front's texture and refills the queue; a texture set is returned only when the new front is ready, and then it is that frame's |
| RollingImageCache.FirstWithTexture | dali-toolkit/internal/visuals/animated-image/rolling-image-cache.cpp:154-161 | the search finds the first queued frame whose url has the texture, and none earlier has it |
| RollingImageCache.SetReadySpec | dali-toolkit/internal/visuals/animated-image/rolling-image-cache.cpp:152-162 | exactly the first queued frame holding the texture becomes ready; every other frame and the rest of the state are unchanged |
| RollingImageCache.UploadCompleteSpec | dali-toolkit/internal/visuals/animated-image/rolling-image-cache.cpp:184-211 | an upload finishing outside a load request marks frames ready without changing the queue length, the texture ids or the released textures |
| RollingImageCache.TexturesOf | dali-toolkit/internal/visuals/animated-image/rolling-image-cache.cpp:69-76 | the textures of a queue are those of its frames' urls, in queue order |
| RollingImageCache.TexturesOfSnoc | dali-toolkit/internal/visuals/animated-image/rolling-image-cache.cpp:69-76 | the textures of a queue's prefix grow by one frame's texture at a time |
| RollingImageCache.Cache.constructor | dali-toolkit/internal/visuals/animated-image/rolling-image-cache.cpp:60-67 | a new cache starts from an empty queue with no textures and loads its first batch |
| RollingImageCache.Cache.IsFrontReady | dali-toolkit/internal/visuals/animated-image/rolling-image-cache.cpp:112-115 | the front is ready exactly when the queue is not empty and its first frame is ready |
| RollingImageCache.Cache.FirstFrame | dali-toolkit/internal/visuals/animated-image/rolling-image-cache.cpp:78-88 | returns the front texture set when the front is ready, and otherwise starts waiting for one |
| RollingImageCache.Cache.CheckFrontFrame | dali-toolkit/internal/visuals/animated-image/rolling-image-cache.cpp:175-182 | the cache state afterwards is CheckFront of the state before |
| RollingImageCache.Cache.SetImageFrameReady | dali-toolkit/internal/visuals/animated-image/rolling-image-cache.cpp:152-162 | the loop over the queue computes SetReadySpec |
| RollingImageCache.Cache.UploadComplete | dali-toolkit/internal/visuals/animated-image/rolling-image-cache.cpp:184-211 | outside a load request the state follows UploadCompleteSpec; during one, the frame just pushed is marked ready |
| RollingImageCache.Cache.LoadBatch | dali-toolkit/internal/visuals/animated-image/rolling-image-cache.cpp:117-150 | the loop computes LoadBatchSpec |
| RollingImageCache.Cache.LoadOne | dali-toolkit/internal/visuals/animated-image/rolling-image-cache.cpp:126-147 | one pass of the batch loop computes PushOne |
| RollingImageCache.Cache.NextFrame | dali-toolkit/internal/visuals/animated-image/rolling-image-cache.cpp:90-110 | state and result follow NextFrameSpec |
| RollingImageCache.Cache.Destroy | dali-toolkit/internal/visuals/animated-image/rolling-image-cache.cpp:69-76 | destroying empties the queue and releases the texture of every queued frame, in order |
| AtlasRenderer.StyleOf | dali-toolkit/internal/text/rendering/atlas/text-atlas-renderer.cpp:130-133 | the text gets a drop shadow exactly when either shadow offset component is further than the single-precision epsilon from zero |
| AtlasRenderer.UnderlineMetrics | dali-toolkit/internal/text/rendering/atlas/text-atlas-renderer.cpp:151-181 | the underline position is at least one, the font's position rounded up unless capped at the rounded descender, and a zero position becomes one; an explicit underline height is kept, otherwise the font's thickness is used, rounded up and at least one pixel |
| AtlasRenderer.AdjustedExtents | dali-toolkit/internal/text/rendering/atlas/text-atlas-renderer.cpp:393-438 | every extent on the quad's baseline widens to reach the quad's left and right edges and keeps the larger underline position and thickness; extents on other baselines are unchanged; exactly one new extent, for the given record, is appended when no extent is on that baseline |
| AtlasRenderer.AdjustedExtentsKeepBaseLinesDistinct | dali-toolkit/internal/text/rendering/atlas/text-atlas-renderer.cpp:393-438 | adjusting keeps one extent per baseline, and afterwards the quad's baseline has an extent |
| AtlasRenderer.AdjustExtents | dali-toolkit/internal/text/rendering/atlas/text-atlas-renderer.cpp:393-438 | the loop over the extents computes exactly AdjustedExtents |
| AtlasRenderer.FirstRecord | dali-toolkit/internal/text/rendering/atlas/text-atlas-renderer.cpp:353-370 | the search finds the first record with the glyph's atlas and colour, none earlier has both, and nothing is found only when no record has both |
| AtlasRenderer.Stitched | dali-toolkit/internal/text/rendering/atlas/text-atlas-renderer.cpp:338-391 | a glyph without an image changes nothing; otherwise the quad joins an existing record or exactly one new non-underline record with the glyph's atlas and colour is appended; existing records keep their atlas and colour |
| AtlasRenderer.StitchedKeepsExtentsValid | dali-toolkit/internal/text/rendering/atlas/text-atlas-renderer.cpp:338-391 | after stitching every extent names an existing record and no two extents share a baseline |
| AtlasRenderer.StitchTextMesh | dali-toolkit/internal/text/rendering/atlas/text-atlas-renderer.cpp:338-391 | the search loop over the records computes exactly Stitched |
| AtlasRenderer.UnderlineVertices | dali-toolkit/internal/text/rendering/atlas/text-atlas-renderer.cpp:527-560 | an underline quad spans the extent's left and right edges, its top edge lies at baseline + underline position - thickness / 2 and its bottom edge one thickness lower |
| AtlasRenderer.NextFaceIndex | dali-toolkit/internal/text/rendering/atlas/text-atlas-renderer.cpp:524-568 | the face index is an unsigned 16-bit counter advanced by four per quad: it adds four when that fits and always stays below 65536 |
| AtlasRenderer.UnderlineStep | dali-toolkit/internal/text/rendering/atlas/text-atlas-renderer.cpp:527-582 | one underline adds four vertices and the six indices of its quad to the gathered mesh and advances the face index; with the underline colour equal to the text colour no record is added, otherwise one underline record in the underline colour, on the extent's atlas, is appended |
| AtlasRenderer.UnderlinesUpTo | dali-toolkit/internal/text/rendering/atlas/text-atlas-renderer.cpp:518-584 | underlining never removes a record |
| AtlasRenderer.UnderlinesShape | dali-toolkit/internal/text/rendering/atlas/text-atlas-renderer.cpp:518-584 | after n extents the gathered mesh has 4n vertices and 6n indices, the j-th six indices form the quad starting at vertex 4j modulo 65536, and one underline record in the underline colour was added per extent exactly when the colours differ |
| AtlasRenderer.GenerateUnderlines | dali-toolkit/internal/text/rendering/atlas/text-atlas-renderer.cpp:518-584 | the loop over the extents produces the records UnderlinesUpTo describes for all of them |
| AtlasRenderer.FirstOccurrences | dali-toolkit/internal/text/rendering/atlas/text-atlas-renderer.cpp:445-458 | the pairs checked are never more than the cache entries |
| AtlasRenderer.FirstOccurrencesCover | dali-toolkit/internal/text/rendering/atlas/text-atlas-renderer.cpp:445-488 | the (font, glyph) pairs checked are exactly the pairs in the old cache, each checked once |
| AtlasRenderer.RemoveTextAdjustsEachPairOnce | dali-toolkit/internal/text/rendering/atlas/text-atlas-renderer.cpp:440-490 | each (font, glyph) pair of the old cache gets exactly one reference-count adjustment, equal to its count in the new glyphs minus its count in the old cache |
| AtlasRenderer.BlocksAfter | dali-toolkit/internal/text/rendering/atlas/text-atlas-renderer.cpp:492-516 | block sizes are only appended; every font of the glyphs ends up with one; font ids stay unique; each new entry is square in its font's height |
| AtlasRenderer.VisibleEntries | dali-toolkit/internal/text/rendering/atlas/text-atlas-renderer.cpp:144-148 | a cache entry is made only for a glyph with both a width and a height, with the image of its atlas slot |
| AtlasRenderer.VisibleEntriesStep | dali-toolkit/internal/text/rendering/atlas/text-atlas-renderer.cpp:236-243 | a glyph without width or height adds no cache entry; a visible glyph adds exactly one, at the end |
| AtlasRenderer.AtlasRenderer.constructor | dali-toolkit/internal/text/rendering/atlas/text-atlas-renderer.cpp:769-772 | a new renderer has no cached glyphs, no block sizes, has asked for no reference-count change and for no atlas block size |
| AtlasRenderer.AtlasRenderer.RemoveText | dali-toolkit/internal/text/rendering/atlas/text-atlas-renderer.cpp:440-490 | the adjustments asked for are those of RemoveTextAdjustsEachPairOnce, in cache order, and the cache is emptied |
| AtlasRenderer.AtlasRenderer.AddGlyphs | dali-toolkit/internal/text/rendering/atlas/text-atlas-renderer.cpp:109-268 | laying out text chooses the style by the shadow offset, adjusts the old cache's reference counts to the new glyphs, adds block sizes for new fonts, leaves the block sizes and the atlas sizes asked for that SizedBlocks describes, caches one entry per visible glyph, and returns the extents of StitchedGlyphs and its records, followed by UnderlinesUpTo over all the extents when underlining is enabled |
| AtlasRenderer.AtlasRenderer.StitchGlyphs | dali-toolkit/internal/text/rendering/atlas/text-atlas-renderer.cpp:144-247 | the glyph loop leaves one cache entry per visible glyph, in order, and the records and extents of StitchedGlyphs over all the glyphs: one text record per atlas drawn on, holding that atlas's quads in glyph order, and one extent per baseline drawn on |
| AtlasRenderer.AtlasRenderer.CalculateBlocksSize | dali-toolkit/internal/text/rendering/atlas/text-atlas-renderer.cpp:492-516 | the nested loops produce the block sizes BlocksAfter describes |
| AtlasRenderer.BlocksAfterStep | dali-toolkit/internal/text/rendering/atlas/text-atlas-renderer.cpp:494-515 | one more glyph appends a square block size in its font's height exactly when its font has none yet |
| AtlasRenderer.SelectedBlock | dali-toolkit/internal/text/rendering/atlas/text-atlas-renderer.cpp:193-205 | the search over the block sizes makes a block of the glyph's font current when there is one, asks the glyph manager for that block's size per match, and keeps the current block and asks nothing when the font has none |
| AtlasRenderer.SelectedBlockIsTheFontsEntry | dali-toolkit/internal/text/rendering/atlas/text-atlas-renderer.cpp:193-205 | with one block size per font, the search selects the font's own entry and asks for its size exactly once |
| AtlasRenderer.GrownBlock | dali-toolkit/internal/text/rendering/atlas/text-atlas-renderer.cpp:212-223 | growing a block for a bitmap keeps its font, makes each side at least the bitmap's and at least what it was, and each side is either the old one or the bitmap's |
| AtlasRenderer.GlyphBlockStep | dali-toolkit/internal/text/rendering/atlas/text-atlas-renderer.cpp:186-235 | one glyph never shrinks or reorders the block sizes and keeps the current block in range; white space changes nothing, and a glyph the glyph manager holds only becomes the last font |
| AtlasRenderer.GlyphBlockStepSizesBitmap | dali-toolkit/internal/text/rendering/atlas/text-atlas-renderer.cpp:190-235 | a glyph not held by the glyph manager whose bitmap is made is added to the glyph manager and its current block then holds the bitmap; a glyph of a font other than the last selects its own font's block |
| AtlasRenderer.GlyphBlocks | dali-toolkit/internal/text/rendering/atlas/text-atlas-renderer.cpp:144-256 | the glyph loop never shrinks a block, keeps each block's font and the number of blocks, and keeps the current block in range |
| AtlasRenderer.GlyphBlocksStepHolds | dali-toolkit/internal/text/rendering/atlas/text-atlas-renderer.cpp:190-235 | one more glyph keeps every glyph the glyph manager held, and adds a visible glyph that has a bitmap |
| AtlasRenderer.GlyphBlocksHoldBitmaps | dali-toolkit/internal/text/rendering/atlas/text-atlas-renderer.cpp:144-256 | after the glyph loop the glyph manager holds every visible glyph whose bitmap was made |
| AtlasRenderer.GlyphBlocksSkip | dali-toolkit/internal/text/rendering/atlas/text-atlas-renderer.cpp:149 | white space leaves the block sizes, the current block, the last font and the requests as they were |
| AtlasRenderer.GlyphBlocksStep | dali-toolkit/internal/text/rendering/atlas/text-atlas-renderer.cpp:144-256 | the loop over n + 1 glyphs is the loop over n followed by one step, and the step's glyph has a block for its font |
| AtlasRenderer.SizedBlocks | dali-toolkit/internal/text/rendering/atlas/text-atlas-renderer.cpp:127-142 | after the blocks are added and the loop sizes them, the old block sizes keep their fonts and never shrink, every glyph's font has a block, and font ids stay unique |
| AtlasRenderer.SizedNewFontBlock | dali-toolkit/internal/text/rendering/atlas/text-atlas-renderer.cpp:193-235 | one glyph of a new font is sized against the one block added for its font, at the font height |
| AtlasRenderer.FirstGlyphOfFontStep | dali-toolkit/internal/text/rendering/atlas/text-atlas-renderer.cpp:193-235 | a glyph whose font is not the last one selects its font's block, asks for its size, grows it to its bitmap, and asks for the grown size only when the block grew |
| AtlasRenderer.NewFontBlockGrowsToItsBitmap | dali-toolkit/internal/text/rendering/atlas/text-atlas-renderer.cpp:193-235 | the first glyph of a new font leaves its block at the larger of the font height and the bitmap in each direction, asks for the square font-height size, then asks for the grown size exactly when the bitmap is larger in either direction |
| AtlasRenderer.AtlasRenderer.SizeGlyphBlocks | dali-toolkit/internal/text/rendering/atlas/text-atlas-renderer.cpp:144-256 | the block sizing of the glyph loop leaves the block sizes and the atlas sizes asked for that GlyphBlocks describes |
| AtlasRenderer.FindBlock | dali-toolkit/internal/text/rendering/atlas/text-atlas-renderer.cpp:497-505 | the inner search finds a block size for the font exactly when one exists |
| AtlasRenderer.GlyphMetrics | dali-toolkit/internal/text/rendering/atlas/text-atlas-renderer.cpp:151-183 | a glyph of the last font keeps the underline metrics in use; a glyph of another font takes its font's position, at least one, and its thickness, at least one, only when no underline height is given; a given underline height is never replaced |
| AtlasRenderer.GlyphStitchStep | dali-toolkit/internal/text/rendering/atlas/text-atlas-renderer.cpp:148-246 | white space leaves the stitching state alone; a visible glyph becomes the last font, brings in the new font's underline metrics when its font changed, and keeps valid extents valid |
| AtlasRenderer.StitchedGlyphs | dali-toolkit/internal/text/rendering/atlas/text-atlas-renderer.cpp:144-247 | after any number of glyphs every extent names an existing record, no two extents share a baseline, and a given underline height is the thickness in use |
| AtlasRenderer.AtlasMesh | dali-toolkit/internal/text/rendering/atlas/text-atlas-renderer.cpp:144-247 | an atlas gets a mesh from the first n glyphs exactly when one of them is visible and drawn from an image on that atlas |
| AtlasRenderer.DrawnOnAtlasStep | dali-toolkit/internal/text/rendering/atlas/text-atlas-renderer.cpp:148-246 | one more glyph is drawn on an atlas exactly when it is visible with an image from that atlas |
| AtlasRenderer.DrawnOnBaseLineStep | dali-toolkit/internal/text/rendering/atlas/text-atlas-renderer.cpp:148-246 | one more glyph is drawn on a baseline exactly when it is visible with an image and its position plus its bearing is that baseline |
| AtlasRenderer.StitchedKeepsOneRecordPerAtlas | dali-toolkit/internal/text/rendering/atlas/text-atlas-renderer.cpp:338-391 | stitching a quad into text records of one colour keeps them text records, one per atlas; the quad's atlas then has a record and no other atlas gains one |
| AtlasRenderer.StitchedExtentsCoverBaseLine | dali-toolkit/internal/text/rendering/atlas/text-atlas-renderer.cpp:338-391 | stitching a quad gives its baseline an extent and no other baseline gains one |
| AtlasRenderer.GlyphStitchStepRecords | dali-toolkit/internal/text/rendering/atlas/text-atlas-renderer.cpp:238-246 | a glyph drawn from an image stitches its quad onto its atlas's record when there is one and leaves every other record as it was, or else appends one new text record holding just the quad; white space and glyphs without an image leave the records alone |
| AtlasRenderer.GlyphStitchStepBaseLines | dali-toolkit/internal/text/rendering/atlas/text-atlas-renderer.cpp:238-246 | a glyph drawn from an image gives its baseline (position plus bearing) an extent, and no other baseline gains one |
| AtlasRenderer.GlyphStitchRecordPerAtlas | dali-toolkit/internal/text/rendering/atlas/text-atlas-renderer.cpp:144-247 | one more glyph keeps the records text records in the text colour, one per atlas, for exactly the atlases the glyphs are drawn on |
| AtlasRenderer.StitchedGlyphsRecordPerAtlas | dali-toolkit/internal/text/rendering/atlas/text-atlas-renderer.cpp:144-247 | the glyph loop makes only text records in the text colour, one per atlas, and an atlas has a record exactly when a visible glyph is drawn from an image on it |
| AtlasRenderer.GlyphStitchHoldsAtlasMeshes | dali-toolkit/internal/text/rendering/atlas/text-atlas-renderer.cpp:144-247 | one more glyph keeps every record holding the quads of its atlas, stitched in glyph order |
| AtlasRenderer.StitchedGlyphsMeshPerAtlas | dali-toolkit/internal/text/rendering/atlas/text-atlas-renderer.cpp:144-247 | each record the glyph loop makes holds exactly the quads of the visible glyphs drawn on its atlas, stitched in glyph order |
| AtlasRenderer.GlyphStitchMatchesBaseLines | dali-toolkit/internal/text/rendering/atlas/text-atlas-renderer.cpp:144-247 | one more glyph keeps one extent for exactly the baselines the glyphs are drawn on |
| AtlasRenderer.StitchedGlyphsExtentPerBaseLine | dali-toolkit/internal/text/rendering/atlas/text-atlas-renderer.cpp:144-247 | a baseline has an extent after the glyph loop exactly when a visible glyph drawn from an image sits on it |
| AtlasRenderer.StitchGlyph | dali-toolkit/internal/text/rendering/atlas/text-atlas-renderer.cpp:151-246 | stitching one visible glyph, fetching its font's metrics when the font changed, computes exactly GlyphStitchStep |
| AtlasRenderer.ReserveBlock | dali-toolkit/internal/text/rendering/atlas/text-atlas-renderer.cpp:190-235 | the selection loop and the bitmap growth of one visible glyph compute exactly GlyphBlockStep |
| AtlasRenderer.ReserveGlyphBlock | dali-toolkit/internal/text/rendering/atlas/text-atlas-renderer.cpp:190-235 | sizing the i-th visible glyph carries the loop's cursor from i glyphs to i + 1 |
| AtlasRenderer.UnderlinesMeshShape | dali-toolkit/internal/text/rendering/atlas/text-atlas-renderer.cpp:518-584 | after n extents the gathered mesh has 4n vertices and 6n indices, and the j-th six indices form the quad starting at vertex 4j modulo 65536 |
| AtlasRenderer.UnderlinesRecordsShape | dali-toolkit/internal/text/rendering/atlas/text-atlas-renderer.cpp:518-584 | one underline record in the underline colour was added per extent exactly when the colours differ, and none otherwise |
| AtlasRenderer.CountInCache | dali-toolkit/internal/text/rendering/atlas/text-atlas-renderer.cpp:466-473 | the loop counts how often a (font, glyph) pair occurs in the old cache |
| AtlasRenderer.CountInGlyphs | dali-toolkit/internal/text/rendering/atlas/text-atlas-renderer.cpp:475-482 | the loop counts how often a (font, glyph) pair occurs in the new glyphs |
| SelectionPopup.InsertPermutes | dali-toolkit/internal/controls/text-controls/text-selection-popup-impl.cpp:500-501 | inserting one option adds exactly that option and keeps all the others |
| SelectionPopup.InsertKeepsSorted | dali-toolkit/internal/controls/text-controls/text-selection-popup-impl.cpp:500-501 | inserting one option into a list sorted by priority keeps it sorted |
| SelectionPopup.SortByPriorityIsSortedPermutation | dali-toolkit/internal/controls/text-controls/text-selection-popup-impl.cpp:500-501 | sorting the options gives a list ordered by ascending priority with exactly the same options |
| SelectionPopup.Enabled | dali-toolkit/internal/controls/text-controls/text-selection-popup-impl.cpp:603-616 | the enabled options are drawn from the list and are all enabled |
| SelectionPopup.OptionRows | dali-toolkit/internal/controls/text-controls/text-selection-popup-impl.cpp:509-514 | an option has two rows exactly when it shows both an icon and a caption, and one row otherwise |
| SelectionPopup.OptionsOfAppend | dali-toolkit/internal/controls/text-controls/text-selection-popup-impl.cpp:618-632 | the options on a toolbar built in two parts are those of the first part followed by those of the second |
| SelectionPopup.EnabledPrefix | dali-toolkit/internal/controls/text-controls/text-selection-popup-impl.cpp:618-632 | a prefix of the list has no more enabled options than the whole list |
| SelectionPopup.ItemsOptions | dali-toolkit/internal/controls/text-controls/text-selection-popup-impl.cpp:618-632 | the options put on the toolbar for the first n list entries are exactly the enabled ones among them, in list order |
| SelectionPopup.ItemsAlternate | dali-toolkit/internal/controls/text-controls/text-selection-popup-impl.cpp:618-632 | while filling the toolbar, options and dividers alternate, it starts with an option, and it ends with an option only once every required option is added |
| SelectionPopup.ItemsStep | dali-toolkit/internal/controls/text-controls/text-selection-popup-impl.cpp:618-632 | one more option of the list adds its item only when it is enabled, followed by a divider exactly when fewer than all enabled options have been added |
| SelectionPopup.ToolbarShape | dali-toolkit/internal/controls/text-controls/text-selection-popup-impl.cpp:618-632 | the finished toolbar holds the enabled options in order, with a divider between each two and none before the first or after the last; with no enabled option it is empty |
| SelectionPopup.OptionList | dali-toolkit/internal/controls/text-controls/text-selection-popup-impl.cpp:460-498 | the popup considers exactly six options |
| SelectionPopup.OrDefault | dali-toolkit/internal/controls/text-controls/text-selection-popup-impl.cpp:465-496 | an option always ends with an icon: one already set is kept, otherwise the default resource is loaded |
| SelectionPopup.TextSelectionPopup.constructor | dali-toolkit/internal/controls/text-controls/text-selection-popup-impl.cpp:651-669 | a new popup has zero sizes, a two-pixel divider, the default line colour, priorities select 1, select-all 2, cut 3, copy 4, paste 5, clipboard 6, captions without icons, no icon images, no option list and no toolbar |
| SelectionPopup.TextSelectionPopup.SetDimensionToCustomise | dali-toolkit/internal/controls/text-controls/text-selection-popup-impl.cpp:301-345 | the chosen dimension takes the new value and every other dimension keeps its own; an existing toolbar's maximum size follows the popup's maximum size; the toolbar, the option order, every button image, the six option priorities, the icon and caption flags and the line colour are unchanged |
| SelectionPopup.TextSelectionPopup.GetButtonImage | dali-toolkit/internal/controls/text-controls/text-selection-popup-impl.cpp:418-459 | asking for no button gives no image |
| SelectionPopup.TextSelectionPopup.SetButtonImage | dali-toolkit/internal/controls/text-controls/text-selection-popup-impl.cpp:376-416 | the chosen button's image is replaced and every other button's image and every dimension are kept |
| SelectionPopup.TextSelectionPopup.CreateOrderedListOfPopupOptions | dali-toolkit/internal/controls/text-controls/text-selection-popup-impl.cpp:460-502 | every missing icon is filled with its default, and the option list becomes the six options sorted by priority; nothing else changes |
| SelectionPopup.TextSelectionPopup.FillDefaultImages | dali-toolkit/internal/controls/text-controls/text-selection-popup-impl.cpp:465-496 | each icon not yet set gets its default resource and each set icon is kept |
| SelectionPopup.TextSelectionPopup.GetNumberOfEnabledOptions | dali-toolkit/internal/controls/text-controls/text-selection-popup-impl.cpp:603-616 | the count is the number of enabled options in the list |
| SelectionPopup.TextSelectionPopup.AddPopupOptionsToToolbar | dali-toolkit/internal/controls/text-controls/text-selection-popup-impl.cpp:618-632 | the loop adds to the toolbar exactly the items ToolbarShape describes, with the divider width and line colour of the popup |
| SelectionPopup.TextSelectionPopup.CreatePopup | dali-toolkit/internal/controls/text-controls/text-selection-popup-impl.cpp:634-649 | the option list is always rebuilt; the toolbar is created and filled only when there was none, with the popup's maximum size; an existing toolbar is left as it was |
| VisualBase.VisualTypeCode | dali-toolkit/internal/visuals/color/color-visual.cpp:116-121 | each kind of visual is written into a property map as a code between 0 and 7 |
| VisualBase.VisualTypeCodeInjective | dali-toolkit/internal/visuals/color/color-visual.cpp:116-121 | no two kinds of visual share a code, so the code written into a map identifies the visual |
| VisualBase.Visual.constructor | dali-toolkit/internal/visuals/visual-base-impl.cpp:42-46 | a new visual has no flags, zero size and offset, depth index zero, no renderer, no custom shader and the default transform |
| VisualBase.Visual.SetCustomShader | dali-toolkit/internal/visuals/visual-base-impl.cpp:53-63 | the first shader map creates the custom shader record; later ones update the same record in place |
| VisualBase.Visual.Initialize | dali-toolkit/internal/visuals/visual-base-impl.cpp:65-78 | a shader entry (by index or by the name "shader") holding a map installs that map as the custom shader; anything else leaves the custom shader as it was |
| VisualBase.Visual.SetSize | dali-toolkit/internal/visuals/visual-base-impl.cpp:80-83 | the visual's size becomes the given size |
| VisualBase.Visual.GetSize | dali-toolkit/internal/visuals/visual-base-impl.cpp:85-88 | returns the size last set |
| VisualBase.Visual.GetNaturalSize | dali-toolkit/internal/visuals/visual-base-impl.cpp:90-93 | a visual with no content of its own has zero natural size |
| VisualBase.Visual.SetOffset | dali-toolkit/internal/visuals/visual-base-impl.cpp:99-102 | the visual's offset becomes the given offset |
| VisualBase.Visual.SetDepthIndex | dali-toolkit/internal/visuals/visual-base-impl.cpp:104-111 | the depth index is stored and, when a renderer exists, copied to it without touching its other settings |
| VisualBase.Visual.GetDepthIndex | dali-toolkit/internal/visuals/visual-base-impl.cpp:113-116 | returns the depth index last set |
| VisualBase.Visual.SetOnStage | dali-toolkit/internal/visuals/visual-base-impl.cpp:118-127 | putting a visual on stage sets the on-stage flag, hands its renderer the visual's depth index and pre-multiplied-alpha setting, and adds the renderer to the actor |
| VisualBase.Visual.SetOffStage | dali-toolkit/internal/visuals/visual-base-impl.cpp:129-137 | a visual not on stage is left alone; one on stage has its renderer removed from the actor and dropped, and its on-stage flag cleared |
| VisualBase.Visual.EnablePreMultipliedAlpha | dali-toolkit/internal/visuals/visual-base-impl.cpp:139-154 | the pre-multiplied-alpha flag is set or cleared as asked and, when a renderer exists, the renderer's blend setting follows it |
| VisualBase.Visual.IsPreMultipliedAlphaEnabled | dali-toolkit/internal/visuals/visual-base-impl.cpp:156-159 | reports whether the pre-multiplied-alpha flag is set |
| VisualBase.Visual.GetIsOnStage | dali-toolkit/internal/visuals/visual-base-impl.cpp:181-184 | reports whether the on-stage flag is set |
| VisualBase.Visual.GetIsFromCache | dali-toolkit/internal/visuals/visual-base-impl.cpp:186-189 | reports whether the from-cache flag is set |
| ColorVisual.ColorPropertyMap | dali-toolkit/internal/visuals/color/color-visual.cpp:116-121 | the map a colour visual writes holds exactly its type code and its mix colour, and the colour can be found in it again |
| ColorVisual.ColorMapRoundTrip | dali-toolkit/internal/visuals/color/color-visual.cpp:100-121 | reading back the map a colour visual writes gives the same colour |
| ColorVisual.ColorFromMapFails | dali-toolkit/internal/visuals/color/color-visual.cpp:100-107 | a map with no colour entry, or one whose value is not a four-component vector, provides no colour |
| ColorVisual.ColorVisual.constructor | dali-toolkit/internal/visuals/color/color-visual.cpp:90-94 | a new colour visual has a fresh base, a transparent black mix colour and no errors logged |
| ColorVisual.ColorVisual.DoSetProperties | dali-toolkit/internal/visuals/color/color-visual.cpp:100-107 | a colour found in the map becomes the mix colour; otherwise the mix colour is kept and one error is logged |
| ColorVisual.ColorVisual.DoCreatePropertyMap | dali-toolkit/internal/visuals/color/color-visual.cpp:116-121 | the map written is the one ColorMapRoundTrip reads back as the current mix colour |
| ColorVisual.ColorVisual.InitializeRenderer | dali-toolkit/internal/visuals/color/color-visual.cpp:131-152 | a fresh renderer gets the mix colour registered under "mixColor" and blends whenever the colour is translucent |
| ColorVisual.ColorVisual.SetOnStage | dali-toolkit/internal/visuals/visual-base-impl.cpp:118-127 | going on stage creates the renderer, adds it to the actor, sets the on-stage flag and hands the renderer the depth index and pre-multiplied-alpha setting |
| ColorVisual.ColorVisual.SetColor | dali-toolkit/internal/visuals/color/color-visual.cpp:154-166 | the mix colour becomes the given colour; an existing renderer's colour property follows, blending is switched on for a translucent colour and otherwise left as it was |
| TextVisual.StringKeyToIndexKey | dali-toolkit/internal/visuals/text/text-visual.cpp:147-193 | a name maps to a property index exactly when it is one of the text visual's property names, and that index's name is the given one; any other name maps to the invalid key |
| TextVisual.NameToIndexRoundTrip | dali-toolkit/internal/visuals/text/text-visual.cpp:147-193 | every text visual property index is recovered from its own name |
| TextVisual.ConvertKeys | dali-toolkit/internal/visuals/text/text-visual.cpp:204-223 | converting the keys keeps every entry in place with its value, and replaces each key by its index |
| TextVisual.ConvertStringKeysToIndexKeys | dali-toolkit/internal/visuals/text/text-visual.cpp:204-223 | the loop keeps index keys, turns each string key into its index and keeps every value, entry by entry |
| TextVisual.ParseHorizontalAlignment | dali-toolkit/internal/visuals/text/text-visual.cpp:53-78 | a horizontal alignment name is recognised exactly when it is in the table, and then names the alignment found |
| TextVisual.ParseVerticalAlignment | dali-toolkit/internal/visuals/text/text-visual.cpp:61-87 | a vertical alignment name is recognised exactly when it is in the table, and then names the alignment found |
| TextVisual.AlignmentNamesRoundTrip | dali-toolkit/internal/visuals/text/text-visual.cpp:53-87 | every alignment is read back from the name the visual writes for it |
| TextVisual.ApplyProperty | dali-toolkit/internal/visuals/text/text-visual.cpp:354-427 | an unknown property index, or an alignment name not in the table, changes nothing; no property touches eliding or the cursor width |
| TextVisual.ConvertedMapSetsTheSame | dali-toolkit/internal/visuals/text/text-visual.cpp:204-223 | setting properties from a map with string keys has the same effect as from the map with its keys converted to indices |
| TextVisual.TextPropertyMap | dali-toolkit/internal/visuals/text/text-visual.cpp:235-262 | the map a text visual writes holds ten entries and starts with the text visual type |
| TextVisual.InstancePropertyMap | dali-toolkit/internal/visuals/text/text-visual.cpp:264-271 | the instance map holds two entries: TYPE reads back the text visual's type code, TEXT reads back the visual's text, and no other key is found |
| TextVisual.InstanceMapAgreesWithFullMap | dali-toolkit/internal/visuals/text/text-visual.cpp:235-271 | the instance map reads back the same type and text as the full property map |
| TextVisual.SetThenReadBack | dali-toolkit/internal/visuals/text/text-visual.cpp:235-262 | a property set with a value of its own type is found with that value in the map the visual writes |
| TextVisual.TextVisual.constructor | dali-toolkit/internal/visuals/text/text-visual.cpp:274-279 | a new text visual has a fresh base and its controller's defaults |
| TextVisual.TextVisual.DoSetProperty | dali-toolkit/internal/visuals/text/text-visual.cpp:354-427 | the settings afterwards are those ApplyProperty gives |
| TextVisual.TextVisual.DoSetProperties | dali-toolkit/internal/visuals/text/text-visual.cpp:285-309 | every entry of the map is applied in order, and then eliding is switched on and the cursor width set to zero |
| TextVisual.TextVisual.DoCreatePropertyMap | dali-toolkit/internal/visuals/text/text-visual.cpp:235-262 | the map written is TextPropertyMap of the current settings |
| TextVisual.TextVisual.DoCreateInstancePropertyMap | dali-toolkit/internal/visuals/text/text-visual.cpp:264-271 | the map written is InstancePropertyMap of the current settings |
| ImageCommon.U16 | dali-toolkit/internal/visuals/image/image-visual.cpp:311 | a dimension is kept as a 16-bit unsigned value: in range it is unchanged, otherwise it wraps into range |
| ImageCommon.ImageDimensions | dali-toolkit/internal/visuals/image/image-visual.cpp:311 | both desired dimensions are 16-bit, and they are exactly the requested width and height when those fit |
| ImageCommon.FittingModeCode | dali-toolkit/internal/visuals/image/image-visual.cpp:67-73 | each fitting mode has a code between 0 and 3, as the fitting table lists them |
| ImageCommon.SamplingModeCode | dali-toolkit/internal/visuals/image/image-visual.cpp:76-84 | each sampling mode has a code between 0 and 6, as the sampling table lists them |
| ImageCommon.NaturalSize | dali-toolkit/internal/visuals/image/image-visual.cpp:335-358 | a visual with an image reports the image's size; otherwise a positive desired size; otherwise the size of the image at the url; and zero when there is no url |
| ImageVisual.GetEnumerationProperty | dali-toolkit/internal/visuals/image/image-visual.cpp:259-265 | an integer value is taken as it is; a name is looked up in the table; any other value gives nothing |
| ImageVisual.EnumSetting | dali-toolkit/internal/visuals/image/image-visual.cpp:259-309 | a missing entry keeps the current mode, and an integer entry sets it; a name not in the table keeps the current mode |
| ImageVisual.EnumSettingAsWritten | dali-toolkit/internal/visuals/image/image-visual.cpp:259-265 | a missing entry keeps the current mode; a name not in the table leaves the mode at the never-written local value |
| ImageVisual.UnknownFittingNameSetsIndeterminateMode | dali-toolkit/internal/visuals/image/image-visual.cpp:259-265 | the name "FILL", which is not in the fitting table, sets the fitting mode to whatever the uninitialised local held as written, and keeps the current mode in the corrected reading |
| ImageCommon.IntSetting | dali-toolkit/internal/visuals/image/image-visual.cpp:275-287 | a desired width or height is the integer given, and zero when it is missing or not an integer; the image renderer reads its desired size the same way (image-renderer.cpp lines 239-251) |
| ImageVisual.SyncSetting | dali-toolkit/internal/visuals/image/image-visual.cpp:313-332 | a boolean synchronous-loading entry sets the flag to its value; anything else leaves the flag as it was |
| ImageVisual.SyncSettingAsWritten | dali-toolkit/internal/visuals/image/image-visual.cpp:313-317 | as written, a missing entry keeps the flag, a boolean entry sets it, and any other entry sets it to the never-written local's value |
| ImageVisual.NonBoolSyncEntryReadsIndeterminateLocal | dali-toolkit/internal/visuals/image/image-visual.cpp:313-317 | the as-written and corrected readings agree on a missing or boolean entry; an integer entry can turn synchronous loading on as written, where the corrected reading keeps it off |
| ImageVisual.SetProperties | dali-toolkit/internal/visuals/image/image-visual.cpp:256-333 | setting properties never changes the url or image; a missing desired dimension becomes zero; a missing fitting or sampling entry keeps the mode |
| ImageVisual.PropertyMapOf | dali-toolkit/internal/visuals/image/image-visual.cpp:668-699 | the map written holds the image type first, then the synchronous flag, the source entries, the two modes, the pixel area and the two wrap modes |
| ImageVisual.PropertyMapRoundTrip | dali-toolkit/internal/visuals/image/image-visual.cpp:256-333 | setting properties from the map a url visual writes gives back the same settings |
| ImageVisual.LowerAscii | dali-toolkit/internal/visuals/image/image-visual.cpp:528-529 | lower-casing maps every character through the ASCII lower-case table and keeps the length |
| ImageVisual.StartsWithIgnoringCaseIsLowerPrefix | dali-toolkit/internal/visuals/image/image-visual.cpp:528-529 | a url starts with a prefix ignoring case exactly when its lower-cased head equals the lower-cased prefix |
| ImageVisual.RemoteUrlExamples | dali-toolkit/internal/visuals/image/image-visual.cpp:528-529 | urls starting with http:// or https:// in any case are remote; a truncated scheme or a file url is not |
| ImageVisual.Clamp | dali-toolkit/internal/visuals/image/image-visual.cpp:563-564 | a clamped value lies within the bounds, and a value already within them is unchanged |
| ImageVisual.WrapModeUniform | dali-toolkit/internal/visuals/image/image-visual.cpp:561-566 | the wrap-mode uniform lies between 0 and 2 on each axis, and is the wrap mode's distance from clamp-to-edge when the mode is a real one |
| ImageVisual.NonDefaultWrapModeShows | dali-toolkit/internal/visuals/image/image-visual.cpp:532-566 | a non-default wrap mode gives a non-zero wrap-mode uniform |
| ImageVisual.FactoryCache.constructor | dali-toolkit/internal/visuals/image/image-visual.cpp:538-579 | a new renderer cache is empty |
| ImageVisual.FactoryCache.GetRenderer | dali-toolkit/internal/visuals/image/image-visual.cpp:541-544 | returns the renderer cached for the url, or none |
| ImageVisual.FactoryCache.SaveRenderer | dali-toolkit/internal/visuals/image/image-visual.cpp:575-579 | saving a renderer stores it for its url and leaves the other urls alone |
| ImageVisual.FactoryCache.CleanRendererCache | dali-toolkit/internal/visuals/image/image-visual.cpp:800 | cleaning drops the url's entry, and reports it, exactly when the url has one and no other visual holds its renderer; other urls are untouched |
| ImageVisual.ImageVisual.constructor | dali-toolkit/internal/visuals/image/image-visual.cpp:218-235 | a url visual starts with the url, desired size and modes given, default wrap modes, the full pixel area and no image |
| ImageVisual.ImageVisual.FromImage | dali-toolkit/internal/visuals/image/image-visual.cpp:237-250 | an image visual starts with the image, no url, zero desired size, default modes and the full pixel area |
| ImageVisual.ImageVisual.DoSetProperties | dali-toolkit/internal/visuals/image/image-visual.cpp:256-333 | the settings follow SetProperties; only the synchronous-loading flag may change among the flags; a synchronous load starts exactly when true is asked for and there is a url |
| ImageVisual.ImageVisual.ReadSamplingSettings | dali-toolkit/internal/visuals/image/image-visual.cpp:259-309 | each of fitting, sampling, pixel area and the two wrap modes follows its own entry in the map |
| ImageVisual.ImageVisual.GetNaturalSize | dali-toolkit/internal/visuals/image/image-visual.cpp:335-358 | the natural size is NaturalSize of the current image, desired size and url |
| ImageVisual.ImageVisual.InitializeRenderer | dali-toolkit/internal/visuals/image/image-visual.cpp:523-585 | a local url without a custom shader, with default wrapping, transform and pixel area, reuses a cached renderer or creates and caches one; otherwise a new renderer is made and not cached; atlasing is applied only to local urls that were placed in an atlas, and the wrap-mode uniform is registered only with a custom wrap mode |
| ImageVisual.ImageVisual.DoCreatePropertyMap | dali-toolkit/internal/visuals/image/image-visual.cpp:668-699 | the map written is PropertyMapOf of the current settings |
| ImageVisual.ImageVisual.DoSetOffStage | dali-toolkit/internal/visuals/image/image-visual.cpp:652-666 | going off stage removes the renderer from the actor and drops it and the placement actor; a url visual also releases its image, and the factory cache drops the url's renderer only when the visual's renderer came from the cache and no other visual holds it |
| ImageVisual.ImageVisual.CleanCache | dali-toolkit/internal/visuals/image/image-visual.cpp:786-805 | only a renderer taken from the factory cache is reset and cleaned from it; a visual whose renderer is not the cache's leaves the cache and its renderer alone |
| ImageRenderer.ParseFittingMode | dali-toolkit/internal/controls/renderers/image/image-renderer.cpp:161-192 | a fitting name is accepted exactly when it is "DEFAULT" or one of the mode names, and then gives the mode the source chooses |
| ImageRenderer.ParseSamplingMode | dali-toolkit/internal/controls/renderers/image/image-renderer.cpp:194-237 | a sampling name is accepted exactly when it is "DEFAULT" or one of the mode names, and then gives the mode the source chooses |
| ImageRenderer.ModeNamesRoundTrip | dali-toolkit/internal/controls/renderers/image/image-renderer.cpp:161-237 | every fitting and sampling mode is read back from the name the renderer writes for it |
| ImageRenderer.UnknownModeNamesAccepted | dali-toolkit/internal/controls/renderers/image/image-renderer.cpp:188-191 | as written, the unknown names "FILL" and "BILINEAR" pass silently as a default mode, because the assertion's argument is a non-null string literal; the corrected reading refuses them |
| ImageRenderer.FittingSetting | dali-toolkit/internal/controls/renderers/image/image-renderer.cpp:161-192 | a missing fitting entry keeps the current mode |
| ImageRenderer.SamplingSetting | dali-toolkit/internal/controls/renderers/image/image-renderer.cpp:194-237 | a missing sampling entry keeps the current mode |
| ImageRenderer.ReadSource | dali-toolkit/internal/controls/renderers/image/image-renderer.cpp:150-255 | without a url entry nothing changes; with one, missing mode entries keep the modes, missing desired dimensions become zero, a non-empty url drops the image, and the loading and native-image settings are untouched |
| ImageRenderer.ReadSync | dali-toolkit/internal/controls/renderers/image/image-renderer.cpp:257-270 | a boolean synchronous-loading entry sets the flag; otherwise it is kept; nothing else changes |
| ImageRenderer.ReadSyncAsWritten | dali-toolkit/internal/controls/renderers/image/image-renderer.cpp:257-270 | as written, only the flag changes: a missing entry keeps it, a boolean entry sets it, and any other entry sets it to the never-written local's value |
| ImageRenderer.NonBoolSyncEntryReadsIndeterminateLocal | dali-toolkit/internal/controls/renderers/image/image-renderer.cpp:257-270 | the as-written and corrected readings agree on a missing or boolean entry; an integer entry can turn synchronous loading on as written, where the corrected reading keeps it off |
| ImageRenderer.NativeShader | dali-toolkit/internal/controls/renderers/image/image-renderer.cpp:292-297 | only a native image changes the shader code, and nothing else changes |
| ImageRenderer.Initialize | dali-toolkit/internal/controls/renderers/image/image-renderer.cpp:148-304 | initialising fails exactly when the source settings are refused; a map with no url and no sync entry leaves a non-native renderer unchanged |
| ImageRenderer.PropertyMapOf | dali-toolkit/internal/controls/renderers/image/image-renderer.cpp:582-679 | the map written starts with the renderer type and holds four entries beside the source entries |
| ImageRenderer.PropertyMapRoundTrip | dali-toolkit/internal/controls/renderers/image/image-renderer.cpp:148-304 | initialising from the map a url renderer writes gives back its settings, with no image held |
| ImageRenderer.ImageRenderer.constructor | dali-toolkit/internal/controls/renderers/image/image-renderer.cpp:133-142 | a new renderer has no url, no image, zero desired size and default modes |
| ImageRenderer.ImageRenderer.DoInitialize | dali-toolkit/internal/controls/renderers/image/image-renderer.cpp:148-304 | the state afterwards is Initialize of the state before, and an error is reported exactly when Initialize refuses the map |
| ImageRenderer.ImageRenderer.ReadSourceSettings | dali-toolkit/internal/controls/renderers/image/image-renderer.cpp:150-255 | the state afterwards is ReadSource of the state before, and an error is reported exactly when ReadSource refuses the map |
| ImageRenderer.ImageRenderer.SetImageUrl | dali-toolkit/internal/controls/renderers/image/image-renderer.cpp:694-738 | the same url changes nothing; a new url replaces the url, desired size and modes and drops the image |
| ImageRenderer.ImageRenderer.SetImage | dali-toolkit/internal/controls/renderers/image/image-renderer.cpp:740-817 | the same image changes nothing; a new image clears the url and desired size and resets the modes; the native flag follows the image, and a newly native image composes its shader code |
| ImageRenderer.ImageRenderer.GetNaturalSize | dali-toolkit/internal/controls/renderers/image/image-renderer.cpp:311-334 | the natural size is NaturalSize of the current image, desired size and url |
| ImageRenderer.ImageRenderer.DoCreatePropertyMap | dali-toolkit/internal/controls/renderers/image/image-renderer.cpp:582-679 | the map written is PropertyMapOf of the current state |
| ViewRegistration.GetDaliPropertyType | plugins/dali-sharp/sharp/internal/ViewRegistry.cs:156-199 | a type name maps to a property type exactly when it is in the lookup table ("float", "int", "Int32", "Boolean", "string", the vectors, Size, Position, Color), each to its listed type; any other name gives NONE |
| ViewRegistration.FloatAndStringPropertiesRegisterAsNone | plugins/dali-sharp/sharp/internal/ViewRegistry.cs:156-170 | as written, float and string properties, whose reflected type names are "Single" and "String", miss the table keyed "float" and "string" and register as NONE, although values of those types are settable |
| ViewRegistration.PropertyTypeOf | plugins/dali-sharp/sharp/internal/ViewRegistry.cs:156-170 | the corrected table gives every supported property type its DALi type: Int32 integer, Boolean boolean, Single float, String string, Vector2 and Size vector2, Vector3 and Position vector3, Vector4 and Color vector4 |
| ViewRegistration.Convert | plugins/dali-sharp/sharp/internal/ViewRegistry.cs:402-519 | a converted value always has the property's own type |
| ViewRegistration.RegisteredTypeIsTheConvertedType | plugins/dali-sharp/sharp/internal/ViewRegistry.cs:355-519 | for every supported property type except Size, a value converts exactly when its DALi type is the type the property is registered with |
| ViewRegistration.SizeIsRegisteredAsVector2ButReadAsVector3 | plugins/dali-sharp/sharp/internal/ViewRegistry.cs:167-519 | a Size property is registered as a vector2 but a value is written to it only from a vector3 |
| ViewRegistration.AttributeRegistrationsAreForTheProperty | plugins/dali-sharp/sharp/internal/ViewRegistry.cs:341-360 | every registration made for a property names that property with its type, and there is one exactly when the property carries the scriptable attribute |
| ViewRegistration.RegistersExactlyTheReadableScriptableProperties | plugins/dali-sharp/sharp/internal/ViewRegistry.cs:334-362 | a view type registers a property exactly when the property is readable and scriptable, always with its name and converted type |
| ViewRegistration.View.constructor | plugins/dali-sharp/sharp/internal/ViewRegistry.cs:207-219 | a new view records its native handle, its type name and its properties |
| ViewRegistration.WithView | plugins/dali-sharp/sharp/internal/ViewRegistry.cs:232-245 | registering a view maps its handle to it unless the handle is already mapped, and leaves every other handle alone |
| ViewRegistration.RegisterViewIsIdempotent | plugins/dali-sharp/sharp/internal/ViewRegistry.cs:232-245 | registering the same view twice is the same as registering it once |
| ViewRegistration.UnregisterUndoesRegister | plugins/dali-sharp/sharp/internal/ViewRegistry.cs:232-262 | unregistering a newly registered view restores the map as it was |
| ViewRegistration.SetProperty | plugins/dali-sharp/sharp/internal/ViewRegistry.cs:402-525 | a missing property is refused; a property of an unsupported type is refused; a successful write keeps the property names, keeps the property's type and leaves every other property unchanged |
| ViewRegistration.SetPropertyAcceptsTheRegisteredType | plugins/dali-sharp/sharp/internal/ViewRegistry.cs:402-519 | a value of the registered type is always written, as its converted value |
| ViewRegistration.SetPropertyRefusesOtherTypes | plugins/dali-sharp/sharp/internal/ViewRegistry.cs:402-519 | a value of any other type is refused as a failed conversion |
| ViewRegistration.ViewRegistry.constructor | plugins/dali-sharp/sharp/internal/ViewRegistry.cs:175-185 | a new registry has no views, no constructors and no type registrations |
| ViewRegistration.ViewRegistry.GetViewFromActor | plugins/dali-sharp/sharp/internal/ViewRegistry.cs:290-307 | a view is found exactly when its native handle is registered |
| ViewRegistration.ViewRegistry.RegisterView | plugins/dali-sharp/sharp/internal/ViewRegistry.cs:232-245 | the control map becomes WithView of the old map, the view is then found, and nothing else changes |
| ViewRegistration.ViewRegistry.UnregisterView | plugins/dali-sharp/sharp/internal/ViewRegistry.cs:251-262 | the view's handle is removed from the control map, the view is no longer found, and nothing else changes |
| ViewRegistration.ViewRegistry.CreateControl | plugins/dali-sharp/sharp/internal/ViewRegistry.cs:207-226 | an unregistered type name is an error; a registered one gives a fresh view of that type with the registered factory's properties |
| ViewRegistration.ViewRegistry.Register | plugins/dali-sharp/sharp/internal/ViewRegistry.cs:325-362 | registering a name twice fails and changes nothing; otherwise the factory is stored and the type registry grows by the control and exactly the registrations RegistersExactlyTheReadableScriptableProperties describes |
| ViewRegistration.ViewRegistry.RegisterScriptableAttributes | plugins/dali-sharp/sharp/internal/ViewRegistry.cs:341-360 | the inner loop over the attributes adds exactly AttributeRegistrations |
| ViewRegistration.ViewRegistry.GetPropertyValue | plugins/dali-sharp/sharp/internal/ViewRegistry.cs:371-395 | an unregistered control gives no value; a registered one gives the property's value, and fails exactly when the view has no such property |
| ViewRegistration.ViewRegistry.SetPropertyValue | plugins/dali-sharp/sharp/internal/ViewRegistry.cs:402-525 | an unregistered control is an error; otherwise the view's properties follow SetProperty, and are unchanged on error |
| ViewRegistration.RegistrySingleton.constructor | plugins/dali-sharp/sharp/internal/ViewRegistry.cs:125 | no registry exists before the first use |
| ViewRegistration.RegistrySingleton.Instance | plugins/dali-sharp/sharp/internal/ViewRegistry.cs:278-288 | the first use creates an empty registry and every later use returns the same one |
| Int32Text.Wrap32 | plugins/dali-swig/views/spin.cs:160-162 | the result is a 32-bit signed value congruent to the input modulo 2^32, and equal to it when it already fits, as C# int arithmetic wraps |
| Int32Text.NatToString | plugins/dali-swig/views/spin.cs:180 | the decimal rendering of a natural number is a non-empty digit string without a leading zero |
| Int32Text.IntToString | plugins/dali-swig/views/spin.cs:180 | the rendering of an int starts with a minus sign exactly when the number is negative and has no surrounding white space |
| Int32Text.TrimStart | plugins/dali-swig/views/spin.cs:115 | removing leading white space leaves a suffix of the text that does not start with white space |
| Int32Text.TrimEnd | plugins/dali-swig/views/spin.cs:115 | removing trailing white space leaves a prefix of the text that does not end with white space |
| Int32Text.ParseSigned | plugins/dali-swig/views/spin.cs:115 | a parsed number always fits in 32 bits; text whose value overflows is refused |
| Int32Text.ParseInt32 | plugins/dali-swig/views/spin.cs:115 | int.TryParse succeeds only with a value that fits in 32 bits |
| Int32Text.NatToStringValue | plugins/dali-swig/views/spin.cs:180 | the digits of a rendered natural number read back as that number |
| Int32Text.TrimKeepsUnpaddedText | plugins/dali-swig/views/spin.cs:115 | text without leading or trailing white space is left alone by trimming |
| Int32Text.ParseSignedOfDigits | plugins/dali-swig/views/spin.cs:115 | a digit string whose value fits in 32 bits parses to that value |
| Int32Text.ParseSignedOfNegatedDigits | plugins/dali-swig/views/spin.cs:115 | a minus sign followed by digits whose negated value fits in 32 bits parses to that negative value |
| Int32Text.ParseInt32OfIntToString | plugins/dali-swig/views/spin.cs:115-180 | every 32-bit value shown in the text field parses back to itself |
| Int32Text.NatToStringParses | plugins/dali-swig/views/spin.cs:115-180 | a non-negative 32-bit value's rendering parses back to it |
| Int32Text.NegativeIntToStringParses | plugins/dali-swig/views/spin.cs:115-180 | a negative 32-bit value's rendering parses back to it |
| Int32Text.ParseInt32NeedsADigit | plugins/dali-swig/views/spin.cs:115 | text with no digit never parses |
| SpinControl.Clamp | plugins/dali-swig/views/spin.cs:166-178 | the value is raised to the minimum and then lowered to the maximum: the result never exceeds the maximum, lies within the range whenever the range is non-empty, and is the value itself when it is already in range |
| SpinControl.ClampIsIdempotent | plugins/dali-swig/views/spin.cs:166-178 | clamping an already clamped value changes nothing |
| SpinControl.FocusLostTakesAValidNumber | plugins/dali-swig/views/spin.cs:110-128 | when focus leaves and the field holds a number within the range, that number becomes the value |
| SpinControl.FocusLostRestoresThePreviousValue | plugins/dali-swig/views/spin.cs:110-128 | when the field holds no number or one out of range, the previous value comes back |
| SpinControl.FocusLostKeepsTheShownValue | plugins/dali-swig/views/spin.cs:110-180 | losing focus without editing keeps the value the field shows |
| SpinControl.StepWithoutOverflow | plugins/dali-swig/views/spin.cs:131-146 | when stepping does not overflow, the new value is the clamped sum and lies in the range |
| SpinControl.StepUpFromInt32MaxLandsOnTheMinimum | plugins/dali-swig/views/spin.cs:131-140 | stepping up by one from the largest int wraps around and is clamped to the minimum, not kept at the maximum |
| SpinControl.Spin.constructor | plugins/dali-swig/views/spin.cs:57-60 | a new spin starts with value, range and step all zero and an empty field |
| SpinControl.Spin.OnInitialize | plugins/dali-swig/views/spin.cs:62-96 | initialisation sets value, minimum and maximum to 0, step to 1, text length to 0, the arrow image, the placeholder and the background colour, and leaves the field settings alone |
| SpinControl.Spin.GetNaturalSize | plugins/dali-swig/views/spin.cs:98-101 | the natural size is 150 by 150 |
| SpinControl.Spin.SetValue | plugins/dali-swig/views/spin.cs:156-182 | the stored value is the clamped input and the field shows its rendering; nothing else changes |
| SpinControl.Spin.TextFieldKeyInputFocusLost | plugins/dali-swig/views/spin.cs:110-129 | the value becomes the value after focus loss of the old text and old value, the field shows it, and nothing else changes |
| SpinControl.Spin.GetNextKeyboardFocusableActor | plugins/dali-swig/views/spin.cs:131-153 | UP and DOWN step the value by plus or minus the step with 32-bit wrap and clamping and keep focus on the text field; any other direction returns an empty actor and changes nothing |
| SpinControl.Spin.SetMinValue | plugins/dali-swig/views/spin.cs:184-196 | the minimum becomes the input, read back by its getter, and nothing else changes |
| SpinControl.Spin.SetMaxValue | plugins/dali-swig/views/spin.cs:198-210 | the maximum becomes the input, read back by its getter, and nothing else changes |
| SpinControl.Spin.SetStep | plugins/dali-swig/views/spin.cs:212-224 | the step becomes the input, read back by its getter, and nothing else changes |
| SpinControl.Spin.SetWrappingEnabled | plugins/dali-swig/views/spin.cs:226-238 | the wrapping flag becomes the input and the value is untouched |
| SpinControl.Spin.SetTextPointSize | plugins/dali-swig/views/spin.cs:240-253 | the point size is stored and passed on to the text field |
| SpinControl.Spin.SetTextColor | plugins/dali-swig/views/spin.cs:255-270 | the colour is stored and passed on to the text field |
| SpinControl.Spin.SetMaxTextLength | plugins/dali-swig/views/spin.cs:272-284 | the maximum length is stored and passed on to the text field |
| SpinControl.Spin.SetIndicatorImage | plugins/dali-swig/views/spin.cs:298-311 | the arrow image becomes the given url and the value is untouched |
| SpinControl.SpinRegistersItsScriptableProperties | plugins/dali-swig/views/spin.cs:155-284 | each of the eight scriptable properties (Value, MinValue, MaxValue, Step, WrappingEnabled, TextPointSize, TextColor, MaxTextLength) is registered under its name and type |
| SpinControl.SpinDoesNotRegisterUnscriptableProperties | plugins/dali-swig/views/spin.cs:286-311 | SpinText and IndicatorImage, which carry no scriptable attribute, are not registered |
| SpinControl.ScriptableSpinPropertyName | plugins/dali-swig/views/spin.cs:155-311 | only the first eight spin properties carry the scriptable attribute, and none of them is SpinText or IndicatorImage |

## Left out

- Key codes and gesture states: the Dali key codes ESCAPE 9, BACKSPACE 22, CURSOR_UP 111, CURSOR_LEFT 113, CURSOR_RIGHT 114 and CURSOR_DOWN 116 are taken as constants. So are the gesture states STARTED 1 and CONTINUING 2. Their headers are not part of this model.
- Epsilon: Math::MACHINE_EPSILON_1000 is taken as 0.000119209290. Its header is not part of this model.
- UTF-8 conversion is left out: text enters and leaves the controller as code points.
- Layout and fonts: glyph geometry, cursor positions from glyph metrics, the font client, shaping, bidirectional reordering and `DoRelayout`/`UpdateModel` are parameters (`Geometry`, `Engine`, font queries) whose results are taken as given.
- The decorator is assumed always present. Its positions are parameters, and only the handle and popup flags the controller sets on it are kept.
- The clipboard is reduced to its number of items. The clipboard UI and the copy and paste of text through it are left out.
- The input method manager is reduced to a reset counter. `OnImfEvent` is left out.
- TextController.RemoveTextOf: a removal that starts past the end of the text erases nothing, where the source's reversed erase range is undefined behaviour. A negative character count is not representable: the count is a `nat`.
- Text controller: the control size and scroll position follow one version of the source. The skew between `mControlSize` and the scroll fields of other versions is left out.
- Font, shadow, underline, colour, placeholder-colour, cursor-blink, multi-line and alignment setters and getters are left out. So are `ClearFontData`, `GetNaturalSize` and `GetHeightForWidth` of the controller. They only forward values to the engine.
- Property indices given by the property range manager are not modelled. Visual and text-visual property indices are the constants of their files.
- ImageVisual.SyncSetting: a synchronous-loading entry that is not a boolean keeps the flag. This is the corrected reading of the Findings row for image-visual.cpp:313-317; as written, an uninitialised local decides. The read is an exact type match: DALi's `Property::Value::Get` into a `bool` also accepts an integer entry, so an integer entry sets the flag from its value in the library, while the model keeps the flag.
- ImageVisual.ImageVisual.DoSetProperties: a synchronous-loading entry that is not a boolean keeps the flag and starts no load, following SyncSetting's corrected reading.
- ImageRenderer.ReadSync: a synchronous-loading entry that is not a boolean keeps the flag. This is the corrected reading of the Findings row for image-renderer.cpp:257-270; as written, an uninitialised local decides. The read is an exact type match: DALi's `Property::Value::Get` into a `bool` also accepts an integer entry, which the model does not read.
- ImageRenderer.Initialize: the synchronous-loading flag follows ReadSync's corrected reading for an entry that is not a boolean.
- ImageRenderer.ImageRenderer.DoInitialize: the synchronous-loading flag follows ReadSync's corrected reading for an entry that is not a boolean.
- ImageVisual.FactoryCache.CleanRendererCache: the visual factory cache is not part of this model. Its cache keeps weak handles; the model drops the URL's entry only when no other handle to the renderer remains, which is the parameter `inUse`. Removing an atlased texture from the atlas manager after a clean is left out with the atlas manager.
- TextControllerImpl.Impl.OnHandleEvent: the grab and selection handle logic (text-controller-impl.cpp:575-786) is left out. It moves the cursor, swaps handles and scrolls at the edges; the model takes its effect on the event data as a parameter (`Geometry.onHandleEvent`).
- TextControllerImpl.PointSize26Dot6: a negative point size is truncated toward zero as a signed cast would. The source casts to an unsigned type, which is undefined behaviour for a negative value.
- AtlasRenderer.AdjustedExtents: two baselines match on exact equality. The source compares them with `Equals`, within a float epsilon (text-atlas-renderer.cpp:405). AtlasRenderer.AdjustExtents follows the same rule.
- TextVisual.ApplyProperty: a point size counts as changed on exact inequality. The source compares with `Equals`, within a float epsilon (text-visual.cpp:382).
- TextVisual.ApplyProperty: FONT_STYLE is stored as the value given. The source parses it through `SetFontStyleProperty`, which is not part of this model.
- VisualBase: `Base::CreatePropertyMap` appends the custom shader's own map (visual-base-impl.cpp:171-179). That map is left out with the shader.
- Rendering: shader sources, renderer, geometry, texture-set and render-task creation, the atlas manager and texture upload are left out. The atlas manager's glyph slots and the mesh joins are parameters.
- AtlasRenderer.AtlasRenderer.AddGlyphs: the glyph manager's contents are a set of (font, glyph index) pairs. It holds the `cached` parameter after the old text's counts are adjusted, and `Add` extends it. The glyph bitmaps the font client makes are a parameter, `None` standing for an empty bitmap handle. `SetNewAtlasSize` is recorded as the list of block sizes asked for. The default atlas width and height passed with each request are not kept.
- AtlasRenderer.AtlasRenderer.AddGlyphs: the glyph loop's block sizing (`SizeGlyphBlocks`) and its stitching (`StitchGlyphs`) run as two passes over the glyphs. They share only the last font, which both follow the same way, so the results are those of the single loop. Font id 0 stands for "no last font", as the source's initial value does.
- Logging is left out, except that the colour visual counts the error it logs for a missing colour (`errorsLogged`). Log texts and levels are not kept.
- Rolling image cache: the texture manager is a recorded collaborator. Its load requests and removals are lists in the state, and whether an upload completes during the request is a parameter.
- N-patch loader: decoding a nine-patch image and loading an image with a border are external functions passed to `Load`. The URL hash function is a parameter (`hashOf`). Each entry keeps its URL's hash; a lookup compares the hashes first and then the URLs, so equal URLs decide a hit.
- Selection popup: the layout of each option's button, icon and caption actors, and the styling signals, are left out. `std::sort` is modelled as an insertion sort by priority. It fixes one order among options of equal priority, which the source's sort leaves unspecified.
- C# weak references to views are modelled as strong references.
- ViewRegistration.ViewRegistry.SetPropertyValue: views are looked up by the native control handle, the same key `RegisterView` uses. The translation between the two pointer forms the source uses is left out.
- ViewRegistration.Convert: `Property.Value.Get` is modelled as a strict type match.
- ImageCommon.IntSetting: a desired width or height is read by exact type match. DALi's `Property::Value::Get` into an `int` also converts a float entry (a desired width of 100.0 gives 100); the model reads a float entry as 0. `Property::Value` belongs to DALi core, which is not part of this model.
- PropertyMap.GetBool, PropertyMap.GetInt and PropertyMap.GetReal succeed only on a value of their own type; the conversions DALi core's `Property::Value::Get` makes between integer, boolean and float values are not modelled.
- ViewRegistration: the `Size`, `Position` and `Color` C# classes are not part of this model beyond their type names.
- SpinControl: spin.cs calls `Register` with three arguments, while the registry in this model takes two. The registration lemmas use the two-argument form. Properties inherited from `View` are not listed.
- SpinControl.Spin: the `SpinText` setter, focus gain on the text field and the visual created for the indicator image are left out.
- Int32Text.ParseInt32: the number style is that of the invariant culture. Other cultures' signs and digits are left out.
- Vector graphics, gradients and the other visuals of the toolkit are outside this model.
- TextControllerImpl.Impl.IsPlaceholderAvailable, IsShowingRealText and IsClipboardEmpty, and ImageVisual.Cacheable: these are predicates whose bodies are their definitions. The properties about them are stated by the members that use them: ShowPlaceholderText, PopupButtons and InitializeRenderer.

## Findings

| source | as written | input that shows it | evidently intended | confidence | as-written member | corrected member |
|---|---|---|---|---|---|---|
| dali-toolkit/internal/text/text-controller.cpp:1257-1261 | the room left is `max - count` in unsigned arithmetic, which wraps when the text is already longer than the maximum | a text of 60 characters with a maximum of 50: the room is huge, and any insert is accepted whole | no room when the text is at or over the maximum | not executed | TextController.OverlongTextLeavesRoom | TextController.Room |
| dali-toolkit/internal/text/text-controller.cpp:330-346 | backspace is `RemoveText(-1, 1)`, and an offset larger than the cursor is dropped, so at cursor 0 the removal starts at 0 | "ab" with the cursor at 0: backspace erases "a" | backspace at the start of the text erases nothing; the correction covers only a negative offset reaching back past the start, and a positive offset larger than the cursor is still dropped as written | not executed | TextController.BackspaceAtStartErasesNextCharacter | TextController.BackspaceRemovesCharacterBeforeCursor |
| dali-toolkit/internal/text/text-controller.cpp:647-668 | every queued modify event is dispatched on the type of the first one | [TextReplaced, TextInserted]: the insertion is handled as a replacement and its cursor update is lost | each event dispatched on its own type | not executed | TextController.InsertionAfterReplacementIsLost | TextController.Controller.ProcessModifyEvents |
| dali-toolkit/internal/controls/renderers/image/image-renderer.cpp:188-191 | the assertion on an unknown fitting or sampling mode name is on a string literal, which is never false | "FILL" as fitting mode, "BILINEAR" as sampling mode: accepted as the default modes, SHRINK_TO_FIT and BOX | an unknown name is refused | not executed | ImageRenderer.UnknownModeNamesAccepted | ImageRenderer.ParseFittingMode, ImageRenderer.ParseSamplingMode |
| dali-toolkit/internal/visuals/image/image-visual.cpp:259-265 | an unknown fitting mode name leaves an uninitialised local to be stored as the mode | "FILL" as fitting mode: the stored mode is indeterminate | an unknown name keeps the current mode | not executed | ImageVisual.UnknownFittingNameSetsIndeterminateMode | ImageVisual.EnumSetting |
| dali-toolkit/internal/visuals/image/image-visual.cpp:313-317 | the synchronous-loading entry is read into an uninitialised `bool`, and `Get` leaves it unwritten when the entry cannot be read as a boolean | the string "yes" as the synchronous-loading entry: the flag and a synchronous load depend on whatever the local held | an entry that cannot be read as a boolean leaves the flag as it was | not executed | ImageVisual.NonBoolSyncEntryReadsIndeterminateLocal | ImageVisual.SyncSetting |
| dali-toolkit/internal/controls/renderers/image/image-renderer.cpp:257-270 | the synchronous-loading entry is read into an uninitialised `bool`, and `Get` leaves it unwritten when the entry cannot be read as a boolean | the string "yes" as the synchronous-loading entry: the flag is set or cleared by whatever the local held | an entry that cannot be read as a boolean leaves the flag as it was | not executed | ImageRenderer.NonBoolSyncEntryReadsIndeterminateLocal | ImageRenderer.ReadSync |
| plugins/dali-sharp/sharp/internal/ViewRegistry.cs:156-172 | the type table is keyed "float" and "string", while the reflected type names it is looked up with are "Single" and "String" | a scriptable `float` or `string` property: registered with type NONE | float and string properties registered as FLOAT and STRING | not executed | ViewRegistration.FloatAndStringPropertiesRegisterAsNone | ViewRegistration.RegisteredTypeIsTheConvertedType |
| dali-toolkit/internal/text/text-controller-impl.cpp:844-848 | the selected slice is read from the left handle for (right − left) characters without ordering the handles | left handle 3, right handle 1, text of 5: the length wraps and the read runs past the text | the handles ordered before slicing | not executed | TextControllerImpl.CrossedHandlesReadPastTheText | TextControllerImpl.SelectionSlice |
