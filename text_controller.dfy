/**
 * The text controller: setting, getting, inserting and removing text; the key, tap,
 * pan and handle events it queues for the next relayout; the modify events it
 * processes before laying out; the relayout itself and the alignment it computes.
 *
 * Every operation is a function from the implementation's state (`ImplState`) to
 * the new state; the `Controller` class holds the implementation object and its
 * methods are proved to move it as those functions say. Text arrives already
 * decoded into code points; the layout engine is given as an `Engine`.
 */
module TextController {
  import opened Wrappers
  import opened PropertyMap
  import opened Layout
  import opened TextControllerImpl

  datatype InsertType = Commit | PreEdit

  datatype KeyState = KeyDown | KeyUp

  /** A key event: its code, the characters it produces and whether the key went down. */
  datatype KeyEvent = KeyEvent(keyCode: int, keyPressed: Text, state: KeyState)

  datatype PlaceholderType = PlaceholderActive | PlaceholderInactive

  /**
   * The layout engine: how updating the logical and visual models for some operations
   * changes them, and what laying out at a size does (whether anything was laid out,
   * and the new model).
   */
  datatype Engine = Engine(updateModel: (Text, set<Operation>, ModelData) -> ModelData,
                           doRelayout: (Vector2, set<Operation>, ModelData) -> (bool, ModelData))

  function Min(a: nat, b: nat): (r: nat)
    ensures r <= a && r <= b && (r == a || r == b)
  {
    if a < b then a else b
  }

  function AbsInt(x: int): nat { if x < 0 then -x else x }

  // ----- Small steps on the implementation's state -----

  predicate ShowingPlaceholder(s: ImplState)
  {
    s.eventData.Some? && s.eventData.value.isShowingPlaceholderText
  }

  predicate PlaceholderAvailable(s: ImplState)
  {
    s.eventData.Some? &&
    (|s.eventData.value.placeholderTextInactive| != 0 || |s.eventData.value.placeholderTextActive| != 0)
  }

  function TextChangedOf(s: ImplState): ImplState
  {
    s.(calls := s.calls.(textChanged := s.calls.textChanged + 1))
  }

  function MaxLengthReachedOf(s: ImplState): ImplState
  {
    s.(calls := s.calls.(maxLengthReached := s.calls.maxLengthReached + 1))
  }

  function PushEventOf(s: ImplState, event: Event): (r: ImplState)
    ensures r.eventData.Some? == s.eventData.Some?
  {
    if s.eventData.Some? then s.(eventData := Some(s.eventData.value.(eventQueue := s.eventData.value.eventQueue + [event])))
    else s
  }

  /** Clearing the model data drops the glyphs, their positions, the lines and the
      character directions; the text itself is kept. */
  function ClearedModel(m: ModelData): ModelData
  {
    m.(numberOfGlyphs := 0, lines := [], numberOfGlyphPositions := 0, firstParagraphRightToLeft := false)
  }

  // ----- Resetting and setting the text -----

  /** Resetting the text empties it and the model, stops showing the placeholder and asks
      for every operation. */
  function ResetTextOf(s: ImplState): (r: ImplState)
    ensures r.text == [] && !ShowingPlaceholder(r)
    ensures r.recalculateNaturalSize && r.operationsPending == ALL_OPERATIONS
    ensures r.model.numberOfGlyphs == 0 && r.model.lines == []
    ensures r.eventData.Some? == s.eventData.Some?
    ensures r.calls == s.calls && r.modifyEvents == s.modifyEvents
  {
    PlaceholderClearedOf(s.(text := [], model := ClearedModel(s.model), recalculateNaturalSize := true,
                            operationsPending := ALL_OPERATIONS))
  }

  /**
   * Showing the placeholder text, when one is available: the text becomes the active
   * placeholder outside the inactive state (even when that one is empty, as the source
   * compares a string's address with zero rather than testing its length) and the
   * inactive one otherwise; the handles go off, the cursor goes to 0 and the text counts
   * as replaced. Without a placeholder nothing changes.
   */
  function ShowPlaceholderOf(s: ImplState): (r: ImplState)
    ensures !PlaceholderAvailable(s) ==> r == s
    ensures r.eventData.Some? == s.eventData.Some?
    ensures PlaceholderAvailable(s) ==>
              ShowingPlaceholder(r) &&
              r.text == (if s.eventData.value.state != Inactive then s.eventData.value.placeholderTextActive
                         else s.eventData.value.placeholderTextInactive) &&
              r.eventData.value.primaryCursorPosition == 0 &&
              !r.eventData.value.decorator.grabHandleActive &&
              !r.eventData.value.decorator.leftHandleActive && !r.eventData.value.decorator.rightHandleActive &&
              r.modifyEvents == [TextReplaced] && r.operationsPending == ALL_OPERATIONS
  {
    if !PlaceholderAvailable(s) then s
    else
      var ed := s.eventData.value;
      var shown := if ed.state != Inactive then ed.placeholderTextActive else ed.placeholderTextInactive;
      var ed1 := ed.(isShowingPlaceholderText := true,
                     decorator := ed.decorator.(grabHandleActive := false, leftHandleActive := false, rightHandleActive := false),
                     primaryCursorPosition := 0);
      QueueModifyOf(s.(eventData := Some(ed1), text := shown, model := ClearedModel(s.model),
                       recalculateNaturalSize := true, operationsPending := ALL_OPERATIONS), TextReplaced)
  }

  function ResetCursorPositionOf(s: ImplState, cursorIndex: nat): ImplState
  {
    if s.eventData.Some? then
      var ed := s.eventData.value;
      s.(eventData := Some(ed.(primaryCursorPosition := cursorIndex,
                               updateCursorPosition := if ed.state == Editing || ed.state == EditingWithPopup then true
                                                       else ed.updateCursorPosition)))
    else s
  }

  function ResetScrollPositionOf(s: ImplState): ImplState
  {
    if s.eventData.Some? then
      s.(eventData := Some(s.eventData.value.(scrollPosition := VECTOR2_ZERO, scrollAfterUpdatePosition := true)))
    else s
  }

  function ClearEventQueueOf(s: ImplState): ImplState
  {
    if s.eventData.Some? then s.(eventData := Some(s.eventData.value.(eventQueue := []))) else s
  }

  /**
   * Setting the text. Non-empty text replaces the old text, the cursor goes after it and
   * the queued input events are dropped; empty text shows the placeholder. Either way
   * the input method is reset (no pre-edit) and the control is told the text changed.
   */
  function SetTextOf(s: ImplState, t: Text): ImplState
  {
    var s1 := ResetTextOf(s);
    var s2 := ReplaceTextOf(s1, t);
    var s3 := ResetScrollPositionOf(ResetCursorPositionOf(s2, |t|));
    TextChangedOf(ResetImfOf(ClearEventQueueOf(RequestRelayoutOf(s3))))
  }

  /** Non-empty text is stored and queued as a replacement; empty text shows the placeholder. */
  function ReplaceTextOf(s: ImplState, t: Text): (r: ImplState)
    ensures r.eventData.Some? == s.eventData.Some?
    ensures |t| != 0 ==> r.text == t && r.eventData == s.eventData && r.modifyEvents == QueuedModifyEvents(s.modifyEvents, TextReplaced)
    ensures |t| == 0 ==> r == ShowPlaceholderOf(s)
    ensures r.calls.textChanged == s.calls.textChanged
  {
    if |t| != 0 then QueueModifyOf(s.(text := t), TextReplaced).(recalculateNaturalSize := true, operationsPending := ALL_OPERATIONS)
    else ShowPlaceholderOf(s)
  }

  /**
   * Setting the text. Non-empty text replaces the old text and stops the placeholder
   * being shown; either way the cursor goes after the new text, the scroll is reset, the
   * queued input events are dropped, the input method is reset (no pre-edit) and the
   * control is told the text changed.
   */
  lemma {:induction false} SetTextEffects(s: ImplState, t: Text)
    ensures SetTextOf(s, t).eventData.Some? == s.eventData.Some?
    ensures |t| != 0 ==> SetTextOf(s, t).text == t && !ShowingPlaceholder(SetTextOf(s, t)) &&
                         SetTextOf(s, t).modifyEvents == [TextReplaced]
    ensures SetTextOf(s, t).eventData.Some? ==>
              var ed := SetTextOf(s, t).eventData.value;
              ed.primaryCursorPosition == |t| && ed.eventQueue == [] && !ed.preEditFlag && ed.scrollPosition == VECTOR2_ZERO
    ensures SetTextOf(s, t).calls.textChanged == s.calls.textChanged + 1
  {
    var s1 := ResetTextOf(s);
    var s2 := ReplaceTextOf(s1, t);
    var s3a := ResetCursorPositionOf(s2, |t|);
    var s3 := ResetScrollPositionOf(s3a);
    var s4 := RequestRelayoutOf(s3);
    var s5 := ClearEventQueueOf(s4);
    var s6 := ResetImfOf(s5);
    assert SetTextOf(s, t) == TextChangedOf(s6);
    assert s6.text == s2.text && s6.modifyEvents == s2.modifyEvents;
    assert s6.eventData.Some? == s.eventData.Some?;
    if s.eventData.Some? {
      assert s6.eventData.value.isShowingPlaceholderText == s2.eventData.value.isShowingPlaceholderText;
    }
  }

  /** The text, or nothing while the placeholder is shown. */
  function GetTextOf(s: ImplState): Text
  {
    if ShowingPlaceholder(s) then [] else s.text
  }

  /** What is set is what is got, the empty text included. */
  lemma SetTextThenGetText(s: ImplState, t: Text)
    ensures GetTextOf(SetTextOf(s, t)) == t
  {
    var s1 := ResetTextOf(s);
    var s2 := ReplaceTextOf(s1, t);
    assert s2.text == t || ShowingPlaceholder(s2);
    var s3a := ResetCursorPositionOf(s2, |t|);
    var s3 := ResetScrollPositionOf(s3a);
    var s4 := RequestRelayoutOf(s3);
    var s5 := ClearEventQueueOf(s4);
    var s6 := ResetImfOf(s5);
    assert SetTextOf(s, t) == TextChangedOf(s6);
    assert s6.text == s2.text;
    assert ShowingPlaceholder(s6) == ShowingPlaceholder(s2);
  }

  function LogicalCursorPositionOf(s: ImplState): nat
  {
    if s.eventData.Some? then s.eventData.value.primaryCursorPosition else 0
  }

  /** A negative maximum is ignored. */
  function SetMaximumNumberOfCharactersOf(s: ImplState, maxCharacters: int): (r: ImplState)
    ensures maxCharacters >= 0 ==> r.maximumNumberOfCharacters == maxCharacters
    ensures maxCharacters < 0 ==> r == s
    ensures r == s.(maximumNumberOfCharacters := r.maximumNumberOfCharacters)
  {
    if maxCharacters >= 0 then s.(maximumNumberOfCharacters := maxCharacters) else s
  }

  /** Setting a placeholder text stores it, and shows the placeholder again when it is
      being shown or there is no text. */
  function SetPlaceholderTextOf(s: ImplState, placeholderType: PlaceholderType, t: Text): (r: ImplState)
    ensures s.eventData.None? ==> r == s
    ensures r.eventData.Some? == s.eventData.Some?
    ensures s.eventData.Some? && placeholderType == PlaceholderInactive ==> r.eventData.value.placeholderTextInactive == t
    ensures s.eventData.Some? && placeholderType == PlaceholderActive ==> r.eventData.value.placeholderTextActive == t
    ensures s.eventData.Some? && |s.text| == 0 && |t| != 0 ==> ShowingPlaceholder(r)
  {
    if s.eventData.None? then s
    else
      var ed := s.eventData.value;
      var s1 := s.(eventData := Some(if placeholderType == PlaceholderInactive then ed.(placeholderTextInactive := t)
                                     else ed.(placeholderTextActive := t)));
      if ShowingPlaceholder(s1) || |s1.text| == 0 then ShowPlaceholderOf(s1) else s1
  }

  function GetPlaceholderTextOf(s: ImplState, placeholderType: PlaceholderType): Text
  {
    if s.eventData.None? then []
    else if placeholderType == PlaceholderInactive then s.eventData.value.placeholderTextInactive
    else s.eventData.value.placeholderTextActive
  }

  /** A placeholder text set with editing data reads back as set. */
  lemma SetPlaceholderThenGet(s: ImplState, placeholderType: PlaceholderType, t: Text)
    requires s.eventData.Some?
    ensures GetPlaceholderTextOf(SetPlaceholderTextOf(s, placeholderType, t), placeholderType) == t
  {
  }

  // ----- Removing text -----

  /** Where removal starts, as written: the cursor moved by the offset when the offset's
      magnitude is at most the cursor, and the cursor itself otherwise. */
  function RemoveIndexAsWritten(cursor: nat, cursorOffset: int): nat
  {
    if AbsInt(cursorOffset) <= cursor then cursor + cursorOffset else cursor
  }

  /** Removal as written, on the text and the cursor: the start index, the count cut back
      to the end of the text, that slice erased and the cursor put at its start. */
  function RemoveTextAsWritten(text: Text, cursor: nat, cursorOffset: int, numberOfChars: nat): (Text, nat, bool)
  {
    var index := RemoveIndexAsWritten(cursor, cursorOffset);
    if index <= |text| then
      var count := Min(numberOfChars, |text| - index);
      (text[..index] + text[index + count..], index, true)
    else (text, cursor, false)
  }

  /** A backspace with the cursor at the start of the text erases the character after it. */
  lemma BackspaceAtStartErasesNextCharacter()
    ensures RemoveTextAsWritten([0x61, 0x62], 0, -1, 1) == ([0x62], 0, true)
  {
    var text: Text := [0x61, 0x62];
    assert text[..0] + text[1..] == [0x62];
  }

  /** Where removal starts: as written, except that an offset reaching back past the start
      of the text removes nothing instead of starting at the cursor. */
  function RemoveIndex(cursor: nat, cursorOffset: int): (r: Option<nat>)
    ensures r.None? <==> cursorOffset < 0 && cursor + cursorOffset < 0
    ensures r.Some? && AbsInt(cursorOffset) <= cursor ==> r.value == cursor + cursorOffset
    ensures r.Some? && cursorOffset > cursor ==> r.value == cursor
  {
    if cursorOffset < 0 && -cursorOffset > cursor then None else Some(RemoveIndexAsWritten(cursor, cursorOffset))
  }

  /** The validation of the cursor index at the start of removal. */
  method RemoveStart(cursor: nat, cursorOffset: int) returns (index: Option<nat>)
    ensures index == RemoveIndex(cursor, cursorOffset)
  {
    // An offset reaching back past the start of the text removes nothing.
    if cursorOffset < 0 && -cursorOffset > cursor {
      return None;
    }
    var cursorIndex := cursor;
    if AbsInt(cursorOffset) <= cursor {
      cursorIndex := cursor + cursorOffset;
    }
    index := Some(cursorIndex);
  }

  /** Both agree except on an offset that reaches back past the start of the text. */
  lemma RemoveIndexAgreesUnlessBeforeStart(cursor: nat, cursorOffset: int)
    ensures !(cursorOffset < 0 && cursor + cursorOffset < 0) <==>
            RemoveIndex(cursor, cursorOffset) == Some(RemoveIndexAsWritten(cursor, cursorOffset))
  {
  }

  /**
   * Removing up to `numberOfChars` characters from the cursor moved by `cursorOffset`.
   * Nothing happens while the placeholder is shown, when the start would be before the
   * text or after its end; otherwise the count is cut back to the end of the text,
   * exactly that slice is erased and the cursor goes to its start.
   */
  function RemoveTextOf(s: ImplState, cursorOffset: int, numberOfChars: nat): (r: (ImplState, bool))
    requires s.eventData.Some?
    ensures ShowingPlaceholder(s) ==> r == (s, false)
    ensures !r.1 ==> r.0 == s
    ensures r.0.eventData.Some?
    ensures r.1 <==> !ShowingPlaceholder(s) && RemoveIndex(s.eventData.value.primaryCursorPosition, cursorOffset).Some? &&
                     RemoveIndex(s.eventData.value.primaryCursorPosition, cursorOffset).value <= |s.text|
    ensures r.1 ==>
              var index := RemoveIndex(s.eventData.value.primaryCursorPosition, cursorOffset).value;
              index <= |s.text| &&
              r.0 == s.(text := s.text[..index] + s.text[index + Min(numberOfChars, |s.text| - index)..],
                        eventData := Some(s.eventData.value.(primaryCursorPosition := index)))
  {
    if ShowingPlaceholder(s) then (s, false)
    else
      var ed := s.eventData.value;
      match RemoveIndex(ed.primaryCursorPosition, cursorOffset)
      case None => (s, false)
      case Some(index) =>
        if index <= |s.text| then
          var count := Min(numberOfChars, |s.text| - index);
          (s.(text := s.text[..index] + s.text[index + count..], eventData := Some(ed.(primaryCursorPosition := index))), true)
        else (s, false)
  }

  /** Backspace: with the cursor inside the text, the one character before it goes and the
      cursor moves back by one; at the start of the text nothing is removed. */
  lemma BackspaceRemovesCharacterBeforeCursor(s: ImplState)
    requires s.eventData.Some? && !ShowingPlaceholder(s)
    requires s.eventData.value.primaryCursorPosition <= |s.text|
    ensures var cursor := s.eventData.value.primaryCursorPosition;
            var r := RemoveTextOf(s, -1, 1);
            (cursor == 0 ==> r == (s, false)) &&
            (cursor > 0 ==> r.1 && r.0.text == s.text[..cursor - 1] + s.text[cursor..] &&
                            |r.0.text| == |s.text| - 1 &&
                            r.0.eventData.value.primaryCursorPosition == cursor - 1)
  {
    var cursor := s.eventData.value.primaryCursorPosition;
    if cursor > 0 {
      assert Min(1, |s.text| - (cursor - 1)) == 1;
    }
  }

  // ----- Inserting text -----

  const U32: int := 0x1_0000_0000

  /** The room for new characters, as written: the maximum minus the character count, in
      32-bit unsigned arithmetic. */
  function RoomAsWritten(maximum: nat, count: nat): nat
    requires maximum < U32 && count < U32
  {
    (maximum - count) % U32
  }

  /** A text already longer than the maximum (set by `SetText` or before the maximum was
      lowered) leaves almost four billion characters of room. */
  lemma OverlongTextLeavesRoom()
    ensures RoomAsWritten(50, 60) == 0xFFFF_FFF6
  {
  }

  /** The room for new characters: none once the maximum is reached. */
  function Room(maximum: nat, count: nat): (r: nat)
    ensures count <= maximum ==> count + r == maximum
    ensures count >= maximum ==> r == 0
  {
    if count >= maximum then 0 else maximum - count
  }

  /** Both agree while the text is within the maximum. */
  lemma RoomAgreesWithinMaximum(maximum: nat, count: nat)
    requires count <= maximum < U32
    ensures Room(maximum, count) == RoomAsWritten(maximum, count)
  {
  }

  /** The characters that fit, inserted at the cursor or at the end when the cursor is past
      it; the cursor advances by the number inserted. Also whether some did not fit. */
  function InsertCharactersOf(s: ImplState, chars: Text): (r: (ImplState, bool))
    requires s.eventData.Some?
    ensures r.0.eventData.Some?
  {
    var ed := s.eventData.value;
    var size := Min(Room(s.maximumNumberOfCharacters, |s.text|), |chars|);
    var position := Min(ed.primaryCursorPosition, |s.text|);
    (s.(text := s.text[..position] + chars[..size] + s.text[position..],
        eventData := Some(ed.(primaryCursorPosition := ed.primaryCursorPosition + size))),
     |chars| > size)
  }

  /**
   * Insertion puts the first `size` new characters, `size` being the smaller of the room
   * and their number, at the cursor (or the end), keeps the text around them in order,
   * advances the cursor by `size`, changes nothing else, and reports the maximum reached
   * exactly when not all of them fit. A text within the maximum stays within it.
   */
  lemma InsertCharactersPlacesText(s: ImplState, chars: Text)
    requires s.eventData.Some?
    ensures var r := InsertCharactersOf(s, chars);
            var size := Min(Room(s.maximumNumberOfCharacters, |s.text|), |chars|);
            var position := Min(s.eventData.value.primaryCursorPosition, |s.text|);
            |r.0.text| == |s.text| + size &&
            r.0.text[..position] == s.text[..position] &&
            r.0.text[position..position + size] == chars[..size] &&
            r.0.text[position + size..] == s.text[position..] &&
            r.0.eventData.value.primaryCursorPosition == s.eventData.value.primaryCursorPosition + size &&
            (r.1 <==> |chars| > Room(s.maximumNumberOfCharacters, |s.text|)) &&
            (|s.text| <= s.maximumNumberOfCharacters ==> |r.0.text| <= s.maximumNumberOfCharacters) &&
            r.0 == s.(text := r.0.text, eventData := Some(s.eventData.value.(primaryCursorPosition := r.0.eventData.value.primaryCursorPosition)))
  {
    var size := Min(Room(s.maximumNumberOfCharacters, |s.text|), |chars|);
    var position := Min(s.eventData.value.primaryCursorPosition, |s.text|);
    var t := s.text[..position] + chars[..size] + s.text[position..];
    assert t[..position] == s.text[..position];
    assert t[position..position + size] == chars[..size];
    assert t[position + size..] == s.text[position..];
  }

  /** Before new characters go in, a pending pre-edit run is removed and the cursor put
      back at its start. */
  function RemovePreEditOf(s: ImplState): (r: (ImplState, bool))
    requires s.eventData.Some?
    ensures r.0.eventData.Some?
  {
    var ed := s.eventData.value;
    if ed.preEditFlag && ed.preEditLength != 0 then
      var offset := ed.primaryCursorPosition - ed.preEditStartPosition;
      var removal := RemoveTextOf(s, -offset, ed.preEditLength);
      var ed1 := removal.0.eventData.value;
      (removal.0.(eventData := Some(ed1.(primaryCursorPosition := ed.preEditStartPosition, preEditLength := 0))), removal.1)
    else (s, false)
  }

  /** A commit ends the pre-edit; a pre-edit records where its run starts, once, and its length. */
  function TrackPreEditOf(s: ImplState, count: nat, insertType: InsertType): (r: ImplState)
    requires s.eventData.Some?
    ensures r.eventData.Some?
  {
    if insertType == Commit then ClearPreEditOf(s)
    else
      var ed := s.eventData.value;
      s.(eventData := Some(ed.(preEditStartPosition := if !ed.preEditFlag then ed.primaryCursorPosition else ed.preEditStartPosition,
                               preEditLength := count, preEditFlag := true)))
  }

  /**
   * Inserting text at the cursor. A non-empty text first replaces the placeholder, if
   * shown, by nothing; removes the previous pre-edit run; and updates the pre-edit
   * tracking. Then what fits goes in, an insertion is queued, and when not everything
   * fitted the input method is reset and the control told the maximum was reached.
   */
  function InsertTextOf(s: ImplState, chars: Text, insertType: InsertType): (r: ImplState)
    requires s.eventData.Some?
    ensures r.eventData.Some?
    ensures |chars| == 0 ==> r == s
  {
    if |chars| == 0 then s
    else
      var s0 := if ShowingPlaceholder(s) then ResetTextOf(s) else s;
      var s1 := RemovePreEditOf(s0).0;
      var s2 := TrackPreEditOf(s1, |chars|, insertType);
      var inserted := InsertCharactersOf(s2, chars);
      var s4 := QueueModifyOf(inserted.0, TextInserted);
      if inserted.1 then MaxLengthReachedOf(ResetImfOf(s4)) else s4
  }

  /** Insertion never takes a text that is within the maximum beyond it. */
  lemma InsertTextKeepsWithinMaximum(s: ImplState, chars: Text, insertType: InsertType)
    requires s.eventData.Some? && |s.text| <= s.maximumNumberOfCharacters
    ensures |InsertTextOf(s, chars, insertType).text| <= s.maximumNumberOfCharacters
  {
    if |chars| != 0 {
      var s0 := if ShowingPlaceholder(s) then ResetTextOf(s) else s;
      var s1 := RemovePreEditOf(s0).0;
      assert |s1.text| <= |s0.text|;
      var s2 := TrackPreEditOf(s1, |chars|, insertType);
      InsertCharactersPlacesText(s2, chars);
    }
  }

  /** The first pre-edit records the cursor as the start of the run and the run's length;
      a commit ends the pre-edit. */
  lemma PreEditTracking(s: ImplState, chars: Text, insertType: InsertType)
    requires s.eventData.Some? && |chars| != 0 && !ShowingPlaceholder(s)
    requires !s.eventData.value.preEditFlag
    ensures var r := InsertTextOf(s, chars, insertType).eventData.value;
            (insertType == PreEdit && |chars| <= Room(s.maximumNumberOfCharacters, |s.text|) ==>
               r.preEditFlag && r.preEditLength == |chars| &&
               r.preEditStartPosition == s.eventData.value.primaryCursorPosition) &&
            (insertType == Commit ==> !r.preEditFlag && r.preEditLength == 0)
  {
    assert RemovePreEditOf(s) == (s, false);
    var s2 := TrackPreEditOf(s, |chars|, insertType);
    assert s2.text == s.text;
    var inserted := InsertCharactersOf(s2, chars);
    InsertCharactersPlacesText(s2, chars);
    var s4 := QueueModifyOf(inserted.0, TextInserted);
    assert s4.eventData.value.preEditFlag == s2.eventData.value.preEditFlag;
    assert s4.eventData.value.preEditLength == s2.eventData.value.preEditLength;
    assert s4.eventData.value.preEditStartPosition == s2.eventData.value.preEditStartPosition;
  }

  /** A later insertion first removes the pre-edit run, up to its length, and inserts at the
      run's start. The removal starts at the run's start, except when the run starts more
      than twice as far into the text as the cursor: the offset back to it is then dropped
      and the removal starts at the cursor. */
  lemma PreEditRunReplaced(s: ImplState)
    requires s.eventData.Some? && !ShowingPlaceholder(s)
    requires s.eventData.value.preEditFlag && s.eventData.value.preEditLength != 0
    requires s.eventData.value.preEditStartPosition <= |s.text|
    ensures var start := s.eventData.value.preEditStartPosition;
            var cursor := s.eventData.value.primaryCursorPosition;
            var from := if start > 2 * cursor then cursor else start;
            var r := RemovePreEditOf(s);
            r.1 && r.0.text == s.text[..from] + s.text[from + Min(s.eventData.value.preEditLength, |s.text| - from)..] &&
            r.0.eventData.value.primaryCursorPosition == start && r.0.eventData.value.preEditLength == 0
  {
  }

  // ----- Events from the control -----

  function KeyboardFocusGainOf(s: ImplState): (r: ImplState)
    ensures r.eventData.Some? == s.eventData.Some?
  {
    if s.eventData.Some? then
      var s1 := ChangeStateOf(s, Editing);
      RequestRelayoutOf(if ShowingPlaceholder(s1) then ShowPlaceholderOf(s1) else s1)
    else s
  }

  function KeyboardFocusLostOf(s: ImplState): (r: ImplState)
    ensures r.eventData.Some? == s.eventData.Some?
  {
    if s.eventData.Some? then
      var s1 := ChangeStateOf(s, Inactive);
      RequestRelayoutOf(if ShowingPlaceholder(s1) then ShowPlaceholderOf(s1) else s1)
    else s
  }

  predicate IsCursorKey(keyCode: int)
  {
    keyCode == KEY_CURSOR_LEFT || keyCode == KEY_CURSOR_RIGHT || keyCode == KEY_CURSOR_UP || keyCode == KEY_CURSOR_DOWN
  }

  /** A backspace: the character before the cursor goes; an emptied text shows the
      placeholder, any other removal is queued. Also whether the text changed. */
  function BackspaceOf(s: ImplState): (r: (ImplState, bool))
    requires s.eventData.Some?
    ensures r.0.eventData.Some?
  {
    var removal := RemoveTextOf(ClearPreEditOf(s), -1, 1);
    if removal.1 then
      if |removal.0.text| == 0 then
        var s1 := ShowPlaceholderOf(removal.0);
        (s1.(eventData := Some(s1.eventData.value.(updateCursorPosition := true))), true)
      else (QueueModifyOf(removal.0, TextDeleted), true)
    else (removal.0, false)
  }

  /**
   * A key press. Escape loses the keyboard focus; the cursor keys are queued; backspace
   * removes the character before the cursor; any other key inserts its characters. Then
   * the state becomes editing and a relayout is requested. The key is never reported as
   * consumed.
   */
  function KeyEventOf(s: ImplState, keyEvent: KeyEvent): (r: (ImplState, bool))
    ensures !r.1
    ensures s.eventData.None? || keyEvent.state != KeyDown ==> r.0 == s
    ensures r.0.eventData.Some? == s.eventData.Some?
    ensures s.eventData.Some? && keyEvent.state == KeyDown ==> r.0.eventData.value.state == Editing
  {
    if s.eventData.None? || keyEvent.state != KeyDown then (s, false)
    else
      var handled :=
        if keyEvent.keyCode == KEY_ESCAPE then (KeyboardFocusLostOf(s), false)
        else if IsCursorKey(keyEvent.keyCode) then
          (PushEventOf(s, NewEvent(CursorKeyEvent).(p1 := keyEvent.keyCode)), false)
        else if keyEvent.keyCode == KEY_BACKSPACE then BackspaceOf(s)
        else (InsertTextOf(ClearPreEditOf(s), keyEvent.keyPressed, Commit), true);
      var s1 := RequestRelayoutOf(ChangeStateOf(handled.0, Editing));
      (if handled.1 then TextChangedOf(s1) else s1, false)
  }

  /** A cursor key is queued with its code, behind the events already queued. */
  lemma CursorKeyIsQueued(s: ImplState, keyEvent: KeyEvent)
    requires s.eventData.Some? && keyEvent.state == KeyDown && IsCursorKey(keyEvent.keyCode)
    ensures KeyEventOf(s, keyEvent).0.eventData.value.eventQueue ==
            s.eventData.value.eventQueue + [Event(CursorKeyEvent, keyEvent.keyCode, 0.0, 0.0)]
  {
  }

  /** Backspace at the end of a one-character text empties it; the placeholder, when
      there is one, is then shown and the cursor asked to be updated; the text changed. */
  lemma BackspaceEmptyingTextShowsPlaceholder(s: ImplState, keyEvent: KeyEvent)
    requires s.eventData.Some? && !ShowingPlaceholder(s) && |s.text| == 1
    requires s.eventData.value.primaryCursorPosition == 1
    requires keyEvent.state == KeyDown && keyEvent.keyCode == KEY_BACKSPACE
    ensures var r := KeyEventOf(s, keyEvent).0;
            r.calls.textChanged == s.calls.textChanged + 1 &&
            (PlaceholderAvailable(s) ==> ShowingPlaceholder(r) && r.eventData.value.updateCursorPosition) &&
            (!PlaceholderAvailable(s) ==> r.text == [])
  {
    var s0 := ClearPreEditOf(s);
    assert RemoveTextOf(s0, -1, 1).0.text == [];
  }

  /** Escape loses the focus (the state goes inactive), and the key handling then puts the
      state back to editing. */
  lemma EscapeEndsInEditing(s: ImplState, keyEvent: KeyEvent)
    requires s.eventData.Some? && s.eventData.value.state == Editing
    requires keyEvent.state == KeyDown && keyEvent.keyCode == KEY_ESCAPE
    ensures KeyboardFocusLostOf(s).eventData.value.state == Inactive
    ensures KeyEventOf(s, keyEvent).0.eventData.value.state == Editing
  {
  }

  /** The state a tap moves to: a single tap enters editing, showing the grab handle and
      hiding the popup when it lands while already editing real text; a double tap enters
      selecting when selection is enabled; any other tap leaves the state alone. */
  function TappedStateOf(s: ImplState, tapCount: nat): (r: ImplState)
    requires s.eventData.Some?
    ensures r.eventData.Some?
    ensures r.eventData.value.eventQueue == s.eventData.value.eventQueue
    ensures tapCount == 1 ==> r.eventData.value.state == Editing
    ensures tapCount == 2 && s.eventData.value.selectionEnabled ==> r.eventData.value.state == Selecting
    ensures tapCount != 1 && !(tapCount == 2 && s.eventData.value.selectionEnabled) ==> r == s
  {
    var ed := s.eventData.value;
    if tapCount == 1 then
      var s0 := if !ed.isShowingPlaceholderText && ed.state == Editing then
                  s.(eventData := Some(ed.(decorator := ed.decorator.(grabHandleActive := true, popupActive := false))))
                else s;
      ChangeStateOf(s0, Editing)
    else if ed.selectionEnabled && tapCount == 2 then ChangeStateOf(s, Selecting)
    else s
  }

  /** A tap moves the state as above, is queued with its count and position, and resets
      the input method. */
  function TapEventOf(s: ImplState, tapCount: nat, x: real, y: real): (r: ImplState)
    ensures s.eventData.None? ==> r == s
    ensures s.eventData.Some? ==>
              r.eventData.Some? &&
              r.eventData.value.eventQueue == s.eventData.value.eventQueue + [Event(TapEvent, tapCount, x, y)] &&
              r.eventData.value.state == TappedStateOf(s, tapCount).eventData.value.state &&
              !r.eventData.value.preEditFlag
  {
    if s.eventData.None? then s
    else ResetImfOf(RequestRelayoutOf(PushEventOf(TappedStateOf(s, tapCount), Event(TapEvent, tapCount, x, y))))
  }

  /** A pan is queued with its gesture state and displacement. */
  function PanEventOf(s: ImplState, state: int, displacement: Vector2): (r: ImplState)
    ensures s.eventData.None? ==> r == s
    ensures s.eventData.Some? ==>
              r.eventData.Some? &&
              r.eventData.value.eventQueue == s.eventData.value.eventQueue + [Event(PanEvent, state, displacement.x, displacement.y)]
  {
    if s.eventData.Some? then RequestRelayoutOf(PushEventOf(s, Event(PanEvent, state, displacement.x, displacement.y)))
    else s
  }

  function HandleEventType(handle: HandleType): EventType
  {
    match handle
    case GrabHandle => GrabHandleEvent
    case LeftSelectionHandle => LeftSelectionHandleEvent
    case RightSelectionHandle => RightSelectionHandleEvent
  }

  /** A drag of a decorator handle is queued as that handle's event. */
  function DecorationEventOf(s: ImplState, handle: HandleType, handleState: nat, x: real, y: real): (r: ImplState)
    ensures s.eventData.None? ==> r == s
    ensures s.eventData.Some? ==>
              r.eventData.Some? &&
              r.eventData.value.eventQueue == s.eventData.value.eventQueue + [Event(HandleEventType(handle), handleState, x, y)]
  {
    if s.eventData.Some? then RequestRelayoutOf(PushEventOf(s, Event(HandleEventType(handle), handleState, x, y)))
    else s
  }

  // ----- Modify events -----

  /** After a change of text the model is rebuilt: cleared, updated for every operation,
      and the layout operations left pending. */
  function ModelRebuiltOf(s: ImplState, engine: Engine): (r: ImplState)
    ensures r.operationsPending == SIZE_OPERATIONS && r.recalculateNaturalSize
    ensures r.text == s.text && r.eventData == s.eventData && r.modifyEvents == s.modifyEvents
  {
    var s1 := s.(model := ClearedModel(s.model), recalculateNaturalSize := true, operationsPending := ALL_OPERATIONS);
    s1.(model := engine.updateModel(s1.text, ALL_OPERATIONS, s1.model), operationsPending := SIZE_OPERATIONS)
  }

  /** An insertion or deletion also asks for the cursor to be updated and scrolled to. */
  function TextEditedOf(s: ImplState, engine: Engine): (r: ImplState)
    ensures r.eventData.Some? == s.eventData.Some?
    ensures r.eventData.Some? ==> r.eventData.value.updateCursorPosition && r.eventData.value.scrollAfterUpdatePosition
  {
    var s1 := ModelRebuiltOf(s, engine);
    if s1.eventData.Some? then
      s1.(eventData := Some(s1.eventData.value.(updateCursorPosition := true, scrollAfterUpdatePosition := true)))
    else s1
  }

  /** One modify event: a replacement rebuilds the model, an insertion also updates the
      cursor, and so does a deletion unless the placeholder is shown. */
  function ModifyEventOf(s: ImplState, engine: Engine, t: ModifyEventType): ImplState
  {
    match t
    case TextReplaced => ModelRebuiltOf(s, engine)
    case TextInserted => TextEditedOf(s, engine)
    case TextDeleted => if !ShowingPlaceholder(s) then TextEditedOf(s, engine) else s
  }

  /** The first `n` modify events, each handled by its own type. */
  function ModifyEventsUpTo(s: ImplState, engine: Engine, events: seq<ModifyEventType>, n: nat): (r: ImplState)
    requires n <= |events|
    ensures r.text == s.text && r.controlSize == s.controlSize && r.modifyEvents == s.modifyEvents
    ensures r.eventData.Some? == s.eventData.Some?
    ensures r.calls == s.calls
  {
    if n == 0 then s else ModifyEventOf(ModifyEventsUpTo(s, engine, events, n - 1), engine, events[n - 1])
  }

  /** The queued modify events handled in order, then dropped. */
  function ProcessModifyEventsOf(s: ImplState, engine: Engine): (r: ImplState)
    ensures r.modifyEvents == []
    ensures r.text == s.text && r.controlSize == s.controlSize && r.calls == s.calls
    ensures r.eventData.Some? == s.eventData.Some?
  {
    ModifyEventsUpTo(s, engine, s.modifyEvents, |s.modifyEvents|).(modifyEvents := [])
  }

  /** As written: every iteration handles the type of the FIRST queued event. */
  function ModifyEventsAsWrittenUpTo(s: ImplState, engine: Engine, events: seq<ModifyEventType>, n: nat): (r: ImplState)
    requires n <= |events|
    ensures r.eventData.Some? == s.eventData.Some?
  {
    if n == 0 then s else ModifyEventOf(ModifyEventsAsWrittenUpTo(s, engine, events, n - 1), engine, events[0])
  }

  function ProcessModifyEventsAsWrittenOf(s: ImplState, engine: Engine): (r: ImplState)
    ensures r.eventData.Some? == s.eventData.Some?
  {
    ModifyEventsAsWrittenUpTo(s, engine, s.modifyEvents, |s.modifyEvents|).(modifyEvents := [])
  }

  /** Text set and then typed into before the next relayout queues a replacement and an
      insertion: as written the replacement is handled twice and the cursor is never asked
      to follow the inserted text; handling each event by its own type asks for it. */
  lemma InsertionAfterReplacementIsLost(s: ImplState, engine: Engine)
    requires s.eventData.Some? && !s.eventData.value.updateCursorPosition
    requires s.modifyEvents == [TextReplaced, TextInserted]
    ensures !ProcessModifyEventsAsWrittenOf(s, engine).eventData.value.updateCursorPosition
    ensures ProcessModifyEventsOf(s, engine).eventData.value.updateCursorPosition
  {
    var events := s.modifyEvents;
    assert ModifyEventsUpTo(s, engine, events, 1) == ModifyEventOf(ModifyEventsUpTo(s, engine, events, 0), engine, events[0]);
    var rebuilt := ModelRebuiltOf(s, engine);
    assert ModifyEventsUpTo(s, engine, events, 1) == rebuilt;
    assert ModifyEventsUpTo(s, engine, events, 2) == ModifyEventOf(ModifyEventsUpTo(s, engine, events, 1), engine, events[1]);
    assert ModifyEventsUpTo(s, engine, events, 2) == TextEditedOf(rebuilt, engine);
    assert ModifyEventsAsWrittenUpTo(s, engine, events, 1) == ModifyEventOf(ModifyEventsAsWrittenUpTo(s, engine, events, 0), engine, events[0]);
    assert ModifyEventsAsWrittenUpTo(s, engine, events, 1) == rebuilt;
    assert ModifyEventsAsWrittenUpTo(s, engine, events, 2) == ModifyEventOf(rebuilt, engine, events[0]);
  }

  /** With a single queued event, or a queue of one type, both agree. */
  lemma ModifyEventsAgreeOnOneType(s: ImplState, engine: Engine, events: seq<ModifyEventType>, n: nat)
    requires n <= |events|
    requires forall k :: 0 <= k < |events| ==> events[k] == events[0]
    ensures ModifyEventsAsWrittenUpTo(s, engine, events, n) == ModifyEventsUpTo(s, engine, events, n)
  {
  }

  // ----- Alignment -----

  /** A float truncated toward zero, as a C++ cast to int does. */
  function TruncateTowardZero(x: real): (r: int)
    ensures x >= 0.0 ==> r as real <= x < r as real + 1.0
    ensures x < 0.0 ==> r as real - 1.0 < x <= r as real
  {
    if x >= 0.0 then x.Floor else -((-x).Floor)
  }

  /** Right-to-left text swaps begin and end. */
  function EffectiveAlignment(h: HorizontalAlignment, rightToLeft: bool): HorizontalAlignment
  {
    if rightToLeft && h != HorizontalCenter then
      (if h == HorizontalBegin then HorizontalEnd else HorizontalBegin)
    else h
  }

  function HorizontalOffset(h: HorizontalAlignment, rightToLeft: bool, width: real, actualWidth: real): real
  {
    match EffectiveAlignment(h, rightToLeft)
    case HorizontalBegin => 0.0
    case HorizontalCenter => TruncateTowardZero(0.5 * (width - actualWidth)) as real
    case HorizontalEnd => width - actualWidth
  }

  function VerticalOffset(v: VerticalAlignment, height: real, actualHeight: real): real
  {
    match v
    case VerticalTop => 0.0
    case VerticalCenter => TruncateTowardZero(0.5 * (height - actualHeight)) as real
    case VerticalBottom => height - actualHeight
  }

  /** The alignment offset for a control size. */
  function CalculateTextAlignmentOf(s: ImplState, size: Vector2): (r: ImplState)
    ensures r == s.(alignmentOffset := r.alignmentOffset)
  {
    s.(alignmentOffset := Vector2(HorizontalOffset(s.horizontalAlignment, s.model.firstParagraphRightToLeft, size.x, s.model.actualSize.x),
                                  VerticalOffset(s.verticalAlignment, size.y, s.model.actualSize.y)))
  }

  /**
   * Where aligned text starts: at 0 for begin and top; at the free space for end and
   * bottom; within one of half the free space, toward zero, for centre. Right-to-left text
   * puts begin where end would be and end where begin would be; centre is unaffected.
   */
  lemma AlignmentOffsets(h: HorizontalAlignment, width: real, actualWidth: real, v: VerticalAlignment, height: real, actualHeight: real)
    ensures HorizontalOffset(HorizontalBegin, false, width, actualWidth) == 0.0
    ensures HorizontalOffset(HorizontalEnd, false, width, actualWidth) == width - actualWidth
    ensures HorizontalOffset(HorizontalBegin, true, width, actualWidth) == HorizontalOffset(HorizontalEnd, false, width, actualWidth)
    ensures HorizontalOffset(HorizontalEnd, true, width, actualWidth) == HorizontalOffset(HorizontalBegin, false, width, actualWidth)
    ensures HorizontalOffset(HorizontalCenter, true, width, actualWidth) == HorizontalOffset(HorizontalCenter, false, width, actualWidth)
    ensures width >= actualWidth ==>
              0.0 <= HorizontalOffset(HorizontalCenter, false, width, actualWidth) <= 0.5 * (width - actualWidth) <
              HorizontalOffset(HorizontalCenter, false, width, actualWidth) + 1.0
    ensures VerticalOffset(VerticalTop, height, actualHeight) == 0.0
    ensures VerticalOffset(VerticalBottom, height, actualHeight) == height - actualHeight
    ensures height >= actualHeight ==>
              0.0 <= VerticalOffset(VerticalCenter, height, actualHeight) <= 0.5 * (height - actualHeight) <
              VerticalOffset(VerticalCenter, height, actualHeight) + 1.0
  {
  }

  // ----- Relayout -----

  /**
   * Laying out at a size. Below a thousand machine epsilons in either dimension nothing
   * is laid out: the glyph positions are dropped, and whether there were any is the
   * answer. Otherwise a new size adds the layout operations; the modify events are
   * processed; the model is updated and laid out; nothing is left pending; the alignment
   * is computed; and the input events are processed. The answer is whether the layout or
   * the decorator changed.
   */
  function RelayoutOf(s: ImplState, size: Vector2, engine: Engine, g: Geometry): (r: (ImplState, bool))
    ensures size.x < MACHINE_EPSILON_1000 || size.y < MACHINE_EPSILON_1000 ==>
              r.0 == s.(model := r.0.model) && r.0.model.numberOfGlyphPositions == 0 &&
              (r.1 <==> s.model.numberOfGlyphPositions != 0)
    ensures !(size.x < MACHINE_EPSILON_1000 || size.y < MACHINE_EPSILON_1000) ==>
              r.0.operationsPending == {} && r.0.modifyEvents == [] && r.0.controlSize == size &&
              (r.0.eventData.Some? ==> r.0.eventData.value.eventQueue == [] && !r.0.eventData.value.decoratorUpdated)
  {
    if size.x < MACHINE_EPSILON_1000 || size.y < MACHINE_EPSILON_1000 then
      if s.model.numberOfGlyphPositions != 0 then (s.(model := s.model.(numberOfGlyphPositions := 0)), true) else (s, false)
    else LayOutOf(s, size, engine, g)
  }

  /** Laying out at a size that is not too small. */
  function LayOutOf(s: ImplState, size: Vector2, engine: Engine, g: Geometry): (r: (ImplState, bool))
    ensures r.0.operationsPending == {} && r.0.modifyEvents == [] && r.0.controlSize == size
    ensures r.0.eventData.Some? ==> r.0.eventData.value.eventQueue == [] && !r.0.eventData.value.decoratorUpdated
  {
    var s1 := if size != s.controlSize then s.(operationsPending := s.operationsPending + SIZE_OPERATIONS, controlSize := size) else s;
    var s2 := ProcessModifyEventsOf(s1, engine);
    var s3 := s2.(model := engine.updateModel(s2.text, s2.operationsPending, s2.model));
    var laidOut := engine.doRelayout(s3.controlSize, s3.operationsPending, s3.model);
    var s4 := CalculateTextAlignmentOf(s3.(model := laidOut.1, operationsPending := {}), size);
    var processed := ProcessInputEventsOf(s4, g);
    (processed.0, processed.1 || laidOut.0)
  }

  // ----- The controller -----

  /**
   * The controller of a text control. It owns the implementation object, whose state
   * every operation moves as the function of the same name says.
   */
  class Controller {
    const impl: Impl

    /** A new controller: no text, no editing data until text input is enabled. */
    constructor(clipboardItems: Option<nat>)
      ensures fresh(impl)
      ensures impl.text == [] && impl.eventData == None && impl.modifyEvents == []
      ensures impl.maximumNumberOfCharacters == 50
    {
      impl := new Impl(clipboardItems);
    }

    /** Editing data is created once, on the first call. */
    method EnableTextInput(decorator: Decorator, hasImfManager: bool)
      modifies impl`eventData
      ensures impl.eventData == if old(impl.eventData).None? then Some(NewEventData(decorator, hasImfManager))
                                else old(impl.eventData)
    {
      if impl.eventData.None? {
        impl.eventData := Some(NewEventData(decorator, hasImfManager));
      }
    }

    method ResetText()
      modifies impl
      ensures impl.Snapshot() == ResetTextOf(old(impl.Snapshot()))
    {
      impl.text := [];
      impl.model := ClearedModel(impl.model);
      impl.PlaceholderCleared();
      impl.recalculateNaturalSize := true;
      impl.operationsPending := ALL_OPERATIONS;
    }

    method ResetCursorPosition(cursorIndex: nat)
      modifies impl`eventData
      ensures impl.Snapshot() == ResetCursorPositionOf(old(impl.Snapshot()), cursorIndex)
    {
      if impl.eventData.Some? {
        var ed := impl.eventData.value;
        var update := if ed.state == Editing || ed.state == EditingWithPopup then true else ed.updateCursorPosition;
        impl.eventData := Some(ed.(primaryCursorPosition := cursorIndex, updateCursorPosition := update));
      }
    }

    method ResetScrollPosition()
      modifies impl`eventData
      ensures impl.Snapshot() == ResetScrollPositionOf(old(impl.Snapshot()))
    {
      if impl.eventData.Some? {
        impl.eventData := Some(impl.eventData.value.(scrollPosition := VECTOR2_ZERO, scrollAfterUpdatePosition := true));
      }
    }

    method ShowPlaceholderText()
      modifies impl
      ensures impl.Snapshot() == ShowPlaceholderOf(old(impl.Snapshot()))
    {
      if impl.IsPlaceholderAvailable() {
        ghost var s0 := impl.Snapshot();
        var ed := impl.eventData.value;
        var shown := if ed.state != Inactive then ed.placeholderTextActive else ed.placeholderTextInactive;
        var ed1 := ed.(isShowingPlaceholderText := true,
                       decorator := ed.decorator.(grabHandleActive := false, leftHandleActive := false,
                                                  rightHandleActive := false),
                       primaryCursorPosition := 0);
        impl.eventData := Some(ed1);
        impl.text := shown;
        impl.model := ClearedModel(impl.model);
        impl.recalculateNaturalSize := true;
        impl.operationsPending := ALL_OPERATIONS;
        ghost var s1 := s0.(eventData := Some(ed1), text := shown, model := ClearedModel(s0.model),
                            recalculateNaturalSize := true, operationsPending := ALL_OPERATIONS);
        assert impl.Snapshot() == s1;
        impl.QueueModifyEvent(TextReplaced);
        assert impl.Snapshot() == QueueModifyOf(s1, TextReplaced) == ShowPlaceholderOf(s0);
      }
    }

    method TextChanged()
      modifies impl`calls
      ensures impl.Snapshot() == TextChangedOf(old(impl.Snapshot()))
    {
      impl.calls := impl.calls.(textChanged := impl.calls.textChanged + 1);
    }

    method SetText(t: Text)
      modifies impl
      ensures impl.Snapshot() == SetTextOf(old(impl.Snapshot()), t)
    {
      ResetText();
      ReplaceText(t);
      ResetCursorPosition(|t|);
      ResetScrollPosition();
      impl.RequestRelayout();
      ClearEventQueue();
      impl.ResetImfManager();
      TextChanged();
    }

    /** The middle of SetText: non-empty text replaces the old, empty text shows the placeholder. */
    method ReplaceText(t: Text)
      modifies impl
      ensures impl.Snapshot() == ReplaceTextOf(old(impl.Snapshot()), t)
    {
      if |t| != 0 {
        impl.text := t;
        impl.QueueModifyEvent(TextReplaced);
        impl.recalculateNaturalSize := true;
        impl.operationsPending := ALL_OPERATIONS;
      } else {
        ShowPlaceholderText();
      }
    }

    /** Drops the queued input events. */
    method ClearEventQueue()
      modifies impl
      ensures impl.Snapshot() == ClearEventQueueOf(old(impl.Snapshot()))
    {
      if impl.eventData.Some? {
        impl.eventData := Some(impl.eventData.value.(eventQueue := []));
      }
    }

    method GetText() returns (t: Text)
      ensures t == GetTextOf(impl.Snapshot())
    {
      t := [];
      if !impl.IsShowingPlaceholderText() {
        t := impl.text;
      }
    }

    method GetLogicalCursorPosition() returns (cursor: nat)
      ensures cursor == LogicalCursorPositionOf(impl.Snapshot())
    {
      cursor := 0;
      if impl.eventData.Some? {
        cursor := impl.eventData.value.primaryCursorPosition;
      }
    }

    method SetPlaceholderText(placeholderType: PlaceholderType, t: Text)
      modifies impl
      ensures impl.Snapshot() == SetPlaceholderTextOf(old(impl.Snapshot()), placeholderType, t)
    {
      if impl.eventData.Some? {
        var ed := impl.eventData.value;
        if placeholderType == PlaceholderInactive {
          impl.eventData := Some(ed.(placeholderTextInactive := t));
        } else {
          impl.eventData := Some(ed.(placeholderTextActive := t));
        }
        if impl.IsShowingPlaceholderText() || |impl.text| == 0 {
          ShowPlaceholderText();
        }
      }
    }

    method GetPlaceholderText(placeholderType: PlaceholderType) returns (t: Text)
      ensures t == GetPlaceholderTextOf(impl.Snapshot(), placeholderType)
    {
      t := [];
      if impl.eventData.Some? {
        if placeholderType == PlaceholderInactive {
          t := impl.eventData.value.placeholderTextInactive;
        } else {
          t := impl.eventData.value.placeholderTextActive;
        }
      }
    }

    method SetMaximumNumberOfCharacters(maxCharacters: int)
      modifies impl`maximumNumberOfCharacters
      ensures impl.Snapshot() == SetMaximumNumberOfCharactersOf(old(impl.Snapshot()), maxCharacters)
    {
      if maxCharacters >= 0 {
        impl.maximumNumberOfCharacters := maxCharacters;
      }
    }

    method GetMaximumNumberOfCharacters() returns (maxCharacters: nat)
      ensures maxCharacters == impl.maximumNumberOfCharacters
    {
      maxCharacters := impl.maximumNumberOfCharacters;
    }

    method RemoveText(cursorOffset: int, numberOfChars: nat) returns (removed: bool)
      requires impl.eventData.Some?
      modifies impl`text, impl`eventData
      ensures (impl.Snapshot(), removed) == RemoveTextOf(old(impl.Snapshot()), cursorOffset, numberOfChars)
    {
      removed := false;
      var ed := impl.eventData.value;
      var start := RemoveStart(ed.primaryCursorPosition, cursorOffset);
      if !impl.IsShowingPlaceholderText() && start.Some? {
        var cursorIndex := start.value;
        if cursorIndex <= |impl.text| {
          var count := numberOfChars;
          if cursorIndex + count > |impl.text| {
            count := |impl.text| - cursorIndex;
          }
          impl.text := impl.text[..cursorIndex] + impl.text[cursorIndex + count..];
          impl.eventData := Some(ed.(primaryCursorPosition := cursorIndex));
          removed := true;
        }
      }
    }

    /** The first step of inserting: a pending pre-edit run is removed. */
    method RemovePreEdit() returns (removedPreEdit: bool)
      requires impl.eventData.Some?
      modifies impl`text, impl`eventData
      ensures (impl.Snapshot(), removedPreEdit) == RemovePreEditOf(old(impl.Snapshot()))
    {
      removedPreEdit := false;
      var ed := impl.eventData.value;
      if ed.preEditFlag && ed.preEditLength != 0 {
        var offset := ed.primaryCursorPosition - ed.preEditStartPosition;
        removedPreEdit := RemoveText(-offset, ed.preEditLength);
        impl.eventData := Some(impl.eventData.value.(primaryCursorPosition := ed.preEditStartPosition, preEditLength := 0));
      }
    }

    /** The second step: the pre-edit tracking follows the insertion type. */
    method TrackPreEdit(count: nat, insertType: InsertType)
      requires impl.eventData.Some?
      modifies impl`eventData
      ensures impl.Snapshot() == TrackPreEditOf(old(impl.Snapshot()), count, insertType)
    {
      if insertType == Commit {
        impl.ClearPreEditFlag();
      } else {
        var e := impl.eventData.value;
        var start := if !e.preEditFlag then e.primaryCursorPosition else e.preEditStartPosition;
        impl.eventData := Some(e.(preEditStartPosition := start, preEditLength := count, preEditFlag := true));
      }
    }

    /** The third step: what fits goes in at the cursor. */
    method InsertCharacters(chars: Text) returns (maxLengthReached: bool)
      requires impl.eventData.Some?
      modifies impl`text, impl`eventData
      ensures (impl.Snapshot(), maxLengthReached) == InsertCharactersOf(old(impl.Snapshot()), chars)
    {
      ghost var s0 := impl.Snapshot();
      var numberOfCharactersInModel := |impl.text|;
      var maxSizeOfNewText := Min(Room(impl.maximumNumberOfCharacters, numberOfCharactersInModel), |chars|);
      maxLengthReached := |chars| > maxSizeOfNewText;
      var cursorIndex := impl.eventData.value.primaryCursorPosition;
      var oldText := impl.text;
      var newText := chars[..maxSizeOfNewText];
      if cursorIndex < numberOfCharactersInModel {
        impl.text := oldText[..cursorIndex] + newText + oldText[cursorIndex..];
      } else {
        impl.text := oldText + newText;
        assert oldText[..numberOfCharactersInModel] + newText + oldText[numberOfCharactersInModel..] == impl.text;
      }
      impl.eventData := Some(impl.eventData.value.(primaryCursorPosition := cursorIndex + maxSizeOfNewText));
      ghost var expected := InsertCharactersOf(s0, chars);
      assert expected.0 == s0.(text := expected.0.text, eventData := expected.0.eventData);
      assert impl.Snapshot() == s0.(text := impl.text, eventData := impl.eventData);
    }

    method InsertText(chars: Text, insertType: InsertType)
      requires impl.eventData.Some?
      modifies impl
      ensures impl.Snapshot() == InsertTextOf(old(impl.Snapshot()), chars, insertType)
    {
      if |chars| == 0 {
        return;
      }
      if impl.IsShowingPlaceholderText() {
        ResetText();
      }
      var _ := RemovePreEdit();
      TrackPreEdit(|chars|, insertType);
      var maxLengthReached := InsertCharacters(chars);
      impl.QueueModifyEvent(TextInserted);
      if maxLengthReached {
        impl.ResetImfManager();
        MaxLengthReached();
      }
    }

    method MaxLengthReached()
      modifies impl`calls
      ensures impl.Snapshot() == MaxLengthReachedOf(old(impl.Snapshot()))
    {
      impl.calls := impl.calls.(maxLengthReached := impl.calls.maxLengthReached + 1);
    }

    method KeyboardFocusGainEvent()
      modifies impl
      ensures impl.Snapshot() == KeyboardFocusGainOf(old(impl.Snapshot()))
    {
      if impl.eventData.Some? {
        impl.ChangeState(Editing);
        if impl.IsShowingPlaceholderText() {
          ShowPlaceholderText();
        }
        impl.RequestRelayout();
      }
    }

    method KeyboardFocusLostEvent()
      modifies impl
      ensures impl.Snapshot() == KeyboardFocusLostOf(old(impl.Snapshot()))
    {
      if impl.eventData.Some? {
        impl.ChangeState(Inactive);
        if impl.IsShowingPlaceholderText() {
          ShowPlaceholderText();
        }
        impl.RequestRelayout();
      }
    }

    method KeyEvent(keyEvent: KeyEvent) returns (consumed: bool)
      modifies impl
      ensures (impl.Snapshot(), consumed) == KeyEventOf(old(impl.Snapshot()), keyEvent)
    {
      var textChanged := false;
      if impl.eventData.Some? && keyEvent.state == KeyDown {
        var keyCode := keyEvent.keyCode;
        if keyCode == KEY_ESCAPE {
          KeyboardFocusLostEvent();
        } else if IsCursorKey(keyCode) {
          impl.eventData := Some(impl.eventData.value.(eventQueue := impl.eventData.value.eventQueue +
                                                                      [NewEvent(CursorKeyEvent).(p1 := keyCode)]));
        } else if keyCode == KEY_BACKSPACE {
          textChanged := Backspace();
        } else {
          impl.ClearPreEditFlag();
          InsertText(keyEvent.keyPressed, Commit);
          textChanged := true;
        }
        impl.ChangeState(Editing);
        impl.RequestRelayout();
      }
      if textChanged {
        TextChanged();
      }
      consumed := false;
    }

    /** The backspace branch of a key press. */
    method Backspace() returns (textChanged: bool)
      requires impl.eventData.Some?
      modifies impl
      ensures (impl.Snapshot(), textChanged) == BackspaceOf(old(impl.Snapshot()))
    {
      impl.ClearPreEditFlag();
      var removed := RemoveText(-1, 1);
      textChanged := false;
      if removed {
        if |impl.text| == 0 {
          ShowPlaceholderText();
          impl.eventData := Some(impl.eventData.value.(updateCursorPosition := true));
        } else {
          impl.QueueModifyEvent(TextDeleted);
        }
        textChanged := true;
      }
    }

    method TapEvent(tapCount: nat, x: real, y: real)
      modifies impl
      ensures impl.Snapshot() == TapEventOf(old(impl.Snapshot()), tapCount, x, y)
    {
      if impl.eventData.Some? {
        if tapCount == 1 {
          var ed := impl.eventData.value;
          if !impl.IsShowingPlaceholderText() && ed.state == Editing {
            impl.eventData := Some(ed.(decorator := ed.decorator.(grabHandleActive := true, popupActive := false)));
          }
          impl.ChangeState(Editing);
        } else if impl.eventData.value.selectionEnabled && tapCount == 2 {
          impl.ChangeState(Selecting);
        }
      }
      if impl.eventData.Some? {
        impl.eventData := Some(impl.eventData.value.(eventQueue := impl.eventData.value.eventQueue +
                                                                    [Event(EventType.TapEvent, tapCount, x, y)]));
        impl.RequestRelayout();
      }
      impl.ResetImfManager();
    }

    method PanEvent(state: int, displacement: Vector2)
      modifies impl`eventData, impl`calls
      ensures impl.Snapshot() == PanEventOf(old(impl.Snapshot()), state, displacement)
    {
      if impl.eventData.Some? {
        impl.eventData := Some(impl.eventData.value.(eventQueue := impl.eventData.value.eventQueue +
                                                                    [Event(EventType.PanEvent, state, displacement.x, displacement.y)]));
        impl.RequestRelayout();
      }
    }

    method DecorationEvent(handle: HandleType, handleState: nat, x: real, y: real)
      modifies impl`eventData, impl`calls
      ensures impl.Snapshot() == DecorationEventOf(old(impl.Snapshot()), handle, handleState, x, y)
    {
      if impl.eventData.Some? {
        var event := Event(HandleEventType(handle), handleState, x, y);
        impl.eventData := Some(impl.eventData.value.(eventQueue := impl.eventData.value.eventQueue + [event]));
        impl.RequestRelayout();
      }
    }

    /** After a replacement the model is rebuilt for every operation. */
    method TextReplacedEvent(engine: Engine)
      modifies impl`model, impl`recalculateNaturalSize, impl`operationsPending
      ensures impl.Snapshot() == ModelRebuiltOf(old(impl.Snapshot()), engine)
    {
      impl.model := ClearedModel(impl.model);
      impl.recalculateNaturalSize := true;
      impl.operationsPending := ALL_OPERATIONS;
      impl.model := engine.updateModel(impl.text, ALL_OPERATIONS, impl.model);
      impl.operationsPending := SIZE_OPERATIONS;
    }

    /** After an insertion or a deletion (both are handled alike) the model is rebuilt and
        the cursor asked to follow. */
    method TextEditedEvent(engine: Engine)
      modifies impl`model, impl`recalculateNaturalSize, impl`operationsPending, impl`eventData
      ensures impl.Snapshot() == TextEditedOf(old(impl.Snapshot()), engine)
    {
      TextReplacedEvent(engine);
      if impl.eventData.Some? {
        impl.eventData := Some(impl.eventData.value.(updateCursorPosition := true, scrollAfterUpdatePosition := true));
      }
    }

    method ProcessModifyEvents(engine: Engine)
      modifies impl`model, impl`recalculateNaturalSize, impl`operationsPending, impl`eventData, impl`modifyEvents
      ensures impl.Snapshot() == ProcessModifyEventsOf(old(impl.Snapshot()), engine)
    {
      ghost var s0 := impl.Snapshot();
      var events := impl.modifyEvents;
      var i := 0;
      while i < |events|
        invariant i <= |events|
        invariant impl.Snapshot() == ModifyEventsUpTo(s0, engine, events, i)
      {
        match events[i] {
          case TextReplaced => TextReplacedEvent(engine);
          case TextInserted => TextEditedEvent(engine);
          case TextDeleted =>
            if !impl.IsShowingPlaceholderText() {
              TextEditedEvent(engine);
            }
        }
        i := i + 1;
      }
      impl.modifyEvents := [];
    }

    method CalculateTextAlignment(size: Vector2)
      modifies impl`alignmentOffset
      ensures impl.Snapshot() == CalculateTextAlignmentOf(old(impl.Snapshot()), size)
    {
      var rightToLeft := impl.model.firstParagraphRightToLeft;
      var actualSize := impl.model.actualSize;
      var x := HorizontalOffset(impl.horizontalAlignment, rightToLeft, size.x, actualSize.x);
      var y := VerticalOffset(impl.verticalAlignment, size.y, actualSize.y);
      impl.alignmentOffset := Vector2(x, y);
    }

    method Relayout(size: Vector2, engine: Engine, g: Geometry) returns (updated: bool)
      modifies impl
      ensures (impl.Snapshot(), updated) == RelayoutOf(old(impl.Snapshot()), size, engine, g)
    {
      if size.x < MACHINE_EPSILON_1000 || size.y < MACHINE_EPSILON_1000 {
        var glyphsRemoved := false;
        if impl.model.numberOfGlyphPositions != 0 {
          impl.model := impl.model.(numberOfGlyphPositions := 0);
          glyphsRemoved := true;
        }
        return glyphsRemoved;
      }
      updated := LayOut(size, engine, g);
    }

    /** Laying out at a size that is not too small. */
    method LayOut(size: Vector2, engine: Engine, g: Geometry) returns (updated: bool)
      modifies impl
      ensures (impl.Snapshot(), updated) == LayOutOf(old(impl.Snapshot()), size, engine, g)
    {
      if size != impl.controlSize {
        impl.operationsPending := impl.operationsPending + SIZE_OPERATIONS;
        impl.controlSize := size;
      }
      ProcessModifyEvents(engine);
      ghost var s2 := impl.Snapshot();
      impl.model := engine.updateModel(impl.text, impl.operationsPending, impl.model);
      var laidOut := engine.doRelayout(impl.controlSize, impl.operationsPending, impl.model);
      impl.model := laidOut.1;
      updated := laidOut.0;
      impl.operationsPending := {};
      ghost var s3 := s2.(model := laidOut.1, operationsPending := {});
      assert impl.Snapshot() == s3;
      var decoratorUpdated := AlignAndProcessInput(size, g);
      updated := decoratorUpdated || updated;
    }

    /** The last steps of a layout: align the text, then handle the queued input events. */
    method AlignAndProcessInput(size: Vector2, g: Geometry) returns (decoratorUpdated: bool)
      modifies impl
      ensures (impl.Snapshot(), decoratorUpdated) == ProcessInputEventsOf(CalculateTextAlignmentOf(old(impl.Snapshot()), size), g)
    {
      CalculateTextAlignment(size);
      decoratorUpdated := false;
      if impl.eventData.Some? {
        decoratorUpdated := impl.ProcessInputEvents(g);
      }
    }
  }
}
