/**
 * The text selection popup: the list of its six options ordered by priority,
 * the toolbar filled with the enabled ones separated by dividers, and its
 * customisable sizes and button images.
 *
 * Images are handles identified by the resource they were made from; an
 * empty handle is `None`. The toolbar is kept as the list of items added to it.
 */
module SelectionPopup {
  import opened Wrappers
  import opened PropertyMap

  datatype Button = NoButton | Cut | Copy | Paste | Select | SelectAll | Clipboard

  datatype Customisation = PopupMaximumSize | PopupMinimumSize | OptionMaximumSize | OptionMinimumSize | OptionDividerSize

  type Image = Option<string>

  /** One option of the popup: which button, its priority, name, caption, icon and whether it is shown. */
  datatype ButtonRequirement = ButtonRequirement(id: Button, priority: int, name: string, caption: string,
                                                 icon: Image, enabled: bool)

  /** What the toolbar holds: an option (with the number of rows of its container) or a divider. */
  datatype ToolbarItem = OptionItem(button: ButtonRequirement, rows: nat) | Divider(width: real, color: Vector4)

  /** The directory the default icons are installed in, fixed when the toolkit is built. */
  const IMAGE_DIR := "images/"

  const OPTION_ICON_CLIPBOARD := IMAGE_DIR + "copy_paste_icon_clipboard.png"
  const OPTION_ICON_COPY := IMAGE_DIR + "copy_paste_icon_copy.png"
  const OPTION_ICON_CUT := IMAGE_DIR + "copy_paste_icon_cut.png"
  const OPTION_ICON_PASTE := IMAGE_DIR + "copy_paste_icon_paste.png"
  const OPTION_ICON_SELECT := IMAGE_DIR + "copy_paste_icon_select.png"
  const OPTION_ICON_SELECT_ALL := IMAGE_DIR + "copy_paste_icon_select_all.png"

  const OPTION_SELECT_WORD := "option-select_word"
  const OPTION_SELECT_ALL := "option-select_all"
  const OPTION_CUT := "option-cut"
  const OPTION_COPY := "option-copy"
  const OPTION_PASTE := "option-paste"
  const OPTION_CLIPBOARD := "option-clipboard"

  const DEFAULT_POPUP_LINE_COLOR := Vector4(0.69, 0.93, 0.93, 1.0)

  // ----- Ordering by priority -----

  predicate SortedByPriority(s: seq<ButtonRequirement>)
  {
    forall i, j | 0 <= i < j < |s| :: s[i].priority <= s[j].priority
  }

  /** Inserts an option into a list, before the first option of no lower priority. */
  function Insert(x: ButtonRequirement, sorted: seq<ButtonRequirement>): seq<ButtonRequirement>
  {
    if |sorted| == 0 || x.priority <= sorted[0].priority then [x] + sorted
    else [sorted[0]] + Insert(x, sorted[1..])
  }

  /** Inserting adds exactly the one option and keeps the others. */
  lemma {:induction false} InsertPermutes(x: ButtonRequirement, sorted: seq<ButtonRequirement>)
    ensures |Insert(x, sorted)| == |sorted| + 1 && multiset(Insert(x, sorted)) == multiset(sorted) + multiset{x}
  {
    if |sorted| > 0 && x.priority > sorted[0].priority {
      InsertPermutes(x, sorted[1..]);
      assert sorted == [sorted[0]] + sorted[1..];
    }
  }

  /** Inserting an option into a list sorted by priority keeps it sorted. */
  lemma {:induction false} InsertKeepsSorted(x: ButtonRequirement, sorted: seq<ButtonRequirement>)
    requires SortedByPriority(sorted)
    ensures SortedByPriority(Insert(x, sorted))
  {
    if |sorted| > 0 && x.priority > sorted[0].priority {
      var rest := Insert(x, sorted[1..]);
      InsertKeepsSorted(x, sorted[1..]);
      InsertPermutes(x, sorted[1..]);
      forall k | 0 <= k < |rest|
        ensures sorted[0].priority <= rest[k].priority
      {
        assert rest[k] in multiset(rest);
        assert rest[k] == x || rest[k] in multiset(sorted[1..]);
        if rest[k] != x {
          var j :| 0 <= j < |sorted[1..]| && sorted[1..][j] == rest[k];
          assert sorted[j + 1] == rest[k];
        }
      }
      assert Insert(x, sorted) == [sorted[0]] + rest;
    }
  }

  /** The options in order of priority. */
  function SortByPriority(s: seq<ButtonRequirement>): seq<ButtonRequirement>
  {
    if |s| == 0 then [] else Insert(s[0], SortByPriority(s[1..]))
  }

  /** Sorting by priority yields a permutation of its input, in non-decreasing priority. */
  lemma {:induction false} SortByPriorityIsSortedPermutation(s: seq<ButtonRequirement>)
    ensures |SortByPriority(s)| == |s| && multiset(SortByPriority(s)) == multiset(s)
    ensures SortedByPriority(SortByPriority(s))
  {
    if |s| > 0 {
      assert s == [s[0]] + s[1..];
      SortByPriorityIsSortedPermutation(s[1..]);
      InsertPermutes(s[0], SortByPriority(s[1..]));
      InsertKeepsSorted(s[0], SortByPriority(s[1..]));
    }
  }

  // ----- Enabled options and the toolbar -----

  /** The enabled options, in list order. */
  function Enabled(s: seq<ButtonRequirement>): (r: seq<ButtonRequirement>)
    ensures |r| <= |s|
    ensures forall k | 0 <= k < |r| :: r[k].enabled && r[k] in s
  {
    if |s| == 0 then []
    else Enabled(s[..|s| - 1]) + (if s[|s| - 1].enabled then [s[|s| - 1]] else [])
  }

  /** An option container has two rows when both icons and captions are shown, otherwise one. */
  function OptionRows(showIcons: bool, showCaptions: bool): (rows: nat)
    ensures rows == 2 <==> showIcons && showCaptions
    ensures rows == 1 <==> !(showIcons && showCaptions)
  {
    if showIcons && showCaptions then 2 else 1
  }

  /**
   * The toolbar items for the first n options of the list, when `required` options will be
   * added in all: each enabled option, followed by a divider unless it is the last required.
   */
  function ItemsUpTo(s: seq<ButtonRequirement>, n: nat, required: nat, rows: nat, divider: ToolbarItem): seq<ToolbarItem>
    requires n <= |s|
  {
    if n == 0 then []
    else
      ItemsUpTo(s, n - 1, required, rows, divider) +
      (if s[n - 1].enabled then
         [OptionItem(s[n - 1], rows)] + (if |Enabled(s[..n])| < required then [divider] else [])
       else [])
  }

  /** One more option of the list: its item, and a divider when more enabled options follow. */
  lemma ItemsStep(s: seq<ButtonRequirement>, i: nat, required: nat, rows: nat, divider: ToolbarItem)
    requires i < |s|
    ensures |Enabled(s[..i + 1])| == |Enabled(s[..i])| + (if s[i].enabled then 1 else 0)
    ensures ItemsUpTo(s, i + 1, required, rows, divider) ==
            ItemsUpTo(s, i, required, rows, divider) +
            (if s[i].enabled then
               [OptionItem(s[i], rows)] + (if |Enabled(s[..i])| + 1 < required then [divider] else [])
             else [])
  {
    assert s[..i + 1][..i] == s[..i];
  }

  /** The options among toolbar items, in order. */
  function OptionsOf(items: seq<ToolbarItem>): seq<ButtonRequirement>
  {
    if |items| == 0 then []
    else OptionsOf(items[..|items| - 1]) + (if items[|items| - 1].OptionItem? then [items[|items| - 1].button] else [])
  }

  lemma {:induction false} OptionsOfAppend(a: seq<ToolbarItem>, b: seq<ToolbarItem>)
    ensures OptionsOf(a + b) == OptionsOf(a) + OptionsOf(b)
  {
    if |b| > 0 {
      assert (a + b)[..|a + b| - 1] == a + b[..|b| - 1];
      OptionsOfAppend(a, b[..|b| - 1]);
    } else {
      assert a + b == a;
    }
  }

  lemma {:induction false} EnabledPrefix(s: seq<ButtonRequirement>, n: nat)
    requires n <= |s|
    ensures |Enabled(s[..n])| <= |Enabled(s)|
    decreases |s| - n
  {
    if n < |s| {
      EnabledPrefix(s, n + 1);
      assert s[..n + 1][..n] == s[..n];
    } else {
      assert s[..n] == s;
    }
  }

  /** The toolbar for the first n options holds exactly the enabled ones, in list order. */
  lemma {:induction false} ItemsOptions(s: seq<ButtonRequirement>, n: nat, required: nat, rows: nat, divider: ToolbarItem)
    requires n <= |s| && divider.Divider?
    ensures OptionsOf(ItemsUpTo(s, n, required, rows, divider)) == Enabled(s[..n])
  {
    if n > 0 {
      assert s[..n][..n - 1] == s[..n - 1];
      ItemsOptions(s, n - 1, required, rows, divider);
      var prev := ItemsUpTo(s, n - 1, required, rows, divider);
      var block := if s[n - 1].enabled then
                     [OptionItem(s[n - 1], rows)] + (if |Enabled(s[..n])| < required then [divider] else [])
                   else [];
      assert ItemsUpTo(s, n, required, rows, divider) == prev + block;
      OptionsOfAppend(prev, block);
      if s[n - 1].enabled {
        OptionsOfAppend([OptionItem(s[n - 1], rows)], if |Enabled(s[..n])| < required then [divider] else []);
        assert OptionsOf([OptionItem(s[n - 1], rows)]) == [s[n - 1]] by {
          assert [OptionItem(s[n - 1], rows)][..0] == [];
        }
        if |Enabled(s[..n])| < required {
          assert OptionsOf([divider]) == [] by {
            assert [divider][..0] == [];
          }
        }
      }
    }
  }

  /**
   * Options and dividers alternate from an option on, one divider per option until all
   * `required` options are there, so the items end on a divider until the last option.
   */
  lemma {:induction false} ItemsAlternate(s: seq<ButtonRequirement>, n: nat, required: nat, rows: nat, divider: ToolbarItem)
    requires n <= |s| && |Enabled(s[..n])| <= required && divider.Divider?
    ensures var items := ItemsUpTo(s, n, required, rows, divider);
            var e := |Enabled(s[..n])|;
            |items| == 2 * e - (if e == required && e > 0 then 1 else 0) &&
            (|items| > 0 ==> items[0].OptionItem? && (items[|items| - 1].OptionItem? <==> e == required)) &&
            forall k | 0 <= k < |items| - 1 :: items[k].OptionItem? != items[k + 1].OptionItem?
  {
    if n > 0 {
      assert s[..n][..n - 1] == s[..n - 1];
      ItemsAlternate(s, n - 1, required, rows, divider);
    }
  }

  /** Adding every option of the list: only the enabled ones, in order, and a divider after each but the last. */
  lemma ToolbarShape(s: seq<ButtonRequirement>, rows: nat, divider: ToolbarItem)
    requires divider.Divider?
    ensures var items := ItemsUpTo(s, |s|, |Enabled(s)|, rows, divider);
            OptionsOf(items) == Enabled(s) &&
            (|Enabled(s)| == 0 ==> items == []) &&
            (|Enabled(s)| > 0 ==> |items| == 2 * |Enabled(s)| - 1 && items[0].OptionItem? && items[|items| - 1].OptionItem?) &&
            forall k | 0 <= k < |items| - 1 :: items[k].OptionItem? <==> items[k + 1].Divider?
  {
    assert s[..|s|] == s;
    ItemsOptions(s, |s|, |Enabled(s)|, rows, divider);
    ItemsAlternate(s, |s|, |Enabled(s)|, rows, divider);
  }

  /** The six options in the order they are created, each with its image, priority and enabled flag. */
  function OptionList(cut: Image, copy: Image, paste: Image, select: Image, selectAll: Image, clipboard: Image,
                      cutPriority: int, copyPriority: int, pastePriority: int, selectPriority: int,
                      selectAllPriority: int, clipboardPriority: int): (r: seq<ButtonRequirement>)
    ensures |r| == 6
  {
    [ButtonRequirement(Cut, cutPriority, OPTION_CUT, "Cut", cut, false),
     ButtonRequirement(Copy, copyPriority, OPTION_COPY, "Copy", copy, false),
     ButtonRequirement(Paste, pastePriority, OPTION_PASTE, "Paste", paste, false),
     ButtonRequirement(Select, selectPriority, OPTION_SELECT_WORD, "Select", select, true),
     ButtonRequirement(SelectAll, selectAllPriority, OPTION_SELECT_ALL, "Select All", selectAll, true),
     ButtonRequirement(Clipboard, clipboardPriority, OPTION_CLIPBOARD, "Clipboard", clipboard, false)]
  }

  /** An image handle that is made from the default resource when it is empty. */
  function OrDefault(image: Image, resource: string): (r: Image)
    ensures r.Some?
    ensures image.Some? ==> r == image
  {
    if image.None? then Some(resource) else image
  }

  class TextSelectionPopup {
    var maxSize: Vector2
    var minSize: Vector2
    var optionMaxSize: Vector2
    var optionMinSize: Vector2
    var optionDividerSize: Vector2
    var lineColor: Vector4
    var clipboardIconImage: Image
    var cutIconImage: Image
    var copyIconImage: Image
    var pasteIconImage: Image
    var selectIconImage: Image
    var selectAllIconImage: Image
    var selectOptionPriority: int
    var selectAllOptionPriority: int
    var cutOptionPriority: int
    var copyOptionPriority: int
    var pasteOptionPriority: int
    var clipboardOptionPriority: int
    var showIcons: bool
    var showCaptions: bool
    var orderListOfButtons: seq<ButtonRequirement>
    var hasToolbar: bool
    var toolbarMaxSize: Vector2
    var toolbarItems: seq<ToolbarItem>

    /** A new popup: zero sizes, a 2-wide divider, no images, priorities select 1 to clipboard 6, captions but no icons. */
    constructor ()
      ensures maxSize == VECTOR2_ZERO && minSize == VECTOR2_ZERO && optionMaxSize == VECTOR2_ZERO && optionMinSize == VECTOR2_ZERO
      ensures optionDividerSize == Vector2(2.0, 0.0) && lineColor == DEFAULT_POPUP_LINE_COLOR
      ensures selectOptionPriority == 1 && selectAllOptionPriority == 2 && cutOptionPriority == 3
      ensures copyOptionPriority == 4 && pasteOptionPriority == 5 && clipboardOptionPriority == 6
      ensures !showIcons && showCaptions
      ensures clipboardIconImage.None? && cutIconImage.None? && copyIconImage.None?
      ensures pasteIconImage.None? && selectIconImage.None? && selectAllIconImage.None?
      ensures orderListOfButtons == [] && !hasToolbar && toolbarItems == []
    {
      maxSize := VECTOR2_ZERO;
      minSize := VECTOR2_ZERO;
      optionMaxSize := VECTOR2_ZERO;
      optionMinSize := VECTOR2_ZERO;
      optionDividerSize := Vector2(2.0, 0.0);
      lineColor := DEFAULT_POPUP_LINE_COLOR;
      clipboardIconImage := None;
      cutIconImage := None;
      copyIconImage := None;
      pasteIconImage := None;
      selectIconImage := None;
      selectAllIconImage := None;
      selectOptionPriority := 1;
      selectAllOptionPriority := 2;
      cutOptionPriority := 3;
      copyOptionPriority := 4;
      pasteOptionPriority := 5;
      clipboardOptionPriority := 6;
      showIcons := false;
      showCaptions := true;
      orderListOfButtons := [];
      hasToolbar := false;
      toolbarMaxSize := VECTOR2_ZERO;
      toolbarItems := [];
    }

    function GetDimensionToCustomise(setting: Customisation): Vector2
      reads this
    {
      match setting
      case PopupMaximumSize => maxSize
      case PopupMinimumSize => minSize
      case OptionMaximumSize => optionMaxSize
      case OptionMinimumSize => optionMinSize
      case OptionDividerSize => optionDividerSize
    }

    /** Stores one size; the others are unchanged, and an existing toolbar follows the popup's maximum size. */
    method SetDimensionToCustomise(setting: Customisation, dimension: Vector2)
      modifies this`maxSize, this`minSize, this`optionMaxSize, this`optionMinSize, this`optionDividerSize, this`toolbarMaxSize
      ensures GetDimensionToCustomise(setting) == dimension
      ensures forall other :: other != setting ==> GetDimensionToCustomise(other) == old(GetDimensionToCustomise(other))
      ensures hasToolbar == old(hasToolbar) && toolbarItems == old(toolbarItems)
      ensures toolbarMaxSize == if setting == PopupMaximumSize && hasToolbar then dimension else old(toolbarMaxSize)
      ensures orderListOfButtons == old(orderListOfButtons)
      ensures forall b :: GetButtonImage(b) == old(GetButtonImage(b))
      ensures selectOptionPriority == old(selectOptionPriority) && selectAllOptionPriority == old(selectAllOptionPriority) &&
              cutOptionPriority == old(cutOptionPriority) && copyOptionPriority == old(copyOptionPriority) &&
              pasteOptionPriority == old(pasteOptionPriority) && clipboardOptionPriority == old(clipboardOptionPriority)
      ensures showIcons == old(showIcons) && showCaptions == old(showCaptions) && lineColor == old(lineColor)
    {
      match setting
      case PopupMaximumSize =>
        maxSize := dimension;
        if hasToolbar {
          toolbarMaxSize := maxSize;
        }
      case PopupMinimumSize =>
        minSize := dimension;
      case OptionMaximumSize =>
        optionMaxSize := dimension;
      case OptionMinimumSize =>
        optionMinSize := dimension;
      case OptionDividerSize =>
        optionDividerSize := dimension;
    }

    /** The image of a button; no button has an empty image. */
    function GetButtonImage(button: Button): (image: Image)
      reads this
      ensures button == NoButton ==> image.None?
    {
      match button
      case Clipboard => clipboardIconImage
      case Cut => cutIconImage
      case Copy => copyIconImage
      case Paste => pasteIconImage
      case Select => selectIconImage
      case SelectAll => selectAllIconImage
      case NoButton => None
    }

    /** Stores the image of one button; the others keep theirs, and no button changes nothing. */
    method SetButtonImage(button: Button, image: Image)
      modifies this
      ensures button != NoButton ==> GetButtonImage(button) == image
      ensures forall other :: other != button ==> GetButtonImage(other) == old(GetButtonImage(other))
      ensures forall setting :: GetDimensionToCustomise(setting) == old(GetDimensionToCustomise(setting))
      ensures orderListOfButtons == old(orderListOfButtons) && toolbarItems == old(toolbarItems)
    {
      match button
      case Clipboard =>
        clipboardIconImage := image;
      case Cut =>
        cutIconImage := image;
      case Copy =>
        copyIconImage := image;
      case Paste =>
        pasteIconImage := image;
      case Select =>
        selectIconImage := image;
      case SelectAll =>
        selectAllIconImage := image;
      case NoButton =>
    }

    /**
     * Rebuilds the option list: every empty image is made from its default resource, and the
     * six options are sorted by priority.
     */
    method CreateOrderedListOfPopupOptions()
      modifies this
      ensures cutIconImage == OrDefault(old(cutIconImage), OPTION_ICON_CUT)
      ensures copyIconImage == OrDefault(old(copyIconImage), OPTION_ICON_COPY)
      ensures pasteIconImage == OrDefault(old(pasteIconImage), OPTION_ICON_PASTE)
      ensures selectIconImage == OrDefault(old(selectIconImage), OPTION_ICON_SELECT)
      ensures selectAllIconImage == OrDefault(old(selectAllIconImage), OPTION_ICON_SELECT_ALL)
      ensures clipboardIconImage == OrDefault(old(clipboardIconImage), OPTION_ICON_CLIPBOARD)
      ensures orderListOfButtons ==
                SortByPriority(OptionList(cutIconImage, copyIconImage, pasteIconImage, selectIconImage, selectAllIconImage,
                                          clipboardIconImage, cutOptionPriority, copyOptionPriority, pasteOptionPriority,
                                          selectOptionPriority, selectAllOptionPriority, clipboardOptionPriority))
      ensures forall setting :: GetDimensionToCustomise(setting) == old(GetDimensionToCustomise(setting))
      ensures hasToolbar == old(hasToolbar) && toolbarItems == old(toolbarItems) && toolbarMaxSize == old(toolbarMaxSize)
      ensures showIcons == old(showIcons) && showCaptions == old(showCaptions) && lineColor == old(lineColor)
      ensures selectOptionPriority == old(selectOptionPriority) && selectAllOptionPriority == old(selectAllOptionPriority)
      ensures cutOptionPriority == old(cutOptionPriority) && copyOptionPriority == old(copyOptionPriority)
      ensures pasteOptionPriority == old(pasteOptionPriority) && clipboardOptionPriority == old(clipboardOptionPriority)
    {
      FillDefaultImages();
      var list := OptionList(cutIconImage, copyIconImage, pasteIconImage, selectIconImage, selectAllIconImage,
                             clipboardIconImage, cutOptionPriority, copyOptionPriority, pasteOptionPriority,
                             selectOptionPriority, selectAllOptionPriority, clipboardOptionPriority);
      orderListOfButtons := SortByPriority(list);
    }

    /** Makes every empty option image from its default resource. */
    method FillDefaultImages()
      modifies this`cutIconImage, this`copyIconImage, this`pasteIconImage, this`selectIconImage,
               this`selectAllIconImage, this`clipboardIconImage
      ensures cutIconImage == OrDefault(old(cutIconImage), OPTION_ICON_CUT)
      ensures copyIconImage == OrDefault(old(copyIconImage), OPTION_ICON_COPY)
      ensures pasteIconImage == OrDefault(old(pasteIconImage), OPTION_ICON_PASTE)
      ensures selectIconImage == OrDefault(old(selectIconImage), OPTION_ICON_SELECT)
      ensures selectAllIconImage == OrDefault(old(selectAllIconImage), OPTION_ICON_SELECT_ALL)
      ensures clipboardIconImage == OrDefault(old(clipboardIconImage), OPTION_ICON_CLIPBOARD)
    {
      cutIconImage := OrDefault(cutIconImage, OPTION_ICON_CUT);
      copyIconImage := OrDefault(copyIconImage, OPTION_ICON_COPY);
      pasteIconImage := OrDefault(pasteIconImage, OPTION_ICON_PASTE);
      selectIconImage := OrDefault(selectIconImage, OPTION_ICON_SELECT);
      selectAllIconImage := OrDefault(selectAllIconImage, OPTION_ICON_SELECT_ALL);
      clipboardIconImage := OrDefault(clipboardIconImage, OPTION_ICON_CLIPBOARD);
    }

    /** Counts the options of the list that are enabled. */
    method GetNumberOfEnabledOptions() returns (numberOfOptions: nat)
      ensures numberOfOptions == |Enabled(orderListOfButtons)|
    {
      numberOfOptions := 0;
      for i := 0 to |orderListOfButtons|
        invariant numberOfOptions == |Enabled(orderListOfButtons[..i])|
      {
        assert orderListOfButtons[..i + 1][..i] == orderListOfButtons[..i];
        if orderListOfButtons[i].enabled {
          numberOfOptions := numberOfOptions + 1;
        }
      }
      assert orderListOfButtons[..|orderListOfButtons|] == orderListOfButtons;
    }

    /** Adds the enabled options to the toolbar in list order, with a divider after each but the last. */
    method AddPopupOptionsToToolbar(showIcons: bool, showCaptions: bool)
      modifies this`toolbarItems
      ensures toolbarItems == old(toolbarItems) +
                ItemsUpTo(orderListOfButtons, |orderListOfButtons|, |Enabled(orderListOfButtons)|,
                          OptionRows(showIcons, showCaptions), Divider(optionDividerSize.x, lineColor))
    {
      var numberOfOptionsRequired := GetNumberOfEnabledOptions();
      var numberOfOptionsAdded := 0;
      var rows := OptionRows(showIcons, showCaptions);
      var divider := Divider(optionDividerSize.x, lineColor);
      var list := orderListOfButtons;
      for i := 0 to |list|
        invariant numberOfOptionsAdded == |Enabled(list[..i])|
        invariant toolbarItems == old(toolbarItems) + ItemsUpTo(list, i, numberOfOptionsRequired, rows, divider)
      {
        ItemsStep(list, i, numberOfOptionsRequired, rows, divider);
        var button := list[i];
        if button.enabled {
          numberOfOptionsAdded := numberOfOptionsAdded + 1;
          toolbarItems := toolbarItems + [OptionItem(button, rows)];
          if numberOfOptionsAdded < numberOfOptionsRequired {
            toolbarItems := toolbarItems + [divider];
          }
        }
      }
    }

    /** Builds the option list, and on first use the toolbar with the popup's maximum size and its options. */
    method CreatePopup()
      modifies this
      ensures hasToolbar
      ensures !old(hasToolbar) ==>
                toolbarMaxSize == maxSize &&
                toolbarItems == old(toolbarItems) +
                  ItemsUpTo(orderListOfButtons, |orderListOfButtons|, |Enabled(orderListOfButtons)|,
                            OptionRows(showIcons, showCaptions), Divider(optionDividerSize.x, lineColor))
      ensures old(hasToolbar) ==> toolbarItems == old(toolbarItems) && toolbarMaxSize == old(toolbarMaxSize)
      ensures orderListOfButtons ==
                SortByPriority(OptionList(cutIconImage, copyIconImage, pasteIconImage, selectIconImage, selectAllIconImage,
                                          clipboardIconImage, cutOptionPriority, copyOptionPriority, pasteOptionPriority,
                                          selectOptionPriority, selectAllOptionPriority, clipboardOptionPriority))
    {
      CreateOrderedListOfPopupOptions();
      if !hasToolbar {
        hasToolbar := true;
        toolbarMaxSize := maxSize;
        AddPopupOptionsToToolbar(showIcons, showCaptions);
      }
    }
  }
}
