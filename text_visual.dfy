/**
 * The text visual: a visual that shows a text through its own text controller.
 * It accepts property maps keyed by index or by name, converts name keys to
 * indices, applies each entry to the controller, and describes itself back as
 * a property map.
 *
 * The visual's controller is represented by the settings the visual reads and
 * writes (`TextSettings`), not by the text controller model.
 */
module TextVisual {
  import opened Wrappers
  import opened PropertyMap
  import opened Layout
  import VisualBase

  /** The key value of a name that is not a property. */
  const INVALID_KEY: int := -1

  // The text visual's property indices: TYPE is shared by all visuals, the rest are its own.
  const TYPE: int := VisualBase.TYPE_INDEX
  const TEXT: int := VisualBase.VISUAL_PROPERTY_START_INDEX
  const FONT_FAMILY: int := TEXT + 1
  const FONT_STYLE: int := TEXT + 2
  const POINT_SIZE: int := TEXT + 3
  const MULTI_LINE: int := TEXT + 4
  const HORIZONTAL_ALIGNMENT: int := TEXT + 5
  const VERTICAL_ALIGNMENT: int := TEXT + 6
  const TEXT_COLOR: int := TEXT + 7
  const ENABLE_MARKUP: int := TEXT + 8

  /** The index a property name stands for, or INVALID_KEY for any other string. */
  function StringKeyToIndexKey(stringKey: string): (index: int)
    ensures index == INVALID_KEY <==> PropertyIndexName(index).None?
    ensures index != INVALID_KEY ==> PropertyIndexName(index) == Some(stringKey)
  {
    if stringKey == "visualType" then TYPE
    else if stringKey == "text" then TEXT
    else if stringKey == "fontFamily" then FONT_FAMILY
    else if stringKey == "fontStyle" then FONT_STYLE
    else if stringKey == "pointSize" then POINT_SIZE
    else if stringKey == "multiLine" then MULTI_LINE
    else if stringKey == "horizontalAlignment" then HORIZONTAL_ALIGNMENT
    else if stringKey == "verticalAlignment" then VERTICAL_ALIGNMENT
    else if stringKey == "textColor" then TEXT_COLOR
    else if stringKey == "enableMarkup" then ENABLE_MARKUP
    else INVALID_KEY
  }

  /** The reverse table: the name of each of the ten properties. */
  function PropertyIndexName(index: int): Option<string>
  {
    if index == TYPE then Some("visualType")
    else if index == TEXT then Some("text")
    else if index == FONT_FAMILY then Some("fontFamily")
    else if index == FONT_STYLE then Some("fontStyle")
    else if index == POINT_SIZE then Some("pointSize")
    else if index == MULTI_LINE then Some("multiLine")
    else if index == HORIZONTAL_ALIGNMENT then Some("horizontalAlignment")
    else if index == VERTICAL_ALIGNMENT then Some("verticalAlignment")
    else if index == TEXT_COLOR then Some("textColor")
    else if index == ENABLE_MARKUP then Some("enableMarkup")
    else None
  }

  /** Every property's name maps back to that property's index. */
  lemma NameToIndexRoundTrip(index: int)
    requires PropertyIndexName(index).Some?
    ensures StringKeyToIndexKey(PropertyIndexName(index).value) == index
  {
  }

  /** The index an entry's key stands for: index keys as they are, name keys through the table. */
  function KeyIndex(key: Key): int
  {
    match key
    case IndexKey(i) => i
    case StringKey(s) => StringKeyToIndexKey(s)
  }

  /** The map with every name key replaced by its index, values and order kept. */
  function ConvertKeys(m: Map): (r: Map)
    ensures |r| == |m|
    ensures forall i :: 0 <= i < |m| ==> r[i] == Entry(IndexKey(KeyIndex(m[i].key)), m[i].value)
  {
    if |m| == 0 then [] else ConvertKeys(m[..|m| - 1]) + [Entry(IndexKey(KeyIndex(m[|m| - 1].key)), m[|m| - 1].value)]
  }

  /** Converts a map's name keys to index keys in one pass. */
  method ConvertStringKeysToIndexKeys(propertyMap: Map) returns (outMap: Map)
    ensures |outMap| == |propertyMap|
    ensures forall i :: 0 <= i < |propertyMap| ==>
              outMap[i].value == propertyMap[i].value &&
              (propertyMap[i].key.IndexKey? ==> outMap[i].key == propertyMap[i].key) &&
              (propertyMap[i].key.StringKey? ==> outMap[i].key == IndexKey(StringKeyToIndexKey(propertyMap[i].key.name)))
    ensures outMap == ConvertKeys(propertyMap)
  {
    outMap := [];
    var index := 0;
    while index < |propertyMap|
      invariant index <= |propertyMap| && |outMap| == index
      invariant forall i :: 0 <= i < index ==> outMap[i] == Entry(IndexKey(KeyIndex(propertyMap[i].key)), propertyMap[i].value)
    {
      var keyValue := propertyMap[index];
      var indexKey := if keyValue.key.IndexKey? then keyValue.key.index else INVALID_KEY;
      if keyValue.key.StringKey? {
        indexKey := StringKeyToIndexKey(keyValue.key.name);
      }
      outMap := outMap + [Entry(IndexKey(indexKey), keyValue.value)];
      index := index + 1;
    }
  }

  /** The alignment names, in both directions. */
  function HorizontalAlignmentName(a: HorizontalAlignment): string
  {
    match a
    case HorizontalBegin => "BEGIN"
    case HorizontalCenter => "CENTER"
    case HorizontalEnd => "END"
  }

  function ParseHorizontalAlignment(name: string): (r: Option<HorizontalAlignment>)
    ensures r.Some? ==> HorizontalAlignmentName(r.value) == name
    ensures r.None? ==> forall a :: HorizontalAlignmentName(a) != name
  {
    if name == "BEGIN" then Some(HorizontalBegin)
    else if name == "CENTER" then Some(HorizontalCenter)
    else if name == "END" then Some(HorizontalEnd)
    else None
  }

  function VerticalAlignmentName(a: VerticalAlignment): string
  {
    match a
    case VerticalTop => "TOP"
    case VerticalCenter => "CENTER"
    case VerticalBottom => "BOTTOM"
  }

  function ParseVerticalAlignment(name: string): (r: Option<VerticalAlignment>)
    ensures r.Some? ==> VerticalAlignmentName(r.value) == name
    ensures r.None? ==> forall a :: VerticalAlignmentName(a) != name
  {
    if name == "TOP" then Some(VerticalTop)
    else if name == "CENTER" then Some(VerticalCenter)
    else if name == "BOTTOM" then Some(VerticalBottom)
    else None
  }

  /** Every alignment's name parses back to it. */
  lemma AlignmentNamesRoundTrip(h: HorizontalAlignment, v: VerticalAlignment)
    ensures ParseHorizontalAlignment(HorizontalAlignmentName(h)) == Some(h)
    ensures ParseVerticalAlignment(VerticalAlignmentName(v)) == Some(v)
  {
  }

  /** What the visual keeps in its controller. */
  datatype TextSettings = TextSettings(text: string, fontFamily: string, fontStyle: Value, pointSize: real,
                                       multiLine: bool, horizontalAlignment: HorizontalAlignment,
                                       verticalAlignment: VerticalAlignment, textColor: Vector4,
                                       markupEnabled: bool, elideEnabled: bool, cursorWidth: nat)

  // Typed reads that yield the type's default on a mismatch, as `Value::Get<T>()` does.
  function AsBool(v: Value): bool { GetBool(v).GetOr(false) }
  function AsString(v: Value): string { GetString(v).GetOr("") }
  function AsReal(v: Value): real { GetReal(v).GetOr(0.0) }
  function AsVector4(v: Value): Vector4 { GetVector4(v).GetOr(Vector4(0.0, 0.0, 0.0, 0.0)) }

  /** One property applied to the controller; an unknown index changes nothing, and so does an
      alignment name that is not in the table. */
  function ApplyProperty(s: TextSettings, index: int, v: Value): (r: TextSettings)
    ensures index == HORIZONTAL_ALIGNMENT && ParseHorizontalAlignment(AsString(v)).None? ==> r == s
    ensures index == VERTICAL_ALIGNMENT && ParseVerticalAlignment(AsString(v)).None? ==> r == s
    ensures PropertyIndexName(index).None? ==> r == s
    ensures r.elideEnabled == s.elideEnabled && r.cursorWidth == s.cursorWidth
  {
    if index == ENABLE_MARKUP then s.(markupEnabled := AsBool(v))
    else if index == TEXT then s.(text := AsString(v))
    else if index == FONT_FAMILY then s.(fontFamily := AsString(v))
    else if index == FONT_STYLE then s.(fontStyle := v)
    else if index == POINT_SIZE then
      (if s.pointSize != AsReal(v) then s.(pointSize := AsReal(v)) else s)
    else if index == MULTI_LINE then s.(multiLine := AsBool(v))
    else if index == HORIZONTAL_ALIGNMENT then
      (match ParseHorizontalAlignment(AsString(v))
       case Some(a) => s.(horizontalAlignment := a)
       case None => s)
    else if index == VERTICAL_ALIGNMENT then
      (match ParseVerticalAlignment(AsString(v))
       case Some(a) => s.(verticalAlignment := a)
       case None => s)
    else if index == TEXT_COLOR then
      (if s.textColor != AsVector4(v) then s.(textColor := AsVector4(v)) else s)
    else s
  }

  /** All entries of a map applied in order. */
  function ApplyAll(s: TextSettings, m: Map): TextSettings
  {
    if |m| == 0 then s
    else
      var last := m[|m| - 1];
      ApplyProperty(ApplyAll(s, m[..|m| - 1]), KeyIndex(last.key), last.value)
  }

  /** Converting name keys first makes no difference to what a map sets. */
  lemma {:induction false} ConvertedMapSetsTheSame(s: TextSettings, m: Map)
    ensures ApplyAll(s, ConvertKeys(m)) == ApplyAll(s, m)
  {
    if |m| > 0 {
      var c := ConvertKeys(m);
      assert c[..|c| - 1] == ConvertKeys(m[..|m| - 1]);
      ConvertedMapSetsTheSame(s, m[..|m| - 1]);
    }
  }

  /** The full map: TYPE = TEXT first, then every setting. */
  function TextPropertyMap(s: TextSettings): (m: Map)
    ensures |m| == 10 && m[0] == Entry(IndexKey(TYPE), IntValue(VisualBase.VisualTypeCode(VisualBase.Text)))
  {
    [Entry(IndexKey(TYPE), IntValue(VisualBase.VisualTypeCode(VisualBase.Text))),
     Entry(IndexKey(TEXT), StringValue(s.text)),
     Entry(IndexKey(FONT_FAMILY), StringValue(s.fontFamily)),
     Entry(IndexKey(FONT_STYLE), s.fontStyle),
     Entry(IndexKey(POINT_SIZE), RealValue(s.pointSize)),
     Entry(IndexKey(MULTI_LINE), BoolValue(s.multiLine)),
     Entry(IndexKey(HORIZONTAL_ALIGNMENT), StringValue(HorizontalAlignmentName(s.horizontalAlignment))),
     Entry(IndexKey(VERTICAL_ALIGNMENT), StringValue(VerticalAlignmentName(s.verticalAlignment))),
     Entry(IndexKey(TEXT_COLOR), Vector4Value(s.textColor)),
     Entry(IndexKey(ENABLE_MARKUP), BoolValue(s.markupEnabled))]
  }

  /** The instance map: TYPE = TEXT and the text only. */
  function InstancePropertyMap(s: TextSettings): (m: Map)
    ensures |m| == 2
    ensures FindKey(m, IndexKey(TYPE)) == Some(IntValue(VisualBase.VisualTypeCode(VisualBase.Text)))
    ensures FindKey(m, IndexKey(TEXT)) == Some(StringValue(s.text))
    ensures forall key :: key != IndexKey(TYPE) && key != IndexKey(TEXT) ==> FindKey(m, key).None?
  {
    var m := [Entry(IndexKey(TYPE), IntValue(VisualBase.VisualTypeCode(VisualBase.Text))),
              Entry(IndexKey(TEXT), StringValue(s.text))];
    assert m[1..][1..] == [];
    assert forall key :: FindKey(m[1..][1..], key).None?;
    assert forall key :: key != IndexKey(TEXT) ==> FindKey(m[1..], key) == FindKey(m[1..][1..], key);
    m
  }

  /** The instance map reads back the type and the text the full map holds. */
  lemma InstanceMapAgreesWithFullMap(s: TextSettings)
    ensures FindKey(InstancePropertyMap(s), IndexKey(TYPE)) == FindKey(TextPropertyMap(s), IndexKey(TYPE))
    ensures FindKey(InstancePropertyMap(s), IndexKey(TEXT)) == FindKey(TextPropertyMap(s), IndexKey(TEXT))
  {
    var m := TextPropertyMap(s);
    assert m[1..][0].key == IndexKey(TEXT);
  }

  /** A value the visual can take for a property: of the property's type, and for alignments one of the names. */
  predicate Accepted(index: int, v: Value)
  {
    if index == ENABLE_MARKUP || index == MULTI_LINE then v.BoolValue?
    else if index == TEXT || index == FONT_FAMILY then v.StringValue?
    else if index == FONT_STYLE then true
    else if index == POINT_SIZE then v.RealValue?
    else if index == HORIZONTAL_ALIGNMENT then v.StringValue? && ParseHorizontalAlignment(v.s).Some?
    else if index == VERTICAL_ALIGNMENT then v.StringValue? && ParseVerticalAlignment(v.s).Some?
    else if index == TEXT_COLOR then v.Vector4Value?
    else false
  }

  /** A value set through a property reads back from the visual's map under that property. */
  lemma SetThenReadBack(s: TextSettings, index: int, v: Value)
    requires Accepted(index, v)
    ensures FindKey(TextPropertyMap(ApplyProperty(s, index, v)), IndexKey(index)) == Some(v)
  {
    var m := TextPropertyMap(ApplyProperty(s, index, v));
    var i := index - TEXT + 1;
    assert m[i].key == IndexKey(index);
    FindKeyAt(m, IndexKey(index), i);
  }

  class TextVisual {
    const base: VisualBase.Visual
    var settings: TextSettings

    /** A new visual with a new controller holding `defaults`. */
    constructor (defaults: TextSettings)
      ensures fresh(base) && settings == defaults
    {
      base := new VisualBase.Visual();
      settings := defaults;
    }

    method DoSetProperty(index: int, propertyValue: Value)
      modifies this`settings
      ensures settings == ApplyProperty(old(settings), index, propertyValue)
    {
      if index == ENABLE_MARKUP {
        settings := settings.(markupEnabled := AsBool(propertyValue));
      } else if index == TEXT {
        settings := settings.(text := AsString(propertyValue));
      } else if index == FONT_FAMILY {
        settings := settings.(fontFamily := AsString(propertyValue));
      } else if index == FONT_STYLE {
        settings := settings.(fontStyle := propertyValue);
      } else if index == POINT_SIZE {
        var pointSize := AsReal(propertyValue);
        if settings.pointSize != pointSize {
          settings := settings.(pointSize := pointSize);
        }
      } else if index == MULTI_LINE {
        settings := settings.(multiLine := AsBool(propertyValue));
      } else if index == HORIZONTAL_ALIGNMENT {
        var alignment := ParseHorizontalAlignment(AsString(propertyValue));
        if alignment.Some? {
          settings := settings.(horizontalAlignment := alignment.value);
        }
      } else if index == VERTICAL_ALIGNMENT {
        var alignment := ParseVerticalAlignment(AsString(propertyValue));
        if alignment.Some? {
          settings := settings.(verticalAlignment := alignment.value);
        }
      } else if index == TEXT_COLOR {
        var textColor := AsVector4(propertyValue);
        if settings.textColor != textColor {
          settings := settings.(textColor := textColor);
        }
      }
    }

    /** Applies every entry in order, then always enables elision and sets the cursor width to 0. */
    method DoSetProperties(propertyMap: Map)
      modifies this`settings
      ensures settings == ApplyAll(old(settings), propertyMap).(elideEnabled := true, cursorWidth := 0)
      ensures settings.elideEnabled && settings.cursorWidth == 0
    {
      var index := 0;
      while index < |propertyMap|
        invariant index <= |propertyMap|
        invariant settings == ApplyAll(old(settings), propertyMap[..index])
      {
        var keyValue := propertyMap[index];
        var indexKey := if keyValue.key.IndexKey? then keyValue.key.index else INVALID_KEY;
        if keyValue.key.StringKey? {
          indexKey := StringKeyToIndexKey(keyValue.key.name);
        }
        assert propertyMap[..index + 1][..index] == propertyMap[..index];
        DoSetProperty(indexKey, keyValue.value);
        index := index + 1;
      }
      assert propertyMap[..index] == propertyMap;
      settings := settings.(elideEnabled := true);
      settings := settings.(cursorWidth := 0);
    }

    method DoCreatePropertyMap() returns (m: Map)
      ensures m == TextPropertyMap(settings)
    {
      m := [];
      m := m + [Entry(IndexKey(TYPE), IntValue(VisualBase.VisualTypeCode(VisualBase.Text)))];
      m := m + [Entry(IndexKey(TEXT), StringValue(settings.text))];
      m := m + [Entry(IndexKey(FONT_FAMILY), StringValue(settings.fontFamily))];
      m := m + [Entry(IndexKey(FONT_STYLE), settings.fontStyle)];
      m := m + [Entry(IndexKey(POINT_SIZE), RealValue(settings.pointSize))];
      m := m + [Entry(IndexKey(MULTI_LINE), BoolValue(settings.multiLine))];
      m := m + [Entry(IndexKey(HORIZONTAL_ALIGNMENT), StringValue(HorizontalAlignmentName(settings.horizontalAlignment)))];
      m := m + [Entry(IndexKey(VERTICAL_ALIGNMENT), StringValue(VerticalAlignmentName(settings.verticalAlignment)))];
      m := m + [Entry(IndexKey(TEXT_COLOR), Vector4Value(settings.textColor))];
      m := m + [Entry(IndexKey(ENABLE_MARKUP), BoolValue(settings.markupEnabled))];
    }

    method DoCreateInstancePropertyMap() returns (m: Map)
      ensures m == InstancePropertyMap(settings)
    {
      m := [];
      m := m + [Entry(IndexKey(TYPE), IntValue(VisualBase.VisualTypeCode(VisualBase.Text)))];
      m := m + [Entry(IndexKey(TEXT), StringValue(settings.text))];
    }
  }
}
