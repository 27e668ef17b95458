/**
 * Decimal text of 32-bit integers, as the spin control's text field shows and
 * reads it: `int.ToString()` and `int.TryParse` with the invariant culture.
 */
module Int32Text {
  import opened Wrappers

  const INT32_MIN: int := -0x8000_0000
  const INT32_MAX: int := 0x7FFF_FFFF

  /** C#'s `int`. */
  newtype int32 = x: int | -0x8000_0000 <= x <= 0x7FFF_FFFF

  predicate IsInt32(x: int)
  {
    INT32_MIN <= x <= INT32_MAX
  }

  /** Unchecked 32-bit arithmetic: the two's complement wrap-around of `x`. */
  function Wrap32(x: int): (r: int)
    ensures IsInt32(r)
    ensures IsInt32(x) ==> r == x
    ensures (x - r) % 0x1_0000_0000 == 0
  {
    (x - INT32_MIN) % 0x1_0000_0000 + INT32_MIN
  }

  predicate IsDigit(c: char)
  {
    '0' <= c <= '9'
  }

  /** The white space NumberStyles.Integer allows around a number: U+0009 to U+000D and U+0020. */
  predicate IsWhiteSpace(c: char)
  {
    c == ' ' || '\t' <= c <= '\r'
  }

  predicate AllDigits(s: string)
  {
    forall i :: 0 <= i < |s| ==> IsDigit(s[i])
  }

  /** The number a run of decimal digits denotes (leading zeros allowed). */
  function DigitsValue(s: string): nat
    requires AllDigits(s)
  {
    if |s| == 0 then 0 else DigitsValue(s[..|s| - 1]) * 10 + (s[|s| - 1] as int - '0' as int)
  }

  /** The shortest decimal digits of `n`. */
  function NatToString(n: nat): (r: string)
    ensures |r| > 0 && AllDigits(r)
    ensures |r| > 1 ==> r[0] != '0'
  {
    (if n < 10 then [] else NatToString(n / 10)) + [('0' as int + n % 10) as char]
  }

  /** `int.ToString()`: a minus sign for negative numbers, then the digits of the magnitude. */
  function IntToString(n: int): (r: string)
    ensures |r| > 0 && !IsWhiteSpace(r[0]) && !IsWhiteSpace(r[|r| - 1])
    ensures n < 0 <==> r[0] == '-'
  {
    if n < 0 then "-" + NatToString(-n) else NatToString(n)
  }

  function TrimStart(s: string): (r: string)
    ensures |r| <= |s| && r == s[|s| - |r|..]
    ensures |r| > 0 ==> !IsWhiteSpace(r[0])
  {
    if |s| > 0 && IsWhiteSpace(s[0]) then TrimStart(s[1..]) else s
  }

  function TrimEnd(s: string): (r: string)
    ensures |r| <= |s| && r == s[..|r|]
    ensures |r| > 0 ==> !IsWhiteSpace(r[|r| - 1])
  {
    if |s| > 0 && IsWhiteSpace(s[|s| - 1]) then TrimEnd(s[..|s| - 1]) else s
  }

  /** A trimmed number: an optional sign, then one or more decimal digits whose value fits in 32 bits. */
  function ParseSigned(t: string): (r: Option<int>)
    ensures r.Some? ==> IsInt32(r.value)
  {
    var signed := |t| > 0 && (t[0] == '-' || t[0] == '+');
    var digits := if signed then t[1..] else t;
    if |digits| == 0 || !AllDigits(digits) then None
    else
      var magnitude: int := DigitsValue(digits);
      var n := if signed && t[0] == '-' then -magnitude else magnitude;
      if IsInt32(n) then Some(n) else None
  }

  /** `int.TryParse`: a number with optional white space on either side. */
  function ParseInt32(s: string): (r: Option<int>)
    ensures r.Some? ==> IsInt32(r.value)
  {
    ParseSigned(TrimEnd(TrimStart(s)))
  }

  /** The digits of a number denote that number. */
  lemma {:induction false} NatToStringValue(n: nat)
    ensures DigitsValue(NatToString(n)) == n
  {
    var r := NatToString(n);
    var init := if n < 10 then [] else NatToString(n / 10);
    var last := ('0' as int + n % 10) as char;
    assert r == init + [last];
    assert r[..|r| - 1] == init;
    assert last as int - '0' as int == n % 10;
    if n >= 10 {
      NatToStringValue(n / 10);
      assert DigitsValue(init) == n / 10;
    }
    assert DigitsValue(r) == DigitsValue(init) * 10 + n % 10;
  }

  /** Text that neither starts nor ends with white space is its own trimmed form. */
  lemma TrimKeepsUnpaddedText(s: string)
    requires |s| > 0 && !IsWhiteSpace(s[0]) && !IsWhiteSpace(s[|s| - 1])
    ensures TrimEnd(TrimStart(s)) == s
  {
    assert TrimStart(s) == s;
  }

  lemma ParseSignedOfDigits(d: string)
    requires |d| > 0 && AllDigits(d) && IsInt32(DigitsValue(d))
    ensures ParseSigned(d) == Some(DigitsValue(d) as int)
  {
    assert IsDigit(d[0]);
  }

  lemma ParseSignedOfNegatedDigits(d: string)
    requires |d| > 0 && AllDigits(d) && IsInt32(-(DigitsValue(d) as int))
    ensures ParseSigned("-" + d) == Some(-(DigitsValue(d) as int))
  {
    assert ("-" + d)[1..] == d;
  }

  /** Reading back the text of a 32-bit integer gives that integer. */
  lemma ParseInt32OfIntToString(n: int)
    requires IsInt32(n)
    ensures ParseInt32(IntToString(n)) == Some(n)
  {
    TrimKeepsUnpaddedText(IntToString(n));
    assert ParseInt32(IntToString(n)) == ParseSigned(IntToString(n));
    if n < 0 {
      NegativeIntToStringParses(n);
    } else {
      NatToStringParses(n);
    }
  }

  lemma NatToStringParses(n: nat)
    requires IsInt32(n)
    ensures ParseSigned(IntToString(n)) == Some(n)
  {
    NatToStringValue(n);
    ParseSignedOfDigits(NatToString(n));
  }

  lemma NegativeIntToStringParses(n: int)
    requires IsInt32(n) && n < 0
    ensures ParseSigned(IntToString(n)) == Some(n)
  {
    var m: nat := -n;
    var d := NatToString(m);
    NatToStringValue(m);
    assert DigitsValue(d) == m;
    ParseSignedOfNegatedDigits(d);
    assert IntToString(n) == "-" + d;
  }

  /** Text without a single digit is never a number. */
  lemma ParseInt32NeedsADigit(s: string)
    requires forall i :: 0 <= i < |s| ==> !IsDigit(s[i])
    ensures ParseInt32(s).None?
  {
    var u := TrimStart(s);
    var t := TrimEnd(u);
    assert forall i :: 0 <= i < |u| ==> u[i] == s[|s| - |u| + i];
    assert forall i :: 0 <= i < |t| ==> t[i] == u[i];
    if |t| > 1 {
      assert !IsDigit(t[1]);
      assert t[1..][0] == t[1];
    }
    if |t| > 0 {
      assert !IsDigit(t[0]);
    }
  }
}

/**
 * The spin control: an integer value shown in a text field, kept within a
 * minimum and a maximum, stepped with the up and down keys and re-read from
 * the text when the field loses focus.
 */
module SpinControl {
  import opened Wrappers
  import opened PropertyMap
  import opened Int32Text
  import ViewRegistration

  /** `value` brought into [lo, hi] the way the Value setter does it: first raised to lo, then lowered to hi. */
  function Clamp(value: int, lo: int, hi: int): (r: int)
    ensures r == value || r == lo || r == hi
    ensures r <= hi
    ensures lo <= hi ==> lo <= r <= hi
    ensures lo <= value <= hi ==> r == value
    ensures value < lo <= hi ==> r == lo
    ensures value > hi ==> r == hi
  {
    var raised := if value < lo then lo else value;
    if raised > hi then hi else raised
  }

  /** Clamping a clamped value again changes nothing. */
  lemma ClampIsIdempotent(value: int, lo: int, hi: int)
    ensures Clamp(Clamp(value, lo, hi), lo, hi) == Clamp(value, lo, hi)
  {
  }

  /**
   * The value the spin settles on when its text field loses focus: the
   * number typed if it is one and lies within the range, otherwise the
   * previous value; either way it then goes through the Value setter.
   */
  function ValueAfterFocusLost(text: string, previous: int, lo: int, hi: int): (r: int)
  {
    var typed := ParseInt32(text);
    Clamp(if typed.Some? && lo <= typed.value <= hi then typed.value else previous, lo, hi)
  }

  /** A number within the range is taken as typed. */
  lemma FocusLostTakesAValidNumber(text: string, previous: int, lo: int, hi: int)
    requires ParseInt32(text).Some? && lo <= ParseInt32(text).value <= hi
    ensures ValueAfterFocusLost(text, previous, lo, hi) == ParseInt32(text).value
  {
  }

  /** Text that is not a number, or a number outside the range, restores the previous value. */
  lemma FocusLostRestoresThePreviousValue(text: string, previous: int, lo: int, hi: int)
    requires ParseInt32(text).None? || !(lo <= ParseInt32(text).value <= hi)
    requires lo <= previous <= hi
    ensures ValueAfterFocusLost(text, previous, lo, hi) == previous
  {
  }

  /** Losing focus right after the setter showed a value in range keeps that value. */
  lemma FocusLostKeepsTheShownValue(value: int, previous: int, lo: int, hi: int)
    requires IsInt32(value) && lo <= value <= hi
    ensures ValueAfterFocusLost(IntToString(value), previous, lo, hi) == value
  {
    ParseInt32OfIntToString(value);
  }

  /** The value after a step of `delta` with the up or down key: unchecked addition, then the setter's clamp. */
  function SteppedValue(value: int, delta: int, lo: int, hi: int): int
  {
    Clamp(Wrap32(value + delta), lo, hi)
  }

  /** Without overflow, a step moves the value by the step and stays within the range. */
  lemma StepWithoutOverflow(value: int, delta: int, lo: int, hi: int)
    requires IsInt32(value + delta) && lo <= hi
    ensures SteppedValue(value, delta, lo, hi) == Clamp(value + delta, lo, hi)
    ensures lo <= SteppedValue(value, delta, lo, hi) <= hi
  {
  }

  /** Stepping up from the largest int wraps around first, so the value lands on the minimum. */
  lemma StepUpFromInt32MaxLandsOnTheMinimum(lo: int)
    requires IsInt32(lo)
    ensures SteppedValue(INT32_MAX, 1, lo, INT32_MAX) == lo
  {
    assert Wrap32(INT32_MAX + 1) == INT32_MIN;
  }

  datatype Direction = LEFT | RIGHT | UP | DOWN | PAGE_UP | PAGE_DOWN

  /** The actor keyboard focus moves to. */
  datatype Actor = EmptyActor | SpinTextField | OtherActor(id: nat)

  const ARROW_IMAGE: string := "./images/arrow.png"
  const PLACEHOLDER_TEXT: string := "----"
  const TEXT_BACKGROUND_COLOR: Vector4 := Vector4(0.6, 0.6, 0.6, 1.0)

  class Spin {
    var currentValue: int32
    var minValue: int32
    var maxValue: int32
    var singleStep: int32
    var wrappingEnabled: bool
    var pointSize: int32
    var textColor: Vector4
    var maxTextLength: int32
    var arrowImage: string

    // The owned text field, reduced to what the spin writes to it.
    var text: string
    var placeholderText: string
    var textBackgroundColor: Vector4
    var textFieldPointSize: int
    var textFieldColor: Vector4
    var textFieldMaxLength: int

    /** A new spin before initialisation: every field at its default. */
    constructor()
      ensures currentValue == 0 && minValue == 0 && maxValue == 0 && singleStep == 0
      ensures text == ""
    {
      currentValue := 0;
      minValue := 0;
      maxValue := 0;
      singleStep := 0;
      wrappingEnabled := false;
      pointSize := 0;
      textColor := Vector4(0.0, 0.0, 0.0, 0.0);
      maxTextLength := 0;
      arrowImage := "";
      text := "";
      placeholderText := "";
      textBackgroundColor := Vector4(0.0, 0.0, 0.0, 0.0);
      textFieldPointSize := 0;
      textFieldColor := Vector4(0.0, 0.0, 0.0, 0.0);
      textFieldMaxLength := 0;
    }

    /** Sets the value range, step and text limit defaults and prepares the text field. */
    method OnInitialize()
      modifies this
      ensures currentValue == 0 && minValue == 0 && maxValue == 0 && singleStep == 1 && maxTextLength == 0
      ensures arrowImage == ARROW_IMAGE && placeholderText == PLACEHOLDER_TEXT && textBackgroundColor == TEXT_BACKGROUND_COLOR
      ensures text == old(text) && wrappingEnabled == old(wrappingEnabled) && pointSize == old(pointSize)
      ensures textColor == old(textColor) && textFieldPointSize == old(textFieldPointSize)
      ensures textFieldColor == old(textFieldColor) && textFieldMaxLength == old(textFieldMaxLength)
    {
      arrowImage := ARROW_IMAGE;
      textBackgroundColor := TEXT_BACKGROUND_COLOR;
      currentValue := 0;
      minValue := 0;
      maxValue := 0;
      singleStep := 1;
      maxTextLength := 0;
      placeholderText := PLACEHOLDER_TEXT;
    }

    /** The natural size: 150 by 150, whatever the state. */
    function GetNaturalSize(): (r: Vector3)
      ensures r.x == 150.0 && r.y == 150.0 && r.z == 0.0
    {
      Vector3(150.0, 150.0, 0.0)
    }

    /** The Value setter: clamps into [MinValue, MaxValue] and shows the result in the text field. */
    method SetValue(value: int32)
      modifies this
      ensures currentValue as int == Clamp(value as int, minValue as int, maxValue as int)
      ensures currentValue <= maxValue
      ensures minValue <= maxValue ==> minValue <= currentValue
      ensures text == IntToString(currentValue as int)
      ensures minValue == old(minValue) && maxValue == old(maxValue) && singleStep == old(singleStep)
      ensures wrappingEnabled == old(wrappingEnabled) && pointSize == old(pointSize) && textColor == old(textColor)
      ensures maxTextLength == old(maxTextLength) && arrowImage == old(arrowImage) && placeholderText == old(placeholderText)
      ensures textBackgroundColor == old(textBackgroundColor) && textFieldPointSize == old(textFieldPointSize)
      ensures textFieldColor == old(textFieldColor) && textFieldMaxLength == old(textFieldMaxLength)
    {
      currentValue := value;
      if currentValue < minValue {
        currentValue := minValue;
      }
      if currentValue > maxValue {
        currentValue := maxValue;
      }
      text := IntToString(currentValue as int);
    }

    /** Re-reads the value from the text field when it loses focus. */
    method TextFieldKeyInputFocusLost()
      modifies this
      ensures currentValue as int == ValueAfterFocusLost(old(text), old(currentValue) as int, minValue as int, maxValue as int)
      ensures text == IntToString(currentValue as int)
      ensures minValue == old(minValue) && maxValue == old(maxValue) && singleStep == old(singleStep)
      ensures wrappingEnabled == old(wrappingEnabled) && pointSize == old(pointSize) && textColor == old(textColor)
      ensures maxTextLength == old(maxTextLength) && arrowImage == old(arrowImage) && placeholderText == old(placeholderText)
      ensures textBackgroundColor == old(textBackgroundColor) && textFieldPointSize == old(textFieldPointSize)
      ensures textFieldColor == old(textFieldColor) && textFieldMaxLength == old(textFieldMaxLength)
    {
      var previousValue := currentValue;
      var parsed := ParseInt32(text);
      // TryParse writes its result, or zero, to the value before the checks.
      currentValue := if parsed.Some? then parsed.value as int32 else 0;
      if parsed.Some? {
        if currentValue < minValue || currentValue > maxValue {
          currentValue := previousValue;
        }
      } else {
        currentValue := previousValue;
      }
      SetValue(currentValue);
    }

    /** Up and down step the value and keep focus on the text field; other directions give an empty actor. */
    method GetNextKeyboardFocusableActor(currentFocusedActor: Actor, direction: Direction, loopEnabled: bool) returns (next: Actor)
      modifies this
      ensures direction == UP ==>
                next == SpinTextField &&
                currentValue as int == SteppedValue(old(currentValue) as int, old(singleStep) as int, minValue as int, maxValue as int) &&
                text == IntToString(currentValue as int)
      ensures direction == DOWN ==>
                next == SpinTextField &&
                currentValue as int == SteppedValue(old(currentValue) as int, -(old(singleStep) as int), minValue as int, maxValue as int) &&
                text == IntToString(currentValue as int)
      ensures direction != UP && direction != DOWN ==> next == EmptyActor && currentValue == old(currentValue) && text == old(text)
      ensures minValue == old(minValue) && maxValue == old(maxValue) && singleStep == old(singleStep)
      ensures wrappingEnabled == old(wrappingEnabled) && pointSize == old(pointSize) && textColor == old(textColor)
      ensures maxTextLength == old(maxTextLength) && arrowImage == old(arrowImage) && placeholderText == old(placeholderText)
      ensures textBackgroundColor == old(textBackgroundColor) && textFieldPointSize == old(textFieldPointSize)
      ensures textFieldColor == old(textFieldColor) && textFieldMaxLength == old(textFieldMaxLength)
    {
      if direction == UP {
        SetValue(Wrap32(currentValue as int + singleStep as int) as int32);
        next := SpinTextField;
      } else if direction == DOWN {
        SetValue(Wrap32(currentValue as int - singleStep as int) as int32);
        next := SpinTextField;
      } else {
        next := EmptyActor;
      }
    }

    method SetMinValue(value: int32)
      modifies this
      ensures minValue == value && GetMinValue() == value
      ensures currentValue == old(currentValue) && maxValue == old(maxValue) && singleStep == old(singleStep) && text == old(text)
    {
      minValue := value;
    }

    function GetMinValue(): int32
      reads this
    {
      minValue
    }

    method SetMaxValue(value: int32)
      modifies this
      ensures maxValue == value && GetMaxValue() == value
      ensures currentValue == old(currentValue) && minValue == old(minValue) && singleStep == old(singleStep) && text == old(text)
    {
      maxValue := value;
    }

    function GetMaxValue(): int32
      reads this
    {
      maxValue
    }

    method SetStep(value: int32)
      modifies this
      ensures singleStep == value && GetStep() == value
      ensures currentValue == old(currentValue) && minValue == old(minValue) && maxValue == old(maxValue) && text == old(text)
    {
      singleStep := value;
    }

    function GetStep(): int32
      reads this
    {
      singleStep
    }

    method SetWrappingEnabled(enabled: bool)
      modifies this
      ensures wrappingEnabled == enabled
      ensures currentValue == old(currentValue) && minValue == old(minValue) && maxValue == old(maxValue) && text == old(text)
    {
      wrappingEnabled := enabled;
    }

    /** TextPointSize: stored and passed on to the text field. */
    method SetTextPointSize(size: int32)
      modifies this
      ensures pointSize == size && textFieldPointSize == size as int
      ensures currentValue == old(currentValue) && minValue == old(minValue) && maxValue == old(maxValue) && text == old(text)
    {
      pointSize := size;
      textFieldPointSize := pointSize as int;
    }

    /** TextColor: stored and passed on to the text field. */
    method SetTextColor(color: Vector4)
      modifies this
      ensures textColor == color && textFieldColor == color
      ensures currentValue == old(currentValue) && minValue == old(minValue) && maxValue == old(maxValue) && text == old(text)
    {
      textColor := color;
      textFieldColor := textColor;
    }

    /** MaxTextLength: stored and passed on to the text field. */
    method SetMaxTextLength(length: int32)
      modifies this
      ensures maxTextLength == length && textFieldMaxLength == length as int
      ensures currentValue == old(currentValue) && minValue == old(minValue) && maxValue == old(maxValue) && text == old(text)
    {
      maxTextLength := length;
      textFieldMaxLength := maxTextLength as int;
    }

    /** IndicatorImage: the arrow image URL. */
    method SetIndicatorImage(url: string)
      modifies this
      ensures arrowImage == url
      ensures currentValue == old(currentValue) && minValue == old(minValue) && maxValue == old(maxValue) && text == old(text)
    {
      arrowImage := url;
    }
  }

  /** The spin's public properties as reflection lists them, with their attributes. */
  const SPIN_TYPE: ViewRegistration.ViewType := ViewRegistration.ViewType("Spin", [
    ViewRegistration.PropertyInfo("Value", ViewRegistration.Int32Type, true, [ViewRegistration.ScriptableProperty]),
    ViewRegistration.PropertyInfo("MinValue", ViewRegistration.Int32Type, true, [ViewRegistration.ScriptableProperty]),
    ViewRegistration.PropertyInfo("MaxValue", ViewRegistration.Int32Type, true, [ViewRegistration.ScriptableProperty]),
    ViewRegistration.PropertyInfo("Step", ViewRegistration.Int32Type, true, [ViewRegistration.ScriptableProperty]),
    ViewRegistration.PropertyInfo("WrappingEnabled", ViewRegistration.BooleanType, true, [ViewRegistration.ScriptableProperty]),
    ViewRegistration.PropertyInfo("TextPointSize", ViewRegistration.Int32Type, true, [ViewRegistration.ScriptableProperty]),
    ViewRegistration.PropertyInfo("TextColor", ViewRegistration.ColorType, true, [ViewRegistration.ScriptableProperty]),
    ViewRegistration.PropertyInfo("MaxTextLength", ViewRegistration.Int32Type, true, [ViewRegistration.ScriptableProperty]),
    ViewRegistration.PropertyInfo("SpinText", ViewRegistration.OtherType("TextField"), true, []),
    ViewRegistration.PropertyInfo("IndicatorImage", ViewRegistration.StringType, true, [])])

  /** Registering the spin type registers each of its eight scriptable properties with its DALi type. */
  lemma SpinRegistersItsScriptableProperties()
    ensures forall i :: 0 <= i < 8 ==>
              ViewRegistration.PropertyRegistration("Spin", SPIN_TYPE.properties[i].name,
                ViewRegistration.PropertyTypeOf(SPIN_TYPE.properties[i].propertyType))
              in ViewRegistration.PropertyRegistrations("Spin", SPIN_TYPE.properties)
  {
    var props := SPIN_TYPE.properties;
    ViewRegistration.RegistersExactlyTheReadableScriptableProperties("Spin", props);
    forall i | 0 <= i < 8
      ensures props[i].canRead && ViewRegistration.IsScriptable(props[i])
    {
      assert props[i].attributes[0] == ViewRegistration.ScriptableProperty;
    }
  }

  /** SpinText and IndicatorImage carry no ScriptableProperty attribute and are not registered. */
  lemma SpinDoesNotRegisterUnscriptableProperties()
    ensures forall r :: r in ViewRegistration.PropertyRegistrations("Spin", SPIN_TYPE.properties) ==>
              r.PropertyRegistration? && r.propertyName != "SpinText" && r.propertyName != "IndicatorImage"
  {
    var props := SPIN_TYPE.properties;
    ViewRegistration.RegistersExactlyTheReadableScriptableProperties("Spin", props);
    forall r | r in ViewRegistration.PropertyRegistrations("Spin", props)
      ensures r.PropertyRegistration? && r.propertyName != "SpinText" && r.propertyName != "IndicatorImage"
    {
      var i :| 0 <= i < |props| && props[i].canRead && ViewRegistration.IsScriptable(props[i]) &&
               r == ViewRegistration.PropertyRegistration("Spin", props[i].name,
                      ViewRegistration.PropertyTypeOf(props[i].propertyType));
      ScriptableSpinPropertyName(i);
    }
  }

  /** The spin's scriptable properties are none of SpinText and IndicatorImage. */
  lemma ScriptableSpinPropertyName(i: nat)
    requires i < |SPIN_TYPE.properties| && ViewRegistration.IsScriptable(SPIN_TYPE.properties[i])
    ensures i < 8
    ensures SPIN_TYPE.properties[i].name != "SpinText" && SPIN_TYPE.properties[i].name != "IndicatorImage"
  {
    var props := SPIN_TYPE.properties;
    assert !ViewRegistration.IsScriptable(props[8]) && !ViewRegistration.IsScriptable(props[9]);
    assert props[i].name[0] != 'S' || props[i].name[1] == 't';
    assert props[i].name[0] != 'I';
  }
}
