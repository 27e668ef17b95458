/**
 * The image control renderer: the older, name-keyed counterpart of the image
 * visual. It is initialised from a property map whose fitting and sampling
 * modes are given by name, can be pointed at a new URL or a new image handle,
 * and describes itself back as a property map with the modes written by name.
 */
module ImageRenderer {
  import opened Wrappers
  import opened PropertyMap
  import opened ImageCommon

  // Property names the renderer reads and writes.
  const RENDERER_TYPE := "rendererType"
  const IMAGE_RENDERER := "imageRenderer"
  const IMAGE_URL_NAME := "url"
  const IMAGE_FITTING_MODE := "fittingMode"
  const IMAGE_SAMPLING_MODE := "samplingMode"
  const IMAGE_DESIRED_WIDTH := "desiredWidth"
  const IMAGE_DESIRED_HEIGHT := "desiredHeight"
  const SYNCHRONOUS_LOADING := "synchronousLoading"

  /** The name each fitting mode is written back under. */
  function FittingModeName(m: FittingMode): string
  {
    match m
    case FitHeight => "FIT_HEIGHT"
    case FitWidth => "FIT_WIDTH"
    case ScaleToFill => "SCALE_TO_FILL"
    case ShrinkToFit => "SHRINK_TO_FIT"
  }

  /** The name each sampling mode is written back under. */
  function SamplingModeName(m: SamplingMode): string
  {
    match m
    case Box => "BOX"
    case Nearest => "NEAREST"
    case Linear => "LINEAR"
    case BoxThenLinear => "BOX_THEN_LINEAR"
    case BoxThenNearest => "BOX_THEN_NEAREST"
    case NoFilter => "NO_FILTER"
    case DontCare => "DONT_CARE"
  }

  /**
   * The fitting-mode parse as the source has it: the four names and DEFAULT are recognised,
   * and any other name also yields the default mode, because the check meant to reject it
   * asserts on a string literal, which is never false.
   */
  function ParseFittingModeAsWritten(name: string): FittingMode
  {
    if name == "SHRINK_TO_FIT" then ShrinkToFit
    else if name == "SCALE_TO_FILL" then ScaleToFill
    else if name == "FIT_WIDTH" then FitWidth
    else if name == "FIT_HEIGHT" then FitHeight
    else DEFAULT_FITTING_MODE
  }

  /** The fitting-mode parse as intended: an unknown name is rejected. */
  function ParseFittingMode(name: string): (r: Option<FittingMode>)
    ensures r.Some? ==> r.value == ParseFittingModeAsWritten(name)
    ensures r.Some? ==> FittingModeName(r.value) == name || name == "DEFAULT"
    ensures r.None? <==> name != "DEFAULT" && forall m :: FittingModeName(m) != name
  {
    if name == "SHRINK_TO_FIT" then Some(ShrinkToFit)
    else if name == "SCALE_TO_FILL" then Some(ScaleToFill)
    else if name == "FIT_WIDTH" then Some(FitWidth)
    else if name == "FIT_HEIGHT" then Some(FitHeight)
    else if name == "DEFAULT" then Some(DEFAULT_FITTING_MODE)
    else None
  }

  /** The sampling-mode parse as the source has it: any unknown name yields the default mode. */
  function ParseSamplingModeAsWritten(name: string): SamplingMode
  {
    if name == "BOX" then Box
    else if name == "NEAREST" then Nearest
    else if name == "LINEAR" then Linear
    else if name == "BOX_THEN_NEAREST" then BoxThenNearest
    else if name == "BOX_THEN_LINEAR" then BoxThenLinear
    else if name == "NO_FILTER" then NoFilter
    else if name == "DONT_CARE" then DontCare
    else DEFAULT_SAMPLING_MODE
  }

  /** The sampling-mode parse as intended: an unknown name is rejected. */
  function ParseSamplingMode(name: string): (r: Option<SamplingMode>)
    ensures r.Some? ==> r.value == ParseSamplingModeAsWritten(name)
    ensures r.Some? ==> SamplingModeName(r.value) == name || name == "DEFAULT"
    ensures r.None? <==> name != "DEFAULT" && forall m :: SamplingModeName(m) != name
  {
    if name == "BOX" then Some(Box)
    else if name == "NEAREST" then Some(Nearest)
    else if name == "LINEAR" then Some(Linear)
    else if name == "BOX_THEN_NEAREST" then Some(BoxThenNearest)
    else if name == "BOX_THEN_LINEAR" then Some(BoxThenLinear)
    else if name == "NO_FILTER" then Some(NoFilter)
    else if name == "DONT_CARE" then Some(DontCare)
    else if name == "DEFAULT" then Some(DEFAULT_SAMPLING_MODE)
    else None
  }

  /** Every mode is written under a name that parses back to it. */
  lemma ModeNamesRoundTrip(f: FittingMode, s: SamplingMode)
    ensures ParseFittingMode(FittingModeName(f)) == Some(f)
    ensures ParseSamplingMode(SamplingModeName(s)) == Some(s)
  {
  }

  /** A misspelt mode name is taken as the default mode by the source, where a rejection was meant. */
  lemma UnknownModeNamesAccepted()
    ensures ParseFittingModeAsWritten("FILL") == ShrinkToFit && ParseFittingMode("FILL").None?
    ensures ParseSamplingModeAsWritten("BILINEAR") == Box && ParseSamplingMode("BILINEAR").None?
  {
  }

  /** What the renderer holds, apart from its engine objects. */
  datatype State = State(imageUrl: string, image: Option<Image>, desiredSize: Uint16Pair,
                         fittingMode: FittingMode, samplingMode: SamplingMode, synchronous: bool,
                         nativeImageFlag: bool, nativeShaderCode: string)

  /** A string read from an optional value, "" when the value is not a string. */
  function AsString(v: Value): string
  {
    GetString(v).GetOr("")
  }

  /** The fitting mode after an optional name: kept when absent, rejected when unknown. */
  function FittingSetting(value: Option<Value>, current: FittingMode): (r: Result<FittingMode, string>)
    ensures value.None? ==> r == Ok(current)
  {
    match value
    case None => Ok(current)
    case Some(v) =>
      match ParseFittingMode(AsString(v))
      case Some(f) => Ok(f)
      case None => Err("Unknown fitting mode")
  }

  function SamplingSetting(value: Option<Value>, current: SamplingMode): (r: Result<SamplingMode, string>)
    ensures value.None? ==> r == Ok(current)
  {
    match value
    case None => Ok(current)
    case Some(v) =>
      match ParseSamplingMode(AsString(v))
      case Some(m) => Ok(m)
      case None => Err("Unknown sampling mode")
  }

  /**
   * The settings read only when the map has a URL entry: the URL (a non-empty one releases the
   * held image), both modes and the desired size, which is zero where an entry is missing.
   */
  function ReadSource(s: State, m: Map): (r: Result<State, string>)
    ensures FindKey(m, StringKey(IMAGE_URL_NAME)).None? ==> r == Ok(s)
    ensures r.Ok? && FindKey(m, StringKey(IMAGE_URL_NAME)).Some? ==>
              (FindKey(m, StringKey(IMAGE_FITTING_MODE)).None? ==> r.value.fittingMode == s.fittingMode) &&
              (FindKey(m, StringKey(IMAGE_SAMPLING_MODE)).None? ==> r.value.samplingMode == s.samplingMode) &&
              (FindKey(m, StringKey(IMAGE_DESIRED_WIDTH)).None? ==> r.value.desiredSize.first == 0) &&
              (FindKey(m, StringKey(IMAGE_DESIRED_HEIGHT)).None? ==> r.value.desiredSize.second == 0) &&
              (r.value.imageUrl != "" ==> r.value.image.None?) &&
              (r.value.imageUrl == "" ==> r.value.image == s.image)
    ensures r.Ok? ==> r.value.synchronous == s.synchronous && r.value.nativeImageFlag == s.nativeImageFlag &&
                      r.value.nativeShaderCode == s.nativeShaderCode
  {
    match FindKey(m, StringKey(IMAGE_URL_NAME))
    case None => Ok(s)
    case Some(urlValue) =>
      var url := GetString(urlValue).GetOr(s.imageUrl);
      match (FittingSetting(FindKey(m, StringKey(IMAGE_FITTING_MODE)), s.fittingMode),
             SamplingSetting(FindKey(m, StringKey(IMAGE_SAMPLING_MODE)), s.samplingMode))
      case (Err(e), _) => Err(e)
      case (_, Err(e)) => Err(e)
      case (Ok(fitting), Ok(sampling)) =>
        Ok(s.(imageUrl := url,
              image := if url != "" then None else s.image,
              fittingMode := fitting,
              samplingMode := sampling,
              desiredSize := ImageDimensions(IntSetting(FindKey(m, StringKey(IMAGE_DESIRED_WIDTH))),
                                             IntSetting(FindKey(m, StringKey(IMAGE_DESIRED_HEIGHT))))))
  }

  /** A boolean synchronous entry sets the synchronous bit; any other entry leaves it. */
  function ReadSync(s: State, m: Map): (r: State)
    ensures r.synchronous == match FindKey(m, StringKey(SYNCHRONOUS_LOADING))
                             case Some(BoolValue(b)) => b
                             case _ => s.synchronous
    ensures r.(synchronous := s.synchronous) == s
  {
    match FindKey(m, StringKey(SYNCHRONOUS_LOADING))
    case Some(BoolValue(b)) => s.(synchronous := b)
    case _ => s
  }

  /**
   * The same step as the source computes it: a synchronous entry that is not a boolean sets
   * the bit from the uninitialised local (`indeterminate`).
   */
  function ReadSyncAsWritten(s: State, m: Map, indeterminate: bool): (r: State)
    ensures r.(synchronous := s.synchronous) == s
    ensures FindKey(m, StringKey(SYNCHRONOUS_LOADING)).None? ==> r == s
    ensures match FindKey(m, StringKey(SYNCHRONOUS_LOADING))
            case Some(BoolValue(b)) => r.synchronous == b
            case Some(_) => r.synchronous == indeterminate
            case None => true
  {
    match FindKey(m, StringKey(SYNCHRONOUS_LOADING))
    case None => s
    case Some(BoolValue(b)) => s.(synchronous := b)
    case Some(_) => s.(synchronous := indeterminate)
  }

  /** The two agree unless the entry is present and not a boolean, where the source's local decides. */
  lemma NonBoolSyncEntryReadsIndeterminateLocal(s: State, m: Map, indeterminate: bool)
    ensures (FindKey(m, StringKey(SYNCHRONOUS_LOADING)).None? || FindKey(m, StringKey(SYNCHRONOUS_LOADING)).value.BoolValue?) ==>
              ReadSyncAsWritten(s, m, indeterminate) == ReadSync(s, m)
    ensures FindKey(m, StringKey(SYNCHRONOUS_LOADING)) == Some(StringValue("yes")) && !s.synchronous ==>
              ReadSyncAsWritten(s, m, true).synchronous && !ReadSync(s, m).synchronous
  {
  }

  /** A held native image extends the shader code with its own fragment code. */
  function NativeShader(s: State, composeShader: (string, Image) -> string): (r: State)
    ensures r.(nativeShaderCode := s.nativeShaderCode) == s
    ensures !(s.image.Some? && s.image.value.native) ==> r == s
  {
    if s.image.Some? && s.image.value.native then
      s.(nativeShaderCode := composeShader(s.nativeShaderCode, s.image.value))
    else s
  }

  /**
   * Initialisation from a map: the source settings, then the synchronous bit, then the native
   * shader code. An unknown mode name is an error.
   */
  function Initialize(s: State, m: Map, composeShader: (string, Image) -> string): (r: Result<State, string>)
    ensures r.Err? <==> ReadSource(s, m).Err?
    ensures (FindKey(m, StringKey(IMAGE_URL_NAME)).None? && FindKey(m, StringKey(SYNCHRONOUS_LOADING)).None? &&
             !(s.image.Some? && s.image.value.native)) ==> r == Ok(s)
    ensures r.Ok? ==> r.value.nativeImageFlag == s.nativeImageFlag
  {
    match ReadSource(s, m)
    case Err(e) => Err(e)
    case Ok(afterSource) => Ok(NativeShader(ReadSync(afterSource, m), composeShader))
  }

  /** The entries that describe the image source: URL and desired size, or else the image's own size. */
  function SourceEntries(s: State): Map
  {
    if s.imageUrl != "" then
      [Entry(StringKey(IMAGE_URL_NAME), StringValue(s.imageUrl)),
       Entry(StringKey(IMAGE_DESIRED_WIDTH), IntValue(s.desiredSize.first)),
       Entry(StringKey(IMAGE_DESIRED_HEIGHT), IntValue(s.desiredSize.second))]
    else if s.image.Some? then
      [Entry(StringKey(IMAGE_DESIRED_WIDTH), IntValue(s.image.value.width)),
       Entry(StringKey(IMAGE_DESIRED_HEIGHT), IntValue(s.image.value.height))] +
      (if s.image.value.resourceUrl.Some? then [Entry(StringKey(IMAGE_URL_NAME), StringValue(s.image.value.resourceUrl.value))] else [])
    else []
  }

  /** The renderer's map: its type and synchronous bit, the source, then both modes by name. */
  function PropertyMapOf(s: State): (m: Map)
    ensures |m| == 4 + |SourceEntries(s)|
    ensures m[0] == Entry(StringKey(RENDERER_TYPE), StringValue(IMAGE_RENDERER))
  {
    [Entry(StringKey(RENDERER_TYPE), StringValue(IMAGE_RENDERER)),
     Entry(StringKey(SYNCHRONOUS_LOADING), BoolValue(s.synchronous))] +
    SourceEntries(s) +
    [Entry(StringKey(IMAGE_FITTING_MODE), StringValue(FittingModeName(s.fittingMode))),
     Entry(StringKey(IMAGE_SAMPLING_MODE), StringValue(SamplingModeName(s.samplingMode)))]
  }

  /** Initialising from the map of a renderer with a URL restores its settings; the held image is released. */
  lemma PropertyMapRoundTrip(s: State, composeShader: (string, Image) -> string)
    requires s.imageUrl != ""
    requires s.desiredSize.first < 0x1_0000 && s.desiredSize.second < 0x1_0000
    ensures Initialize(s, PropertyMapOf(s), composeShader) == Ok(s.(image := None))
  {
    var m := PropertyMapOf(s);
    assert m[2].key == StringKey(IMAGE_URL_NAME);
    FindKeyAt(m, StringKey(IMAGE_URL_NAME), 2);
    assert m[3].key == StringKey(IMAGE_DESIRED_WIDTH);
    FindKeyAt(m, StringKey(IMAGE_DESIRED_WIDTH), 3);
    assert m[4].key == StringKey(IMAGE_DESIRED_HEIGHT);
    FindKeyAt(m, StringKey(IMAGE_DESIRED_HEIGHT), 4);
    assert m[5].key == StringKey(IMAGE_FITTING_MODE);
    FindKeyAt(m, StringKey(IMAGE_FITTING_MODE), 5);
    assert m[6].key == StringKey(IMAGE_SAMPLING_MODE);
    FindKeyAt(m, StringKey(IMAGE_SAMPLING_MODE), 6);
    assert m[1].key == StringKey(SYNCHRONOUS_LOADING);
    FindKeyAt(m, StringKey(SYNCHRONOUS_LOADING), 1);
    ModeNamesRoundTrip(s.fittingMode, s.samplingMode);
  }

  class ImageRenderer {
    var imageUrl: string
    var image: Option<Image>
    var desiredSize: Uint16Pair
    var fittingMode: FittingMode
    var samplingMode: SamplingMode
    var synchronous: bool
    var nativeImageFlag: bool
    var nativeShaderCode: string

    function Snapshot(): State
      reads this
    {
      State(imageUrl, image, desiredSize, fittingMode, samplingMode, synchronous, nativeImageFlag, nativeShaderCode)
    }

    /** A new renderer: no URL or image, no desired size, the default modes, not native. */
    constructor ()
      ensures Snapshot() == State("", None, Uint16Pair(0, 0), DEFAULT_FITTING_MODE, DEFAULT_SAMPLING_MODE, false, false, "")
    {
      imageUrl := "";
      image := None;
      desiredSize := Uint16Pair(0, 0);
      fittingMode := DEFAULT_FITTING_MODE;
      samplingMode := DEFAULT_SAMPLING_MODE;
      synchronous := false;
      nativeImageFlag := false;
      nativeShaderCode := "";
    }

    /** Reads the settings from a map; an unknown mode name is an error and the state is then unspecified. */
    method DoInitialize(propertyMap: Map, composeShader: (string, Image) -> string) returns (r: Result<(), string>)
      modifies this
      ensures r.Ok? <==> Initialize(old(Snapshot()), propertyMap, composeShader).Ok?
      ensures r.Ok? ==> Snapshot() == Initialize(old(Snapshot()), propertyMap, composeShader).value
    {
      r := ReadSourceSettings(propertyMap);
      if r.Err? {
        return;
      }
      var syncLoading := FindKey(propertyMap, StringKey(SYNCHRONOUS_LOADING));
      if syncLoading.Some? && syncLoading.value.BoolValue? {
        synchronous := syncLoading.value.b;
      }
      if image.Some? && image.value.native {
        nativeShaderCode := composeShader(nativeShaderCode, image.value);
      }
    }

    /** The part of initialisation guarded by the URL entry. */
    method ReadSourceSettings(propertyMap: Map) returns (r: Result<(), string>)
      modifies this
      ensures r.Ok? <==> ReadSource(old(Snapshot()), propertyMap).Ok?
      ensures r.Ok? ==> Snapshot() == ReadSource(old(Snapshot()), propertyMap).value
    {
      var imageUrlValue := FindKey(propertyMap, StringKey(IMAGE_URL_NAME));
      if imageUrlValue.None? {
        return Ok(());
      }
      var fitting := FittingSetting(FindKey(propertyMap, StringKey(IMAGE_FITTING_MODE)), fittingMode);
      if fitting.Err? {
        return Err(fitting.error);
      }
      var sampling := SamplingSetting(FindKey(propertyMap, StringKey(IMAGE_SAMPLING_MODE)), samplingMode);
      if sampling.Err? {
        return Err(sampling.error);
      }
      if imageUrlValue.value.StringValue? {
        imageUrl := imageUrlValue.value.s;
      }
      if imageUrl != "" {
        image := None;
      }
      fittingMode := fitting.value;
      samplingMode := sampling.value;
      var desiredWidth := IntSetting(FindKey(propertyMap, StringKey(IMAGE_DESIRED_WIDTH)));
      var desiredHeight := IntSetting(FindKey(propertyMap, StringKey(IMAGE_DESIRED_HEIGHT)));
      desiredSize := ImageDimensions(desiredWidth, desiredHeight);
      r := Ok(());
    }

    /** Points the renderer at a URL: nothing happens when the URL is the same. */
    method SetImageUrl(url: string, size: Uint16Pair, fitting: FittingMode, sampling: SamplingMode)
      modifies this
      ensures old(imageUrl) == url ==> Snapshot() == old(Snapshot())
      ensures old(imageUrl) != url ==>
                Snapshot() == old(Snapshot()).(imageUrl := url, desiredSize := size, fittingMode := fitting,
                                               samplingMode := sampling, image := None)
    {
      if imageUrl != url {
        imageUrl := url;
        desiredSize := size;
        fittingMode := fitting;
        samplingMode := sampling;
        image := None;
      }
    }

    /**
     * Points the renderer at an image handle: nothing happens for the same handle. Otherwise the
     * native flag follows the new image (a newly native image gets its shader code, a non-native
     * one clears it), and the URL, desired size and modes go back to their defaults.
     */
    method SetImage(newImage: Option<Image>, composeShader: (string, Image) -> string)
      modifies this
      ensures old(image) == newImage ==> Snapshot() == old(Snapshot())
      ensures old(image) != newImage ==>
                image == newImage && imageUrl == "" && desiredSize == Uint16Pair(0, 0) &&
                fittingMode == DEFAULT_FITTING_MODE && samplingMode == DEFAULT_SAMPLING_MODE &&
                synchronous == old(synchronous) &&
                (nativeImageFlag <==> newImage.Some? && newImage.value.native) &&
                (!nativeImageFlag ==> nativeShaderCode == "") &&
                (nativeImageFlag && !old(nativeImageFlag) ==> nativeShaderCode == composeShader(old(nativeShaderCode), newImage.value)) &&
                (nativeImageFlag && old(nativeImageFlag) ==> nativeShaderCode == old(nativeShaderCode))
    {
      if image != newImage {
        var newNative := newImage.Some? && newImage.value.native;
        if newNative && !nativeImageFlag {
          nativeShaderCode := composeShader(nativeShaderCode, newImage.value);
        }
        if newNative {
          nativeImageFlag := true;
        } else {
          nativeShaderCode := "";
          nativeImageFlag := false;
        }
        image := newImage;
        imageUrl := "";
        desiredSize := Uint16Pair(0, 0);
        fittingMode := DEFAULT_FITTING_MODE;
        samplingMode := DEFAULT_SAMPLING_MODE;
      }
    }

    method GetNaturalSize(imageSizeOf: string -> Uint16Pair) returns (naturalSize: Vector2)
      ensures naturalSize == NaturalSize(image, desiredSize, imageUrl, imageSizeOf)
    {
      if image.Some? {
        naturalSize := Vector2(image.value.width as real, image.value.height as real);
        return;
      } else if desiredSize.first > 0 && desiredSize.second > 0 {
        naturalSize := Vector2(desiredSize.first as real, desiredSize.second as real);
        return;
      } else if imageUrl != "" {
        var dimensions := imageSizeOf(imageUrl);
        naturalSize := Vector2(dimensions.first as real, dimensions.second as real);
        return;
      }
      naturalSize := VECTOR2_ZERO;
    }

    method DoCreatePropertyMap() returns (m: Map)
      ensures m == PropertyMapOf(Snapshot())
    {
      m := [Entry(StringKey(RENDERER_TYPE), StringValue(IMAGE_RENDERER))];
      m := m + [Entry(StringKey(SYNCHRONOUS_LOADING), BoolValue(synchronous))];
      if imageUrl != "" {
        m := m + [Entry(StringKey(IMAGE_URL_NAME), StringValue(imageUrl))];
        m := m + [Entry(StringKey(IMAGE_DESIRED_WIDTH), IntValue(desiredSize.first))];
        m := m + [Entry(StringKey(IMAGE_DESIRED_HEIGHT), IntValue(desiredSize.second))];
      } else if image.Some? {
        m := m + [Entry(StringKey(IMAGE_DESIRED_WIDTH), IntValue(image.value.width))];
        m := m + [Entry(StringKey(IMAGE_DESIRED_HEIGHT), IntValue(image.value.height))];
        if image.value.resourceUrl.Some? {
          m := m + [Entry(StringKey(IMAGE_URL_NAME), StringValue(image.value.resourceUrl.value))];
        }
      }
      m := m + [Entry(StringKey(IMAGE_FITTING_MODE), StringValue(FittingModeName(fittingMode)))];
      m := m + [Entry(StringKey(IMAGE_SAMPLING_MODE), StringValue(SamplingModeName(samplingMode)))];
    }
  }
}
