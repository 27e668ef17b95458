/**
 * The image visual: shows an image given by URL or by image handle. It reads
 * its loading and sampling settings from a property map, decides whether its
 * renderer may be shared through the factory cache (never for remote URLs or a
 * custom shader), reports a natural size, and describes itself as a property map.
 */
module ImageVisual {
  import opened Wrappers
  import opened PropertyMap
  import opened ImageCommon
  import VisualBase

  // The image visual's property indices, following the visual's own start index.
  const URL: int := VisualBase.VISUAL_PROPERTY_START_INDEX
  const FITTING_MODE: int := URL + 1
  const SAMPLING_MODE: int := URL + 2
  const DESIRED_WIDTH: int := URL + 3
  const DESIRED_HEIGHT: int := URL + 4
  const SYNCHRONOUS_LOADING: int := URL + 5
  const PIXEL_AREA: int := URL + 6
  const WRAP_MODE_U: int := URL + 7
  const WRAP_MODE_V: int := URL + 8

  // The names the same properties may be given by.
  const IMAGE_FITTING_MODE := "fittingMode"
  const IMAGE_SAMPLING_MODE := "samplingMode"
  const IMAGE_DESIRED_WIDTH := "desiredWidth"
  const IMAGE_DESIRED_HEIGHT := "desiredHeight"
  const IMAGE_WRAP_MODE_U := "wrapModeU"
  const IMAGE_WRAP_MODE_V := "wrapModeV"
  const SYNCHRONOUS_LOADING_NAME := "synchronousLoading"
  const PIXEL_AREA_UNIFORM_NAME := "pixelArea"
  const WRAP_MODE_UNIFORM_NAME := "wrapMode"
  const ATLAS_RECT_UNIFORM_NAME := "uAtlasRect"

  const HTTP_URL := "http://"
  const HTTPS_URL := "https://"

  /** A name-to-code table for an enumeration. */
  type EnumTable = seq<(string, int)>

  const FITTING_MODE_TABLE: EnumTable :=
    [("SHRINK_TO_FIT", 0), ("SCALE_TO_FILL", 1), ("FIT_WIDTH", 2), ("FIT_HEIGHT", 3), ("DEFAULT", 0)]
  const SAMPLING_MODE_TABLE: EnumTable :=
    [("BOX", 0), ("NEAREST", 1), ("LINEAR", 2), ("BOX_THEN_NEAREST", 3), ("BOX_THEN_LINEAR", 4),
     ("NO_FILTER", 5), ("DONT_CARE", 6)]
  const WRAP_MODE_TABLE: EnumTable :=
    [("DEFAULT", WRAP_DEFAULT), ("CLAMP_TO_EDGE", WRAP_CLAMP_TO_EDGE), ("REPEAT", WRAP_REPEAT),
     ("MIRRORED_REPEAT", WRAP_MIRRORED_REPEAT)]

  /** The code of the first table entry with the name. */
  function TableLookup(table: EnumTable, name: string): Option<int>
  {
    if |table| == 0 then None
    else if table[0].0 == name then Some(table[0].1)
    else TableLookup(table[1..], name)
  }

  /** Reading an enumeration from a value: an integer is taken as the code, a string is looked up. */
  function GetEnumerationProperty(v: Value, table: EnumTable): (r: Option<int>)
    ensures v.IntValue? ==> r == Some(v.i)
    ensures v.StringValue? ==> r == TableLookup(table, v.s)
    ensures !v.IntValue? && !v.StringValue? ==> r.None?
  {
    match v
    case IntValue(i) => Some(i)
    case StringValue(s) => TableLookup(table, s)
    case _ => None
  }

  /** An enumeration setting after reading an optional property: kept when absent or unreadable. */
  function EnumSetting(value: Option<Value>, table: EnumTable, current: int): (r: int)
    ensures value.None? ==> r == current
    ensures value.Some? && value.value.IntValue? ==> r == value.value.i
  {
    match value
    case None => current
    case Some(v) => GetEnumerationProperty(v, table).GetOr(current)
  }

  /**
   * The same setting as the source computes it: when the value is present but not readable,
   * the setting becomes whatever the uninitialised local held (`indeterminate`).
   */
  function EnumSettingAsWritten(value: Option<Value>, table: EnumTable, current: int, indeterminate: int): (r: int)
    ensures value.None? ==> r == current
  {
    match value
    case None => current
    case Some(v) => GetEnumerationProperty(v, table).GetOr(indeterminate)
  }

  /** An unknown fitting-mode name sets the mode to an arbitrary code in the source; the model keeps the mode. */
  lemma UnknownFittingNameSetsIndeterminateMode()
    ensures EnumSettingAsWritten(Some(StringValue("FILL")), FITTING_MODE_TABLE, 1, 42) == 42
    ensures EnumSetting(Some(StringValue("FILL")), FITTING_MODE_TABLE, 1) == 1
  {
    assert TableLookup(FITTING_MODE_TABLE, "FILL").None?;
  }

  /** The synchronous-loading bit after reading an optional property: set or cleared by a boolean, kept otherwise. */
  function SyncSetting(value: Option<Value>, current: bool): (r: bool)
    ensures value.Some? && value.value.BoolValue? ==> r == value.value.b
    ensures !(value.Some? && value.value.BoolValue?) ==> r == current
  {
    match value
    case Some(BoolValue(b)) => b
    case _ => current
  }

  /**
   * The same bit as the source computes it: a present entry that is not a boolean leaves the
   * uninitialised local to decide (`indeterminate`).
   */
  function SyncSettingAsWritten(value: Option<Value>, current: bool, indeterminate: bool): (r: bool)
    ensures value.None? ==> r == current
    ensures value.Some? && value.value.BoolValue? ==> r == value.value.b
    ensures value.Some? && !value.value.BoolValue? ==> r == indeterminate
  {
    match value
    case None => current
    case Some(BoolValue(b)) => b
    case Some(_) => indeterminate
  }

  /** The two agree on an absent or boolean entry; a string entry lets the source's local turn loading on. */
  lemma NonBoolSyncEntryReadsIndeterminateLocal(value: Option<Value>, current: bool, indeterminate: bool)
    ensures (value.None? || value.value.BoolValue?) ==>
              SyncSettingAsWritten(value, current, indeterminate) == SyncSetting(value, current)
    ensures SyncSettingAsWritten(Some(StringValue("yes")), false, true) && !SyncSetting(Some(StringValue("yes")), false)
  {
  }

  /** The pixel area after reading an optional property: kept unless the value is a four-component vector. */
  function PixelAreaSetting(value: Option<Value>, current: Vector4): Vector4
  {
    match value
    case Some(Vector4Value(a)) => a
    case _ => current
  }

  /** What the visual holds, apart from its renderer. */
  datatype Settings = Settings(imageUrl: string, image: Option<Image>, desiredSize: Uint16Pair,
                               fittingMode: int, samplingMode: int, wrapModeU: int, wrapModeV: int,
                               pixelArea: Vector4, synchronous: bool)

  /** The settings after reading a property map. The URL and image are not read from the map. */
  function SetProperties(s: Settings, m: Map): (r: Settings)
    ensures r.imageUrl == s.imageUrl && r.image == s.image
    ensures Find(m, DESIRED_WIDTH, IMAGE_DESIRED_WIDTH).None? ==> r.desiredSize.first == 0
    ensures Find(m, DESIRED_HEIGHT, IMAGE_DESIRED_HEIGHT).None? ==> r.desiredSize.second == 0
    ensures Find(m, FITTING_MODE, IMAGE_FITTING_MODE).None? ==> r.fittingMode == s.fittingMode
    ensures Find(m, SAMPLING_MODE, IMAGE_SAMPLING_MODE).None? ==> r.samplingMode == s.samplingMode
  {
    s.(fittingMode := EnumSetting(Find(m, FITTING_MODE, IMAGE_FITTING_MODE), FITTING_MODE_TABLE, s.fittingMode),
       samplingMode := EnumSetting(Find(m, SAMPLING_MODE, IMAGE_SAMPLING_MODE), SAMPLING_MODE_TABLE, s.samplingMode),
       pixelArea := PixelAreaSetting(Find(m, PIXEL_AREA, PIXEL_AREA_UNIFORM_NAME), s.pixelArea),
       wrapModeU := EnumSetting(Find(m, WRAP_MODE_U, IMAGE_WRAP_MODE_U), WRAP_MODE_TABLE, s.wrapModeU),
       wrapModeV := EnumSetting(Find(m, WRAP_MODE_V, IMAGE_WRAP_MODE_V), WRAP_MODE_TABLE, s.wrapModeV),
       desiredSize := ImageDimensions(IntSetting(Find(m, DESIRED_WIDTH, IMAGE_DESIRED_WIDTH)),
                                      IntSetting(Find(m, DESIRED_HEIGHT, IMAGE_DESIRED_HEIGHT))),
       synchronous := SyncSetting(Find(m, SYNCHRONOUS_LOADING, SYNCHRONOUS_LOADING_NAME), s.synchronous))
  }

  /** The entries that describe the image source: URL and desired size, or else the image's own size. */
  function SourceEntries(s: Settings): Map
  {
    if s.imageUrl != "" then
      [Entry(IndexKey(URL), StringValue(s.imageUrl)),
       Entry(IndexKey(DESIRED_WIDTH), IntValue(s.desiredSize.first)),
       Entry(IndexKey(DESIRED_HEIGHT), IntValue(s.desiredSize.second))]
    else if s.image.Some? then
      [Entry(IndexKey(DESIRED_WIDTH), IntValue(s.image.value.width)),
       Entry(IndexKey(DESIRED_HEIGHT), IntValue(s.image.value.height))] +
      (if s.image.value.resourceUrl.Some? then [Entry(IndexKey(URL), StringValue(s.image.value.resourceUrl.value))] else [])
    else []
  }

  /** The visual's property map: TYPE = IMAGE and the synchronous flag, the source, then the five sampling settings. */
  function PropertyMapOf(s: Settings): (m: Map)
    ensures |m| == 7 + |SourceEntries(s)|
    ensures m[0] == Entry(IndexKey(VisualBase.TYPE_INDEX), IntValue(VisualBase.VisualTypeCode(VisualBase.Image)))
  {
    [Entry(IndexKey(VisualBase.TYPE_INDEX), IntValue(VisualBase.VisualTypeCode(VisualBase.Image))),
     Entry(StringKey(SYNCHRONOUS_LOADING_NAME), BoolValue(s.synchronous))] +
    SourceEntries(s) +
    [Entry(IndexKey(FITTING_MODE), IntValue(s.fittingMode)),
     Entry(IndexKey(SAMPLING_MODE), IntValue(s.samplingMode)),
     Entry(IndexKey(PIXEL_AREA), Vector4Value(s.pixelArea)),
     Entry(IndexKey(WRAP_MODE_U), IntValue(s.wrapModeU)),
     Entry(IndexKey(WRAP_MODE_V), IntValue(s.wrapModeV))]
  }

  /** Reading back the map of a visual with a URL restores every setting it read. */
  lemma PropertyMapRoundTrip(s: Settings)
    requires s.imageUrl != ""
    requires s.desiredSize.first < 0x1_0000 && s.desiredSize.second < 0x1_0000
    ensures SetProperties(s, PropertyMapOf(s)) == s
  {
    var m := PropertyMapOf(s);
    assert m[3].key == IndexKey(DESIRED_WIDTH);
    FindKeyAt(m, IndexKey(DESIRED_WIDTH), 3);
    assert m[4].key == IndexKey(DESIRED_HEIGHT);
    FindKeyAt(m, IndexKey(DESIRED_HEIGHT), 4);
    assert m[5].key == IndexKey(FITTING_MODE);
    FindKeyAt(m, IndexKey(FITTING_MODE), 5);
    assert m[6].key == IndexKey(SAMPLING_MODE);
    FindKeyAt(m, IndexKey(SAMPLING_MODE), 6);
    assert m[7].key == IndexKey(PIXEL_AREA);
    FindKeyAt(m, IndexKey(PIXEL_AREA), 7);
    assert m[8].key == IndexKey(WRAP_MODE_U);
    FindKeyAt(m, IndexKey(WRAP_MODE_U), 8);
    assert m[9].key == IndexKey(WRAP_MODE_V);
    FindKeyAt(m, IndexKey(WRAP_MODE_V), 9);
    FindKeyIsFirstMatch(m, IndexKey(SYNCHRONOUS_LOADING));
    assert m[1].key == StringKey(SYNCHRONOUS_LOADING_NAME);
    FindKeyAt(m, StringKey(SYNCHRONOUS_LOADING_NAME), 1);
  }

  /** ASCII lower-casing, as a case-insensitive comparison applies it. */
  function ToLower(c: char): char
  {
    if 'A' <= c <= 'Z' then (c as int - 'A' as int + 'a' as int) as char else c
  }

  function LowerAscii(s: string): (r: string)
    ensures |r| == |s| && forall i :: 0 <= i < |s| ==> r[i] == ToLower(s[i])
  {
    seq(|s|, i requires 0 <= i < |s| => ToLower(s[i]))
  }

  /** Compares the first |prefix| characters ignoring case; a shorter string never matches. */
  predicate StartsWithIgnoringCase(s: string, prefix: string)
  {
    if |prefix| == 0 then true
    else |s| > 0 && ToLower(s[0]) == ToLower(prefix[0]) && StartsWithIgnoringCase(s[1..], prefix[1..])
  }

  /** The character-by-character comparison is equality of the lower-cased prefix. */
  lemma {:induction false} StartsWithIgnoringCaseIsLowerPrefix(s: string, prefix: string)
    ensures StartsWithIgnoringCase(s, prefix) <==> |prefix| <= |s| && LowerAscii(s[..|prefix|]) == LowerAscii(prefix)
  {
    if |prefix| > 0 && |s| > 0 {
      StartsWithIgnoringCaseIsLowerPrefix(s[1..], prefix[1..]);
      if |prefix| <= |s| {
        assert s[1..][..|prefix| - 1] == s[..|prefix|][1..];
        var a, b := LowerAscii(s[..|prefix|]), LowerAscii(prefix);
        assert a == [a[0]] + a[1..] && b == [b[0]] + b[1..];
        assert a[1..] == LowerAscii(s[1..][..|prefix| - 1]);
        assert b[1..] == LowerAscii(prefix[1..]);
      }
    }
  }

  /** A URL is remote when it starts with "http://" or "https://" in any letter case. */
  predicate IsRemoteUrl(url: string)
  {
    StartsWithIgnoringCase(url, HTTP_URL) || StartsWithIgnoringCase(url, HTTPS_URL)
  }

  lemma RemoteUrlExamples()
    ensures IsRemoteUrl("HTTPS://a") && IsRemoteUrl("Http://a")
    ensures !IsRemoteUrl("http:/") && !IsRemoteUrl("file://a")
  {
    StartsWithIgnoringCaseIsLowerPrefix("HTTPS://a", HTTPS_URL);
    StartsWithIgnoringCaseIsLowerPrefix("Http://a", HTTP_URL);
  }

  /** Wrap modes up to clamp-to-edge need no wrap uniform. */
  predicate DefaultWrapMode(wrapModeU: int, wrapModeV: int)
  {
    wrapModeU <= WRAP_CLAMP_TO_EDGE && wrapModeV <= WRAP_CLAMP_TO_EDGE
  }

  /** A renderer may be shared through the cache only with default wrap modes, the default transform and the full pixel area. */
  predicate Cacheable(wrapModeU: int, wrapModeV: int, transform: VisualBase.Transform, pixelArea: Vector4)
  {
    DefaultWrapMode(wrapModeU, wrapModeV) && transform == VisualBase.DEFAULT_TRANSFORM && pixelArea == FULL_TEXTURE_RECT
  }

  function Clamp(x: real, lo: real, hi: real): (r: real)
    requires lo <= hi
    ensures lo <= r <= hi
    ensures lo <= x <= hi ==> r == x
  {
    if x < lo then lo else if x > hi then hi else x
  }

  /** The wrap uniform: each mode less clamp-to-edge, clamped to [0, 2]. */
  function WrapModeUniform(wrapModeU: int, wrapModeV: int): (w: Vector2)
    ensures 0.0 <= w.x <= 2.0 && 0.0 <= w.y <= 2.0
    ensures WRAP_CLAMP_TO_EDGE <= wrapModeU <= WRAP_MIRRORED_REPEAT ==> w.x == (wrapModeU - WRAP_CLAMP_TO_EDGE) as real
    ensures WRAP_CLAMP_TO_EDGE <= wrapModeV <= WRAP_MIRRORED_REPEAT ==> w.y == (wrapModeV - WRAP_CLAMP_TO_EDGE) as real
  {
    Vector2(Clamp((wrapModeU - WRAP_CLAMP_TO_EDGE) as real, 0.0, 2.0), Clamp((wrapModeV - WRAP_CLAMP_TO_EDGE) as real, 0.0, 2.0))
  }

  /** A wrap mode beyond clamp-to-edge always shows in the uniform. */
  lemma NonDefaultWrapModeShows(wrapModeU: int, wrapModeV: int)
    requires !DefaultWrapMode(wrapModeU, wrapModeV)
    ensures WrapModeUniform(wrapModeU, wrapModeV) != VECTOR2_ZERO
  {
  }

  /** The uniforms a newly made renderer gets: the atlas rectangle when atlased, plus the wrap uniform for custom wrap modes. */
  function NewRendererUniforms(atlasRect: Option<Vector4>, wrapModeU: int, wrapModeV: int): map<string, Value>
  {
    match atlasRect
    case None => map[]
    case Some(rect) =>
      if DefaultWrapMode(wrapModeU, wrapModeV) then map[ATLAS_RECT_UNIFORM_NAME := Vector4Value(rect)]
      else map[ATLAS_RECT_UNIFORM_NAME := Vector4Value(rect), WRAP_MODE_UNIFORM_NAME := Vector2Value(WrapModeUniform(wrapModeU, wrapModeV))]
  }

  /** The factory's renderer cache, shared by visuals of the same URL. */
  class FactoryCache {
    var renderers: map<string, VisualBase.Renderer>

    constructor ()
      ensures renderers == map[]
    {
      renderers := map[];
    }

    method GetRenderer(url: string) returns (r: VisualBase.Renderer?)
      ensures url in renderers ==> r == renderers[url]
      ensures url !in renderers ==> r == null
    {
      r := if url in renderers then renderers[url] else null;
    }

    method SaveRenderer(url: string, r: VisualBase.Renderer)
      modifies this
      ensures renderers == old(renderers)[url := r]
    {
      renderers := renderers[url := r];
    }

    /**
     * Drops the renderer cached for a URL once no visual holds it any more; `inUse` says
     * whether another handle to it remains. Reports whether an entry was dropped.
     */
    method CleanRendererCache(url: string, inUse: bool) returns (cleaned: bool)
      modifies this
      ensures cleaned <==> url in old(renderers) && !inUse
      ensures renderers == if cleaned then old(renderers) - {url} else old(renderers)
    {
      cleaned := url in renderers && !inUse;
      if cleaned {
        renderers := renderers - {url};
      }
    }
  }

  class ImageVisual {
    const base: VisualBase.Visual
    var imageUrl: string
    var image: Option<Image>
    var desiredSize: Uint16Pair
    var fittingMode: int
    var samplingMode: int
    var wrapModeU: int
    var wrapModeV: int
    var pixelArea: Vector4
    var placementActor: VisualBase.Actor?
    /** The URLs loaded synchronously, in order. */
    var synchronousLoads: seq<string>

    function Snapshot(): Settings
      reads this, base
    {
      Settings(imageUrl, image, desiredSize, fittingMode, samplingMode, wrapModeU, wrapModeV, pixelArea,
               VisualBase.IsSynchronousResourceLoading in base.flags)
    }

    /** A visual for a URL: the given size and modes, default wrap modes and the full pixel area. */
    constructor (url: string, size: Uint16Pair, fitting: FittingMode, sampling: SamplingMode)
      ensures fresh(base) && base.flags == {} && base.renderer == null && base.customShader == null
      ensures Snapshot() == Settings(url, None, size, FittingModeCode(fitting), SamplingModeCode(sampling),
                                     WRAP_DEFAULT, WRAP_DEFAULT, FULL_TEXTURE_RECT, false)
      ensures placementActor == null && synchronousLoads == []
    {
      base := new VisualBase.Visual();
      imageUrl := url;
      image := None;
      desiredSize := size;
      fittingMode := FittingModeCode(fitting);
      samplingMode := SamplingModeCode(sampling);
      wrapModeU := WRAP_DEFAULT;
      wrapModeV := WRAP_DEFAULT;
      pixelArea := FULL_TEXTURE_RECT;
      placementActor := null;
      synchronousLoads := [];
    }

    /** A visual for an image handle: no URL, no desired size and the default modes. */
    constructor FromImage(img: Image)
      ensures fresh(base) && base.flags == {} && base.renderer == null && base.customShader == null
      ensures Snapshot() == Settings("", Some(img), Uint16Pair(0, 0), FittingModeCode(DEFAULT_FITTING_MODE),
                                     SamplingModeCode(DEFAULT_SAMPLING_MODE), WRAP_DEFAULT, WRAP_DEFAULT,
                                     FULL_TEXTURE_RECT, false)
      ensures placementActor == null && synchronousLoads == []
    {
      base := new VisualBase.Visual();
      imageUrl := "";
      image := Some(img);
      desiredSize := Uint16Pair(0, 0);
      fittingMode := FittingModeCode(DEFAULT_FITTING_MODE);
      samplingMode := SamplingModeCode(DEFAULT_SAMPLING_MODE);
      wrapModeU := WRAP_DEFAULT;
      wrapModeV := WRAP_DEFAULT;
      pixelArea := FULL_TEXTURE_RECT;
      placementActor := null;
      synchronousLoads := [];
    }

    /** Reads the settings from a map; turning synchronous loading on with a URL loads it at once. */
    method DoSetProperties(propertyMap: Map)
      modifies this, base`flags
      ensures Snapshot() == SetProperties(old(Snapshot()), propertyMap)
      ensures base.flags - {VisualBase.IsSynchronousResourceLoading} == old(base.flags) - {VisualBase.IsSynchronousResourceLoading}
      ensures synchronousLoads ==
                if Find(propertyMap, SYNCHRONOUS_LOADING, SYNCHRONOUS_LOADING_NAME) == Some(BoolValue(true)) && imageUrl != ""
                then old(synchronousLoads) + [imageUrl] else old(synchronousLoads)
      ensures placementActor == old(placementActor)
    {
      ReadSamplingSettings(propertyMap);
      var desiredWidth := IntSetting(Find(propertyMap, DESIRED_WIDTH, IMAGE_DESIRED_WIDTH));
      var desiredHeight := IntSetting(Find(propertyMap, DESIRED_HEIGHT, IMAGE_DESIRED_HEIGHT));
      desiredSize := ImageDimensions(desiredWidth, desiredHeight);

      var syncLoading := Find(propertyMap, SYNCHRONOUS_LOADING, SYNCHRONOUS_LOADING_NAME);
      if syncLoading.Some? && syncLoading.value.BoolValue? {
        if syncLoading.value.b {
          base.flags := base.flags + {VisualBase.IsSynchronousResourceLoading};
          if |imageUrl| > 0 {
            synchronousLoads := synchronousLoads + [imageUrl];
          }
        } else {
          base.flags := base.flags - {VisualBase.IsSynchronousResourceLoading};
        }
      }
    }

    /** The fitting, sampling and wrap modes and the pixel area, each kept when absent or unreadable. */
    method ReadSamplingSettings(propertyMap: Map)
      modifies this`fittingMode, this`samplingMode, this`pixelArea, this`wrapModeU, this`wrapModeV
      ensures fittingMode == EnumSetting(Find(propertyMap, FITTING_MODE, IMAGE_FITTING_MODE), FITTING_MODE_TABLE, old(fittingMode))
      ensures samplingMode == EnumSetting(Find(propertyMap, SAMPLING_MODE, IMAGE_SAMPLING_MODE), SAMPLING_MODE_TABLE, old(samplingMode))
      ensures pixelArea == PixelAreaSetting(Find(propertyMap, PIXEL_AREA, PIXEL_AREA_UNIFORM_NAME), old(pixelArea))
      ensures wrapModeU == EnumSetting(Find(propertyMap, WRAP_MODE_U, IMAGE_WRAP_MODE_U), WRAP_MODE_TABLE, old(wrapModeU))
      ensures wrapModeV == EnumSetting(Find(propertyMap, WRAP_MODE_V, IMAGE_WRAP_MODE_V), WRAP_MODE_TABLE, old(wrapModeV))
    {
      var fittingValue := Find(propertyMap, FITTING_MODE, IMAGE_FITTING_MODE);
      fittingMode := EnumSetting(fittingValue, FITTING_MODE_TABLE, fittingMode);
      var samplingValue := Find(propertyMap, SAMPLING_MODE, IMAGE_SAMPLING_MODE);
      samplingMode := EnumSetting(samplingValue, SAMPLING_MODE_TABLE, samplingMode);
      var pixelAreaValue := Find(propertyMap, PIXEL_AREA, PIXEL_AREA_UNIFORM_NAME);
      pixelArea := PixelAreaSetting(pixelAreaValue, pixelArea);
      var wrapModeValueU := Find(propertyMap, WRAP_MODE_U, IMAGE_WRAP_MODE_U);
      wrapModeU := EnumSetting(wrapModeValueU, WRAP_MODE_TABLE, wrapModeU);
      var wrapModeValueV := Find(propertyMap, WRAP_MODE_V, IMAGE_WRAP_MODE_V);
      wrapModeV := EnumSetting(wrapModeValueV, WRAP_MODE_TABLE, wrapModeV);
    }

    method GetNaturalSize(imageSizeOf: string -> Uint16Pair) returns (naturalSize: Vector2)
      ensures naturalSize == NaturalSize(image, desiredSize, imageUrl, imageSizeOf)
    {
      if image.Some? {
        naturalSize := Vector2(image.value.width as real, image.value.height as real);
        return;
      } else if desiredSize.first > 0 && desiredSize.second > 0 {
        naturalSize := Vector2(desiredSize.first as real, desiredSize.second as real);
        return;
      } else if imageUrl != "" {
        var dimensions := imageSizeOf(imageUrl);
        naturalSize := Vector2(dimensions.first as real, dimensions.second as real);
        return;
      }
      naturalSize := VECTOR2_ZERO;
    }

    /**
     * Makes the renderer for a URL. A local URL without a custom shader may take a cached
     * renderer when the settings are cacheable; otherwise a new renderer is made, atlased when
     * `atlasRect` holds the rectangle the atlas gave, and saved to the cache when cacheable.
     * Remote URLs and custom shaders never use the cache or the atlas.
     */
    method InitializeRenderer(url: string, cache: FactoryCache, atlasRect: Option<Vector4>)
      modifies this`imageUrl, base`renderer, base`flags, cache
      ensures imageUrl == url
      ensures base.renderer != null
      ensures base.flags - {VisualBase.IsFromCache, VisualBase.IsAtlasingApplied} ==
              old(base.flags) - {VisualBase.IsFromCache, VisualBase.IsAtlasingApplied}
      ensures var local := base.customShader == null && !IsRemoteUrl(url);
              var cacheable := Cacheable(wrapModeU, wrapModeV, base.transform, pixelArea);
              (VisualBase.IsFromCache in base.flags <==> local && cacheable) &&
              (local && cacheable && url in old(cache.renderers) ==>
                 base.renderer == old(cache.renderers)[url] && VisualBase.IsAtlasingApplied !in base.flags &&
                 cache.renderers == old(cache.renderers)) &&
              (!(local && cacheable && url in old(cache.renderers)) ==>
                 fresh(base.renderer) &&
                 (VisualBase.IsAtlasingApplied in base.flags <==> local && atlasRect.Some?) &&
                 base.renderer.properties == NewRendererUniforms(if local then atlasRect else None, wrapModeU, wrapModeV) &&
                 cache.renderers == if local && cacheable then old(cache.renderers)[url := base.renderer] else old(cache.renderers))
    {
      base.renderer := null;
      imageUrl := url;
      base.flags := base.flags - {VisualBase.IsAtlasingApplied};

      if base.customShader == null && !StartsWithIgnoringCase(url, HTTP_URL) && !StartsWithIgnoringCase(url, HTTPS_URL) {
        var defaultWrapMode := wrapModeU <= WRAP_CLAMP_TO_EDGE && wrapModeV <= WRAP_CLAMP_TO_EDGE;
        var defaultTransform := base.transform == VisualBase.DEFAULT_TRANSFORM;
        var cacheable := defaultWrapMode && defaultTransform && pixelArea == FULL_TEXTURE_RECT;

        base.flags := base.flags - {VisualBase.IsFromCache};
        if cacheable {
          base.renderer := cache.GetRenderer(url);
          base.flags := base.flags + {VisualBase.IsFromCache};
        }

        if base.renderer == null {
          var renderer := new VisualBase.Renderer();
          if atlasRect.Some? {
            base.flags := base.flags + {VisualBase.IsAtlasingApplied};
            renderer.properties := renderer.properties[ATLAS_RECT_UNIFORM_NAME := Vector4Value(atlasRect.value)];
            if !defaultWrapMode {
              var wrapMode := WrapModeUniform(wrapModeU, wrapModeV);
              renderer.properties := renderer.properties[WRAP_MODE_UNIFORM_NAME := Vector2Value(wrapMode)];
            }
          }
          base.renderer := renderer;
          if cacheable {
            cache.SaveRenderer(url, renderer);
          }
        }
      } else {
        base.flags := base.flags - {VisualBase.IsFromCache};
        base.renderer := new VisualBase.Renderer();
      }
    }

    /** Describes the visual as a property map. */
    method DoCreatePropertyMap() returns (m: Map)
      ensures m == PropertyMapOf(Snapshot())
    {
      m := [];
      m := m + [Entry(IndexKey(VisualBase.TYPE_INDEX), IntValue(VisualBase.VisualTypeCode(VisualBase.Image)))];
      var sync := VisualBase.IsSynchronousResourceLoading in base.flags;
      m := m + [Entry(StringKey(SYNCHRONOUS_LOADING_NAME), BoolValue(sync))];
      if imageUrl != "" {
        m := m + [Entry(IndexKey(URL), StringValue(imageUrl))];
        m := m + [Entry(IndexKey(DESIRED_WIDTH), IntValue(desiredSize.first))];
        m := m + [Entry(IndexKey(DESIRED_HEIGHT), IntValue(desiredSize.second))];
      } else if image.Some? {
        m := m + [Entry(IndexKey(DESIRED_WIDTH), IntValue(image.value.width))];
        m := m + [Entry(IndexKey(DESIRED_HEIGHT), IntValue(image.value.height))];
        if image.value.resourceUrl.Some? {
          m := m + [Entry(IndexKey(URL), StringValue(image.value.resourceUrl.value))];
        }
      }
      m := m + [Entry(IndexKey(FITTING_MODE), IntValue(fittingMode))];
      m := m + [Entry(IndexKey(SAMPLING_MODE), IntValue(samplingMode))];
      m := m + [Entry(IndexKey(PIXEL_AREA), Vector4Value(pixelArea))];
      m := m + [Entry(IndexKey(WRAP_MODE_U), IntValue(wrapModeU))];
      m := m + [Entry(IndexKey(WRAP_MODE_V), IntValue(wrapModeV))];
    }

    /**
     * The visual's own off-stage step: the renderer leaves the actor; a URL visual drops its
     * image and, when its renderer came from the factory cache, has the cache clean the URL's
     * entry; the renderer and the placement actor are reset. `inUse` says whether another
     * visual still holds the cached renderer.
     */
    method DoSetOffStage(actor: VisualBase.Actor, cache: FactoryCache, inUse: bool)
      modifies this`image, this`placementActor, base`renderer, actor, cache
      ensures actor.renderers == if old(base.renderer) == null then old(actor.renderers) else old(actor.renderers) - {old(base.renderer)}
      ensures base.renderer == null && placementActor == null
      ensures imageUrl != "" ==> image.None?
      ensures imageUrl == "" ==> image == old(image)
      ensures cache.renderers ==
                if imageUrl != "" && VisualBase.IsFromCache in base.flags && imageUrl in old(cache.renderers) && !inUse
                then old(cache.renderers) - {imageUrl} else old(cache.renderers)
    {
      actor.RemoveRenderer(base.renderer);
      if imageUrl != "" {
        CleanCache(imageUrl, cache, inUse);
        image := None;
      }
      base.renderer := null;
      placementActor := null;
    }

    /** A renderer taken from the factory cache is released there; any other renderer is not the cache's. */
    method CleanCache(url: string, cache: FactoryCache, inUse: bool)
      modifies base`renderer, cache
      ensures base.renderer == if VisualBase.IsFromCache in base.flags then null else old(base.renderer)
      ensures cache.renderers ==
                if VisualBase.IsFromCache in base.flags && url in old(cache.renderers) && !inUse
                then old(cache.renderers) - {url} else old(cache.renderers)
    {
      if VisualBase.IsFromCache in base.flags {
        base.renderer := null;
        var cleaned := cache.CleanRendererCache(url, inUse);
      }
    }
  }
}
