/**
 * What the image visual and the image renderer share: 16-bit image dimensions,
 * the image handle they may hold, the fitting, sampling and wrap modes with
 * their numeric codes and names, and the natural-size rule.
 */
module ImageCommon {
  import opened Wrappers
  import opened PropertyMap

  /** A pair of unsigned 16-bit values, as image dimensions and stretch ranges store them. */
  datatype Uint16Pair = Uint16Pair(first: nat, second: nat)

  /** Truncation of an integer to 16 bits, as the conversion into a 16-bit pair does. */
  function U16(x: int): (r: nat)
    ensures r < 0x1_0000
    ensures 0 <= x < 0x1_0000 ==> r == x
  {
    x % 0x1_0000
  }

  /** Image dimensions built from two integers: each is truncated to 16 bits. */
  function ImageDimensions(width: int, height: int): (d: Uint16Pair)
    ensures d.first < 0x1_0000 && d.second < 0x1_0000
    ensures 0 <= width < 0x1_0000 && 0 <= height < 0x1_0000 ==> d == Uint16Pair(width, height)
  {
    Uint16Pair(U16(width), U16(height))
  }

  /**
   * An image handle: `id` stands for the handle's identity, the size is the image's own,
   * `resourceUrl` is present for a resource image, and `native` marks a native image.
   */
  datatype Image = Image(id: nat, width: nat, height: nat, resourceUrl: Option<string>, native: bool)

  /** The four fitting modes; the default one is SHRINK_TO_FIT. */
  datatype FittingMode = ShrinkToFit | ScaleToFill | FitWidth | FitHeight

  const DEFAULT_FITTING_MODE: FittingMode := ShrinkToFit

  /** The seven sampling modes; the default one is BOX. */
  datatype SamplingMode = Box | Nearest | Linear | BoxThenNearest | BoxThenLinear | NoFilter | DontCare

  const DEFAULT_SAMPLING_MODE: SamplingMode := Box

  function FittingModeCode(m: FittingMode): (code: int)
    ensures 0 <= code < 4
  {
    match m
    case ShrinkToFit => 0
    case ScaleToFill => 1
    case FitWidth => 2
    case FitHeight => 3
  }

  function SamplingModeCode(m: SamplingMode): (code: int)
    ensures 0 <= code < 7
  {
    match m
    case Box => 0
    case Nearest => 1
    case Linear => 2
    case BoxThenNearest => 3
    case BoxThenLinear => 4
    case NoFilter => 5
    case DontCare => 6
  }

  // The wrap modes by code: the default, clamp to edge, repeat and mirrored repeat.
  const WRAP_DEFAULT: int := 0
  const WRAP_CLAMP_TO_EDGE: int := 1
  const WRAP_REPEAT: int := 2
  const WRAP_MIRRORED_REPEAT: int := 3

  /** The full texture rectangle (x, y, width, height). */
  const FULL_TEXTURE_RECT := Vector4(0.0, 0.0, 1.0, 1.0)

  /** An integer setting read from an optional property, 0 when absent or not an integer. */
  function IntSetting(value: Option<Value>): (r: int)
    ensures value.None? ==> r == 0
    ensures value.Some? && value.value.IntValue? ==> r == value.value.i
    ensures value.Some? && !value.value.IntValue? ==> r == 0
  {
    match value
    case Some(IntValue(i)) => i
    case _ => 0
  }

  /**
   * The natural size of an image holder: the held image's size, else the desired size when
   * both of its components are positive, else the size of the image at the URL, else zero.
   */
  function NaturalSize(image: Option<Image>, desiredSize: Uint16Pair, imageUrl: string,
                       imageSizeOf: string -> Uint16Pair): (size: Vector2)
    ensures image.Some? ==> size == Vector2(image.value.width as real, image.value.height as real)
    ensures image.None? && desiredSize.first > 0 && desiredSize.second > 0 ==>
              size == Vector2(desiredSize.first as real, desiredSize.second as real)
    ensures image.None? && !(desiredSize.first > 0 && desiredSize.second > 0) && imageUrl != "" ==>
              size == Vector2(imageSizeOf(imageUrl).first as real, imageSizeOf(imageUrl).second as real)
    ensures image.None? && !(desiredSize.first > 0 && desiredSize.second > 0) && imageUrl == "" ==>
              size == VECTOR2_ZERO
  {
    if image.Some? then Vector2(image.value.width as real, image.value.height as real)
    else if desiredSize.first > 0 && desiredSize.second > 0 then Vector2(desiredSize.first as real, desiredSize.second as real)
    else if imageUrl != "" then Vector2(imageSizeOf(imageUrl).first as real, imageSizeOf(imageUrl).second as real)
    else VECTOR2_ZERO
  }
}
