/**
 * The n-patch loader: an append-only cache of decoded n-patch images keyed by
 * URL. Identifiers handed out are positions in the cache plus one, so 0 means
 * "not loaded" and every successful identifier is at least 1.
 */
module NPatchLoader {
  import opened Wrappers
  import opened ImageCommon

  /** The identifier that no cache entry ever has. */
  const UNINITIALIZED_ID: nat := 0

  /** What a nine-patch decode yields: the cropped size and the stretch ranges found in the border. */
  datatype NinePatchInfo = NinePatchInfo(croppedWidth: nat, croppedHeight: nat,
                                         stretchX: seq<Uint16Pair>, stretchY: seq<Uint16Pair>)

  /** A plain image load yields only its size. */
  datatype PixelInfo = PixelInfo(width: nat, height: nat)

  /** A border given in pixels from each edge. */
  datatype Border = Border(left: int, right: int, bottom: int, top: int)

  const NO_BORDER := Border(0, 0, 0, 0)

  /** One cache entry. */
  datatype Data = Data(hash: nat, url: string, croppedWidth: nat, croppedHeight: nat,
                       stretchPixelsX: seq<Uint16Pair>, stretchPixelsY: seq<Uint16Pair>)

  /** Index of the first entry whose URL is `url`, if any. */
  function FirstMatch(cache: seq<Data>, url: string): (r: Option<nat>)
    ensures r.Some? ==> r.value < |cache| && cache[r.value].url == url
    ensures r.Some? ==> forall j :: 0 <= j < r.value ==> cache[j].url != url
    ensures r.None? ==> forall j :: 0 <= j < |cache| ==> cache[j].url != url
  {
    if |cache| == 0 then None
    else if cache[0].url == url then Some(0)
    else match FirstMatch(cache[1..], url)
      case None => None
      case Some(k) => Some(k + 1)
  }

  /** The entry a bordered (non nine-patch) image gets: one stretch range per axis, inside the border. */
  function BorderedData(hash: nat, url: string, pixels: PixelInfo, border: Border): (d: Data)
    ensures d.url == url && d.hash == hash
    ensures d.croppedWidth == pixels.width && d.croppedHeight == pixels.height
    ensures |d.stretchPixelsX| == 1 && |d.stretchPixelsY| == 1
    ensures 0 <= border.left <= pixels.width - border.right < 0x1_0000 ==>
              d.stretchPixelsX[0] == Uint16Pair(border.left, pixels.width - border.right)
    ensures 0 <= border.top <= pixels.height - border.bottom < 0x1_0000 ==>
              d.stretchPixelsY[0] == Uint16Pair(border.top, pixels.height - border.bottom)
  {
    Data(hash, url, pixels.width, pixels.height,
         [Uint16Pair(U16(border.left), U16(pixels.width - border.right))],
         [Uint16Pair(U16(border.top), U16(pixels.height - border.bottom))])
  }

  class Loader {
    /** The URL hash the loader pre-filters with (an external function). */
    const hashOf: string -> nat
    var cache: seq<Data>

    /** Every entry carries its URL's hash, and no URL is cached twice. */
    ghost predicate Valid()
      reads this
    {
      (forall i :: 0 <= i < |cache| ==> cache[i].hash == hashOf(cache[i].url)) &&
      (forall i, j :: 0 <= i < j < |cache| ==> cache[i].url != cache[j].url)
    }

    constructor (hashOf: string -> nat)
      ensures Valid() && this.hashOf == hashOf && cache == []
    {
      this.hashOf := hashOf;
      cache := [];
    }

    /**
     * Returns the identifier of `url`, loading it first when it is not cached.
     * A zero border asks for a nine-patch decode; any other border loads the
     * plain image and derives one stretch range per axis from the border.
     * The decoders are external and given as functions.
     */
    method Load(url: string, border: Border,
                decodeNinePatch: string -> Option<NinePatchInfo>,
                loadPixels: string -> Option<PixelInfo>) returns (id: nat)
      requires Valid()
      modifies this`cache
      ensures Valid()
      ensures FirstMatch(old(cache), url).Some? ==>
                id == FirstMatch(old(cache), url).value + 1 && cache == old(cache)
      ensures FirstMatch(old(cache), url).None? && border == NO_BORDER ==>
                match decodeNinePatch(url)
                case None => id == 0 && cache == old(cache)
                case Some(np) =>
                  cache == old(cache) + [Data(hashOf(url), url, np.croppedWidth, np.croppedHeight,
                                              np.stretchX, np.stretchY)]
                  && id == |cache|
      ensures FirstMatch(old(cache), url).None? && border != NO_BORDER ==>
                match loadPixels(url)
                case None => id == 0 && cache == old(cache)
                case Some(px) => cache == old(cache) + [BorderedData(hashOf(url), url, px, border)] && id == |cache|
    {
      var hash := hashOf(url);
      var index := UNINITIALIZED_ID;
      var count := |cache|;
      while index < count
        invariant index <= count == |cache|
        invariant forall j :: 0 <= j < index ==> cache[j].url != url
      {
        if cache[index].hash == hash {
          // the hash only pre-filters: a hit also needs the URL itself
          if cache[index].url == url {
            return index + 1;
          }
        } else {
          assert cache[index].url != url;
        }
        index := index + 1;
      }
      if border == NO_BORDER {
        var ninePatch := decodeNinePatch(url);
        if ninePatch.Some? {
          var np := ninePatch.value;
          cache := cache + [Data(hash, url, np.croppedWidth, np.croppedHeight, np.stretchX, np.stretchY)];
          return |cache|;
        }
      } else {
        var pixels := loadPixels(url);
        if pixels.Some? {
          cache := cache + [BorderedData(hash, url, pixels.value, border)];
          return |cache|;
        }
      }
      return 0;
    }

    /** The entry an identifier stands for: found for 1 <= id <= count, absent otherwise. */
    method GetNPatchData(id: nat) returns (found: bool, data: Option<Data>)
      ensures found <==> UNINITIALIZED_ID < id <= |cache|
      ensures found ==> data == Some(cache[id - 1])
      ensures !found ==> data == None
    {
      if UNINITIALIZED_ID < id <= |cache| {
        return true, Some(cache[id - 1]);
      }
      return false, None;
    }
  }

  /** Appending an entry never moves a URL that was already cached: identifiers are stable. */
  lemma {:induction false} FirstMatchStable(cache: seq<Data>, d: Data, url: string)
    requires FirstMatch(cache, url).Some?
    ensures FirstMatch(cache + [d], url) == FirstMatch(cache, url)
  {
    if cache[0].url != url {
      assert (cache + [d])[1..] == cache[1..] + [d];
      FirstMatchStable(cache[1..], d, url);
    }
  }

  /** An entry appended for a URL not yet cached is found at the end, so its identifier is the new count. */
  lemma {:induction false} FirstMatchAppended(cache: seq<Data>, d: Data)
    requires FirstMatch(cache, d.url).None?
    ensures FirstMatch(cache + [d], d.url) == Some(|cache|)
  {
    if |cache| > 0 {
      assert (cache + [d])[1..] == cache[1..] + [d];
      FirstMatchAppended(cache[1..], d);
    }
  }
}
