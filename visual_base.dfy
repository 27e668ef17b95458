/**
 * The part every visual shares: its flag bits, size, offset, depth index, the
 * renderer it hands to its actor, and an optional custom shader record.
 *
 * Renderers and actors are engine objects; only what the visuals set on them
 * is kept: a renderer's depth index, pre-multiplied-alpha blend flag and blend
 * mode, and an actor's set of renderers.
 */
module VisualBase {
  import opened PropertyMap

  /**
   * The flag bits of a visual. Each is a single distinct bit of one flag word,
   * so the word is modelled as the set of flags it holds: or-ing a bit in adds
   * the flag, and-ing its complement removes it.
   */
  datatype Flag = IsOnStage | IsFromCache | IsAtlasingApplied | IsPreMultipliedAlpha | IsSynchronousResourceLoading

  // Property indices shared by all visuals, and the first index of a visual's own properties.
  const TYPE_INDEX: int := 0
  const SHADER_INDEX: int := 1
  const TRANSFORM_INDEX: int := 2
  const VISUAL_PROPERTY_START_INDEX: int := 101

  const CUSTOM_SHADER := "shader"

  /** The kinds of visual, written into a property map as their position in this list. */
  datatype VisualType = Border | Color | Gradient | Image | Mesh | Primitive | Wireframe | Text

  function VisualTypeCode(t: VisualType): (code: int)
    ensures 0 <= code < 8
  {
    match t
    case Border => 0
    case Color => 1
    case Gradient => 2
    case Image => 3
    case Mesh => 4
    case Primitive => 5
    case Wireframe => 6
    case Text => 7
  }

  /** Distinct kinds of visual are written as distinct codes. */
  lemma VisualTypeCodeInjective(t: VisualType, u: VisualType)
    requires VisualTypeCode(t) == VisualTypeCode(u)
    ensures t == u
  {
  }

  datatype BlendMode = Off | Auto | On

  /** The nine alignment points of a rectangle. */
  datatype Align = TopBegin | TopCenter | TopEnd | CenterBegin | Center | CenterEnd | BottomBegin | BottomCenter | BottomEnd

  /** Where a visual is placed within its control: offset, size, which of them are absolute, origin and anchor point. */
  datatype Transform = Transform(offset: Vector2, size: Vector2, offsetSizeMode: Vector4, origin: Align, anchorPoint: Align)

  /** The transform a visual starts with: no offset, full relative size, centred. */
  const DEFAULT_TRANSFORM := Transform(VECTOR2_ZERO, Vector2(1.0, 1.0), Vector4(0.0, 0.0, 0.0, 0.0), Center, Center)

  /** A renderer: the settings visuals make on it, and the properties registered on it by name. */
  class Renderer {
    var depthIndex: real
    var blendPreMultipliedAlpha: bool
    var blendMode: BlendMode
    var properties: map<string, Value>

    /** A new renderer blends automatically and has no registered properties. */
    constructor ()
      ensures depthIndex == 0.0 && !blendPreMultipliedAlpha && blendMode == Auto && properties == map[]
    {
      depthIndex := 0.0;
      blendPreMultipliedAlpha := false;
      blendMode := Auto;
      properties := map[];
    }
  }

  class Actor {
    var renderers: set<Renderer>

    constructor ()
      ensures renderers == {}
    {
      renderers := {};
    }

    method AddRenderer(r: Renderer)
      modifies this
      ensures renderers == old(renderers) + {r}
    {
      renderers := renderers + {r};
    }

    method RemoveRenderer(r: Renderer?)
      modifies this
      ensures renderers == if r == null then old(renderers) else old(renderers) - {r}
    {
      if r != null {
        renderers := renderers - {r};
      }
    }
  }

  /** The custom shader record: created from the first shader map and updated from later ones. */
  class CustomShader {
    var shaderMap: Map

    constructor (shaderMap: Map)
      ensures this.shaderMap == shaderMap
    {
      this.shaderMap := shaderMap;
    }

    method SetPropertyMap(shaderMap: Map)
      modifies this
      ensures this.shaderMap == shaderMap
    {
      this.shaderMap := shaderMap;
    }
  }

  class Visual {
    var flags: set<Flag>
    var size: Vector2
    var offset: Vector2
    var depthIndex: real
    var renderer: Renderer?
    var customShader: CustomShader?
    var transform: Transform

    /** A visual starts with no flag set, zero size and offset, depth index 0, and no renderer or shader. */
    constructor ()
      ensures flags == {} && size == VECTOR2_ZERO && offset == VECTOR2_ZERO && depthIndex == 0.0
      ensures renderer == null && customShader == null && transform == DEFAULT_TRANSFORM
    {
      flags := {};
      size := VECTOR2_ZERO;
      offset := VECTOR2_ZERO;
      depthIndex := 0.0;
      renderer := null;
      customShader := null;
      transform := DEFAULT_TRANSFORM;
    }

    /** The first shader map creates the shader record; later ones update that same record. */
    method SetCustomShader(shaderMap: Map)
      modifies this`customShader, customShader
      ensures customShader != null && customShader.shaderMap == shaderMap
      ensures old(customShader) != null ==> customShader == old(customShader)
      ensures old(customShader) == null ==> fresh(customShader)
    {
      if customShader != null {
        customShader.SetPropertyMap(shaderMap);
      } else {
        customShader := new CustomShader(shaderMap);
      }
    }

    /** The shared part of initialisation: a SHADER entry holding a map sets the custom shader. */
    method Initialize(propertyMap: Map)
      modifies this`customShader, customShader
      ensures match Find(propertyMap, SHADER_INDEX, CUSTOM_SHADER)
              case Some(MapValue(m)) => customShader != null && customShader.shaderMap == m &&
                                        (old(customShader) != null ==> customShader == old(customShader))
              case _ => customShader == old(customShader) && (customShader != null ==> customShader.shaderMap == old(customShader.shaderMap))
    {
      var customShaderValue := Find(propertyMap, SHADER_INDEX, CUSTOM_SHADER);
      if customShaderValue.Some? {
        var shaderMap := GetMap(customShaderValue.value);
        if shaderMap.Some? {
          SetCustomShader(shaderMap.value);
        }
      }
    }

    method SetSize(newSize: Vector2)
      modifies this`size
      ensures size == newSize
    {
      size := newSize;
    }

    method GetSize() returns (r: Vector2)
      ensures r == size
    {
      r := size;
    }

    /** A visual without a natural size of its own reports zero. */
    method GetNaturalSize() returns (naturalSize: Vector2)
      ensures naturalSize == VECTOR2_ZERO
    {
      naturalSize := VECTOR2_ZERO;
    }

    method SetOffset(newOffset: Vector2)
      modifies this`offset
      ensures offset == newOffset
    {
      offset := newOffset;
    }

    /** Stores the depth index and passes it to the renderer, when there is one. */
    method SetDepthIndex(index: real)
      modifies this`depthIndex, renderer
      ensures depthIndex == index
      ensures renderer != null ==> renderer.depthIndex == index &&
                                   renderer.blendPreMultipliedAlpha == old(renderer.blendPreMultipliedAlpha) &&
                                   renderer.blendMode == old(renderer.blendMode)
    {
      depthIndex := index;
      if renderer != null {
        renderer.depthIndex := depthIndex;
      }
    }

    method GetDepthIndex() returns (r: real)
      ensures r == depthIndex
    {
      r := depthIndex;
    }

    method GetIsOnStage() returns (r: bool)
      ensures r == (IsOnStage in flags)
    {
      r := IsOnStage in flags;
    }

    method GetIsFromCache() returns (r: bool)
      ensures r == (IsFromCache in flags)
    {
      r := IsFromCache in flags;
    }

    method IsPreMultipliedAlphaEnabled() returns (r: bool)
      ensures r == (IsPreMultipliedAlpha in flags)
    {
      r := IsPreMultipliedAlpha in flags;
    }

    /** Sets or clears the pre-multiplied alpha bit, and passes the choice to the renderer. */
    method EnablePreMultipliedAlpha(preMultiplied: bool)
      modifies this`flags, renderer
      ensures flags == if preMultiplied then old(flags) + {IsPreMultipliedAlpha} else old(flags) - {IsPreMultipliedAlpha}
      ensures renderer != null ==> renderer.blendPreMultipliedAlpha == preMultiplied &&
                                   renderer.depthIndex == old(renderer.depthIndex) &&
                                   renderer.blendMode == old(renderer.blendMode)
    {
      if preMultiplied {
        flags := flags + {IsPreMultipliedAlpha};
      } else {
        flags := flags - {IsPreMultipliedAlpha};
      }
      if renderer != null {
        renderer.blendPreMultipliedAlpha := preMultiplied;
      }
    }

    /**
     * The shared part of going on stage, run after the visual's own on-stage step has made
     * the renderer: the renderer gets the blend flag and depth index and joins the actor,
     * and the on-stage bit is set.
     */
    method SetOnStage(actor: Actor)
      requires renderer != null
      modifies this`flags, renderer, actor
      ensures flags == old(flags) + {IsOnStage}
      ensures renderer.blendPreMultipliedAlpha == (IsPreMultipliedAlpha in flags)
      ensures renderer.depthIndex == depthIndex && renderer.blendMode == old(renderer.blendMode)
      ensures actor.renderers == old(actor.renderers) + {renderer}
    {
      renderer.blendPreMultipliedAlpha := IsPreMultipliedAlpha in flags;
      renderer.depthIndex := depthIndex;
      actor.AddRenderer(renderer);
      flags := flags + {IsOnStage};
    }

    /** Going off stage with the default off-stage step: only when on stage, the renderer leaves
        the actor and is released, and the on-stage bit is cleared. */
    method SetOffStage(actor: Actor)
      modifies this`flags, this`renderer, actor
      ensures IsOnStage !in old(flags) ==>
                flags == old(flags) && renderer == old(renderer) && actor.renderers == old(actor.renderers)
      ensures IsOnStage in old(flags) ==>
                flags == old(flags) - {IsOnStage} && renderer == null &&
                actor.renderers == (if old(renderer) == null then old(actor.renderers) else old(actor.renderers) - {old(renderer)})
    {
      var onStage := GetIsOnStage();
      if onStage {
        actor.RemoveRenderer(renderer);
        renderer := null;
        flags := flags - {IsOnStage};
      }
    }
  }
}
