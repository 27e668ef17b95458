/**
 * The colour visual: a quad filled with one mix colour. The renderer blends
 * whenever the colour is translucent.
 */
module ColorVisual {
  import opened Wrappers
  import opened PropertyMap
  import opened VisualBase

  const MIX_COLOR_INDEX: int := VISUAL_PROPERTY_START_INDEX
  const COLOR_NAME := "mixColor"

  /** The property map a colour visual describes itself with: its type, then its colour. */
  function ColorPropertyMap(color: Vector4): (m: Map)
    ensures |m| == 2 && m[0] == Entry(IndexKey(TYPE_INDEX), IntValue(VisualTypeCode(Color)))
    ensures FindVector4(m, MIX_COLOR_INDEX, COLOR_NAME) == Some(color)
  {
    var m := [Entry(IndexKey(TYPE_INDEX), IntValue(VisualTypeCode(Color))),
              Entry(IndexKey(MIX_COLOR_INDEX), Vector4Value(color))];
    assert m[1].key == IndexKey(MIX_COLOR_INDEX);
    FindKeyAt(m, IndexKey(MIX_COLOR_INDEX), 1);
    m
  }

  /** The colour a property map sets, if it holds a four component MIX_COLOR. */
  function ColorFromMap(m: Map): Option<Vector4>
  {
    FindVector4(m, MIX_COLOR_INDEX, COLOR_NAME)
  }

  /** A colour visual's own map sets that same colour back. */
  lemma ColorMapRoundTrip(color: Vector4)
    ensures ColorFromMap(ColorPropertyMap(color)) == Some(color)
  {
  }

  /** A map whose MIX_COLOR entry is missing, or holds another type, sets no colour. */
  lemma ColorFromMapFails(m: Map)
    requires Find(m, MIX_COLOR_INDEX, COLOR_NAME).None? ||
             !Find(m, MIX_COLOR_INDEX, COLOR_NAME).value.Vector4Value?
    ensures ColorFromMap(m).None?
  {
  }

  class ColorVisual {
    const base: Visual
    var mixColor: Vector4
    /** How many times a map without a usable colour was reported. */
    var errorsLogged: nat

    constructor ()
      ensures fresh(base) && base.renderer == null && base.flags == {}
      ensures mixColor == Vector4(0.0, 0.0, 0.0, 0.0) && errorsLogged == 0
    {
      base := new Visual();
      mixColor := Vector4(0.0, 0.0, 0.0, 0.0);
      errorsLogged := 0;
    }

    /** Takes the colour from MIX_COLOR; a missing or unreadable one keeps the colour and logs an error. */
    method DoSetProperties(propertyMap: Map)
      modifies this`mixColor, this`errorsLogged
      ensures ColorFromMap(propertyMap).Some? ==> mixColor == ColorFromMap(propertyMap).value && errorsLogged == old(errorsLogged)
      ensures ColorFromMap(propertyMap).None? ==> mixColor == old(mixColor) && errorsLogged == old(errorsLogged) + 1
    {
      var color := Find(propertyMap, MIX_COLOR_INDEX, COLOR_NAME);
      var got := if color.Some? then GetVector4(color.value) else None;
      if got.Some? {
        mixColor := got.value;
      } else {
        errorsLogged := errorsLogged + 1;
      }
    }

    /** The visual's property map: cleared, then TYPE = COLOR and the stored colour. */
    method DoCreatePropertyMap() returns (m: Map)
      ensures m == ColorPropertyMap(mixColor)
    {
      m := [];
      m := m + [Entry(IndexKey(TYPE_INDEX), IntValue(VisualTypeCode(Color)))];
      m := m + [Entry(IndexKey(MIX_COLOR_INDEX), Vector4Value(mixColor))];
    }

    /** A new renderer carrying the colour; it blends when the colour's alpha is below 1, and
        otherwise keeps its automatic blend mode. */
    method InitializeRenderer()
      modifies base`renderer
      ensures base.renderer != null && fresh(base.renderer)
      ensures base.renderer.properties == map[COLOR_NAME := Vector4Value(mixColor)]
      ensures base.renderer.blendMode == if mixColor.w < 1.0 then On else Auto
      ensures !base.renderer.blendPreMultipliedAlpha && base.renderer.depthIndex == 0.0
    {
      var renderer := new Renderer();
      renderer.properties := renderer.properties[COLOR_NAME := Vector4Value(mixColor)];
      if mixColor.w < 1.0 {
        renderer.blendMode := On;
      }
      base.renderer := renderer;
    }

    /** Going on stage: the colour's own step makes the renderer and hands it to the actor,
        then the shared step runs. */
    method SetOnStage(actor: Actor)
      modifies base, actor
      ensures base.renderer != null && fresh(base.renderer)
      ensures base.flags == old(base.flags) + {IsOnStage}
      ensures actor.renderers == old(actor.renderers) + {base.renderer}
      ensures base.renderer.blendMode == if mixColor.w < 1.0 then On else Auto
      ensures base.renderer.blendPreMultipliedAlpha == (IsPreMultipliedAlpha in base.flags)
      ensures base.renderer.depthIndex == base.depthIndex
    {
      InitializeRenderer();
      actor.AddRenderer(base.renderer);
      base.SetOnStage(actor);
    }

    /** Stores the colour; with a renderer, passes it on and switches blending on for a
        translucent colour, never off. */
    method SetColor(color: Vector4)
      modifies this`mixColor, base.renderer
      ensures mixColor == color
      ensures base.renderer != null ==>
                base.renderer.properties == old(base.renderer.properties)[COLOR_NAME := Vector4Value(color)] &&
                base.renderer.blendMode == (if color.w < 1.0 then On else old(base.renderer.blendMode)) &&
                base.renderer.depthIndex == old(base.renderer.depthIndex) &&
                base.renderer.blendPreMultipliedAlpha == old(base.renderer.blendPreMultipliedAlpha)
    {
      mixColor := color;
      if base.renderer != null {
        base.renderer.properties := base.renderer.properties[COLOR_NAME := Vector4Value(color)];
        if color.w < 1.0 {
          base.renderer.blendMode := On;
        }
      }
    }
  }
}
