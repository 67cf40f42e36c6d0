/** The earth atmosphere model: its opacity uniform, the update rules of its three style
    attributes, and how it builds its single draw model
    (packages/layers/src/earth/models/atmosphere.ts). */
module Atmosphere {
  import opened Wrappers

  // ---------------------------------------------------------------------------
  // Uniforms
  // ---------------------------------------------------------------------------

  /** A JavaScript value as `isNumber` sees it: a number, or anything else (a string,
      null, an object). Numbers are passed through and never computed with. */
  datatype Value = Number(x: real) | NotNumber

  /** The layer configuration as far as this model reads it; `opacity` may be absent. */
  datatype LayerConfig = LayerConfig(opacity: Option<Value>)

  datatype Uniforms = Uniforms(uOpacity: real)

  /** `getUninforms`: the destructuring default 1 for an absent opacity, then 1.0 for a
      value that is not a number. */
  function UniformsOf(config: LayerConfig): (u: Uniforms)
    ensures config.opacity.Some? && config.opacity.value.Number? ==> u.uOpacity == config.opacity.value.x
    ensures config.opacity.None? ==> u.uOpacity == 1.0
    ensures config.opacity == Some(NotNumber) ==> u.uOpacity == 1.0
  {
    var opacity := config.opacity.GetOr(Number(1.0));
    Uniforms(if opacity.Number? then opacity.x else 1.0)
  }

  /** The uniform depends on the opacity only when it is a number: any two configurations
      whose opacity is absent or not a number give the same uniforms. */
  lemma UniformsDefault(a: LayerConfig, b: LayerConfig)
    requires a.opacity.None? || a.opacity == Some(NotNumber)
    requires b.opacity.None? || b.opacity == Some(NotNumber)
    ensures UniformsOf(a) == UniformsOf(b) == Uniforms(1.0)
  {
  }

  // ---------------------------------------------------------------------------
  // Style attributes
  // ---------------------------------------------------------------------------

  /** The `size` of an encoded feature: a scalar or an array. */
  datatype SizeField = Scalar(n: real) | Vector(items: seq<real>)

  /** An encoded feature, as far as the attribute updates read it. */
  datatype EncodeFeature = EncodeFeature(size: Option<SizeField>)

  /** An element read from a JavaScript array: a number, or `undefined` past its end. */
  datatype Elem = Defined(x: real) | Undefined

  /** `s[i]` in JavaScript. */
  function At(s: seq<real>, i: nat): (e: Elem)
    ensures e.Defined? <==> i < |s|
    ensures i < |s| ==> e.x == s[i]
  {
    if i < |s| then Defined(s[i]) else Undefined
  }

  /** Each number of `s` as a defined element. */
  function Defineds(s: seq<real>): (r: seq<Elem>)
    ensures |r| == |s|
    ensures forall i :: 0 <= i < |s| ==> r[i] == Defined(s[i])
  {
    seq(|s|, i requires 0 <= i < |s| => Defined(s[i]))
  }

  /** The `size` update: the first element of an array size (undefined when the array is
      empty), the scalar itself, or 1 when the feature has no size. */
  function SizeUpdate(feature: EncodeFeature): (r: seq<Elem>)
    ensures |r| == 1
    ensures feature.size.None? ==> r == [Defined(1.0)]
    ensures feature.size.Some? && feature.size.value.Scalar? ==> r == [Defined(feature.size.value.n)]
    ensures feature.size.Some? && feature.size.value.Vector? ==>
      (r[0].Defined? <==> |feature.size.value.items| > 0) &&
      (r[0].Defined? ==> r[0].x == feature.size.value.items[0])
  {
    match feature.size.GetOr(Scalar(1.0))
    case Vector(items) => [At(items, 0)]
    case Scalar(n) => [Defined(n)]
  }

  /** The `normal` update: the normal computed by the triangulation, unchanged. */
  function NormalUpdate(feature: EncodeFeature, featureIdx: int, vertex: seq<real>, attributeIdx: int, normal: seq<real>): (r: seq<real>)
    ensures r == normal
  {
    normal
  }

  /** The `uv` update: components 3 and 4 of the vertex, undefined where it is shorter. */
  function UvUpdate(feature: EncodeFeature, featureIdx: int, vertex: seq<real>): (r: seq<Elem>)
    ensures |r| == 2
    ensures |vertex| >= 5 ==> r == [Defined(vertex[3]), Defined(vertex[4])]
    ensures forall k :: 0 <= k < 2 ==> r[k] == At(vertex, 3 + k)
  {
    [At(vertex, 3), At(vertex, 4)]
  }

  /** The arguments the attribute service passes to an update. */
  datatype UpdateArgs = UpdateArgs(feature: EncodeFeature, featureIdx: int, vertex: seq<real>,
                                   attributeIdx: int, normal: seq<real>)

  /** Which of the three update closures a descriptor holds. */
  datatype UpdateRule = SizeFromFeature | NormalPassThrough | UvFromVertex

  /** Calls the update closure a rule stands for. */
  function Update(rule: UpdateRule, args: UpdateArgs): seq<Elem> {
    match rule
    case SizeFromFeature => SizeUpdate(args.feature)
    case NormalPassThrough =>
      Defineds(NormalUpdate(args.feature, args.featureIdx, args.vertex, args.attributeIdx, args.normal))
    case UvFromVertex => UvUpdate(args.feature, args.featureIdx, args.vertex)
  }

  datatype BufferUsage = StaticDraw | DynamicDraw

  datatype AttributeType = Attribute

  /** A registered style attribute: its name, type, and the buffer descriptor with the
      shader attribute name, usage, component count and update rule (buffer data starts
      empty and holds floats). */
  datatype StyleAttribute = StyleAttribute(name: string, attributeType: AttributeType,
                                           attributeName: string, usage: BufferUsage,
                                           size: nat, update: UpdateRule)

  /** The three attributes `registerBuiltinAttributes` registers, in order. */
  function BuiltinAttributes(): seq<StyleAttribute> {
    [ StyleAttribute("size", Attribute, "a_Size", DynamicDraw, 1, SizeFromFeature),
      StyleAttribute("normal", Attribute, "a_Normal", StaticDraw, 3, NormalPassThrough),
      StyleAttribute("uv", Attribute, "a_Uv", DynamicDraw, 2, UvFromVertex) ]
  }

  /** Every built-in update returns a vector as long as its declared component count, for
      every feature and vertex, given a three-component normal from the triangulation. */
  lemma UpdatesMatchDeclaredSize(args: UpdateArgs)
    requires |args.normal| == 3
    ensures forall a :: a in BuiltinAttributes() ==> |Update(a.update, args)| == a.size
  {
  }

  /** The attribute names are distinct, so no registration replaces another. */
  lemma BuiltinNamesDistinct()
    ensures forall i, j :: 0 <= i < j < |BuiltinAttributes()| ==>
      BuiltinAttributes()[i].name != BuiltinAttributes()[j].name &&
      BuiltinAttributes()[i].attributeName != BuiltinAttributes()[j].attributeName
  {
  }

  // ---------------------------------------------------------------------------
  // The model
  // ---------------------------------------------------------------------------

  /** The shader sources and triangulation, recorded by name. */
  datatype Shader = AtmosphereVertex | AtmosphereFragment

  datatype Triangulation = EarthTriangulation

  /** The blend state `getBlend()` returns for the layer. */
  datatype Blend = Blend(name: string)

  /** The arguments passed to `buildLayerModel`; the model built from them stands for it. */
  datatype Model = Model(moduleName: string, vertexShader: Shader, fragmentShader: Shader,
                         triangulation: Triangulation, depthEnable: bool, blend: Blend)

  /** The layer that owns the model. */
  class HostLayer {
    var zIndex: int
    var config: LayerConfig

    constructor (zIndex: int, config: LayerConfig)
      ensures this.zIndex == zIndex && this.config == config
    {
      this.zIndex := zIndex;
      this.config := config;
    }
  }

  /** `EarthAtomSphereModel`: the layer it draws for, the blend of that layer, and the
      attributes registered with the style attribute service, in order. */
  class EarthAtmosphereModel {
    const layer: HostLayer
    const blend: Blend
    var attributes: seq<StyleAttribute>

    constructor (layer: HostLayer, blend: Blend)
      ensures this.layer == layer && this.blend == blend && attributes == []
    {
      this.layer := layer;
      this.blend := blend;
      attributes := [];
    }

    /** `getUninforms`, from the layer's current configuration. */
    function GetUninforms(): (u: Uniforms)
      reads layer
      ensures layer.config.opacity.Some? && layer.config.opacity.value.Number? ==>
        u.uOpacity == layer.config.opacity.value.x
      ensures !(layer.config.opacity.Some? && layer.config.opacity.value.Number?) ==> u.uOpacity == 1.0
    {
      UniformsOf(layer.config)
    }

    /** `clearModels`: returns the empty string and releases nothing. */
    method ClearModels() returns (r: string)
      ensures r == ""
    {
      r := "";
    }

    /** `buildModels`: pins the layer's z-index to -997 and builds exactly one model,
        with the atmosphere shaders, the earth triangulation and depth testing off. */
    method BuildModels() returns (models: seq<Model>)
      modifies layer`zIndex
      ensures layer.zIndex == -997
      ensures |models| == 1
      ensures models[0] == Model("earthAtmoSphere", AtmosphereVertex, AtmosphereFragment,
                                 EarthTriangulation, false, blend)
    {
      layer.zIndex := -997;
      var model := Model("earthAtmoSphere", AtmosphereVertex, AtmosphereFragment,
                         EarthTriangulation, false, blend);
      models := [model];
    }

    /** `initModels`: the models of `buildModels`. */
    method InitModels() returns (models: seq<Model>)
      modifies layer`zIndex
      ensures layer.zIndex == -997
      ensures models == [Model("earthAtmoSphere", AtmosphereVertex, AtmosphereFragment,
                               EarthTriangulation, false, blend)]
    {
      models := BuildModels();
    }

    /** `registerBuiltinAttributes`: registers size, normal and uv, in that order. */
    method RegisterBuiltinAttributes()
      modifies this`attributes
      ensures attributes == old(attributes) + BuiltinAttributes()
    {
      attributes := attributes + [StyleAttribute("size", Attribute, "a_Size", DynamicDraw, 1, SizeFromFeature)];
      attributes := attributes + [StyleAttribute("normal", Attribute, "a_Normal", StaticDraw, 3, NormalPassThrough)];
      attributes := attributes + [StyleAttribute("uv", Attribute, "a_Uv", DynamicDraw, 2, UvFromVertex)];
    }
  }
}
