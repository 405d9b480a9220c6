/**
 * Material: a material entity seen through its component and its three
 * binding arrays (push constants, entity-component bindings and texture
 * bindings). The arrays are append-only, searched front to back, and their
 * elements are edited in place.
 */
module Materials {
  import opened Numeric
  import opened Wrappers
  import opened Enums
  import opened DescriptorKeys
  import opened PushConstants
  import opened ComponentBindings
  import opened Textures
  import Blend
  import Depth
  import Stencil

  /** Where a pending load request stands; only `Loaded` matters to the material. */
  datatype RequestStatus = Loaded | NotLoaded(code: nat)

  /**
   * The material component as Material.cs uses it: a version, the render
   * group, the two shader references and the blend, depth and flag settings.
   */
  datatype MaterialRecord = MaterialRecord(
    version: UInt32,
    renderGroup: Int8,
    vertexShaderReference: RInt,
    fragmentShaderReference: RInt,
    blendSettings: Blend.BlendSettings,
    depthSettings: Depth.DepthSettings,
    flags: MaterialFlags)

  /** `default(IsMaterial)`, the component the host adds when none exists: every field zero. */
  const DefaultRecord := MaterialRecord(
    0, 0, 0, 0,
    Blend.BlendSettings(false, BlendFactor.Zero, BlendFactor.Zero, Add, BlendFactor.Zero, BlendFactor.Zero, Add),
    Depth.DepthSettings(0, Never, ZeroFloat, ZeroFloat, Stencil.ZeroStencil, Stencil.ZeroStencil),
    NoMaterialFlags)

  // ---- push constants ----

  /** Some push constant reads data of this component type. */
  predicate HasPushConstant(bindings: seq<PushConstantBinding>, componentType: DataType) {
    exists i :: 0 <= i < |bindings| && bindings[i].componentType == componentType.index
  }

  /** The exact sum of the sizes of `bindings`. */
  function SumSizes(bindings: seq<PushConstantBinding>): int
    decreases |bindings|
  {
    if |bindings| == 0 then 0
    else SumSizes(bindings[..|bindings| - 1]) + bindings[|bindings| - 1].componentSize
  }

  /**
   * Every binding starts where the ones before it end: its start is the sum of
   * the earlier sizes, in 32-bit arithmetic, with no padding.
   */
  predicate PackedLayout(bindings: seq<PushConstantBinding>) {
    forall i :: 0 <= i < |bindings| ==> bindings[i].start == Wrap(SumSizes(bindings[..i]))
  }

  /** No two push constants read the same component type. */
  predicate DistinctTypes(bindings: seq<PushConstantBinding>) {
    forall i, j :: 0 <= i < j < |bindings| ==> bindings[i].componentType != bindings[j].componentType
  }

  /** The binding `AddPushConstant` appends: placed right after all existing ones. */
  function NextPushConstant(bindings: seq<PushConstantBinding>, componentType: DataType, stage: ShaderType): PushConstantBinding
  {
    PushConstantBinding(Wrap(SumSizes(bindings)), componentType.index, componentType.size, stage)
  }

  /**
   * Appending a new component type keeps the layout packed and the types
   * distinct, leaves every earlier binding where it was, and the type is
   * present afterwards.
   */
  lemma AppendKeepsLayout(bindings: seq<PushConstantBinding>, componentType: DataType, stage: ShaderType)
    requires PackedLayout(bindings) && DistinctTypes(bindings)
    requires !HasPushConstant(bindings, componentType)
    ensures var after := bindings + [NextPushConstant(bindings, componentType, stage)];
      && PackedLayout(after) && DistinctTypes(after)
      && HasPushConstant(after, componentType)
      && after[..|bindings|] == bindings
  {
    var after := bindings + [NextPushConstant(bindings, componentType, stage)];
    assert after[..|bindings|] == bindings;
    forall i | 0 <= i < |after|
      ensures after[i].start == Wrap(SumSizes(after[..i]))
    {
      assert after[..i] == bindings[..i] || i == |bindings|;
    }
    assert after[|bindings|].componentType == componentType.index;
  }

  /**
   * Two additions to an empty table, of sizes 16 and 4: the first starts at
   * 0 and the second right after it, at 16.
   */
  lemma PushConstantOffsetsExample(first: DataType, second: DataType, stage: ShaderType)
    requires first.size == 16 && second.size == 4
    ensures var one := [NextPushConstant([], first, stage)];
      var two := one + [NextPushConstant(one, second, stage)];
      two[0].start == 0 && two[1].start == 16 && two[1].componentSize == 4
  {
    var one := [NextPushConstant([], first, stage)];
    assert one[..0] == [];
  }

  // ---- entity-component bindings ----

  /** Some entity-component binding sits at `key` for `stage`. */
  predicate HasComponentBinding(bindings: seq<EntityComponentBinding>, key: DescriptorResourceKey, stage: ShaderType) {
    exists i :: 0 <= i < |bindings| && bindings[i].key == key && bindings[i].stage == stage
  }

  /** The position of the first binding at `key` for `stage`, if any. */
  function IndexOfComponentBinding(bindings: seq<EntityComponentBinding>, key: DescriptorResourceKey, stage: ShaderType): (r: Option<nat>)
    ensures r.Some? <==> HasComponentBinding(bindings, key, stage)
    ensures r.Some? ==> r.value < |bindings| && bindings[r.value].key == key && bindings[r.value].stage == stage
    ensures r.Some? ==> forall j :: 0 <= j < r.value ==> !(bindings[j].key == key && bindings[j].stage == stage)
    decreases |bindings|
  {
    if |bindings| == 0 then None
    else if bindings[0].key == key && bindings[0].stage == stage then Some(0)
    else match IndexOfComponentBinding(bindings[1..], key, stage)
      case None => None
      case Some(i) => Some(i + 1)
  }

  // ---- texture bindings ----

  /** Some texture binding sits at `key`. */
  predicate HasTextureBinding(bindings: seq<TextureBinding>, key: DescriptorResourceKey) {
    exists i :: 0 <= i < |bindings| && bindings[i].key == key
  }

  /** The position of the first texture binding at `key`, if any. */
  function IndexOfTextureBinding(bindings: seq<TextureBinding>, key: DescriptorResourceKey): (r: Option<nat>)
    ensures r.Some? <==> HasTextureBinding(bindings, key)
    ensures r.Some? ==> r.value < |bindings| && bindings[r.value].key == key
    ensures r.Some? ==> forall j :: 0 <= j < r.value ==> bindings[j].key != key
    decreases |bindings|
  {
    if |bindings| == 0 then None
    else if bindings[0].key == key then Some(0)
    else match IndexOfTextureBinding(bindings[1..], key)
      case None => None
      case Some(i) => Some(i + 1)
  }

  /** The position of the first texture binding that samples `texture`, if any. */
  function IndexOfTexture(bindings: seq<TextureBinding>, texture: EntityId): (r: Option<nat>)
    ensures r.Some? <==> exists i :: 0 <= i < |bindings| && bindings[i].entity == texture
    ensures r.Some? ==> r.value < |bindings| && bindings[r.value].entity == texture
    ensures r.Some? ==> forall j :: 0 <= j < r.value ==> bindings[j].entity != texture
    decreases |bindings|
  {
    if |bindings| == 0 then None
    else if bindings[0].entity == texture then Some(0)
    else match IndexOfTexture(bindings[1..], texture)
      case None => None
      case Some(i) => Some(i + 1)
  }

  /**
   * The texture table after `SetTextureBinding`: every binding at `key` is
   * retargeted, every other binding is left exactly as it was.
   */
  function RetargetAll(bindings: seq<TextureBinding>, key: DescriptorResourceKey,
                       texture: EntityId, region: Vector4, filtering: TextureFiltering): (r: seq<TextureBinding>)
    ensures |r| == |bindings|
    ensures forall i :: 0 <= i < |r| && bindings[i].key == key ==> r[i] == Retarget(bindings[i], texture, region, filtering)
    ensures forall i :: 0 <= i < |r| && bindings[i].key != key ==> r[i] == bindings[i]
    decreases |bindings|
  {
    if |bindings| == 0 then []
    else
      var last := bindings[|bindings| - 1];
      RetargetAll(bindings[..|bindings| - 1], key, texture, region, filtering)
        + [if last.key == key then Retarget(last, texture, region, filtering) else last]
  }

  /** Retargeting keeps every key where it was, so lookups by key find the same positions. */
  lemma RetargetAllKeepsKeys(bindings: seq<TextureBinding>, key: DescriptorResourceKey, other: DescriptorResourceKey,
                             texture: EntityId, region: Vector4, filtering: TextureFiltering)
    ensures IndexOfTextureBinding(RetargetAll(bindings, key, texture, region, filtering), other)
         == IndexOfTextureBinding(bindings, other)
  {
    SameKeysSameIndex(RetargetAll(bindings, key, texture, region, filtering), bindings, other);
  }

  /** The lookup by key reads nothing but the keys. */
  lemma {:induction false} SameKeysSameIndex(a: seq<TextureBinding>, b: seq<TextureBinding>, key: DescriptorResourceKey)
    requires |a| == |b| && forall i :: 0 <= i < |a| ==> a[i].key == b[i].key
    ensures IndexOfTextureBinding(a, key) == IndexOfTextureBinding(b, key)
    decreases |a|
  {
    if |a| > 0 && a[0].key != key {
      SameKeysSameIndex(a[1..], b[1..], key);
    }
  }

  /** Retargeting twice with the same values is the same as retargeting once. */
  lemma RetargetAllIdempotent(bindings: seq<TextureBinding>, key: DescriptorResourceKey,
                              texture: EntityId, region: Vector4, filtering: TextureFiltering)
    ensures var once := RetargetAll(bindings, key, texture, region, filtering);
      RetargetAll(once, key, texture, region, filtering) == once
  {
    var once := RetargetAll(bindings, key, texture, region, filtering);
    var twice := RetargetAll(once, key, texture, region, filtering);
    forall i | 0 <= i < |twice|
      ensures twice[i] == once[i]
    {
      if bindings[i].key == key {
        SettersIdempotent(bindings[i], texture, region, filtering);
      }
    }
  }

  /**
   * A material entity. `request` is the pending load request, if the
   * material was created from an address; `component` is its material
   * component, if present; `references` are the entity's references, which
   * `rint` values index from 1.
   */
  class Material {
    var request: Option<RequestStatus>
    var component: Option<MaterialRecord>
    var references: seq<EntityId>
    var pushConstants: seq<PushConstantBinding>
    var componentBindings: seq<EntityComponentBinding>
    var textureBindings: seq<TextureBinding>

    /** The entity has the material component, so the host sees it as a material. */
    predicate IsCompliant()
      reads this
    {
      component.Some?
    }

    /** A pending request decides alone; without one, the material is loaded when it is compliant. */
    predicate IsLoaded(): (r: bool)
      reads this
      ensures request.Some? ==> (r <==> request.value == Loaded)
      ensures request.None? ==> (r <==> component.Some?)
    {
      match request
      case Some(status) => status == Loaded
      case None => IsCompliant()
    }

    /** The push constants are packed one after another and read distinct types. */
    predicate PushConstantsPacked()
      reads this
    {
      PackedLayout(pushConstants) && DistinctTypes(pushConstants)
    }

    /** The entity behind the reference `reference`, counting from 1. */
    function Reference(reference: RInt): (e: EntityId)
      reads this
      requires 1 <= reference <= |references|
      ensures e in references
    {
      references[reference - 1]
    }

    /** The vertex shader the material component refers to. */
    function VertexShader(): (e: EntityId)
      reads this
      requires IsLoaded() && component.Some?
      requires 1 <= component.value.vertexShaderReference <= |references|
      ensures e == references[component.value.vertexShaderReference - 1]
    {
      Reference(component.value.vertexShaderReference)
    }

    /** The fragment shader the material component refers to. */
    function FragmentShader(): (e: EntityId)
      reads this
      requires IsLoaded() && component.Some?
      requires 1 <= component.value.fragmentShaderReference <= |references|
      ensures e == references[component.value.fragmentShaderReference - 1]
    {
      Reference(component.value.fragmentShaderReference)
    }

    /** A material to be loaded from an address: only the request and empty arrays; not loaded yet. */
    constructor Requested()
      ensures request == Some(NotLoaded(0)) && component.None? && references == []
      ensures pushConstants == [] && componentBindings == [] && textureBindings == []
      ensures !IsLoaded()
    {
      request := Some(NotLoaded(0));
      component := None;
      references := [];
      pushConstants := [];
      componentBindings := [];
      textureBindings := [];
    }

    /**
     * A material built from two shaders and explicit settings: the shaders
     * become references 1 and 2, the version starts at 0, and the material
     * is loaded and reports those shaders.
     */
    constructor WithSettings(vertexShader: EntityId, fragmentShader: EntityId,
                             blendSettings: Blend.BlendSettings, depthSettings: Depth.DepthSettings,
                             flags: MaterialFlags := NoMaterialFlags)
      ensures request.None? && component == Some(MaterialRecord(0, 0, 1, 2, blendSettings, depthSettings, flags))
      ensures references == [vertexShader, fragmentShader]
      ensures pushConstants == [] && componentBindings == [] && textureBindings == []
      ensures IsLoaded() && VertexShader() == vertexShader && FragmentShader() == fragmentShader
      ensures PushConstantsPacked()
    {
      request := None;
      component := Some(MaterialRecord(0, 0, 1, 2, blendSettings, depthSettings, flags));
      references := [vertexShader, fragmentShader];
      pushConstants := [];
      componentBindings := [];
      textureBindings := [];
    }

    /** The two-shader constructor: opaque blending and default depth settings. */
    constructor WithShaders(vertexShader: EntityId, fragmentShader: EntityId, flags: MaterialFlags := NoMaterialFlags)
      ensures request.None? && component == Some(MaterialRecord(0, 0, 1, 2, Blend.Opaque, Depth.Default(), flags))
      ensures references == [vertexShader, fragmentShader]
      ensures pushConstants == [] && componentBindings == [] && textureBindings == []
      ensures IsLoaded() && VertexShader() == vertexShader && FragmentShader() == fragmentShader
      ensures PushConstantsPacked()
    {
      request := None;
      component := Some(MaterialRecord(0, 0, 1, 2, Blend.Opaque, Depth.Default(), flags));
      references := [vertexShader, fragmentShader];
      pushConstants := [];
      componentBindings := [];
      textureBindings := [];
    }

    /** Scans the push constants for one reading `componentType`. */
    method ContainsPushConstant(componentType: DataType) returns (r: bool)
      ensures r <==> HasPushConstant(pushConstants, componentType)
    {
      var i := 0;
      while i < |pushConstants|
        invariant 0 <= i <= |pushConstants|
        invariant forall j :: 0 <= j < i ==> pushConstants[j].componentType != componentType.index
      {
        if pushConstants[i].componentType == componentType.index {
          return true;
        }
        i := i + 1;
      }
      return false;
    }

    /**
     * Appends a push constant for a component type not yet present, starting
     * where the existing ones end. A material without a component gets the
     * default one. The version is not touched.
     */
    method AddPushConstant(componentType: DataType, stage: ShaderType)
      requires !HasPushConstant(pushConstants, componentType)
      modifies this
      ensures pushConstants == old(pushConstants) + [NextPushConstant(old(pushConstants), componentType, stage)]
      ensures component == if old(component).None? then Some(DefaultRecord) else old(component)
      ensures request == old(request) && references == old(references)
      ensures componentBindings == old(componentBindings) && textureBindings == old(textureBindings)
      ensures HasPushConstant(pushConstants, componentType)
      ensures old(PushConstantsPacked()) ==> PushConstantsPacked()
    {
      var bindings := pushConstants;
      var start: Int32 := 0;
      var i := 0;
      while i < |bindings|
        invariant 0 <= i <= |bindings|
        invariant start == Wrap(SumSizes(bindings[..i]))
        invariant unchanged(this)
      {
        SumSizesStep(bindings, i);
        start := Wrap(start + bindings[i].componentSize);
        i := i + 1;
      }
      assert bindings[..i] == bindings;
      pushConstants := bindings + [PushConstantBinding(start, componentType.index, componentType.size, stage)];
      assert pushConstants[|bindings|].componentType == componentType.index;
      if PackedLayout(bindings) && DistinctTypes(bindings) {
        AppendKeepsLayout(bindings, componentType, stage);
      }
      if component.None? {
        component := Some(DefaultRecord);
      }
    }

    /** Scans the entity-component bindings for one at `key` for `stage`. */
    method ContainsComponentBinding(key: DescriptorResourceKey, stage: ShaderType) returns (r: bool)
      ensures r <==> HasComponentBinding(componentBindings, key, stage)
    {
      var i := 0;
      while i < |componentBindings|
        invariant 0 <= i <= |componentBindings|
        invariant forall j :: 0 <= j < i ==> !(componentBindings[j].key == key && componentBindings[j].stage == stage)
      {
        if componentBindings[i].key == key && componentBindings[i].stage == stage {
          return true;
        }
        i := i + 1;
      }
      return false;
    }

    /**
     * Appends a binding for a `(key, stage)` pair not yet present and returns
     * its position; afterwards the pair is present.
     */
    method AddComponentBinding(key: DescriptorResourceKey, entity: EntityId, componentType: DataType, stage: ShaderType)
      returns (index: nat)
      requires !HasComponentBinding(componentBindings, key, stage)
      modifies this
      ensures componentBindings == old(componentBindings) + [EntityComponentBinding(key, entity, componentType, stage)]
      ensures index == |old(componentBindings)| && index < |componentBindings|
      ensures HasComponentBinding(componentBindings, key, stage)
      ensures IndexOfComponentBinding(componentBindings, key, stage) == Some(index)
      ensures request == old(request) && component == old(component) && references == old(references)
      ensures pushConstants == old(pushConstants) && textureBindings == old(textureBindings)
    {
      index := |componentBindings|;
      componentBindings := componentBindings + [EntityComponentBinding(key, entity, componentType, stage)];
      assert componentBindings[index].key == key && componentBindings[index].stage == stage;
    }

    /**
     * The position of the first binding at `key` for `stage`; `None` where
     * the C# code throws because there is none.
     */
    method GetComponentBinding(key: DescriptorResourceKey, stage: ShaderType) returns (r: Option<nat>)
      ensures r == IndexOfComponentBinding(componentBindings, key, stage)
    {
      var i := 0;
      while i < |componentBindings|
        invariant 0 <= i <= |componentBindings|
        invariant forall j :: 0 <= j < i ==> !(componentBindings[j].key == key && componentBindings[j].stage == stage)
      {
        if componentBindings[i].key == key && componentBindings[i].stage == stage {
          IndexIsFirstComponentBinding(componentBindings, key, stage, i);
          return Some(i);
        }
        i := i + 1;
      }
      return None;
    }

    /**
     * Points the first binding at `key` for `stage` at another entity; no
     * other binding and no other field changes. Returns false, changing
     * nothing, where the C# code throws because there is no such binding.
     */
    method SetComponentBinding(key: DescriptorResourceKey, entity: EntityId, stage: ShaderType) returns (found: bool)
      modifies this
      ensures found <==> HasComponentBinding(old(componentBindings), key, stage)
      ensures found ==> var i := IndexOfComponentBinding(old(componentBindings), key, stage).value;
        componentBindings == old(componentBindings)[i := old(componentBindings)[i].(entity := entity)]
      ensures !found ==> componentBindings == old(componentBindings)
      ensures request == old(request) && component == old(component) && references == old(references)
      ensures pushConstants == old(pushConstants) && textureBindings == old(textureBindings)
    {
      var index := GetComponentBinding(key, stage);
      found := index.Some?;
      if found {
        var i := index.value;
        componentBindings := componentBindings[i := componentBindings[i].(entity := entity)];
      }
    }

    /**
     * Scans the texture bindings for `key`: the first position holding it, or
     * false with position 0.
     */
    method TryIndexOfTextureBinding(key: DescriptorResourceKey) returns (found: bool, index: nat)
      ensures found <==> HasTextureBinding(textureBindings, key)
      ensures found ==> IndexOfTextureBinding(textureBindings, key) == Some(index)
      ensures !found ==> index == 0
    {
      var i := 0;
      while i < |textureBindings|
        invariant 0 <= i <= |textureBindings|
        invariant forall j :: 0 <= j < i ==> textureBindings[j].key != key
      {
        if textureBindings[i].key == key {
          IndexIsFirstTextureBinding(textureBindings, key, i);
          return true, i;
        }
        i := i + 1;
      }
      return false, 0;
    }

    /** Whether some texture binding sits at `key`. */
    method ContainsTextureBinding(key: DescriptorResourceKey) returns (r: bool)
      ensures r <==> HasTextureBinding(textureBindings, key)
    {
      var index;
      r, index := TryIndexOfTextureBinding(key);
    }

    /**
     * Appends a texture binding at a key not yet present, at version 0, and
     * returns its position. The filtering defaults to `Linear`.
     */
    method AddTextureBinding(key: DescriptorResourceKey, texture: EntityId, region: Vector4, filtering: TextureFiltering := Linear)
      returns (index: nat)
      requires !HasTextureBinding(textureBindings, key)
      modifies this
      ensures textureBindings == old(textureBindings) + [NewTextureBinding(0, key, texture, region, filtering)]
      ensures index == |old(textureBindings)| && index < |textureBindings|
      ensures IndexOfTextureBinding(textureBindings, key) == Some(index)
      ensures request == old(request) && component == old(component) && references == old(references)
      ensures pushConstants == old(pushConstants) && componentBindings == old(componentBindings)
    {
      index := |textureBindings|;
      textureBindings := textureBindings + [NewTextureBinding(0, key, texture, region, filtering)];
      assert textureBindings[index].key == key;
    }

    /** The overload without a region: the whole texture, (0, 0, 1, 1); filtering defaults to `Linear` here too. */
    method AddWholeTextureBinding(key: DescriptorResourceKey, texture: EntityId, filtering: TextureFiltering := Linear)
      returns (index: nat)
      requires !HasTextureBinding(textureBindings, key)
      modifies this
      ensures textureBindings == old(textureBindings) + [NewTextureBinding(0, key, texture, FullRegion, filtering)]
      ensures index == |old(textureBindings)|
      ensures request == old(request) && component == old(component) && references == old(references)
      ensures pushConstants == old(pushConstants) && componentBindings == old(componentBindings)
    {
      index := AddTextureBinding(key, texture, FullRegion, filtering);
    }

    /** The position of the first binding at `key`; `None` where the C# code throws. */
    method GetTextureBinding(key: DescriptorResourceKey) returns (r: Option<nat>)
      ensures r == IndexOfTextureBinding(textureBindings, key)
    {
      var found, index := TryIndexOfTextureBinding(key);
      r := if found then Some(index) else None;
    }

    /**
     * The binding at `key`, read through the reference `TryGetTextureBinding`
     * returns; `None` stands for its null reference.
     */
    method TryGetTextureBinding(key: DescriptorResourceKey) returns (contains: bool, binding: Option<TextureBinding>)
      ensures contains <==> HasTextureBinding(textureBindings, key)
      ensures contains <==> binding.Some?
      ensures contains ==> binding.value == textureBindings[IndexOfTextureBinding(textureBindings, key).value]
      ensures contains ==> binding.value.key == key
    {
      var index: nat;
      contains, index := TryIndexOfTextureBinding(key);
      binding := if contains then Some(textureBindings[index]) else None;
    }

    /**
     * A copy of the first binding that samples `texture`, or false and the
     * all-zero binding.
     */
    method TryGetFirstTextureBinding(texture: EntityId) returns (found: bool, binding: TextureBinding)
      ensures found <==> IndexOfTexture(textureBindings, texture).Some?
      ensures found ==> binding == textureBindings[IndexOfTexture(textureBindings, texture).value]
      ensures found ==> binding.entity == texture
      ensures !found ==> binding == ZeroTextureBinding
    {
      var i := 0;
      while i < |textureBindings|
        invariant 0 <= i <= |textureBindings|
        invariant forall j :: 0 <= j < i ==> textureBindings[j].entity != texture
      {
        if textureBindings[i].entity == texture {
          IndexIsFirstTexture(textureBindings, texture, i);
          return true, textureBindings[i];
        }
        i := i + 1;
      }
      return false, ZeroTextureBinding;
    }

    /**
     * Retargets every binding at `key`, in place: each setter moves the
     * version on only when its value changes. Other bindings stay as they were.
     */
    method SetTextureBinding(key: DescriptorResourceKey, texture: EntityId, region: Vector4, filtering: TextureFiltering)
      requires HasTextureBinding(textureBindings, key)
      modifies this
      ensures textureBindings == RetargetAll(old(textureBindings), key, texture, region, filtering)
      ensures request == old(request) && component == old(component) && references == old(references)
      ensures pushConstants == old(pushConstants) && componentBindings == old(componentBindings)
    {
      ghost var target := RetargetAll(textureBindings, key, texture, region, filtering);
      var i := 0;
      while i < |textureBindings|
        invariant 0 <= i <= |textureBindings| == |target| == |old(textureBindings)|
        invariant forall j :: 0 <= j < i ==> textureBindings[j] == target[j]
        invariant forall j :: i <= j < |textureBindings| ==> textureBindings[j] == old(textureBindings)[j]
        invariant request == old(request) && component == old(component) && references == old(references)
        invariant pushConstants == old(pushConstants) && componentBindings == old(componentBindings)
      {
        if textureBindings[i].key == key {
          textureBindings := textureBindings[i := Retarget(textureBindings[i], texture, region, filtering)];
        }
        i := i + 1;
      }
      assert textureBindings == target;
    }
  }

  /** One more binding in the running sum: the wrapped sum of a longer prefix. */
  lemma SumSizesStep(bindings: seq<PushConstantBinding>, i: nat)
    requires i < |bindings|
    ensures Wrap(Wrap(SumSizes(bindings[..i])) + bindings[i].componentSize) == Wrap(SumSizes(bindings[..i + 1]))
  {
    assert bindings[..i + 1][..i] == bindings[..i];
    WrapAdd(SumSizes(bindings[..i]), bindings[i].componentSize);
  }

  /** A match at `i` with no match before it is the one `IndexOfComponentBinding` finds. */
  lemma {:induction false} IndexIsFirstComponentBinding(bindings: seq<EntityComponentBinding>, key: DescriptorResourceKey, stage: ShaderType, i: nat)
    requires i < |bindings| && bindings[i].key == key && bindings[i].stage == stage
    requires forall j :: 0 <= j < i ==> !(bindings[j].key == key && bindings[j].stage == stage)
    ensures IndexOfComponentBinding(bindings, key, stage) == Some(i)
  {
    var r := IndexOfComponentBinding(bindings, key, stage);
    assert r.Some?;
    assert !(r.value < i) && !(i < r.value);
  }

  /** A match at `i` with no match before it is the one `IndexOfTextureBinding` finds. */
  lemma {:induction false} IndexIsFirstTextureBinding(bindings: seq<TextureBinding>, key: DescriptorResourceKey, i: nat)
    requires i < |bindings| && bindings[i].key == key
    requires forall j :: 0 <= j < i ==> bindings[j].key != key
    ensures IndexOfTextureBinding(bindings, key) == Some(i)
  {
    var r := IndexOfTextureBinding(bindings, key);
    assert r.Some?;
    assert !(r.value < i) && !(i < r.value);
  }

  /** A match at `i` with no match before it is the one `IndexOfTexture` finds. */
  lemma {:induction false} IndexIsFirstTexture(bindings: seq<TextureBinding>, texture: EntityId, i: nat)
    requires i < |bindings| && bindings[i].entity == texture
    requires forall j :: 0 <= j < i ==> bindings[j].entity != texture
    ensures IndexOfTexture(bindings, texture) == Some(i)
  {
    var r := IndexOfTexture(bindings, texture);
    assert r.Some?;
    assert !(r.value < i) && !(i < r.value);
  }
}
