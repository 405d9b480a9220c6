/**
 * TextureBinding: a texture bound at a descriptor key, with a version that
 * counts the changes made through its setters.
 */
module Textures {
  import opened Numeric
  import opened Enums
  import opened DescriptorKeys

  datatype TextureBinding = TextureBinding(
    version: UInt32,
    key: DescriptorResourceKey,
    entity: EntityId,
    region: Vector4,
    filtering: TextureFiltering)
  {
    /** Points the binding at another texture; the version moves on only if it really changes. */
    function SetTexture(texture: EntityId): (r: TextureBinding)
      ensures r.entity == texture
      ensures r.version == if texture == entity then version else Increment(version)
      ensures r.key == key && r.region == region && r.filtering == filtering
    {
      if entity != texture then this.(entity := texture, version := Increment(version)) else this
    }

    /** Changes the sampled region; the version moves on only if it really changes. */
    function SetRegion(newRegion: Vector4): (r: TextureBinding)
      ensures r.region == newRegion
      ensures r.version == if newRegion == region then version else Increment(version)
      ensures r.key == key && r.entity == entity && r.filtering == filtering
    {
      if region != newRegion then this.(region := newRegion, version := Increment(version)) else this
    }

    /** Changes the filtering; the version moves on only if it really changes. */
    function SetFiltering(newFiltering: TextureFiltering): (r: TextureBinding)
      ensures r.filtering == newFiltering
      ensures r.version == if newFiltering == filtering then version else Increment(version)
      ensures r.key == key && r.entity == entity && r.region == region
    {
      if filtering != newFiltering then this.(filtering := newFiltering, version := Increment(version)) else this
    }

    /** The values `GetHashCode` combines: key, texture and region. */
    function HashInputs(): (DescriptorResourceKey, EntityId, Vector4) {
      (key, entity, region)
    }

    /** Compares key, texture and region; version and filtering take no part. */
    function Equals(other: TextureBinding): (r: bool)
      ensures r <==> HashInputs() == other.HashInputs()
      ensures r <==> this.(version := other.version, filtering := other.filtering) == other
    {
      key.Equals(other.key) && entity == other.entity && region == other.region
    }

    /** `!=`. */
    function NotEquals(other: TextureBinding): (r: bool)
      ensures r <==> HashInputs() != other.HashInputs()
    {
      !Equals(other)
    }
  }

  /** The constructor stores every argument as given. */
  function NewTextureBinding(version: UInt32, key: DescriptorResourceKey, texture: EntityId,
                             region: Vector4, filtering: TextureFiltering): (b: TextureBinding)
    ensures b.version == version && b.key == key && b.entity == texture
    ensures b.region == region && b.filtering == filtering
  {
    TextureBinding(version, key, texture, region, filtering)
  }

  /** `default(TextureBinding)`: every field zero. */
  const ZeroTextureBinding := TextureBinding(0, DefaultKey, 0, ZeroVector, Nearest)

  /** How many of the three settable values differ from what `b` holds. */
  function Changes(b: TextureBinding, texture: EntityId, region: Vector4, filtering: TextureFiltering): (n: nat)
    ensures n <= 3
  {
    (if b.entity != texture then 1 else 0)
    + (if b.region != region then 1 else 0)
    + (if b.filtering != filtering then 1 else 0)
  }

  /**
   * The three setters in a row, as `SetTextureBinding` applies them: the
   * values become the given ones, the key stays, and the version moves on by
   * exactly the number of values that changed.
   */
  function Retarget(b: TextureBinding, texture: EntityId, region: Vector4, filtering: TextureFiltering): (r: TextureBinding)
    ensures r.key == b.key && r.entity == texture && r.region == region && r.filtering == filtering
    ensures r.version == WrapU(b.version + Changes(b, texture, region, filtering))
    ensures Changes(b, texture, region, filtering) == 0 ==> r == b
  {
    b.SetTexture(texture).SetRegion(region).SetFiltering(filtering)
  }

  /** Each setter, given the value it just stored, changes nothing. */
  lemma SettersIdempotent(b: TextureBinding, texture: EntityId, region: Vector4, filtering: TextureFiltering)
    ensures b.SetTexture(texture).SetTexture(texture) == b.SetTexture(texture)
    ensures b.SetRegion(region).SetRegion(region) == b.SetRegion(region)
    ensures b.SetFiltering(filtering).SetFiltering(filtering) == b.SetFiltering(filtering)
    ensures Retarget(Retarget(b, texture, region, filtering), texture, region, filtering) == Retarget(b, texture, region, filtering)
  {
  }

  /** Setters never affect equality-relevant identity: the key is kept, and a no-op setter keeps the binding. */
  lemma SettersKeepKey(b: TextureBinding, texture: EntityId, region: Vector4, filtering: TextureFiltering)
    ensures b.SetTexture(b.entity) == b && b.SetRegion(b.region) == b && b.SetFiltering(b.filtering) == b
    ensures b.SetFiltering(filtering).Equals(b)
  {
  }
}
