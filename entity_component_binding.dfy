/** EntityComponentBinding: which entity's component feeds the shader resource at a key. */
module ComponentBindings {
  import opened Numeric
  import opened Enums
  import opened Hashing
  import opened DescriptorKeys

  datatype EntityComponentBinding = EntityComponentBinding(
    key: DescriptorResourceKey,
    entity: EntityId,
    componentType: DataType,
    stage: ShaderType)
  {
    /** Compares component type, key and stage; the source entity takes no part. */
    function Equals(other: EntityComponentBinding): (r: bool)
      ensures r <==> this.(entity := other.entity) == other
    {
      componentType == other.componentType && key.Equals(other.key) && stage == other.stage
    }

    /** `!=`. */
    function NotEquals(other: EntityComponentBinding): (r: bool)
      ensures r <==> this.(entity := other.entity) != other
    {
      !Equals(other)
    }

    /**
     * The values the hash folds in, in order. `typeHash` is the hash of the
     * component type, which the host library computes.
     */
    function HashFields(typeHash: Int32): (fields: seq<int>)
      ensures |fields| == 4 && fields[1] == AsInt32(entity)
    {
      [typeHash, AsInt32(entity), key.HashCode(), stage.code]
    }

    /** The 17/31 fold: the field polynomial reduced to a 32-bit `int`. */
    function HashCode(typeHash: Int32): (h: Int32)
      ensures h == Wrap(Polynomial(HashFields(typeHash)))
    {
      HashFoldIsPolynomial(HashFields(typeHash));
      HashFold(HashFields(typeHash))
    }
  }

  /**
   * Equality and hash disagree: bindings that are `Equals` but read from
   * different entities ALWAYS hash differently.
   */
  lemma EqualBindingsOfDifferentEntitiesHashApart(a: EntityComponentBinding, b: EntityComponentBinding, typeHash: Int32)
    requires a.Equals(b) && a.entity != b.entity
    ensures a.HashCode(typeHash) != b.HashCode(typeHash)
  {
    var xs, ys := a.HashFields(typeHash), b.HashFields(typeHash);
    DistinctAsInt32(b.entity, a.entity);
    HashFoldIsPolynomial(xs);
    HashFoldSeesEveryField(xs, ys, 1);
  }
}
