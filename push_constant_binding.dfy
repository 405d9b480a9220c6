/** PushConstantBinding: where one component's data sits in the push-constant block. */
module PushConstants {
  import opened Numeric
  import opened Enums
  import opened Hashing

  datatype PushConstantBinding = PushConstantBinding(
    start: Int32,
    componentType: Int32,
    componentSize: Int32,
    stage: ShaderType)
  {
    /** Compares start, component type and stage; the size takes no part. */
    function Equals(other: PushConstantBinding): (r: bool)
      ensures r <==> this.(componentSize := other.componentSize) == other
    {
      start == other.start && componentType == other.componentType && stage == other.stage
    }

    /** `!=`. */
    function NotEquals(other: PushConstantBinding): (r: bool)
      ensures r <==> this.(componentSize := other.componentSize) != other
    {
      !Equals(other)
    }

    /** The values the hash folds in, in order: the size is among them. */
    function HashFields(): (fields: seq<int>)
      ensures |fields| == 4 && fields[2] == componentSize
    {
      [start, componentType, componentSize, stage.code]
    }

    /** The 17/31 fold: the field polynomial reduced to a 32-bit `int`. */
    function HashCode(): (h: Int32)
      ensures h == Wrap(Polynomial(HashFields()))
    {
      HashFoldIsPolynomial(HashFields());
      HashFold(HashFields())
    }
  }

  /**
   * Equality and hash disagree: bindings that are `Equals` but differ in size
   * ALWAYS hash differently, so the hash is not consistent with equality.
   */
  lemma EqualBindingsOfDifferentSizeHashApart(a: PushConstantBinding, b: PushConstantBinding)
    requires a.Equals(b) && a.componentSize != b.componentSize
    ensures a.HashCode() != b.HashCode()
  {
    var xs, ys := a.HashFields(), b.HashFields();
    DistinctInt32(b.componentSize, a.componentSize);
    HashFoldIsPolynomial(xs);
    HashFoldSeesEveryField(xs, ys, 2);
  }

  /** A concrete pair: equal bindings of sizes 4 and 16 with different hashes. */
  lemma EqualBindingsHashApartExample()
    ensures PushConstantBinding(0, 7, 4, ShaderType(0)).Equals(PushConstantBinding(0, 7, 16, ShaderType(0)))
    ensures PushConstantBinding(0, 7, 4, ShaderType(0)).HashCode() != PushConstantBinding(0, 7, 16, ShaderType(0)).HashCode()
  {
    EqualBindingsOfDifferentSizeHashApart(PushConstantBinding(0, 7, 4, ShaderType(0)), PushConstantBinding(0, 7, 16, ShaderType(0)));
  }
}
