/** StencilSettings: the stencil test of one face. */
module Stencil {
  import opened Numeric
  import opened Enums
  import opened Hashing

  datatype StencilSettings = StencilSettings(
    failOperation: StencilOperation,
    passOperation: StencilOperation,
    depthFailOperation: StencilOperation,
    compareOperation: CompareOperation,
    compareMask: UInt32,
    writeMask: UInt32,
    referenceMask: UInt32)
  {
    /** Field-wise equality over all seven fields. */
    function Equals(other: StencilSettings): (r: bool)
      ensures r <==> this == other
    {
      && failOperation == other.failOperation
      && passOperation == other.passOperation
      && depthFailOperation == other.depthFailOperation
      && compareOperation == other.compareOperation
      && compareMask == other.compareMask
      && writeMask == other.writeMask
      && referenceMask == other.referenceMask
    }

    /** `!=`. */
    function NotEquals(other: StencilSettings): (r: bool)
      ensures r <==> this != other
    {
      !Equals(other)
    }

    /** The hashes of the fields in the order the hash folds them in. */
    function HashFields(): (fields: seq<int>)
      ensures |fields| == 7
    {
      [ failOperation.Code(), passOperation.Code(), depthFailOperation.Code(), compareOperation.Code(),
        AsInt32(compareMask), AsInt32(writeMask), AsInt32(referenceMask) ]
    }

    /** The 17/31 fold: the field polynomial reduced to a 32-bit `int`. */
    function HashCode(): (h: Int32)
      ensures h == Wrap(Polynomial(HashFields()))
    {
      HashFoldIsPolynomial(HashFields());
      HashFold(HashFields())
    }
  }

  /** The four-argument constructor: all mask bits compared and written, reference 0. */
  function NewStencilSettings(
    failOperation: StencilOperation, passOperation: StencilOperation,
    depthFailOperation: StencilOperation, compareOperation: CompareOperation): (s: StencilSettings)
    ensures s.failOperation == failOperation && s.passOperation == passOperation
    ensures s.depthFailOperation == depthFailOperation && s.compareOperation == compareOperation
    ensures s.compareMask == TWO_32 - 1 && s.writeMask == TWO_32 - 1 && s.referenceMask == 0
  {
    StencilSettings(failOperation, passOperation, depthFailOperation, compareOperation, 0xFFFF_FFFF, 0xFFFF_FFFF, 0)
  }

  /** `StencilSettings.Default`: keep the stencil value whatever happens, and always pass. */
  function Default(): (s: StencilSettings)
    ensures s == NewStencilSettings(Keep, Keep, Keep, Always)
  {
    NewStencilSettings(Keep, Keep, Keep, Always)
  }

  /** `default(StencilSettings)`: every field zero. */
  const ZeroStencil := StencilSettings(Keep, Keep, Keep, Never, 0, 0, 0)
}
