/**
 * IsMaterial as Data/Components/IsMaterial.cs declares it: a version, the
 * two shader references and the flags and depth comparison of a material.
 */
module MaterialComponent {
  import opened Numeric
  import opened Enums

  datatype IsMaterial = IsMaterial(
    version: UInt32,
    vertexShaderReference: RInt,
    fragmentShaderReference: RInt,
    flags: MaterialFlags,
    depthCompareOperation: CompareOperation)
  {
    /** Field-wise equality, the version included. */
    function Equals(other: IsMaterial): (r: bool)
      ensures r <==> this == other
    {
      && version == other.version
      && vertexShaderReference == other.vertexShaderReference
      && fragmentShaderReference == other.fragmentShaderReference
      && flags == other.flags
      && depthCompareOperation == other.depthCompareOperation
    }

    /** `!=`. */
    function NotEquals(other: IsMaterial): (r: bool)
      ensures r <==> this != other
    {
      !Equals(other)
    }

    /**
     * A copy pointing at new shaders, one version later (`version + 1` on a
     * `uint`); flags and depth comparison are kept. Because the version
     * always moves, the result never equals the original.
     */
    function IncrementVersion(vertexShaderReference: RInt, fragmentShaderReference: RInt): (r: IsMaterial)
      ensures r.version == WrapU(version + 1)
      ensures r.vertexShaderReference == vertexShaderReference
      ensures r.fragmentShaderReference == fragmentShaderReference
      ensures r.flags == flags && r.depthCompareOperation == depthCompareOperation
      ensures !r.Equals(this)
    {
      IsMaterial(Increment(version), vertexShaderReference, fragmentShaderReference, flags, depthCompareOperation)
    }
  }

  /** The constructor stores all five arguments. */
  function NewIsMaterial(version: UInt32, vertexShaderReference: RInt, fragmentShaderReference: RInt,
                         flags: MaterialFlags, depthCompareOperation: CompareOperation): (m: IsMaterial)
    ensures m.version == version
    ensures m.vertexShaderReference == vertexShaderReference && m.fragmentShaderReference == fragmentShaderReference
    ensures m.flags == flags && m.depthCompareOperation == depthCompareOperation
  {
    IsMaterial(version, vertexShaderReference, fragmentShaderReference, flags, depthCompareOperation)
  }

  /** `n` successive `IncrementVersion` calls with the same shader references. */
  function Reloaded(m: IsMaterial, n: nat, vertexShaderReference: RInt, fragmentShaderReference: RInt): IsMaterial
  {
    if n == 0 then m
    else Reloaded(m, n - 1, vertexShaderReference, fragmentShaderReference).IncrementVersion(vertexShaderReference, fragmentShaderReference)
  }

  /** After `n` reloads the version has moved on by `n`, modulo 2^32, and flags and depth comparison are those of the start. */
  lemma {:induction false} ReloadedVersion(m: IsMaterial, n: nat, v: RInt, f: RInt)
    ensures Reloaded(m, n, v, f).version == WrapU(m.version + n)
    ensures Reloaded(m, n, v, f).flags == m.flags
    ensures Reloaded(m, n, v, f).depthCompareOperation == m.depthCompareOperation
    ensures n > 0 ==> Reloaded(m, n, v, f).vertexShaderReference == v && Reloaded(m, n, v, f).fragmentShaderReference == f
  {
    if n > 0 {
      ReloadedVersion(m, n - 1, v, f);
      WrapUAdd(m.version + n - 1, 1);
    }
  }

  /**
   * A component reloaded fewer than 2^32 times never compares equal to the
   * one it started from: the version only repeats after a full wrap-around.
   */
  lemma ReloadsAreDistinct(m: IsMaterial, n: nat, v: RInt, f: RInt)
    requires 0 < n < TWO_32
    ensures !Reloaded(m, n, v, f).Equals(m)
  {
    ReloadedVersion(m, n, v, f);
  }
}
