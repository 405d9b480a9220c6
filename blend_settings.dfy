/** BlendSettings: how a fragment's colour and alpha are blended into the target. */
module Blend {
  import opened Numeric
  import opened Enums
  import opened Hashing

  datatype BlendSettings = BlendSettings(
    blendEnable: bool,
    sourceColorBlend: BlendFactor,
    destinationColorBlend: BlendFactor,
    colorBlendOperation: BlendOperation,
    sourceAlphaBlend: BlendFactor,
    destinationAlphaBlend: BlendFactor,
    alphaBlendOperation: BlendOperation)
  {
    /** Field-wise equality over all seven fields; `==` is the same test. */
    function Equals(other: BlendSettings): (r: bool)
      ensures r <==> this == other
    {
      && blendEnable == other.blendEnable
      && sourceColorBlend == other.sourceColorBlend
      && destinationColorBlend == other.destinationColorBlend
      && colorBlendOperation == other.colorBlendOperation
      && sourceAlphaBlend == other.sourceAlphaBlend
      && destinationAlphaBlend == other.destinationAlphaBlend
      && alphaBlendOperation == other.alphaBlendOperation
    }

    /** `!=`. */
    function NotEquals(other: BlendSettings): (r: bool)
      ensures r <==> this != other
    {
      !Equals(other)
    }

    /** The hashes of the fields in the order the hash folds them in (`bool` hashes to 1 or 0). */
    function HashFields(): (fields: seq<int>)
      ensures |fields| == 7
    {
      [ if blendEnable then 1 else 0,
        sourceColorBlend.Code(), destinationColorBlend.Code(), colorBlendOperation.Code(),
        sourceAlphaBlend.Code(), destinationAlphaBlend.Code(), alphaBlendOperation.Code() ]
    }

    /** The 17/31 fold: the field polynomial reduced to a 32-bit `int`. */
    function HashCode(): (h: Int32)
      ensures h == Wrap(Polynomial(HashFields()))
    {
      HashFoldIsPolynomial(HashFields());
      HashFold(HashFields())
    }
  }

  /** No blending: the fragment replaces the target. */
  const Opaque := BlendSettings(false, One, BlendFactor.Zero, Add, One, BlendFactor.Zero, Add)

  /** Premultiplied-alpha blending. */
  const AlphaBlend := BlendSettings(true, One, OneMinusSourceAlpha, Add, One, OneMinusSourceAlpha, Add)

  /** Additive blending weighted by source alpha. */
  const Additive := BlendSettings(true, SourceAlpha, One, Add, SourceAlpha, One, Add)

  /** Straight (non-premultiplied) alpha blending. */
  const NonPremultiplied := BlendSettings(true, SourceAlpha, OneMinusSourceAlpha, Add, SourceAlpha, OneMinusSourceAlpha, Add)

  /** Only Opaque leaves blending off, and the four presets are pairwise different. */
  lemma PresetsDistinct()
    ensures !Opaque.blendEnable && AlphaBlend.blendEnable && Additive.blendEnable && NonPremultiplied.blendEnable
    ensures |{Opaque, AlphaBlend, Additive, NonPremultiplied}| == 4
  {
  }

  /** The field hashes determine the settings. */
  lemma HashFieldsInjective(a: BlendSettings, b: BlendSettings)
    requires forall i :: 0 <= i < 7 ==> a.HashFields()[i] == b.HashFields()[i]
    ensures a == b
  {
    CodesInjective();
    var xs, ys := a.HashFields(), b.HashFields();
    assert xs[0] == ys[0] && xs[1] == ys[1] && xs[2] == ys[2] && xs[3] == ys[3];
    assert xs[4] == ys[4] && xs[5] == ys[5] && xs[6] == ys[6];
  }

  /** Settings that differ somewhere but agree on all field hashes but one differ in that one. */
  lemma OneFieldDiffers(a: BlendSettings, b: BlendSettings, j: nat)
    requires j < 7
    requires forall i :: 0 <= i < 7 && i != j ==> a.HashFields()[i] == b.HashFields()[i]
    requires a != b
    ensures a.HashFields()[j] != b.HashFields()[j]
    ensures 0 <= a.HashFields()[j] < 32 && 0 <= b.HashFields()[j] < 32
  {
    if a.HashFields()[j] == b.HashFields()[j] {
      HashFieldsInjective(a, b);
    }
  }

  /** Settings that differ in exactly one field never hash alike. */
  lemma HashCodeSeesEveryField(a: BlendSettings, b: BlendSettings, j: nat)
    requires j < 7
    requires forall i :: 0 <= i < 7 && i != j ==> a.HashFields()[i] == b.HashFields()[i]
    requires a != b
    ensures a.HashCode() != b.HashCode()
  {
    OneFieldDiffers(a, b, j);
    var xs, ys := a.HashFields(), b.HashFields();
    var d := ys[j] - xs[j];
    assert d % TWO_32 != 0 by {
      assert -32 < d < 32 && d != 0;
    }
    HashFoldSeesEveryField(xs, ys, j);
  }
}
