/** DepthSettings: the depth test, depth bounds and the stencil test of both faces. */
module Depth {
  import opened Enums
  import opened Stencil

  /** The four flag bits of `DepthSettings.Flags`. */
  datatype DepthFlag = DepthTest | DepthWrite | DepthBoundsTest | StencilTest
  {
    /** The bit's position: DepthTest = 1, DepthWrite = 2, DepthBoundsTest = 4, StencilTest = 8. */
    function Position(): (p: nat)
      ensures p < 4
    {
      match this
      case DepthTest => 0
      case DepthWrite => 1
      case DepthBoundsTest => 2
      case StencilTest => 3
    }

    function Bit(): (b: bv8)
      ensures b == 1 << Position()
    {
      match this
      case DepthTest => 1
      case DepthWrite => 2
      case DepthBoundsTest => 4
      case StencilTest => 8
    }
  }

  datatype DepthSettings = DepthSettings(
    flags: bv8,
    compareOperation: CompareOperation,
    minDepth: Float32,
    maxDepth: Float32,
    front: StencilSettings,
    back: StencilSettings)
  {
    /** The flag getters: true iff the flag's bit is set. */
    function Get(flag: DepthFlag): (on: bool)
      ensures on <==> (flags >> flag.Position()) & 1 == 1
    {
      flags & flag.Bit() != 0
    }

    /** The flag setters: `flags |= bit` when switching on, `flags &= ~bit` when switching off. */
    function With(flag: DepthFlag, value: bool): (r: DepthSettings)
      ensures r.Get(flag) == value
      ensures forall other :: other != flag ==> r.Get(other) == Get(other)
      ensures r.flags & !flag.Bit() == flags & !flag.Bit()
      ensures r == this.(flags := r.flags)
    {
      if value then this.(flags := flags | flag.Bit())
      else this.(flags := flags & !flag.Bit())
    }

    /** Field-wise equality over all six fields. */
    function Equals(other: DepthSettings): (r: bool)
      ensures r <==> this == other
    {
      && flags == other.flags
      && compareOperation == other.compareOperation
      && minDepth == other.minDepth
      && maxDepth == other.maxDepth
      && front.Equals(other.front)
      && back.Equals(other.back)
    }

    /** `!=`. */
    function NotEquals(other: DepthSettings): (r: bool)
      ensures r <==> this != other
    {
      !Equals(other)
    }
  }

  /** Setting a flag twice to the same value is the same as setting it once. */
  lemma WithIdempotent(d: DepthSettings, flag: DepthFlag, value: bool)
    ensures d.With(flag, value).With(flag, value) == d.With(flag, value)
  {
  }

  /** Writing back the value a flag already has changes nothing. */
  lemma WithCurrentValue(d: DepthSettings, flag: DepthFlag)
    ensures d.With(flag, d.Get(flag)) == d
  {
  }

  /** The two-argument constructor: no depth bounds and the default stencil test on both faces. */
  function FromFlags(flags: bv8, compareOperation: CompareOperation): (d: DepthSettings)
    ensures d.flags == flags && d.compareOperation == compareOperation
    ensures d.minDepth == ZeroFloat && d.maxDepth == ZeroFloat
    ensures d.front == Stencil.Default() && d.back == Stencil.Default()
  {
    DepthSettings(flags, compareOperation, ZeroFloat, ZeroFloat, Stencil.Default(), Stencil.Default())
  }

  /** Which flags a settings value has on, as a set. */
  function FlagsOn(d: DepthSettings): set<DepthFlag> {
    set flag: DepthFlag | flag in {DepthTest, DepthWrite, DepthBoundsTest, StencilTest} && d.Get(flag)
  }

  /** `DepthSettings.None`: no test at all. */
  function None(): (d: DepthSettings)
    ensures FlagsOn(d) == {} && d.compareOperation == LessOrEqual
    ensures d == FromFlags(0, LessOrEqual)
  {
    var d := FromFlags(0, LessOrEqual);
    assert FlagsOn(d) == {};
    d
  }

  /** `DepthSettings.Default`: test and write depth, passing nearer-or-equal fragments. */
  function Default(): (d: DepthSettings)
    ensures FlagsOn(d) == {DepthTest, DepthWrite} && d.compareOperation == LessOrEqual
    ensures d.flags == DepthTest.Bit() | DepthWrite.Bit()
    ensures d == FromFlags(d.flags, LessOrEqual)
  {
    var d := FromFlags(DepthTest.Bit() | DepthWrite.Bit(), LessOrEqual);
    assert FlagsOn(d) == {DepthTest, DepthWrite};
    d
  }

  /** `DepthSettings.Read`: test depth without writing it. */
  function Read(): (d: DepthSettings)
    ensures FlagsOn(d) == {DepthTest} && d.compareOperation == LessOrEqual
    ensures d.flags == DepthTest.Bit()
    ensures d == FromFlags(d.flags, LessOrEqual)
  {
    var d := FromFlags(DepthTest.Bit(), LessOrEqual);
    assert FlagsOn(d) == {DepthTest};
    d
  }

  /** `DepthSettings.ReverseZ`: Default with the comparison reversed. */
  function ReverseZ(): (d: DepthSettings)
    ensures d == Default().(compareOperation := GreaterOrEqual)
  {
    FromFlags(DepthTest.Bit() | DepthWrite.Bit(), GreaterOrEqual)
  }

  /** `DepthSettings.ReadReverseZ`: Read with the comparison reversed. */
  function ReadReverseZ(): (d: DepthSettings)
    ensures d == Read().(compareOperation := GreaterOrEqual)
  {
    FromFlags(DepthTest.Bit(), GreaterOrEqual)
  }

  /** The five presets are five different settings. */
  lemma PresetsDistinct()
    ensures |{None(), Default(), Read(), ReverseZ(), ReadReverseZ()}| == 5
  {
  }
}
