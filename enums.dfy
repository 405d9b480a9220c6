/** Option, for lookups that may find nothing, and Result, for operations that may throw. */
module Wrappers {
  datatype Option<+T> = None | Some(value: T)

  /** A value, or the exception the C# code throws instead of returning one. */
  datatype Result<+T, +E> = Success(value: T) | Failure(error: E)
}

/**
 * The enumerations and small value types the material records are built
 * from, and the host types they mention. Each enum's `Code` is its underlying integer, which is what the
 * C# `GetHashCode` of an enum value returns.
 */
module Enums {
  import opened Numeric

  /** BlendFactor.cs, in declaration order. */
  datatype BlendFactor =
    | Zero | One
    | SourceColor | OneMinusSourceColor
    | DestinationColor | OneMinusDestinationColor
    | SourceAlpha | OneMinusSourceAlpha
    | DestinationAlpha | OneMinusDestinationAlpha
    | ConstantColor | OneMinusConstantColor
    | ConstantAlpha | OneMinusConstantAlpha
    | SourceAlphaSaturate
    | SourceOneColor | OneMinusSourceOneColor
    | SourceOneAlpha | OneMinusSourceOneAlpha
  {
    function Code(): nat {
      match this
      case Zero => 0
      case One => 1
      case SourceColor => 2
      case OneMinusSourceColor => 3
      case DestinationColor => 4
      case OneMinusDestinationColor => 5
      case SourceAlpha => 6
      case OneMinusSourceAlpha => 7
      case DestinationAlpha => 8
      case OneMinusDestinationAlpha => 9
      case ConstantColor => 10
      case OneMinusConstantColor => 11
      case ConstantAlpha => 12
      case OneMinusConstantAlpha => 13
      case SourceAlphaSaturate => 14
      case SourceOneColor => 15
      case OneMinusSourceOneColor => 16
      case SourceOneAlpha => 17
      case OneMinusSourceOneAlpha => 18
    }
  }

  /**
   * The blend operation enum lives outside this repository; its members and
   * codes are taken in the order of the graphics API it mirrors (Add first).
   */
  datatype BlendOperation = Add | Subtract | ReverseSubtract | Min | Max
  {
    function Code(): nat {
      match this
      case Add => 0
      case Subtract => 1
      case ReverseSubtract => 2
      case Min => 3
      case Max => 4
    }
  }

  /** StencilOperation.cs, in declaration order. */
  datatype StencilOperation =
    | Keep | Zero | Replace
    | IncrementThenClamp | DecrementThenClamp
    | Invert
    | IncrementThenWrap | DecrementThenWrap
  {
    function Code(): nat {
      match this
      case Keep => 0
      case Zero => 1
      case Replace => 2
      case IncrementThenClamp => 3
      case DecrementThenClamp => 4
      case Invert => 5
      case IncrementThenWrap => 6
      case DecrementThenWrap => 7
    }
  }

  /** CompareOperation.cs, in declaration order. */
  datatype CompareOperation =
    | Never | Less | Equal | LessOrEqual
    | Greater | NotEqual | GreaterOrEqual | Always
  {
    function Code(): nat {
      match this
      case Never => 0
      case Less => 1
      case Equal => 2
      case LessOrEqual => 3
      case Greater => 4
      case NotEqual => 5
      case GreaterOrEqual => 6
      case Always => 7
    }
  }

  /** MaterialFlags.cs: a byte of flag bits, DepthTest = 1 and DepthWrite = 2. */
  datatype MaterialFlags = MaterialFlags(bits: bv8)

  const NoMaterialFlags := MaterialFlags(0)
  const DepthTestFlag := MaterialFlags(1)
  const DepthWriteFlag := MaterialFlags(2)

  /** The host schema's description of a component type: its type index and its size in bytes. */
  datatype DataType = DataType(index: Int32, size: Int32)

  /** An entity id of the host world (`Entity.value`). */
  type EntityId = UInt32

  /** `rint`: a 1-based index into an entity's list of references to other entities. */
  type RInt = UInt32

  /** The shader-stage enum of the external shader library, by its underlying value. */
  datatype ShaderType = ShaderType(code: int)

  /** The texture filtering enum of the external texture library. */
  datatype TextureFiltering = Nearest | Linear

  /** A `float`, held as its bit pattern; float arithmetic is not modelled. */
  datatype Float32 = Float32(bits: bv32)

  const ZeroFloat := Float32(0)
  const OneFloat := Float32(0x3F80_0000)

  /** `System.Numerics.Vector4`: a texture region (x, y, width, height). */
  datatype Vector4 = Vector4(x: Float32, y: Float32, z: Float32, w: Float32)

  /** The whole texture, (0, 0, 1, 1): the region used when none is given. */
  const FullRegion := Vector4(ZeroFloat, ZeroFloat, OneFloat, OneFloat)

  /** `default(Vector4)`. */
  const ZeroVector := Vector4(ZeroFloat, ZeroFloat, ZeroFloat, ZeroFloat)

  /** Different enum members have different codes, so their hashes tell them apart. */
  lemma CodesInjective()
    ensures forall x: BlendFactor, y: BlendFactor :: x.Code() == y.Code() ==> x == y
    ensures forall x: BlendOperation, y: BlendOperation :: x.Code() == y.Code() ==> x == y
    ensures forall x: StencilOperation, y: StencilOperation :: x.Code() == y.Code() ==> x == y
    ensures forall x: CompareOperation, y: CompareOperation :: x.Code() == y.Code() ==> x == y
  {
  }
}
