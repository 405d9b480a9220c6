/**
 * DescriptorResourceKey: a shader resource slot, a (binding, set) pair packed
 * into one byte with the set in the high nibble and the binding in the low
 * nibble, and its `binding:set` text form.
 */
module DescriptorKeys {
  import opened Numeric
  import opened Wrappers

  /** Both the set and the binding must stay below this bound. */
  const MaxSetOrBindingValue: Byte := 15

  /** The two ArgumentOutOfRangeException cases of the constructor. */
  datatype KeyError = SetOutOfRange(descriptorSet: Byte) | BindingOutOfRange(binding: Byte)

  /** The packed byte: `value >> 4` is the set and `value & 0x0F` the binding. */
  datatype DescriptorResourceKey = DescriptorResourceKey(value: Byte)
  {
    /** The high nibble. */
    function Set(): (s: Byte)
      ensures s < 16
    {
      value / 16
    }

    /** The low nibble. */
    function Binding(): (b: Byte)
      ensures b < 16
    {
      value % 16
    }

    /** A key the constructor can produce (or the all-zero default key). */
    predicate Valid() {
      Set() < MaxSetOrBindingValue && Binding() < MaxSetOrBindingValue
    }

    /** The pair in the order (binding, set). */
    function Deconstruct(): (pair: (Byte, Byte))
      ensures pair.0 == Binding() && pair.1 == Set()
      ensures pair.1 * 16 + pair.0 == value
    {
      (value % 16, value / 16)
    }

    /** Equality compares the packed bytes, so it is exactly value equality. */
    function Equals(other: DescriptorResourceKey): (r: bool)
      ensures r <==> this == other
      ensures r <==> Binding() == other.Binding() && Set() == other.Set()
    {
      value == other.value
    }

    /**
     * Comparison against an unpacked pair. The pair is packed as
     * `(byte)(set << 4 | binding)`, without range checks.
     */
    function EqualsPair(binding: Byte, descriptorSet: Byte): (r: bool)
      ensures binding < 16 && descriptorSet < 16 ==> (r <==> Binding() == binding && Set() == descriptorSet)
    {
      if binding < 16 && descriptorSet < 16 then
        BitOrDisjoint(descriptorSet, binding, 16);
        NibbleSplit(value, binding, descriptorSet);
        value == BitOr(descriptorSet * 16, binding) % 256
      else
        value == BitOr(descriptorSet * 16, binding) % 256
    }

    /** The packed byte is the hash. */
    function HashCode(): (h: Int32)
      ensures 0 <= h < 256
      ensures h == Set() * 16 + Binding()
    {
      value
    }

    /** The `binding:set` text, in decimal. */
    function Text(): (t: seq<char>)
      ensures 3 <= |t| <= 5
    {
      Decimal(Binding()) + [':'] + Decimal(Set())
    }

    /**
     * Writes the text form at the start of `buffer` and returns its length;
     * a buffer too short for the text makes the C# code throw.
     */
    method ToString(buffer: array<char>) returns (length: nat)
      requires |Text()| <= buffer.Length
      modifies buffer
      ensures length == |Text()|
      ensures buffer[..length] == Text()
      ensures buffer[length..] == old(buffer[length..])
    {
      var bindingText, setText := Decimal(Binding()), Decimal(Set());
      length := 0;
      var written := WriteDecimal(buffer, length, Binding());
      length := length + written;
      assert buffer[..length] == bindingText;
      buffer[length] := ':';
      length := length + 1;
      assert buffer[..length] == bindingText + [':'];
      written := WriteDecimal(buffer, length, Set());
      assert buffer[..length] == bindingText + [':'];
      length := length + written;
      assert buffer[..length] == buffer[..length - written] + buffer[length - written..length];
    }
  }

  /** A byte is a given pair of nibbles exactly when its quotient and remainder by 16 are that pair. */
  lemma NibbleSplit(v: Byte, binding: Byte, descriptorSet: Byte)
    requires binding < 16 && descriptorSet < 16
    ensures v == descriptorSet * 16 + binding <==> v / 16 == descriptorSet && v % 16 == binding
  {
    if v / 16 == descriptorSet && v % 16 == binding {
      assert v == (v / 16) * 16 + v % 16;
    }
  }

  /** The key `default(DescriptorResourceKey)`: binding 0 of set 0. */
  const DefaultKey := DescriptorResourceKey(0)

  /** The constructor: rejects an out-of-range set first, then an out-of-range binding. */
  function NewKey(binding: Byte, descriptorSet: Byte): (r: Result<DescriptorResourceKey, KeyError>)
    ensures r.Success? <==> descriptorSet < MaxSetOrBindingValue && binding < MaxSetOrBindingValue
    ensures descriptorSet >= MaxSetOrBindingValue ==> r == Failure(SetOutOfRange(descriptorSet))
    ensures descriptorSet < MaxSetOrBindingValue && binding >= MaxSetOrBindingValue ==> r == Failure(BindingOutOfRange(binding))
    ensures r.Success? ==> r.value.Valid() && r.value.Binding() == binding && r.value.Set() == descriptorSet
    ensures r.Success? ==> r.value.Deconstruct() == (binding, descriptorSet)
    ensures r.Success? ==> r.value.EqualsPair(binding, descriptorSet)
  {
    if descriptorSet >= MaxSetOrBindingValue then Failure(SetOutOfRange(descriptorSet))
    else if binding >= MaxSetOrBindingValue then Failure(BindingOutOfRange(binding))
    else Success(DescriptorResourceKey(descriptorSet * 16 + binding))
  }

  /** The hash is exact: two keys hash alike precisely when they are equal. */
  lemma HashCodeExact(k1: DescriptorResourceKey, k2: DescriptorResourceKey)
    ensures k1.HashCode() == k2.HashCode() <==> k1.Equals(k2)
  {
  }

  /** Every valid key is the constructor's result for its own binding and set. */
  lemma ValidKeyIsConstructed(k: DescriptorResourceKey)
    requires k.Valid()
    ensures NewKey(k.Binding(), k.Set()) == Success(k)
  {
  }

  /** Packing is injective: valid keys with the same binding and set are the same key. */
  lemma PackingInjective(b1: Byte, s1: Byte, b2: Byte, s2: Byte)
    requires NewKey(b1, s1).Success? && NewKey(b2, s2).Success?
    ensures NewKey(b1, s1) == NewKey(b2, s2) <==> b1 == b2 && s1 == s2
  {
  }

  /**
   * The unchecked pair comparison lets a binding of 16 or more spill into
   * the set nibble: key 0:1 compares equal to the pair (16, 0).
   */
  lemma EqualsPairIsUnchecked()
    ensures NewKey(0, 1).Success?
    ensures NewKey(0, 1).value.EqualsPair(16, 0)
    ensures NewKey(16, 0).Failure?
  {
    assert BitOr(0, 16) == 16;
  }

  // ---- decimal text ----

  function DigitChar(d: nat): (c: char)
    requires d < 10
    ensures '0' <= c <= '9'
  {
    ['0', '1', '2', '3', '4', '5', '6', '7', '8', '9'][d]
  }

  function DigitValue(c: char): (d: nat)
    requires '0' <= c <= '9'
    ensures d < 10 && DigitChar(d) == c
  {
    (c as int - '0' as int)
  }

  predicate IsDigits(s: seq<char>) {
    forall i :: 0 <= i < |s| ==> '0' <= s[i] <= '9'
  }

  /** The decimal digits of `n`, most significant first, without leading zeros. */
  function Decimal(n: nat): (s: seq<char>)
    ensures 1 <= |s| && IsDigits(s)
    ensures n < 10 ==> |s| == 1
    ensures 10 <= n < 100 ==> |s| == 2
  {
    if n < 10 then [DigitChar(n)] else Decimal(n / 10) + [DigitChar(n % 10)]
  }

  /** The value of a digit string, leading zeros allowed. */
  function DigitsValue(s: seq<char>): nat
    requires IsDigits(s)
    decreases |s|
  {
    if |s| == 0 then 0
    else DigitsValue(s[..|s| - 1]) * 10 + DigitValue(s[|s| - 1])
  }

  /** Reading back the digits that `Decimal` writes gives the number again. */
  lemma {:induction false} DecimalRoundTrip(n: nat)
    ensures DigitsValue(Decimal(n)) == n
  {
    if n >= 10 {
      var s := Decimal(n);
      assert s[..|s| - 1] == Decimal(n / 10);
      DecimalRoundTrip(n / 10);
    }
  }

  /**
   * `byte.TryParse` restricted to ASCII decimal digits: a non-empty digit
   * string whose value fits in a byte.
   */
  function ParseByte(s: seq<char>): (r: Option<Byte>)
    ensures r.Some? <==> |s| > 0 && IsDigits(s) && DigitsValue(s) < 256
    ensures r.Some? ==> r.value == DigitsValue(s)
  {
    if |s| > 0 && IsDigits(s) && DigitsValue(s) < 256 then Some(DigitsValue(s)) else None
  }

  lemma ParseByteDecimal(b: Byte)
    ensures ParseByte(Decimal(b)) == Some(b)
  {
    DecimalRoundTrip(b);
  }

  /** The position of the first ':' in `s`, if there is one. */
  function IndexOfColon(s: seq<char>): (r: Option<nat>)
    ensures r.Some? ==> r.value < |s| && s[r.value] == ':'
    ensures r.Some? ==> forall i :: 0 <= i < r.value ==> s[i] != ':'
    ensures r.None? ==> forall i :: 0 <= i < |s| ==> s[i] != ':'
    decreases |s|
  {
    if |s| == 0 then None
    else if s[0] == ':' then Some(0)
    else match IndexOfColon(s[1..])
      case None => None
      case Some(i) => Some(i + 1)
  }

  /** What `TryParse` does: return a flag and a key, or throw from the constructor. */
  datatype TryParseResult =
    | Returned(ok: bool, key: DescriptorResourceKey)
    | Threw(error: KeyError)

  /**
   * Splits at the first ':' and parses both sides as bytes; a failed split or
   * parse returns false with the default key, while parsed values of 15 or
   * more reach the constructor, which throws.
   */
  function TryParse(text: seq<char>): (r: TryParseResult)
    ensures |text| == 0 ==> r == Returned(false, DefaultKey)
    ensures (forall i :: 0 <= i < |text| ==> text[i] != ':') ==> r == Returned(false, DefaultKey)
    ensures r.Returned? && !r.ok ==> r.key == DefaultKey
    ensures r.Returned? && r.ok ==>
      exists i :: 0 <= i < |text| && text[i] == ':' &&
        ParseByte(text[..i]) == Some(r.key.Binding()) &&
        ParseByte(text[i + 1..]) == Some(r.key.Set()) && r.key.Valid()
    // With a first colon at c: a side that is not a byte gives false ...
    ensures IndexOfColon(text).Some? ==>
      var c := IndexOfColon(text).value;
      ParseByte(text[..c]).None? || ParseByte(text[c + 1..]).None? ==> r == Returned(false, DefaultKey)
    // ... two bytes below 15 give true and the key holding exactly them ...
    ensures IndexOfColon(text).Some? ==>
      var c := IndexOfColon(text).value;
      var binding, descriptorSet := ParseByte(text[..c]), ParseByte(text[c + 1..]);
      binding.Some? && descriptorSet.Some? &&
      binding.value < MaxSetOrBindingValue && descriptorSet.value < MaxSetOrBindingValue ==>
        r.Returned? && r.ok && r.key.Valid() &&
        r.key.Binding() == binding.value && r.key.Set() == descriptorSet.value
    // ... and two bytes of which one is 15 or more throw, the set checked first.
    ensures IndexOfColon(text).Some? ==>
      var c := IndexOfColon(text).value;
      var binding, descriptorSet := ParseByte(text[..c]), ParseByte(text[c + 1..]);
      binding.Some? && descriptorSet.Some? ==>
        (descriptorSet.value >= MaxSetOrBindingValue ==> r == Threw(SetOutOfRange(descriptorSet.value))) &&
        (descriptorSet.value < MaxSetOrBindingValue && binding.value >= MaxSetOrBindingValue ==>
           r == Threw(BindingOutOfRange(binding.value)))
  {
    if |text| == 0 then Returned(false, DefaultKey)
    else match IndexOfColon(text)
      case None => Returned(false, DefaultKey)
      case Some(colon) =>
        match (ParseByte(text[..colon]), ParseByte(text[colon + 1..]))
        case (Some(binding), Some(descriptorSet)) =>
          (match NewKey(binding, descriptorSet)
           case Success(key) => Returned(true, key)
           case Failure(e) => Threw(e))
        case _ => Returned(false, DefaultKey)
  }

  /** The exceptions of `Parse`. */
  datatype ParseError = MissingColon | NotAByte | OutOfRange(error: KeyError)

  /** `Parse`: the same split, with every failure thrown. */
  function Parse(text: seq<char>): (r: Result<DescriptorResourceKey, ParseError>)
    ensures (forall i :: 0 <= i < |text| ==> text[i] != ':') ==> r == Failure(MissingColon)
    ensures IndexOfColon(text).Some? ==>
      var c := IndexOfColon(text).value;
      ParseByte(text[..c]).None? || ParseByte(text[c + 1..]).None? ==> r == Failure(NotAByte)
    ensures IndexOfColon(text).Some? ==>
      var c := IndexOfColon(text).value;
      var binding, descriptorSet := ParseByte(text[..c]), ParseByte(text[c + 1..]);
      binding.Some? && descriptorSet.Some? &&
      binding.value < MaxSetOrBindingValue && descriptorSet.value < MaxSetOrBindingValue ==>
        r.Success? && r.value.Valid() &&
        r.value.Binding() == binding.value && r.value.Set() == descriptorSet.value
    ensures IndexOfColon(text).Some? ==>
      var c := IndexOfColon(text).value;
      var binding, descriptorSet := ParseByte(text[..c]), ParseByte(text[c + 1..]);
      binding.Some? && descriptorSet.Some? ==>
        (descriptorSet.value >= MaxSetOrBindingValue ==> r == Failure(OutOfRange(SetOutOfRange(descriptorSet.value)))) &&
        (descriptorSet.value < MaxSetOrBindingValue && binding.value >= MaxSetOrBindingValue ==>
           r == Failure(OutOfRange(BindingOutOfRange(binding.value))))
  {
    match IndexOfColon(text)
    case None => Failure(MissingColon)
    case Some(colon) =>
      match (ParseByte(text[..colon]), ParseByte(text[colon + 1..]))
      case (Some(binding), Some(descriptorSet)) =>
        (match NewKey(binding, descriptorSet)
         case Success(key) => Success(key)
         case Failure(e) => Failure(OutOfRange(e)))
      case _ => Failure(NotAByte)
  }

  /** `Parse` succeeds exactly where `TryParse` returns true, and throws the range error exactly where it does. */
  lemma ParseAgreesWithTryParse(text: seq<char>)
    ensures forall k :: Parse(text) == Success(k) <==> TryParse(text) == Returned(true, k)
    ensures forall e :: Parse(text) == Failure(OutOfRange(e)) <==> TryParse(text) == Threw(e)
  {
  }

  lemma {:induction false} IndexOfColonAfterDigits(digits: seq<char>, rest: seq<char>)
    requires IsDigits(digits)
    ensures IndexOfColon(digits + [':'] + rest) == Some(|digits|)
    decreases |digits|
  {
    if |digits| > 0 {
      assert (digits + [':'] + rest)[1..] == digits[1..] + [':'] + rest;
      IndexOfColonAfterDigits(digits[1..], rest);
    }
  }

  /** Printing then parsing gives back the key. */
  lemma TextRoundTrip(k: DescriptorResourceKey)
    requires k.Valid()
    ensures TryParse(k.Text()) == Returned(true, k)
    ensures Parse(k.Text()) == Success(k)
  {
    var b, s := Decimal(k.Binding()), Decimal(k.Set());
    IndexOfColonAfterDigits(b, s);
    assert k.Text()[..|b|] == b;
    assert k.Text()[|b| + 1..] == s;
    ParseByteDecimal(k.Binding());
    ParseByteDecimal(k.Set());
    ValidKeyIsConstructed(k);
  }

  /** `TryParse` throws rather than returning false when a parsed set or binding is 15 or more. */
  lemma TryParseThrowsOnLargeParts()
    ensures TryParse("0:15") == Threw(SetOutOfRange(15))
    ensures TryParse("15:0") == Threw(BindingOutOfRange(15))
    ensures TryParse("15:15") == Threw(SetOutOfRange(15))
  {
    assert IndexOfColon("0:15") == Some(1);
    assert IndexOfColon("15:0") == Some(2);
    assert IndexOfColon("15:15") == Some(2);
    assert "0:15"[..1] == "0" && "0:15"[2..] == "15";
    assert "15:0"[..2] == "15" && "15:0"[3..] == "0";
    assert "15:15"[..2] == "15" && "15:15"[3..] == "15";
    assert DigitsValue("15") == 15 by { assert "15"[..1] == "1"; }
  }

  /**
   * Writes the decimal digits of `n` into `buffer` from `offset`, as the
   * host library's `byte.ToString(Span<char>)` does, and returns how many.
   */
  method WriteDecimal(buffer: array<char>, offset: nat, n: nat) returns (written: nat)
    requires offset + |Decimal(n)| <= buffer.Length
    modifies buffer
    ensures written == |Decimal(n)|
    ensures buffer[offset..offset + written] == Decimal(n)
    ensures buffer[..offset] == old(buffer[..offset])
    ensures buffer[offset + written..] == old(buffer[offset + written..])
  {
    var digits := Decimal(n);
    written := 0;
    while written < |digits|
      invariant written <= |digits|
      invariant buffer[offset..offset + written] == digits[..written]
      invariant buffer[..offset] == old(buffer[..offset])
      invariant buffer[offset + written..] == old(buffer[offset + written..])
    {
      buffer[offset + written] := digits[written];
      written := written + 1;
    }
  }
}
