/** src/utils.rs: big-endian byte extraction, the i64 splitter, array
    initialisers, and the bit test of the `add_flags!` macro. */
module Utils {
  import opened Wrappers
  import opened Operand
  import opened Objects

  /** A `u8` of the class file. */
  type byte = b: int | 0 <= b < 256

  function Pow256(n: nat): (r: nat)
    ensures r >= 1
  {
    if n == 0 then 1 else 256 * Pow256(n - 1)
  }

  function Pow2(n: nat): (r: nat)
    ensures r >= 1
  {
    if n == 0 then 1 else 2 * Pow2(n - 1)
  }

  /** The unsigned big-endian number the bytes spell, most significant first
      (section 4.1 of The Java Virtual Machine Specification: multibyte
      quantities are stored in big-endian order). */
  function BigEndian(s: seq<byte>): nat
  {
    if |s| == 0 then 0 else BigEndian(s[..|s| - 1]) * 256 + s[|s| - 1]
  }

  /** An x-byte quantity is below 256^x. */
  lemma {:induction false} BigEndianBound(s: seq<byte>)
    ensures BigEndian(s) < Pow256(|s|)
  {
    if |s| > 0 {
      var p := s[..|s| - 1];
      BigEndianBound(p);
      assert BigEndian(p) + 1 <= Pow256(|p|);
      assert (BigEndian(p) + 1) * 256 <= Pow256(|p|) * 256;
      assert BigEndian(s) == BigEndian(p) * 256 + s[|s| - 1];
    }
  }

  /** Two bytes read as a `u2` value. */
  lemma BigEndianTwo(a: byte, b: byte)
    ensures BigEndian([a, b]) == a * 256 + b
  {
    assert [a, b][..1] == [a];
    assert [a][..0] == [];
    assert BigEndian([a]) == a;
  }

  /** The u2 at `index`: its two bytes, most significant first. */
  function U2At(inputs: seq<byte>, index: nat): nat
    requires index + 2 <= |inputs|
  {
    inputs[index] as nat * 256 + inputs[index + 1] as nat
  }

  /** The u4 at `index`: its high u2, then its low u2. */
  function U4At(inputs: seq<byte>, index: nat): nat
    requires index + 4 <= |inputs|
  {
    U2At(inputs, index) * 0x1_0000 + U2At(inputs, index + 2)
  }

  /** The u2 at `index` is the big-endian value of its two bytes. */
  lemma U2AtIsBigEndian(inputs: seq<byte>, index: nat)
    requires index + 2 <= |inputs|
    ensures BigEndian(inputs[index..index + 2]) == U2At(inputs, index)
  {
    var s := inputs[index..index + 2];
    assert s[..1] == [inputs[index]];
    assert s[..1][..0] == [];
    assert BigEndian(s[..1]) == inputs[index];
    assert BigEndian(s) == BigEndian(s[..1]) * 256 + s[1];
  }

  /** The u4 at `index` is the big-endian value of its four bytes. */
  lemma U4AtIsBigEndian(inputs: seq<byte>, index: nat)
    requires index + 4 <= |inputs|
    ensures BigEndian(inputs[index..index + 4]) == U4At(inputs, index)
  {
    var s := inputs[index..index + 4];
    U2AtIsBigEndian(inputs, index);
    assert s[..3][..2] == inputs[index..index + 2] by {
      assert s[..3][..2][0] == inputs[index] && s[..3][..2][1] == inputs[index + 1];
    }
    assert s[..3][2] == inputs[index + 2];
    assert BigEndian(s[..3]) == U2At(inputs, index) * 256 + inputs[index + 2];
    assert BigEndian(s) == BigEndian(s[..3]) * 256 + inputs[index + 3];
  }

  /** Appending a byte to the digits read so far, scaled by the weight
      still to come. */
  lemma BigEndianStep(prefix: seq<byte>, b: byte, rest: nat)
    ensures BigEndian(prefix) * Pow256(rest + 1) + b * Pow256(rest) == BigEndian(prefix + [b]) * Pow256(rest)
  {
    assert (prefix + [b])[..|prefix|] == prefix;
    var low := Pow256(rest);
    calc {
      BigEndian(prefix) * Pow256(rest + 1) + b * low;
      BigEndian(prefix) * (256 * low) + b * low;
      (BigEndian(prefix) * 256 + b) * low;
      BigEndian(prefix + [b]) * low;
    }
  }

  /** `extract_x_byte_as_vec`: the x bytes from `index` and the index just
      after them.  Indexing past the end panics; with x == 0 nothing is read. */
  method ExtractXByteAsVec(input: seq<byte>, index: nat, x: nat) returns (r: Result<(seq<byte>, nat)>)
    ensures r.Ok? <==> x == 0 || index + x <= |input|
    ensures r.Ok? ==> r.value.1 == index + x && |r.value.0| == x
    ensures r.Ok? ==> forall k :: 0 <= k < x ==> r.value.0[k] == input[index + k]
    ensures r.Err? ==> r.error == IndexOutOfBounds
  {
    if x == 0 {
      return Ok(([], index));
    }
    if index + x > |input| {
      return Err(IndexOutOfBounds);
    }
    var result: seq<byte> := [];
    var i := 0;
    while i < x
      invariant 0 <= i <= x
      invariant result == input[index..index + i]
    {
      result := result + [input[index + i]];
      i := i + 1;
    }
    return Ok((result, index + x));
  }

  /** `extract_x_byte_as_usize`: the big-endian value of the x bytes from
      `index`, and the index just after them.  Indexing past the end panics,
      and so does the `usize` shift once x exceeds 8 bytes (after the first
      byte is read). */
  method ExtractXByteAsUsize(input: seq<byte>, index: nat, x: nat) returns (r: Result<(nat, nat)>)
    ensures r.Ok? <==> x <= 8 && (x == 0 || index + x <= |input|)
    ensures r.Ok? && x == 0 ==> r.value == (0, index)
    ensures r.Ok? && x > 0 ==> r.value == (BigEndian(input[index..index + x]), index + x)
    ensures r.Ok? ==> r.value.0 < Pow256(x)
    ensures 0 < x <= 8 && index + x > |input| ==> r == Err(IndexOutOfBounds)
  {
    if x == 0 {
      return Ok((0, index));
    }
    if index >= |input| {
      return Err(IndexOutOfBounds);
    }
    if x > 8 {
      // the first shift, by (x - 1) * 8 bits, overflows the usize
      return Err(ArithmeticOverflow);
    }
    if index + x > |input| {
      return Err(IndexOutOfBounds);
    }
    var result := 0;
    var i := 0;
    while i < x
      invariant 0 <= i <= x
      invariant result == BigEndian(input[index..index + i]) * Pow256(x - i)
    {
      var b := input[index + i];
      var low := Pow256(x - i - 1);
      assert input[index..index + i + 1] == input[index..index + i] + [b];
      BigEndianStep(input[index..index + i], b, x - i - 1);
      result := result + b * low;
      i := i + 1;
    }
    BigEndianBound(input[index..index + x]);
    return Ok((result, index + x));
  }

  /** Two consecutive u2 values, such as `this_class` and `super_class`. */
  method ReadU2Pair(input: seq<byte>, index: nat) returns (r: Result<(nat, nat)>)
    ensures r.Ok? <==> index + 4 <= |input|
    ensures r.Ok? ==> r.value == (U2At(input, index), U2At(input, index + 2))
    ensures r.Err? ==> r.error == IndexOutOfBounds
  {
    var first :- ExtractXByteAsUsize(input, index, 2);
    var second :- ExtractXByteAsUsize(input, first.1, 2);
    U2AtIsBigEndian(input, index);
    U2AtIsBigEndian(input, index + 2);
    return Ok((first.0, second.0));
  }

  /** A signed 64-bit value. */
  type i64 = x: int | -0x8000_0000_0000_0000 <= x < 0x8000_0000_0000_0000

  const TWO32: int := 0x1_0000_0000

  /** `devide_i64_to_two_i32` AS WRITTEN:
      `(((input >> 32) << 32) as i32, (input & 0xFFFFFFFF) as i32)`.
      The arithmetic shift is a floor division (Dafny's `/` with a positive
      divisor); the `as i32` keeps the low 32 bits, which the shifts cleared. */
  function DevideI64ToTwoI32AsWritten(input: i64): (r: (int, int))
    ensures IsI32(r.0) && IsI32(r.1)
  {
    (WrapI32((input / TWO32) * TWO32), WrapI32(input % TWO32))
  }

  /** As written, the high half is 0 for every input. */
  lemma {:induction false} DevideAsWrittenHighHalfIsZero(input: i64)
    ensures DevideI64ToTwoI32AsWritten(input).0 == 0
  {
    var q := input / TWO32;
    assert (q * TWO32) % TWO32 == 0;
  }

  /** Counterexample: 2^32 and 0 split to the same pair, so the split loses
      the high word. */
  lemma DevideAsWrittenLosesHighWord()
    ensures DevideI64ToTwoI32AsWritten(0x1_0000_0000) == DevideI64ToTwoI32AsWritten(0)
  {
    DevideAsWrittenHighHalfIsZero(0x1_0000_0000);
    DevideAsWrittenHighHalfIsZero(0);
  }

  /** `devide_i64_to_two_i32` as evidently intended: the high word
      `(input >> 32) as i32` and the low word `(input & 0xFFFFFFFF) as i32`. */
  function DevideI64ToTwoI32(input: i64): (r: (int, int))
    ensures IsI32(r.0) && IsI32(r.1)
  {
    (input / TWO32, WrapI32(input % TWO32))
  }

  /** The two halves put back together give the input: high * 2^32 plus the
      low half read as unsigned. */
  lemma {:induction false} DevideI64ToTwoI32RoundTrip(input: i64)
    ensures var (hi, lo) := DevideI64ToTwoI32(input);
      hi * TWO32 + lo % TWO32 == input
  {
    var (hi, lo) := DevideI64ToTwoI32(input);
    var m := input % TWO32;
    assert lo == m || lo == m - TWO32;
    assert lo % TWO32 == m by {
      if lo != m {
        assert lo + TWO32 == m;
        assert (lo + TWO32) % TWO32 == lo % TWO32;
      }
    }
  }

  /** `iniailize_primitive_array`: `length` copies of the type's default
      pair.  Only boolean (4), int (10) and long (11) are implemented; every
      other type index reaches `unreachable!`. */
  function IniailizePrimitiveArray(typeIndex: nat, length: nat): (r: Result<seq<(Item, Item)>>)
    ensures r.Ok? <==> typeIndex == 4 || typeIndex == 10 || typeIndex == 11
    ensures r.Ok? ==> |r.value| == length
    ensures r.Ok? && typeIndex == 4 ==> forall k :: 0 <= k < length ==> r.value[k] == (Boolean(false), Null)
    ensures r.Ok? && typeIndex == 10 ==> forall k :: 0 <= k < length ==> r.value[k] == (Int(0), Null)
    ensures r.Ok? && typeIndex == 11 ==> forall k :: 0 <= k < length ==> r.value[k] == (Long(0), Long(0))
  {
    var defaultVal :- PrimitiveDefault(typeIndex);
    Ok(seq(length, _ => defaultVal))
  }

  /** The `match` on the type index that opens `iniailize_primitive_array`. */
  function PrimitiveDefault(typeIndex: nat): Result<(Item, Item)>
  {
    match typeIndex
      case 4 => Ok((Boolean(false), Null))
      case 10 => Ok((Int(0), Null))
      case 11 => Ok((Long(0), Long(0)))
      case _ => Err(Unreachable)
  }

  /** `initialize_objectref_array`: `length` fresh uninitialised objects of
      the class, added one by one; returns their ids in allocation order. */
  method InitializeObjectrefArray(objectMap: ObjectMap, classNameId: nat, length: nat)
    returns (ids: seq<nat>)
    requires objectMap.Valid()
    modifies objectMap
    ensures objectMap.Valid()
    ensures objectMap.id == old(objectMap.id) + length
    ensures ids == seq(length, k => old(objectMap.id) + k)
    ensures forall k :: 0 <= k < length ==>
      objectMap.Get(ids[k]) == Some(Objects.Objectref(classNameId, map[], false))
    ensures forall k :: k in old(objectMap.table) ==>
      k in objectMap.table && objectMap.table[k] == old(objectMap.table)[k]
    ensures objectMap.table.Keys == old(objectMap.table).Keys + set k | k in ids
  {
    ids := [];
    var i := 0;
    while i < length
      invariant 0 <= i <= length && objectMap.Valid()
      invariant objectMap.id == old(objectMap.id) + i
      invariant ids == seq(i, k => old(objectMap.id) + k)
      invariant forall k :: 0 <= k < i ==>
        objectMap.Get(ids[k]) == Some(Objects.Objectref(classNameId, map[], false))
      invariant forall k :: k in old(objectMap.table) ==>
        k in objectMap.table && objectMap.table[k] == old(objectMap.table)[k]
      invariant objectMap.table.Keys == old(objectMap.table).Keys + set k | k in ids
    {
      var id := objectMap.Add(Objects.Objectref(classNameId, map[], false));
      ids := ids + [id];
      i := i + 1;
    }
  }

  /** Bitwise `&` on unsigned integers. */
  function BitAnd(a: nat, b: nat): (r: nat)
    ensures r <= a && r <= b
  {
    if a == 0 || b == 0 then 0
    else 2 * BitAnd(a / 2, b / 2) + (if a % 2 == 1 && b % 2 == 1 then 1 else 0)
  }

  /** Bit k of a number, counting from the least significant. */
  predicate Bit(num: nat, k: nat)
  {
    if k == 0 then num % 2 == 1 else Bit(num / 2, k - 1)
  }

  /** Against a single-bit mask, `&` is non-zero exactly when that bit of
      the number is set. */
  lemma {:induction false} BitAndSingleBit(num: nat, k: nat)
    ensures BitAnd(num, Pow2(k)) != 0 <==> Bit(num, k)
  {
    if k == 0 {
      if num != 0 {
        assert BitAnd(num / 2, 0) == 0;
      }
    } else if num == 0 {
      assert !Bit(0, k) by {
        BitOfZero(k);
      }
    } else {
      assert Pow2(k) / 2 == Pow2(k - 1);
      assert Pow2(k) % 2 == 0;
      BitAndSingleBit(num / 2, k - 1);
    }
  }

  lemma {:induction false} BitOfZero(k: nat)
    ensures !Bit(0, k)
  {
    if k > 0 {
      BitOfZero(k - 1);
    }
  }

  /** `xs.join(sep)` for strings. */
  function Join(xs: seq<string>, sep: string): (r: string)
    ensures |xs| == 0 ==> r == ""
    ensures |xs| == 1 ==> r == xs[0]
    ensures |xs| > 0 ==> |r| == SumLengths(xs) + |sep| * (|xs| - 1)
  {
    if |xs| == 0 then ""
    else if |xs| == 1 then xs[0]
    else xs[0] + sep + Join(xs[1..], sep)
  }

  function SumLengths(xs: seq<string>): nat
  {
    if |xs| == 0 then 0 else |xs[0]| + SumLengths(xs[1..])
  }
}
