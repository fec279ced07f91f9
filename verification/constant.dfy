/** src/constant.rs: constant-pool tags (section 4.4 of The Java Virtual
    Machine Specification, Java SE 8), the pool built by `ConstantPool::new`
    and the entry decoder `ConstPoolItem::new`.

    Both decoders shift `u8` values by 8 bits or more.  Rust panics on such
    a shift in a debug build and masks the shift amount to its low three
    bits in a release build, so these two functions take the build mode. */
module Constant {
  import opened Wrappers
  import opened Utils

  datatype BuildMode = Debug | Release

  /** `<<` on `u8`: a shift by 8 or more overflows in a debug build; a
      release build shifts by the amount modulo 8.  Bits shifted out of the
      byte are lost either way. */
  function ShlU8(mode: BuildMode, x: byte, amount: nat): (r: Result<byte>)
    ensures r.Err? <==> mode == Debug && amount >= 8
    ensures r.Ok? ==> r.value == (x * Pow2(amount % 8)) % 256
  {
    if amount >= 8 && mode == Debug then Err(ArithmeticOverflow)
    else Ok((x * Pow2(amount % 8)) % 256)
  }

  /** `+` on `u8`: overflow panics in a debug build and wraps in release. */
  function AddU8(mode: BuildMode, a: byte, b: byte): (r: Result<byte>)
    ensures r.Err? <==> mode == Debug && a + b >= 256
    ensures r.Ok? ==> r.value == (a + b) % 256
  {
    if a + b >= 256 && mode == Debug then Err(ArithmeticOverflow) else Ok((a + b) % 256)
  }

  datatype ConstPoolTag =
    | ConstantNull   // the crate's own tag for pool index 0
    | ConstantClass
    | ConstantFieldref
    | ConstantMethodref
    | ConstantInterfaceMethodref
    | ConstantString
    | ConstantInteger
    | ConstantFloat
    | ConstantLong
    | ConstantDouble
    | ConstantNameAndType
    | ConstantUtf8
    | ConstantMethodHandle
    | ConstantMethodType
    | ConstantInvokeDynamic

  /** The enum's declared discriminants. */
  function ConstPoolTagValue(t: ConstPoolTag): byte
  {
    match t
    case ConstantNull => 0
    case ConstantClass => 7
    case ConstantFieldref => 9
    case ConstantMethodref => 10
    case ConstantInterfaceMethodref => 11
    case ConstantString => 8
    case ConstantInteger => 3
    case ConstantFloat => 4
    case ConstantLong => 5
    case ConstantDouble => 6
    case ConstantNameAndType => 12
    case ConstantUtf8 => 1
    case ConstantMethodHandle => 15
    case ConstantMethodType => 16
    case ConstantInvokeDynamic => 18
  }

  /** The tag bytes of Table 4.4-A. */
  const ConstPoolTagBytes: set<int> := {1, 3, 4, 5, 6, 7, 8, 9, 10, 11, 12, 15, 16, 18}

  /** `ConstPoolTag::from`: the 14 tag bytes map to the variant whose
      discriminant they are; any other byte panics. */
  function ConstPoolTagFrom(num: byte): (r: Result<ConstPoolTag>)
    ensures r.Ok? <==> num in ConstPoolTagBytes
    ensures r.Ok? ==> ConstPoolTagValue(r.value) == num && r.value != ConstPoolTag.ConstantNull
    ensures r.Err? ==> r.error == BadConversion
  {
    match num
    case 7 => Ok(ConstPoolTag.ConstantClass)
    case 9 => Ok(ConstPoolTag.ConstantFieldref)
    case 10 => Ok(ConstPoolTag.ConstantMethodref)
    case 11 => Ok(ConstPoolTag.ConstantInterfaceMethodref)
    case 8 => Ok(ConstPoolTag.ConstantString)
    case 3 => Ok(ConstPoolTag.ConstantInteger)
    case 4 => Ok(ConstPoolTag.ConstantFloat)
    case 5 => Ok(ConstPoolTag.ConstantLong)
    case 6 => Ok(ConstPoolTag.ConstantDouble)
    case 12 => Ok(ConstPoolTag.ConstantNameAndType)
    case 1 => Ok(ConstPoolTag.ConstantUtf8)
    case 15 => Ok(ConstPoolTag.ConstantMethodHandle)
    case 16 => Ok(ConstPoolTag.ConstantMethodType)
    case 18 => Ok(ConstPoolTag.ConstantInvokeDynamic)
    case _ => Err(BadConversion)
  }

  /** Converting a variant's discriminant back gives the variant: every tag
      except the crate's own `ConstantNull` round-trips. */
  lemma ConstPoolTagRoundTrip(t: ConstPoolTag)
    ensures t != ConstPoolTag.ConstantNull ==> ConstPoolTagFrom(ConstPoolTagValue(t)) == Ok(t)
    ensures t == ConstPoolTag.ConstantNull ==> ConstPoolTagFrom(ConstPoolTagValue(t)).Err?
  {
  }

  /** A pool entry.  The Rust structs also carry their tag, which always
      equals the variant and is left implicit here. */
  datatype ConstPoolItem =
    | ConstantNull
    | ConstantClass(nameIndex: nat)
    | ConstantFieldref
    | ConstantMethodref(classIndex: nat, nameAndTypeIndex: nat)
    | ConstantInterfaceMethodref
    | ConstantString
    | ConstantInteger
    | ConstantFloat
    | ConstantLong
    | ConstantDouble
    | ConstantNameAndType
    | ConstantUtf8(length: nat, bytes: seq<byte>)
    | ConstantMethodHandle
    | ConstantMethodType
    | ConstantInvokeDynamic

  datatype ConstantPool = ConstantPool(items: seq<ConstPoolItem>)

  /** `ConstantPool::new`: reads `length` entries from `index`.  Slot 0 is
      always the null entry.  The Class, Methodref and NameAndType arms (and,
      since the match names no others, every other tag) append nothing and
      consume only the tag byte; a Utf8 entry reads its length as
      `inputs[index] << (8 + inputs[index + 1])`, takes that many bytes and
      moves one byte past them. */
  method ConstantPoolNew(mode: BuildMode, inputs: seq<byte>, index: nat, length: nat)
    returns (r: Result<ConstantPool>)
    ensures length == 0 ==> r == Ok(ConstantPool([ConstPoolItem.ConstantNull]))
    ensures length > 0 && index >= |inputs| ==> r == Err(IndexOutOfBounds)
    ensures r.Ok? ==> |r.value.items| >= 1 && r.value.items[0] == ConstPoolItem.ConstantNull
    ensures r.Ok? ==> |r.value.items| <= 1 + length
    ensures r.Ok? ==> forall k :: 1 <= k < |r.value.items| ==>
      r.value.items[k].ConstantUtf8? && |r.value.items[k].bytes| == r.value.items[k].length
    ensures r.Ok? && mode == Debug ==> r.value.items == [ConstPoolItem.ConstantNull]
  {
    var items: seq<ConstPoolItem> := [ConstPoolItem.ConstantNull];
    var idx: nat := index;
    var i := 0;
    while i < length
      invariant 0 <= i <= length
      invariant 1 <= |items| <= 1 + i && items[0] == ConstPoolItem.ConstantNull
      invariant forall k :: 1 <= k < |items| ==>
        items[k].ConstantUtf8? && |items[k].bytes| == items[k].length
      invariant mode == Debug ==> items == [ConstPoolItem.ConstantNull]
      invariant i == 0 ==> idx == index && items == [ConstPoolItem.ConstantNull]
      invariant i > 0 ==> index < |inputs|
    {
      if idx >= |inputs| {
        return Err(IndexOutOfBounds);
      }
      var tagByte := inputs[idx];
      idx := idx + 1;
      var tag :- ConstPoolTagFrom(tagByte);
      if tag == ConstPoolTag.ConstantUtf8 {
        var nextIndex := idx + 1;
        if idx >= |inputs| || nextIndex >= |inputs| {
          return Err(IndexOutOfBounds);
        }
        var amount :- AddU8(mode, 8, inputs[nextIndex]);
        var utf8Length :- ShlU8(mode, inputs[idx], amount);
        nextIndex := nextIndex + 1;
        if nextIndex + utf8Length > |inputs| {
          return Err(IndexOutOfBounds);
        }
        var bytes := inputs[nextIndex..nextIndex + utf8Length];
        items := items + [ConstPoolItem.ConstantUtf8(utf8Length, bytes)];
        idx := nextIndex + utf8Length + 1;
      }
      i := i + 1;
    }
    return Ok(ConstantPool(items));
  }

  /** `byte_iter.next().unwrap()` on an iterator over `bytes` at `pos`. */
  function Next(bytes: seq<byte>, pos: nat): (r: Result<(byte, nat)>)
    ensures r.Ok? <==> pos < |bytes|
    ensures r.Ok? ==> r.value == (bytes[pos], pos + 1)
  {
    if pos < |bytes| then Ok((bytes[pos], pos + 1)) else Err(Unreachable)
  }

  /** The Class arm of `ConstPoolItem::new`. */
  method ReadClass(mode: BuildMode, bytes: seq<byte>, pos: nat) returns (r: Result<(ConstPoolItem, nat)>)
    ensures mode == Debug ==> r.Err?
    ensures r.Ok? <==> mode == Release && pos + 2 <= |bytes|
    ensures r.Ok? ==> r.value == (ConstPoolItem.ConstantClass((bytes[pos] as int + bytes[pos + 1] as int) % 256), pos + 2)
  {
    var next0 :- Next(bytes, pos);
    var hi :- ShlU8(mode, next0.0, 16);
    var next1 :- Next(bytes, next0.1);
    var nameIndex := AddU8(mode, hi, next1.0).value;
    return Ok((ConstPoolItem.ConstantClass(nameIndex), next1.1));
  }

  /** The Methodref arm of `ConstPoolItem::new`: both halves of the
      name-and-type index are shifted, the low one included. */
  method ReadMethodref(mode: BuildMode, bytes: seq<byte>, pos: nat) returns (r: Result<(ConstPoolItem, nat)>)
    ensures mode == Debug ==> r.Err?
    ensures r.Ok? <==> mode == Release && pos + 4 <= |bytes|
    ensures r.Ok? ==> r.value == (ConstPoolItem.ConstantMethodref(
      (bytes[pos] as int + bytes[pos + 1] as int) % 256,
      (bytes[pos + 2] as int + bytes[pos + 3] as int) % 256), pos + 4)
  {
    var next0 :- Next(bytes, pos);
    var hiClass :- ShlU8(mode, next0.0, 16);
    var next1 :- Next(bytes, next0.1);
    var nameAndType :- ReadShiftedIndex(mode, bytes, next1.1);
    var classIndex := AddU8(mode, hiClass, next1.0).value;
    return Ok((ConstPoolItem.ConstantMethodref(classIndex, nameAndType.0), nameAndType.1));
  }

  /** The Methodref name-and-type index: two bytes, each shifted left by
      16 as a `u8`, then added. */
  method ReadShiftedIndex(mode: BuildMode, bytes: seq<byte>, pos: nat) returns (r: Result<(byte, nat)>)
    ensures r.Ok? <==> mode == Release && pos + 2 <= |bytes|
    ensures r.Ok? ==> r.value == ((bytes[pos] as int + bytes[pos + 1] as int) % 256, pos + 2)
  {
    var hi :- Next(bytes, pos);
    var lo :- Next(bytes, hi.1);
    var shiftedHi :- ShlU8(mode, hi.0, 16);
    var shiftedLo := ShlU8(mode, lo.0, 16).value;
    return Ok((AddU8(mode, shiftedHi, shiftedLo).value, lo.1));
  }

  /** The Utf8 arm of `ConstPoolItem::new`: a length, then that many bytes
      taken one `next()` at a time. */
  method ReadUtf8(mode: BuildMode, bytes: seq<byte>, pos: nat) returns (r: Result<(ConstPoolItem, nat)>)
    ensures mode == Debug ==> r.Err?
    ensures r.Ok? <==>
      && mode == Release && pos + 2 <= |bytes|
      && pos + 2 + (bytes[pos] as int + bytes[pos + 1] as int) % 256 <= |bytes|
    ensures r.Ok? ==>
      var item := r.value.0;
      && pos + 2 <= |bytes|
      && item.ConstantUtf8?
      && item.length == (bytes[pos] as int + bytes[pos + 1] as int) % 256
      && |item.bytes| == item.length
      && r.value.1 == pos + 2 + item.length <= |bytes|
      && item.bytes == bytes[pos + 2..r.value.1]
  {
    var next0 :- Next(bytes, pos);
    var hi :- ShlU8(mode, next0.0, 16);
    var next1 :- Next(bytes, next0.1);
    var length := AddU8(mode, hi, next1.0).value;
    var start := next1.1;
    var content: seq<byte> := [];
    var p := start;
    var i := 0;
    while i < length
      invariant 0 <= i <= length && p == start + i <= |bytes|
      invariant content == bytes[start..p]
    {
      var next :- Next(bytes, p);
      content := content + [next.0];
      p := next.1;
      i := i + 1;
    }
    return Ok((ConstPoolItem.ConstantUtf8(length, content), p));
  }

  /** `ConstPoolItem::new`: decodes the entry for `tagByte` from an iterator
      over `bytes` now at `pos`, and returns the entry and the iterator's new
      position.  Only Class, Methodref and Utf8 are implemented.  Each reads
      its first operand byte shifted left by 16, which panics in a debug
      build and is a shift by 0 in a release build; the sums are `u8`
      additions. */
  method ConstPoolItemNew(mode: BuildMode, tagByte: byte, bytes: seq<byte>, pos: nat)
    returns (r: Result<(ConstPoolItem, nat)>)
    ensures tagByte !in ConstPoolTagBytes ==> r == Err(BadConversion)
    ensures tagByte in ConstPoolTagBytes && tagByte !in {1, 7, 10} ==> r == Err(Unimplemented)
    ensures mode == Debug ==> r.Err?
    ensures r.Ok? && tagByte == 7 ==> r.value.0.ConstantClass? && r.value.1 == pos + 2
    ensures r.Ok? && tagByte == 10 ==> r.value.0.ConstantMethodref? && r.value.1 == pos + 4
    ensures r.Ok? && tagByte == 1 ==>
      r.value.0.ConstantUtf8? && |r.value.0.bytes| == r.value.0.length
      && r.value.1 == pos + 2 + r.value.0.length <= |bytes|
  {
    var tag :- ConstPoolTagFrom(tagByte);
    match tag {
      case ConstantClass =>
        r := ReadClass(mode, bytes, pos);
      case ConstantMethodref =>
        r := ReadMethodref(mode, bytes, pos);
      case ConstantUtf8 =>
        r := ReadUtf8(mode, bytes, pos);
      case _ =>
        r := Err(Unimplemented);
    }
  }
}
