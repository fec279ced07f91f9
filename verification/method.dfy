/** src/method.rs: the method record of section 4.6 of The Java Virtual
    Machine Specification (Java SE 8) and its access flags. */
module Methods {
  import opened Wrappers
  import opened Utils
  import Constant
  import Attributes

  datatype MethodAccessFlag =
    | AccPublic
    | AccPrivate
    | AccProtected
    | AccStatic
    | AccFinal
    | AccSynchronized
    | AccBridge
    | AccVarargs
    | AccNative
    | AccAbstract
    | AccStrict
    | AccSynthetic

  datatype Method = Method(
    accessFlags: seq<MethodAccessFlag>,
    nameIndex: nat,
    descriptorIndex: nat,
    attributesCount: nat,
    attributeInfo: seq<Attributes.Attribute>)

  /** The declared discriminants (Table 4.6-A). */
  function Value(f: MethodAccessFlag): nat
  {
    match f
    case AccPublic => 0x0001
    case AccPrivate => 0x0002
    case AccProtected => 0x0004
    case AccStatic => 0x0008
    case AccFinal => 0x0010
    case AccSynchronized => 0x0020
    case AccBridge => 0x0040
    case AccVarargs => 0x0080
    case AccNative => 0x0100
    case AccAbstract => 0x0400
    case AccStrict => 0x0800
    case AccSynthetic => 0x1000
  }

  /** `MethodAccessFlag` Display. */
  function Name(f: MethodAccessFlag): string
  {
    match f
    case AccPublic => "ACC_PUBLIC"
    case AccPrivate => "ACC_PRIVATE"
    case AccProtected => "ACC_PROTECTED"
    case AccStatic => "ACC_STATIC"
    case AccFinal => "ACC_FINAL"
    case AccSynchronized => "ACC_SYNCHRONIZED"
    case AccBridge => "ACC_BRIDGE"
    case AccVarargs => "ACC_VARARGS"
    case AccNative => "ACC_NATIVE"
    case AccAbstract => "ACC_ABSTRACT"
    case AccStrict => "ACC_STRICT"
    case AccSynthetic => "ACC_SYNTHETIC"
  }

  /** `MethodAccessFlag::from`: each of the twelve discriminants gives its
      flag; any other number panics. */
  function MethodAccessFlagFrom(num: nat): (r: Result<MethodAccessFlag>)
    ensures r.Ok? ==> Value(r.value) == num
    ensures r.Err? ==> r.error == BadConversion
  {
    match num
    case 0x0001 => Ok(AccPublic)
    case 0x0002 => Ok(AccPrivate)
    case 0x0004 => Ok(AccProtected)
    case 0x0008 => Ok(AccStatic)
    case 0x0010 => Ok(AccFinal)
    case 0x0020 => Ok(AccSynchronized)
    case 0x0040 => Ok(AccBridge)
    case 0x0080 => Ok(AccVarargs)
    case 0x0100 => Ok(AccNative)
    case 0x0400 => Ok(AccAbstract)
    case 0x0800 => Ok(AccStrict)
    case 0x1000 => Ok(AccSynthetic)
    case _ => Err(BadConversion)
  }

  /** `from` inverts the discriminants, so it is `Ok` exactly on them. */
  lemma MethodAccessFlagFromValue(f: MethodAccessFlag)
    ensures MethodAccessFlagFrom(Value(f)) == Ok(f)
  {
  }

  /** The flags in declaration order. */
  const AllFlags: seq<MethodAccessFlag> := [
    AccPublic, AccPrivate, AccProtected, AccStatic, AccFinal, AccSynchronized,
    AccBridge, AccVarargs, AccNative, AccAbstract, AccStrict, AccSynthetic]

  /** A flag's place in the declaration. */
  function Position(f: MethodAccessFlag): nat
  {
    match f
    case AccPublic => 0
    case AccPrivate => 1
    case AccProtected => 2
    case AccStatic => 3
    case AccFinal => 4
    case AccSynchronized => 5
    case AccBridge => 6
    case AccVarargs => 7
    case AccNative => 8
    case AccAbstract => 9
    case AccStrict => 10
    case AccSynthetic => 11
  }

  /** The flags of `todo` whose bit is set in `num`, kept in the order of
      `todo`: the `add_flags!` steps over `todo`. */
  function Selected(num: nat, todo: seq<MethodAccessFlag>, base: nat): (r: seq<MethodAccessFlag>)
    requires forall k :: 0 <= k < |todo| ==> Position(todo[k]) == base + k
    ensures forall f :: f in r <==> f in todo && BitAnd(num, Value(f)) != 0
    ensures forall k :: 0 <= k < |r| ==> base <= Position(r[k])
    ensures forall i, j :: 0 <= i < j < |r| ==> Position(r[i]) < Position(r[j])
  {
    if |todo| == 0 then []
    else
      var rest := Selected(num, todo[1..], base + 1);
      if BitAnd(num, Value(todo[0])) != 0 then [todo[0]] + rest else rest
  }

  /** Declaration order is increasing discriminant order. */
  lemma PositionOrdersValue(f: MethodAccessFlag, g: MethodAccessFlag)
    ensures Position(f) < Position(g) <==> Value(f) < Value(g)
  {
  }

  /** `extract_access_flags`: the twelve `add_flags!` calls, in declaration
      order; the result holds exactly the flags whose bit is set, in
      increasing order of value, each once. */
  function ExtractAccessFlags(num: nat): (r: seq<MethodAccessFlag>)
    ensures forall f :: f in r <==> BitAnd(num, Value(f)) != 0
    ensures forall i, j :: 0 <= i < j < |r| ==> Value(r[i]) < Value(r[j])
  {
    assert forall k :: 0 <= k < |AllFlags| ==> Position(AllFlags[k]) == k;
    var r := Selected(num, AllFlags, 0);
    assert forall f: MethodAccessFlag :: f in AllFlags by {
      forall f: MethodAccessFlag ensures f in AllFlags {
        assert AllFlags[Position(f)] == f;
      }
    }
    assert forall i, j :: 0 <= i < j < |r| ==> Value(r[i]) < Value(r[j]) by {
      forall i, j | 0 <= i < j < |r| ensures Value(r[i]) < Value(r[j]) {
        PositionOrdersValue(r[i], r[j]);
      }
    }
    r
  }

  /** `MethodAccessFlags` Display: the empty string without flags, otherwise
      the flag names joined by ", ". */
  function DisplayAccessFlags(flags: seq<MethodAccessFlag>): (r: string)
    ensures |flags| == 0 ==> r == ""
    ensures |flags| == 1 ==> r == Name(flags[0])
    ensures |flags| > 1 ==> r == Name(flags[0]) + ", " + DisplayAccessFlags(flags[1..])
  {
    if |flags| == 0 then "" else Join(Names(flags), ", ")
  }

  function Names(flags: seq<MethodAccessFlag>): (r: seq<string>)
    ensures |r| == |flags|
  {
    if |flags| == 0 then [] else [Name(flags[0])] + Names(flags[1..])
  }

  /** `Method::new` (section 4.6): u2 access_flags, u2 name_index, u2
      descriptor_index, u2 attributes_count, then that many attributes; the
      index returned is the one after the last attribute. */
  method MethodNew(sem: Semantics, pool: Constant.ConstantPool, inputs: seq<byte>, index: nat)
    returns (r: Result<(Method, nat)>)
    ensures index + 8 > |inputs| ==> r == Err(IndexOutOfBounds)
    ensures index + 8 <= |inputs| ==>
      var attributes := Attributes.AttributesFrom(sem, pool, inputs, index + 8, U2At(inputs, index + 6));
      && (r.Ok? <==> attributes.Ok?)
      && (r.Err? ==> r.error == attributes.error)
      && (r.Ok? ==> (r.value.0.attributeInfo, r.value.1) == attributes.value)
    ensures r.Ok? ==>
      var m := r.value.0;
      && index + 8 <= r.value.1 <= |inputs|
      && m.accessFlags == ExtractAccessFlags(U2At(inputs, index))
      && m.nameIndex == U2At(inputs, index + 2)
      && m.descriptorIndex == U2At(inputs, index + 4)
      && m.attributesCount == U2At(inputs, index + 6)
      && |m.attributeInfo| == m.attributesCount
      && (forall k :: 0 <= k < |m.attributeInfo| ==> Attributes.Decoded(Attributes.TagOf(m.attributeInfo[k])))
  {
    var flagsAndName :- ReadU2Pair(inputs, index);
    var accessFlags := ExtractAccessFlags(flagsAndName.0);
    var descriptorAndCount :- ReadU2Pair(inputs, index + 4);
    var count := descriptorAndCount.1;
    var attributes :- Attributes.ReadAttributes(sem, pool, inputs, index + 8, count);
    return Ok((Method(accessFlags, flagsAndName.1, descriptorAndCount.0, count, attributes.0), attributes.1));
  }
}
