/** src/class_file.rs: the `ClassFile` structure of section 4.1 of The Java
    Virtual Machine Specification (Java SE 8) and the class access flags. */
module ClassFiles {
  import opened Wrappers
  import opened Utils
  import Constant
  import Fields
  import Attributes

  datatype AccessFlag =
    | AccPublic
    | AccFinal
    | AccSuper
    | AccInterface
    | AccAbstract
    | AccSynthetic
    | AccAnnotation
    | AccEnum

  datatype Interface = Interface

  /** The `Method` struct of this file: raw u2 fields, never filled in. */
  datatype Method = Method(
    accessFlags: nat,
    nameIndex: nat,
    descriptorIndex: nat,
    attributesCount: nat,
    attributeInfo: seq<Attributes.Attribute>)

  datatype ClassFile = ClassFile(
    magic: nat,
    minorVersion: nat,
    majorVersion: nat,
    constantPoolCount: nat,
    cpInfo: Constant.ConstantPool,
    accessFlags: seq<AccessFlag>,
    thisClass: nat,
    superClass: nat,
    interfacesCount: nat,
    interfaces: seq<Interface>,
    fieldsCount: nat,
    fields: seq<Fields.Field>,
    methodsCount: nat,
    methods: seq<Method>,
    attributesCount: nat,
    attributes: seq<Attributes.Attribute>)

  /** The declared discriminants (Table 4.1-B). */
  function Value(f: AccessFlag): nat
  {
    match f
    case AccPublic => 0x0001
    case AccFinal => 0x0010
    case AccSuper => 0x0020
    case AccInterface => 0x0200
    case AccAbstract => 0x0400
    case AccSynthetic => 0x1000
    case AccAnnotation => 0x2000
    case AccEnum => 0x4000
  }

  /** `AccessFlag` Display. */
  function Name(f: AccessFlag): string
  {
    match f
    case AccPublic => "ACC_PUBLIC"
    case AccFinal => "ACC_FINAL"
    case AccSuper => "ACC_SUPER"
    case AccInterface => "ACC_INTERFACE"
    case AccAbstract => "ACC_ABSTRACT"
    case AccSynthetic => "ACC_SYNTHETIC"
    case AccAnnotation => "ACC_ANNOTATION"
    case AccEnum => "ACC_ENUM"
  }

  /** `AccessFlag::from`: each of the eight discriminants gives its flag;
      any other number panics. */
  function AccessFlagFrom(num: nat): (r: Result<AccessFlag>)
    ensures r.Ok? ==> Value(r.value) == num
    ensures r.Err? ==> r.error == BadConversion
  {
    match num
    case 0x0001 => Ok(AccPublic)
    case 0x0010 => Ok(AccFinal)
    case 0x0020 => Ok(AccSuper)
    case 0x0200 => Ok(AccInterface)
    case 0x0400 => Ok(AccAbstract)
    case 0x1000 => Ok(AccSynthetic)
    case 0x2000 => Ok(AccAnnotation)
    case 0x4000 => Ok(AccEnum)
    case _ => Err(BadConversion)
  }

  /** `from` inverts the discriminants, so it is `Ok` exactly on them. */
  lemma AccessFlagFromValue(f: AccessFlag)
    ensures AccessFlagFrom(Value(f)) == Ok(f)
  {
  }

  /** The flags in declaration order. */
  const AllFlags: seq<AccessFlag> := [
    AccPublic, AccFinal, AccSuper, AccInterface, AccAbstract, AccSynthetic, AccAnnotation, AccEnum]

  /** A flag's place in the declaration. */
  function Position(f: AccessFlag): nat
  {
    match f
    case AccPublic => 0
    case AccFinal => 1
    case AccSuper => 2
    case AccInterface => 3
    case AccAbstract => 4
    case AccSynthetic => 5
    case AccAnnotation => 6
    case AccEnum => 7
  }

  /** The flags of `todo` whose bit is set in `num`, kept in the order of
      `todo`: the `add_flags!` steps over `todo`. */
  function Selected(num: nat, todo: seq<AccessFlag>, base: nat): (r: seq<AccessFlag>)
    requires forall k :: 0 <= k < |todo| ==> Position(todo[k]) == base + k
    ensures forall f :: f in r <==> f in todo && BitAnd(num, Value(f)) != 0
    ensures forall k :: 0 <= k < |r| ==> base <= Position(r[k])
    ensures forall i, j :: 0 <= i < j < |r| ==> Position(r[i]) < Position(r[j])
  {
    if |todo| == 0 then []
    else
      var rest := Selected(num, todo[1..], base + 1);
      if BitAnd(num, Value(todo[0])) != 0 then [todo[0]] + rest else rest
  }

  /** Declaration order is increasing discriminant order. */
  lemma PositionOrdersValue(f: AccessFlag, g: AccessFlag)
    ensures Position(f) < Position(g) <==> Value(f) < Value(g)
  {
  }

  /** `extract_access_flags`: the eight `add_flags!` calls, in declaration
      order; the result holds exactly the flags whose bit is set, in
      increasing order of value, each once. */
  function ExtractAccessFlags(num: nat): (r: seq<AccessFlag>)
    ensures forall f :: f in r <==> BitAnd(num, Value(f)) != 0
    ensures forall i, j :: 0 <= i < j < |r| ==> Value(r[i]) < Value(r[j])
  {
    assert forall k :: 0 <= k < |AllFlags| ==> Position(AllFlags[k]) == k;
    var r := Selected(num, AllFlags, 0);
    assert forall f: AccessFlag :: f in AllFlags by {
      forall f: AccessFlag ensures f in AllFlags {
        assert AllFlags[Position(f)] == f;
      }
    }
    assert forall i, j :: 0 <= i < j < |r| ==> Value(r[i]) < Value(r[j]) by {
      forall i, j | 0 <= i < j < |r| ensures Value(r[i]) < Value(r[j]) {
        PositionOrdersValue(r[i], r[j]);
      }
    }
    r
  }

  /** `AccessFlags` Display: "flags: " followed by the flag names joined by
      ", ". */
  function DisplayAccessFlags(flags: seq<AccessFlag>): (r: string)
    ensures |r| >= 7 && r[..7] == "flags: "
    ensures |flags| == 0 ==> r == "flags: "
    ensures |flags| == 1 ==> r == "flags: " + Name(flags[0])
    ensures |flags| > 1 ==> r == "flags: " + Name(flags[0]) + ", " + DisplayAccessFlags(flags[1..])[7..]
  {
    "flags: " + Join(Names(flags), ", ")
  }

  function Names(flags: seq<AccessFlag>): (r: seq<string>)
    ensures |r| == |flags|
  {
    if |flags| == 0 then [] else [Name(flags[0])] + Names(flags[1..])
  }

  /** The `fields_count` fields from `index`, each read by `parseField`
      from where the previous one ended. */
  function ParseFields(parseField: (seq<byte>, nat) -> Result<(Fields.Field, nat)>,
                       input: seq<byte>, index: nat, n: nat): (r: Result<(seq<Fields.Field>, nat)>)
    ensures r.Ok? ==> |r.value.0| == n
  {
    if n == 0 then Ok(([], index))
    else
      var prev :- ParseFields(parseField, input, index, n - 1);
      var next :- parseField(input, prev.1);
      Ok((prev.0 + [next.0], next.1))
  }

  /** The loop of `ClassFile::new` over the fields. */
  method ReadFields(parseField: (seq<byte>, nat) -> Result<(Fields.Field, nat)>,
                    input: seq<byte>, index: nat, n: nat)
    returns (r: Result<(seq<Fields.Field>, nat)>)
    ensures r == ParseFields(parseField, input, index, n)
  {
    var fields: seq<Fields.Field> := [];
    var idx: nat := index;
    var i := 0;
    while i < n
      invariant 0 <= i <= n
      invariant ParseFields(parseField, input, index, i) == Ok((fields, idx))
    {
      var field := parseField(input, idx);
      if field.Err? {
        ParseFieldsFailureSticks(parseField, input, index, i + 1, n);
        return Err(field.error);
      }
      idx := field.value.1;
      fields := fields + [field.value.0];
      i := i + 1;
    }
    return Ok((fields, idx));
  }

  /** Once a field fails to parse, every longer run of fields fails with
      the same error. */
  lemma {:induction false} ParseFieldsFailureSticks(parseField: (seq<byte>, nat) -> Result<(Fields.Field, nat)>,
                                                    input: seq<byte>, index: nat, m: nat, n: nat)
    requires m <= n && ParseFields(parseField, input, index, m).Err?
    ensures ParseFields(parseField, input, index, n) == ParseFields(parseField, input, index, m)
    decreases n - m
  {
    if m < n {
      ParseFieldsFailureSticks(parseField, input, index, m, n - 1);
    }
  }

  /** The four header quantities of section 4.1 at `index`: u4 magic, u2
      minor_version, u2 major_version and u2 constant_pool_count. */
  method ReadHeader(input: seq<byte>, index: nat) returns (r: Result<(nat, nat, nat, nat)>)
    ensures r.Ok? <==> index + 10 <= |input|
    ensures r.Ok? ==> r.value == (U4At(input, index), U2At(input, index + 4), U2At(input, index + 6), U2At(input, index + 8))
    ensures r.Err? ==> r.error == IndexOutOfBounds
  {
    var magic :- ExtractXByteAsUsize(input, index, 4);
    var minor :- ExtractXByteAsUsize(input, magic.1, 2);
    var major :- ExtractXByteAsUsize(input, minor.1, 2);
    var count :- ExtractXByteAsUsize(input, major.1, 2);
    U4AtIsBigEndian(input, index);
    U2AtIsBigEndian(input, index + 4);
    U2AtIsBigEndian(input, index + 6);
    U2AtIsBigEndian(input, index + 8);
    return Ok((magic.0, minor.0, major.0, count.0));
  }

  /** The five u2 fields after the constant pool: access_flags (as its
      flags), this_class, super_class, interfaces_count and fields_count. */
  method ReadClassInfo(input: seq<byte>, index: nat)
    returns (r: Result<(seq<AccessFlag>, nat, nat, nat, nat)>)
    ensures r.Ok? <==> index + 10 <= |input|
    ensures r.Ok? ==> r.value == (ExtractAccessFlags(U2At(input, index)), U2At(input, index + 2),
                                  U2At(input, index + 4), U2At(input, index + 6), U2At(input, index + 8))
    ensures r.Err? ==> r.error == IndexOutOfBounds
  {
    var flags :- ExtractXByteAsUsize(input, index, 2);
    U2AtIsBigEndian(input, index);
    var classes :- ReadU2Pair(input, flags.1);
    var counts :- ReadU2Pair(input, flags.1 + 4);
    return Ok((ExtractAccessFlags(flags.0), classes.0, classes.1, counts.0, counts.1));
  }

  /** `ClassFile::new` (section 4.1): u4 magic, u2 minor_version, u2
      major_version, u2 constant_pool_count, the constant pool, u2
      access_flags, u2 this_class, u2 super_class, u2 interfaces_count,
      u2 fields_count and the fields, u2 methods_count, u2 attributes_count.
      Interfaces, methods and attributes are never read.  The pair-returning
      pool decoder and `Field::new` this file calls are parameters. */
  method ClassFileNew(parsePool: (seq<byte>, nat, nat) -> Result<(Constant.ConstantPool, nat)>,
                      parseField: (seq<byte>, nat) -> Result<(Fields.Field, nat)>,
                      input: seq<byte>, index: nat)
    returns (r: Result<(ClassFile, nat)>)
    ensures index + 10 > |input| ==> r == Err(IndexOutOfBounds)
    ensures index + 10 <= |input| ==>
      var pool := parsePool(input, index + 10, U2At(input, index + 8));
      && (pool.Err? ==> r == Err(pool.error))
      && (pool.Ok? && pool.value.1 + 10 > |input| ==> r == Err(IndexOutOfBounds))
      && (pool.Ok? && pool.value.1 + 10 <= |input| ==>
            var p := pool.value.1;
            var fields := ParseFields(parseField, input, p + 10, U2At(input, p + 8));
            && (fields.Err? ==> r == Err(fields.error))
            && (fields.Ok? ==> (r.Ok? <==> fields.value.1 + 4 <= |input|))
            && (fields.Ok? && fields.value.1 + 4 > |input| ==> r == Err(IndexOutOfBounds)))
    ensures r.Ok? <==>
      && index + 10 <= |input|
      && parsePool(input, index + 10, U2At(input, index + 8)).Ok?
      && var p := parsePool(input, index + 10, U2At(input, index + 8)).value.1;
      && p + 10 <= |input|
      && ParseFields(parseField, input, p + 10, U2At(input, p + 8)).Ok?
      && ParseFields(parseField, input, p + 10, U2At(input, p + 8)).value.1 + 4 <= |input|
    ensures r.Ok? ==>
      && index + 10 <= |input|
      && parsePool(input, index + 10, U2At(input, index + 8)).Ok?
      && var p := parsePool(input, index + 10, U2At(input, index + 8)).value.1;
      && p + 10 <= |input|
      && ParseFields(parseField, input, p + 10, U2At(input, p + 8)).Ok?
      && var q := ParseFields(parseField, input, p + 10, U2At(input, p + 8)).value.1;
      && q + 4 <= |input|
      && r.value == (ClassFile(U4At(input, index), U2At(input, index + 4), U2At(input, index + 6), U2At(input, index + 8),
                               parsePool(input, index + 10, U2At(input, index + 8)).value.0,
                               ExtractAccessFlags(U2At(input, p)), U2At(input, p + 2), U2At(input, p + 4),
                               U2At(input, p + 6), [], U2At(input, p + 8),
                               ParseFields(parseField, input, p + 10, U2At(input, p + 8)).value.0,
                               U2At(input, q), [], U2At(input, q + 2), []), q + 4)
  {
    var header :- ReadHeader(input, index);
    var pool :- parsePool(input, index + 10, header.3);
    var info :- ReadClassInfo(input, pool.1);
    var parsed :- ReadFields(parseField, input, pool.1 + 10, info.4);
    var counts :- ReadU2Pair(input, parsed.1);
    return Ok((ClassFile(header.0, header.1, header.2, header.3, pool.0, info.0,
                         info.1, info.2, info.3, [], info.4, parsed.0,
                         counts.0, [], counts.1, []), parsed.1 + 4));
  }
}
