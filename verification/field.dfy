/** src/field.rs: the field record and its access flag (section 4.5 of The
    Java Virtual Machine Specification, Java SE 8). */
module Fields {
  import opened Wrappers
  import Attributes

  datatype FieldAccessFlag =
    | Unknown
    | AccPublic
    | AccPrivate
    | AccProtected
    | AccStatic
    | AccFinal
    | AccVolatitle
    | AccTransient
    | AccSynthetic
    | AccEnum

  datatype Field = Field(
    accessFlags: FieldAccessFlag,
    nameIndex: nat,
    descriptorIndex: nat,
    attributesCount: nat,
    attributeInfo: seq<Attribute>)

  type Attribute = Attributes.Attribute

  /** The `access_flags` value each variant stands for in Table 4.5-A;
      `Unknown` is the decoder's own name for 0. */
  function FlagBits(f: FieldAccessFlag): nat
  {
    match f
    case Unknown => 0x0000
    case AccPublic => 0x0001
    case AccPrivate => 0x0002
    case AccProtected => 0x0004
    case AccStatic => 0x0008
    case AccFinal => 0x0010
    case AccVolatitle => 0x0040
    case AccTransient => 0x0080
    case AccSynthetic => 0x1000
    case AccEnum => 0x4000
  }

  /** The values `FieldAccessFlag::from` accepts: 0 and the nine single-bit
      flags. */
  const FieldFlagValues: set<nat> :=
    {0x0000, 0x0001, 0x0002, 0x0004, 0x0008, 0x0010, 0x0040, 0x0080, 0x1000, 0x4000}

  /** `FieldAccessFlag::from`: 0 is `Unknown`, each single-bit value is its
      flag, and anything else, a combination of flags included, panics. */
  function FieldAccessFlagFrom(num: nat): (r: Result<FieldAccessFlag>)
    ensures r.Ok? <==> num in FieldFlagValues
    ensures r.Ok? ==> FlagBits(r.value) == num
    ensures r.Err? ==> r.error == BadConversion
  {
    match num
    case 0x0000 => Ok(Unknown)
    case 0x0001 => Ok(AccPublic)
    case 0x0002 => Ok(AccPrivate)
    case 0x0004 => Ok(AccProtected)
    case 0x0008 => Ok(AccStatic)
    case 0x0010 => Ok(AccFinal)
    case 0x0040 => Ok(AccVolatitle)
    case 0x0080 => Ok(AccTransient)
    case 0x1000 => Ok(AccSynthetic)
    case 0x4000 => Ok(AccEnum)
    case _ => Err(BadConversion)
  }

  /** Every variant is reached, from its own value. */
  lemma FieldAccessFlagFromBits(f: FieldAccessFlag)
    ensures FieldAccessFlagFrom(FlagBits(f)) == Ok(f)
  {
  }

  /** No two accepted values give the same variant. */
  lemma {:induction false} FieldAccessFlagFromInjective(a: nat, b: nat)
    requires FieldAccessFlagFrom(a).Ok? && FieldAccessFlagFrom(a) == FieldAccessFlagFrom(b)
    ensures a == b
  {
    assert FlagBits(FieldAccessFlagFrom(a).value) == a;
    assert FlagBits(FieldAccessFlagFrom(b).value) == b;
  }
}
