/** src/attribute/instruction.rs: the bytecode decoder.

    `create_and_push` decodes one opcode (section 6.5 of The Java Virtual
    Machine Specification, Java SE 8) and appends the instruction to the
    code vector followed by `Noope` fillers, one per operand byte, so that a
    position in the vector is the instruction's byte offset in the method.
    The vector is a `&mut Vec` argument; the model takes it in and returns
    the extended vector.  `usize` values are modelled as unbounded naturals:
    every sum formed here stays far below 2^64. */
module Instructions {
  import opened Wrappers
  import opened Utils

  datatype Instruction =
    | IconstN(n: nat)                    // 0x03 - 0x08
    | LconstN(n: nat)                    // 0x09 - 0x0a
    | Bipush(operand: nat)               // 0x10
    | Sipush(operand: nat)               // 0x11
    | Ldc(operand: nat)                  // 0x12
    | Ldc2W(high: nat, low: nat)         // 0x14
    | Iload(operand: nat)                // 0x15
    | Aload(operand: nat)                // 0x19
    | IloadN(n: nat)                     // 0x1a - 0x1d
    | LloadN(n: nat)                     // 0x1e - 0x21
    | AloadN(n: nat)                     // 0x2a - 0x2d
    | Iaload                             // 0x2e
    | Aaload                             // 0x32
    | Istore(operand: nat)               // 0x36
    | Astore(operand: nat)               // 0x3a
    | IstoreN(n: nat)                    // 0x3b - 0x3e
    | LstoreN(n: nat)                    // 0x3f - 0x42
    | AstoreN(n: nat)                    // 0x4b - 0x4e
    | Iastore                            // 0x4f
    | Aastore                            // 0x53
    | Pop                                // 0x57
    | Dup                                // 0x59
    | Iadd                               // 0x60
    | Ladd                               // 0x61
    | Isub                               // 0x64
    | Lsub                               // 0x65
    | Imul                               // 0x68
    | Lmul                               // 0x69
    | Idiv                               // 0x6c
    | Ldiv                               // 0x6d
    | Irem                               // 0x70
    | Lrem                               // 0x71
    | Iinc(local: nat, delta: nat)       // 0x84
    | Lcmp                               // 0x94
    | Ifeq(ifTarget: nat, elseTarget: nat)      // 0x99
    | Ifne(ifTarget: nat, elseTarget: nat)      // 0x9a
    | Iflt(ifTarget: nat, elseTarget: nat)      // 0x9b
    | Ifge(ifTarget: nat, elseTarget: nat)      // 0x9c
    | Ifgt(ifTarget: nat, elseTarget: nat)      // 0x9d
    | Ifle(ifTarget: nat, elseTarget: nat)      // 0x9e
    | Ificmpeq(ifTarget: nat, elseTarget: nat)  // 0x9f
    | Ificmpne(ifTarget: nat, elseTarget: nat)  // 0xa0
    | Ificmplt(ifTarget: nat, elseTarget: nat)  // 0xa1
    | Ificmpge(ifTarget: nat, elseTarget: nat)  // 0xa2
    | Ificmpgt(ifTarget: nat, elseTarget: nat)  // 0xa3
    | Ificmple(ifTarget: nat, elseTarget: nat)  // 0xa4
    | Goto(target: nat)                  // 0xa7
    | Lookupswitch(vals: seq<(Option<nat>, nat)>)  // 0xab
    | Ireturn                            // 0xac
    | Areturn                            // 0xb0
    | Return                             // 0xb1
    | Getstatic(operand: nat)            // 0xb2
    | Putstatic(operand: nat)            // 0xb3
    | Getfield(operand: nat)             // 0xb4
    | Putfield(operand: nat)             // 0xb5
    | Invokevirtual(operand: nat)        // 0xb6
    | Invokespecial(operand: nat)        // 0xb7
    | Invokestatic(operand: nat)         // 0xb8
    | New(operand: nat)                  // 0xbb
    | Newarray(operand: nat)             // 0xbc
    | Anewarray(operand: nat)            // 0xbd
    | Multianewarray(operand: nat, dimensions: nat)  // 0xc5
    | Noope                              // filler for operand bytes

  /** The opcode byte section 6.5 assigns to an instruction; a short form's
      opcode carries its operand. */
  function Opcode(ins: Instruction): nat
    requires !ins.Noope?
  {
    match ins
    case IconstN(n) => 0x03 + n
    case LconstN(n) => 0x09 + n
    case Bipush(_) => 0x10
    case Sipush(_) => 0x11
    case Ldc(_) => 0x12
    case Ldc2W(_, _) => 0x14
    case Iload(_) => 0x15
    case Aload(_) => 0x19
    case IloadN(n) => 0x1a + n
    case LloadN(n) => 0x1e + n
    case AloadN(n) => 0x2a + n
    case Iaload => 0x2e
    case Aaload => 0x32
    case Istore(_) => 0x36
    case Astore(_) => 0x3a
    case IstoreN(n) => 0x3b + n
    case LstoreN(n) => 0x3f + n
    case AstoreN(n) => 0x4b + n
    case Iastore => 0x4f
    case Aastore => 0x53
    case Pop => 0x57
    case Dup => 0x59
    case Iadd => 0x60
    case Ladd => 0x61
    case Isub => 0x64
    case Lsub => 0x65
    case Imul => 0x68
    case Lmul => 0x69
    case Idiv => 0x6c
    case Ldiv => 0x6d
    case Irem => 0x70
    case Lrem => 0x71
    case Iinc(_, _) => 0x84
    case Lcmp => 0x94
    case Ifeq(_, _) => 0x99
    case Ifne(_, _) => 0x9a
    case Iflt(_, _) => 0x9b
    case Ifge(_, _) => 0x9c
    case Ifgt(_, _) => 0x9d
    case Ifle(_, _) => 0x9e
    case Ificmpeq(_, _) => 0x9f
    case Ificmpne(_, _) => 0xa0
    case Ificmplt(_, _) => 0xa1
    case Ificmpge(_, _) => 0xa2
    case Ificmpgt(_, _) => 0xa3
    case Ificmple(_, _) => 0xa4
    case Goto(_) => 0xa7
    case Lookupswitch(_) => 0xab
    case Ireturn => 0xac
    case Areturn => 0xb0
    case Return => 0xb1
    case Getstatic(_) => 0xb2
    case Putstatic(_) => 0xb3
    case Getfield(_) => 0xb4
    case Putfield(_) => 0xb5
    case Invokevirtual(_) => 0xb6
    case Invokespecial(_) => 0xb7
    case Invokestatic(_) => 0xb8
    case New(_) => 0xbb
    case Newarray(_) => 0xbc
    case Anewarray(_) => 0xbd
    case Multianewarray(_, _) => 0xc5
  }

  /** Bytes the instruction occupies in this decoder's layout: the opcode
      plus its operands.  For `lookupswitch` that is the default offset and
      the pair count (8 bytes) plus 8 per pair; the alignment padding of
      section 6.5 is not read. */
  function EncodedLength(ins: Instruction): (r: nat)
    ensures r >= 1
  {
    if ins.Lookupswitch? then 8 * |ins.vals| + 1
    else if ins.Multianewarray? then 4
    else if HasTwoOperandBytes(ins) then 3
    else if HasOneOperandByte(ins) then 2
    else 1
  }

  predicate HasOneOperandByte(ins: Instruction)
  {
    ins.Bipush? || ins.Ldc? || ins.Iload? || ins.Aload? || ins.Istore? || ins.Astore? || ins.Newarray?
  }

  predicate HasTwoOperandBytes(ins: Instruction)
  {
    || ins.Sipush? || ins.Ldc2W? || ins.Iinc? || ins.Goto?
    || ins.Ifeq? || ins.Ifne? || ins.Iflt? || ins.Ifge? || ins.Ifgt? || ins.Ifle?
    || ins.Ificmpeq? || ins.Ificmpne? || ins.Ificmplt? || ins.Ificmpge? || ins.Ificmpgt? || ins.Ificmple?
    || ins.Getstatic? || ins.Putstatic? || ins.Getfield? || ins.Putfield?
    || ins.Invokevirtual? || ins.Invokespecial? || ins.Invokestatic? || ins.New? || ins.Anewarray?
  }

  function Noopes(n: nat): (r: seq<Instruction>)
    ensures |r| == n && forall k :: 0 <= k < n ==> r[k] == Noope
  {
    seq(n, _ => Noope)
  }

  /** The `<n>` short forms, whose operand is the opcode's distance from
      the first opcode of its range. */
  function ShortFormInstruction(tag: nat): (r: Option<Instruction>)
    ensures r.Some? ==> !r.value.Noope? && Opcode(r.value) == tag
    ensures r.Some? ==> EncodedLength(r.value) == 1
  {
    if 0x03 <= tag <= 0x08 then Some(IconstN(tag - 0x03))
    else if 0x09 <= tag <= 0x0a then Some(LconstN(tag - 0x09))
    else if 0x1a <= tag <= 0x1d then Some(IloadN(tag - 0x1a))
    else if 0x1e <= tag <= 0x21 then Some(LloadN(tag - 0x1e))
    else if 0x2a <= tag <= 0x2d then Some(AloadN(tag - 0x2a))
    else if 0x3b <= tag <= 0x3e then Some(IstoreN(tag - 0x3b))
    else if 0x3f <= tag <= 0x42 then Some(LstoreN(tag - 0x3f))
    else if 0x4b <= tag <= 0x4e then Some(AstoreN(tag - 0x4b))
    else None
  }

  /** Array element and stack opcodes without operand bytes. */
  function ArrayStackInstruction(tag: nat): (r: Option<Instruction>)
    ensures r.Some? ==> !r.value.Noope? && Opcode(r.value) == tag
    ensures r.Some? ==> EncodedLength(r.value) == 1
  {
    match tag
    case 0x2e => Some(Iaload)
    case 0x32 => Some(Aaload)
    case 0x4f => Some(Iastore)
    case 0x53 => Some(Aastore)
    case 0x57 => Some(Pop)
    case 0x59 => Some(Dup)
    case _ => None
  }

  /** `int` arithmetic opcodes. */
  function IntArithmeticInstruction(tag: nat): (r: Option<Instruction>)
    ensures r.Some? ==> !r.value.Noope? && Opcode(r.value) == tag
    ensures r.Some? ==> EncodedLength(r.value) == 1
  {
    match tag
    case 0x60 => Some(Iadd)
    case 0x64 => Some(Isub)
    case 0x68 => Some(Imul)
    case 0x6c => Some(Idiv)
    case 0x70 => Some(Irem)
    case _ => None
  }

  /** `long` arithmetic opcodes and `lcmp`. */
  function LongArithmeticInstruction(tag: nat): (r: Option<Instruction>)
    ensures r.Some? ==> !r.value.Noope? && Opcode(r.value) == tag
    ensures r.Some? ==> EncodedLength(r.value) == 1
  {
    match tag
    case 0x61 => Some(Ladd)
    case 0x65 => Some(Lsub)
    case 0x69 => Some(Lmul)
    case 0x6d => Some(Ldiv)
    case 0x71 => Some(Lrem)
    case 0x94 => Some(Lcmp)
    case _ => None
  }

  /** Return opcodes. */
  function ReturnInstruction(tag: nat): (r: Option<Instruction>)
    ensures r.Some? ==> !r.value.Noope? && Opcode(r.value) == tag
    ensures r.Some? ==> EncodedLength(r.value) == 1
  {
    match tag
    case 0xac => Some(Ireturn)
    case 0xb0 => Some(Areturn)
    case 0xb1 => Some(Return)
    case _ => None
  }

  /** Opcodes without operand bytes.  `iconst_m1` (0x02) is matched by the
      source's `0x02..=0x08` arm but fails there. */
  function NoOperandInstruction(tag: nat): (r: Option<Instruction>)
    ensures r.Some? ==> !r.value.Noope? && Opcode(r.value) == tag
    ensures r.Some? ==> EncodedLength(r.value) == 1
  {
    if ShortFormInstruction(tag).Some? then ShortFormInstruction(tag)
    else if ArrayStackInstruction(tag).Some? then ArrayStackInstruction(tag)
    else if IntArithmeticInstruction(tag).Some? then IntArithmeticInstruction(tag)
    else if LongArithmeticInstruction(tag).Some? then LongArithmeticInstruction(tag)
    else ReturnInstruction(tag)
  }

  predicate IsOneByteOperandOpcode(tag: nat)
  {
    tag == 0x10 || tag == 0x12 || tag == 0x15 || tag == 0x19 || tag == 0x36 || tag == 0x3a || tag == 0xbc
  }

  /** Opcodes with one `u1` operand. */
  function OneByteOperandInstruction(tag: nat, val: nat): (r: Instruction)
    requires IsOneByteOperandOpcode(tag)
    ensures !r.Noope? && Opcode(r) == tag
    ensures EncodedLength(r) == 2
    ensures r.operand == val
  {
    match tag
    case 0x10 => Bipush(val)
    case 0x12 => Ldc(val)
    case 0x15 => Iload(val)
    case 0x19 => Aload(val)
    case 0x36 => Istore(val)
    case 0x3a => Astore(val)
    case 0xbc => Newarray(val)
  }

  predicate IsTwoByteOperandOpcode(tag: nat)
  {
    tag == 0x11 || 0xb2 <= tag <= 0xb8 || tag == 0xbb || tag == 0xbd
  }

  /** Opcodes with one big-endian `u2` operand. */
  function TwoByteOperandInstruction(tag: nat, val: nat): (r: Instruction)
    requires IsTwoByteOperandOpcode(tag)
    ensures !r.Noope? && Opcode(r) == tag
    ensures EncodedLength(r) == 3
    ensures r.operand == val
  {
    match tag
    case 0x11 => Sipush(val)
    case 0xb2 => Getstatic(val)
    case 0xb3 => Putstatic(val)
    case 0xb4 => Getfield(val)
    case 0xb5 => Putfield(val)
    case 0xb6 => Invokevirtual(val)
    case 0xb7 => Invokespecial(val)
    case 0xb8 => Invokestatic(val)
    case 0xbb => New(val)
    case 0xbd => Anewarray(val)
  }

  predicate IsBytePairOpcode(tag: nat) { tag == 0x14 || tag == 0x84 }

  /** `ldc2_w` and `iinc`: two operand bytes kept separately. */
  function BytePairInstruction(tag: nat, a: nat, b: nat): (r: Instruction)
    requires IsBytePairOpcode(tag)
    ensures !r.Noope? && Opcode(r) == tag
    ensures EncodedLength(r) == 3
    ensures r == Ldc2W(a, b) || r == Iinc(a, b)
  {
    if tag == 0x14 then Ldc2W(a, b) else Iinc(a, b)
  }

  predicate IsConditionalBranchOpcode(tag: nat) { 0x99 <= tag <= 0xa4 }

  /** `ifeq` .. `if_icmple`. */
  function ConditionalBranchInstruction(tag: nat, ifTarget: nat, elseTarget: nat): (r: Instruction)
    requires IsConditionalBranchOpcode(tag)
    ensures !r.Noope? && Opcode(r) == tag
    ensures EncodedLength(r) == 3
    ensures r.ifTarget == ifTarget && r.elseTarget == elseTarget
  {
    match tag
    case 0x99 => Ifeq(ifTarget, elseTarget)
    case 0x9a => Ifne(ifTarget, elseTarget)
    case 0x9b => Iflt(ifTarget, elseTarget)
    case 0x9c => Ifge(ifTarget, elseTarget)
    case 0x9d => Ifgt(ifTarget, elseTarget)
    case 0x9e => Ifle(ifTarget, elseTarget)
    case 0x9f => Ificmpeq(ifTarget, elseTarget)
    case 0xa0 => Ificmpne(ifTarget, elseTarget)
    case 0xa1 => Ificmplt(ifTarget, elseTarget)
    case 0xa2 => Ificmpge(ifTarget, elseTarget)
    case 0xa3 => Ificmpgt(ifTarget, elseTarget)
    case 0xa4 => Ificmple(ifTarget, elseTarget)
  }

  /** Every opcode `create_and_push` has an arm for. */
  predicate KnownOpcode(tag: nat)
  {
    || tag == 0x02
    || NoOperandInstruction(tag).Some?
    || IsOneByteOperandOpcode(tag)
    || IsTwoByteOperandOpcode(tag)
    || IsBytePairOpcode(tag)
    || IsConditionalBranchOpcode(tag)
    || tag == 0xa7 || tag == 0xab || tag == 0xc5
  }

  /** The arms of `create_and_push`, grouped by how the operand bytes are
      read. */
  datatype OpcodeKind =
    | IconstM1Kind | NoOperandKind | OneByteKind | TwoByteKind | BytePairKind
    | BranchKind | LookupswitchKind | MultianewarrayKind | UnknownKind

  /** Which arm of `create_and_push` decodes `tag`. */
  function KindOf(tag: nat): OpcodeKind
  {
    if tag == 0x02 then IconstM1Kind
    else if IsNoOperandOpcode(tag) then NoOperandKind
    else if IsOneByteOperandOpcode(tag) then OneByteKind
    else if IsTwoByteOperandOpcode(tag) then TwoByteKind
    else if IsBytePairOpcode(tag) then BytePairKind
    else if IsConditionalBranchOpcode(tag) || tag == 0xa7 then BranchKind
    else if tag == 0xab then LookupswitchKind
    else if tag == 0xc5 then MultianewarrayKind
    else UnknownKind
  }

  /** The opcodes `NoOperandInstruction` decodes, range by range. */
  predicate IsNoOperandOpcode(tag: nat)
  {
    || 0x03 <= tag <= 0x0a || 0x1a <= tag <= 0x21 || 0x2a <= tag <= 0x2d
    || 0x3b <= tag <= 0x42 || 0x4b <= tag <= 0x4e
    || tag == 0x2e || tag == 0x32 || tag == 0x4f || tag == 0x53 || tag == 0x57 || tag == 0x59
    || tag == 0x60 || tag == 0x64 || tag == 0x68 || tag == 0x6c || tag == 0x70
    || tag == 0x61 || tag == 0x65 || tag == 0x69 || tag == 0x6d || tag == 0x71 || tag == 0x94
    || tag == 0xac || tag == 0xb0 || tag == 0xb1
  }

  /** The range table is exactly the set of opcodes without operand bytes. */
  lemma NoOperandOpcodes(tag: nat)
    ensures IsNoOperandOpcode(tag) <==> NoOperandInstruction(tag).Some?
  {
    if ShortFormInstruction(tag).Some? {
    } else if ArrayStackInstruction(tag).Some? {
    } else if IntArithmeticInstruction(tag).Some? {
    } else if LongArithmeticInstruction(tag).Some? {
    }
  }

  /** The arms partition the opcodes: each kind is exactly its group. */
  lemma KindOfPartition(tag: nat)
    ensures KindOf(tag) == IconstM1Kind <==> tag == 0x02
    ensures KindOf(tag) == NoOperandKind <==> tag != 0x02 && NoOperandInstruction(tag).Some?
    ensures KindOf(tag) == OneByteKind <==> IsOneByteOperandOpcode(tag)
    ensures KindOf(tag) == TwoByteKind <==> IsTwoByteOperandOpcode(tag)
    ensures KindOf(tag) == BytePairKind <==> IsBytePairOpcode(tag)
    ensures KindOf(tag) == BranchKind <==> IsConditionalBranchOpcode(tag) || tag == 0xa7
    ensures KindOf(tag) == LookupswitchKind <==> tag == 0xab
    ensures KindOf(tag) == MultianewarrayKind <==> tag == 0xc5
  {
    NoOperandOpcodes(tag);
  }

  /** The opcodes without an arm are exactly those of no group. */
  lemma KindOfUnknown(tag: nat)
    ensures KindOf(tag) == UnknownKind <==> !KnownOpcode(tag)
  {
    NoOperandOpcodes(tag);
  }

  /** The branch target the decoder stores: the signed 16-bit offset is read
      as unsigned, added to the instruction's position, and the sum minus
      one is masked with `& 0xffff`. */
  function BranchTarget(offset: nat, position: nat): (r: nat)
    requires offset + position >= 1
    ensures r < 0x10000
    ensures offset + position - 1 < 0x10000 ==> r == offset + position - 1
  {
    (offset + position - 1) % 0x10000
  }

  /** The `(key, target)` pairs of a `lookupswitch`: pair k is read at
      `start + 8k`, and every target has the pair count added. */
  function SwitchPairs(inputs: seq<byte>, start: nat, count: nat, npairs: nat): (r: seq<(Option<nat>, nat)>)
    requires start + 8 * count <= |inputs|
    ensures |r| == count
    ensures forall k :: 0 <= k < count ==> r[k].0.Some?
  {
    if count == 0 then []
    else
      var at := start + 8 * (count - 1);
      SwitchPairs(inputs, start, count - 1, npairs)
        + [(Some(BigEndian(inputs[at..at + 4])), BigEndian(inputs[at + 4..at + 8]) + npairs)]
  }

  /** A conditional branch or `goto` at entry `position` with its u2 offset
      at `index`. */
  function BranchAt(inputs: seq<byte>, index: nat, tag: nat, position: nat): (r: Result<Instruction>)
    requires IsConditionalBranchOpcode(tag) || tag == 0xa7
    ensures r.Ok? ==> !r.value.Noope? && Opcode(r.value) == tag
  {
    if index + 2 > |inputs| then Err(IndexOutOfBounds)
    else if BigEndian(inputs[index..index + 2]) + position < 1 then Err(ArithmeticOverflow)
    else
      var target := BranchTarget(BigEndian(inputs[index..index + 2]), position);
      if tag == 0xa7 then Ok(Goto(target)) else Ok(ConditionalBranchInstruction(tag, target, position + 2))
  }

  /** A `lookupswitch` whose default offset and pair count are at `index`. */
  function LookupswitchAt(inputs: seq<byte>, index: nat): (r: Result<Instruction>)
    ensures r.Ok? ==> r.value.Lookupswitch?
  {
    if index + 8 <= |inputs| && index + 8 + 8 * BigEndian(inputs[index + 4..index + 8]) <= |inputs| then
      var npairs := BigEndian(inputs[index + 4..index + 8]);
      Ok(Lookupswitch([(None, BigEndian(inputs[index..index + 4]) + npairs)]
                      + SwitchPairs(inputs, index + 8, npairs, npairs)))
    else Err(IndexOutOfBounds)
  }

  /** The instruction `create_and_push` decodes for opcode `tag` with its
      operand bytes from `inputs[index]`, when it becomes entry `position`
      of the code vector, or the fault its arm panics with: `iconst_m1`
      underflows `val - 0x03`, a missing operand byte is out of bounds, a
      branch offset and position summing to 0 underflow `usize`, and an
      opcode with no arm is unimplemented. */
  function InstructionAt(inputs: seq<byte>, index: nat, tag: nat, position: nat): (r: Result<Instruction>)
    ensures r.Ok? ==> !r.value.Noope? && Opcode(r.value) == tag
  {
    match KindOf(tag)
    case IconstM1Kind => Err(ArithmeticOverflow)
    case NoOperandKind => NoOperandOpcodes(tag); Ok(NoOperandInstruction(tag).value)
    case OneByteKind =>
      if index + 1 <= |inputs| then Ok(OneByteOperandInstruction(tag, inputs[index])) else Err(IndexOutOfBounds)
    case TwoByteKind =>
      if index + 2 <= |inputs| then Ok(TwoByteOperandInstruction(tag, BigEndian(inputs[index..index + 2])))
      else Err(IndexOutOfBounds)
    case BytePairKind =>
      if index + 2 <= |inputs| then Ok(BytePairInstruction(tag, inputs[index], inputs[index + 1]))
      else Err(IndexOutOfBounds)
    case BranchKind => BranchAt(inputs, index, tag, position)
    case LookupswitchKind => LookupswitchAt(inputs, index)
    case MultianewarrayKind =>
      if index + 3 <= |inputs| then Ok(Multianewarray(BigEndian(inputs[index..index + 2]), inputs[index + 2]))
      else Err(IndexOutOfBounds)
    case UnknownKind => Err(Unimplemented)
  }

  /** The operand bytes of a decoded instruction lie within the input: one
      with operands occupies `EncodedLength` bytes from its opcode at
      `index - 1`. */
  lemma InstructionAtFits(inputs: seq<byte>, index: nat, tag: nat, position: nat)
    ensures var r := InstructionAt(inputs, index, tag, position);
      r.Ok? && EncodedLength(r.value) > 1 ==> index + EncodedLength(r.value) <= |inputs| + 1
  {
  }

  /** The common layout of a successful `create_and_push`: the instruction,
      then `size - 1` fillers; the input index moved past exactly the
      operand bytes; `size` is the instruction's encoded length. */
  predicate Pushed(codes: seq<Instruction>, inputs: seq<byte>, index: nat, tag: nat,
                   out: (seq<Instruction>, nat, nat))
  {
    var (c, next, size) := out;
    && size >= 1
    && |c| == |codes| + size
    && c[..|codes|] == codes
    && !c[|codes|].Noope?
    && Opcode(c[|codes|]) == tag
    && EncodedLength(c[|codes|]) == size
    && c[|codes| + 1..] == Noopes(size - 1)
    && next == index + size - 1
    && (size > 1 ==> next <= |inputs|)
  }

  /** `r` is what `create_and_push` leaves for opcode `tag`: the fault of
      `InstructionAt`, or the decoded instruction appended at `|codes|` with
      its fillers. */
  predicate Decodes(codes: seq<Instruction>, inputs: seq<byte>, index: nat, tag: nat,
                    r: Result<(seq<Instruction>, nat, nat)>)
  {
    var d := InstructionAt(inputs, index, tag, |codes|);
    && (r.Ok? <==> d.Ok?)
    && (r.Err? ==> r.error == d.error)
    && (r.Ok? ==> Pushed(codes, inputs, index, tag, r.value) && r.value.0[|codes|] == d.value)
  }

  /** One `(key, target)` pair of a `lookupswitch`, read at `at`. */
  method ReadSwitchPair(inputs: seq<byte>, at: nat, npairs: nat) returns (r: Result<(Option<nat>, nat)>)
    ensures r.Ok? <==> at + 8 <= |inputs|
    ensures r.Ok? ==> r.value == (Some(BigEndian(inputs[at..at + 4])), BigEndian(inputs[at + 4..at + 8]) + npairs)
    ensures r.Err? ==> r.error == IndexOutOfBounds
  {
    var keyRead :- ExtractXByteAsUsize(inputs, at, 4);
    var valRead :- ExtractXByteAsUsize(inputs, keyRead.1, 4);
    return Ok((Some(keyRead.0), valRead.0 + npairs));
  }

  /** The `lookupswitch` table: the default offset, the pair count and
      the pairs, each target with the pair count added. */
  method ReadSwitchValues(inputs: seq<byte>, index: nat) returns (r: Result<(seq<(Option<nat>, nat)>, nat)>)
    ensures r.Ok? <==> index + 8 <= |inputs| && index + 8 + 8 * BigEndian(inputs[index + 4..index + 8]) <= |inputs|
    ensures r.Ok? ==>
      var npairs := BigEndian(inputs[index + 4..index + 8]);
      && r.value.0 == [(None, BigEndian(inputs[index..index + 4]) + npairs)] + SwitchPairs(inputs, index + 8, npairs, npairs)
      && r.value.1 == index + 8 + 8 * npairs
    ensures r.Err? ==> r.error == IndexOutOfBounds
  {
    var offsetRead :- ExtractXByteAsUsize(inputs, index, 4);
    var offset := offsetRead.0;
    var npairsRead :- ExtractXByteAsUsize(inputs, offsetRead.1, 4);
    var npairs := npairsRead.0;
    var idx := npairsRead.1;
    var switchValues: seq<(Option<nat>, nat)> := [(None, offset + npairs)];
    var i := 0;
    while i < npairs
      invariant 0 <= i <= npairs && idx == index + 8 + 8 * i <= |inputs|
      invariant switchValues == [(None, offset + npairs)] + SwitchPairs(inputs, index + 8, i, npairs)
    {
      var pair :- ReadSwitchPair(inputs, idx, npairs);
      assert SwitchPairs(inputs, index + 8, i + 1, npairs) == SwitchPairs(inputs, index + 8, i, npairs) + [pair];
      switchValues := switchValues + [pair];
      idx := idx + 8;
      i := i + 1;
    }
    return Ok((switchValues, idx));
  }

  /** `for _ in 0..n { codes.push(Instruction::Noope) }` */
  method PushNoopes(codes: seq<Instruction>, n: nat) returns (c: seq<Instruction>)
    ensures c == codes + Noopes(n)
  {
    c := codes;
    var j := 0;
    while j < n
      invariant 0 <= j <= n
      invariant c == codes + Noopes(j)
    {
      assert Noopes(j + 1) == Noopes(j) + [Noope];
      c := c + [Noope];
      j := j + 1;
    }
  }

  /** The `lookupswitch` arm: `(n + 1) * 8` fillers after the instruction. */
  method PushLookupswitch(codes: seq<Instruction>, inputs: seq<byte>, index: nat)
    returns (r: Result<(seq<Instruction>, nat, nat)>)
    ensures r.Ok? <==> index + 8 <= |inputs| && index + 8 + 8 * BigEndian(inputs[index + 4..index + 8]) <= |inputs|
    ensures r.Ok? ==> Pushed(codes, inputs, index, 0xab, r.value)
    ensures r.Ok? ==>
      var npairs := BigEndian(inputs[index + 4..index + 8]);
      r.value.0[|codes|] == Lookupswitch(
        [(None, BigEndian(inputs[index..index + 4]) + npairs)] + SwitchPairs(inputs, index + 8, npairs, npairs))
    ensures r.Err? ==> r.error == IndexOutOfBounds
  {
    var read :- ReadSwitchValues(inputs, index);
    var switchValues := read.0;
    var setLength := |switchValues|;
    var switchInstructionsLen := setLength * 4 * 2;
    var c := PushNoopes(codes + [Lookupswitch(switchValues)], switchInstructionsLen);
    assert c[|codes|] == Lookupswitch(switchValues);
    assert c[|codes| + 1..] == Noopes(switchInstructionsLen);
    assert c[..|codes|] == codes;
    return Ok((c, read.1, switchInstructionsLen + 1));
  }

  /** The arms with one `u1` operand. */
  method PushOneByteOperand(codes: seq<Instruction>, inputs: seq<byte>, index: nat, tag: nat)
    returns (r: Result<(seq<Instruction>, nat, nat)>)
    requires IsOneByteOperandOpcode(tag)
    ensures r.Ok? <==> index + 1 <= |inputs|
    ensures r.Ok? ==> Pushed(codes, inputs, index, tag, r.value)
    ensures r.Ok? ==> r.value.0[|codes|] == OneByteOperandInstruction(tag, inputs[index])
    ensures r.Err? ==> r.error == IndexOutOfBounds
  {
    var read :- ExtractXByteAsUsize(inputs, index, 1);
    assert inputs[index..index + 1] == [inputs[index]];
    assert [inputs[index]][..0] == [];
    var ins := OneByteOperandInstruction(tag, read.0);
    var c := codes + [ins, Noope];
    assert c[|codes| + 1..] == Noopes(1);
    return Ok((c, read.1, 2));
  }

  /** The arms with one big-endian `u2` operand. */
  method PushTwoByteOperand(codes: seq<Instruction>, inputs: seq<byte>, index: nat, tag: nat)
    returns (r: Result<(seq<Instruction>, nat, nat)>)
    requires IsTwoByteOperandOpcode(tag)
    ensures r.Ok? <==> index + 2 <= |inputs|
    ensures r.Ok? ==> Pushed(codes, inputs, index, tag, r.value)
    ensures r.Ok? ==> r.value.0[|codes|] == TwoByteOperandInstruction(tag, BigEndian(inputs[index..index + 2]))
    ensures r.Err? ==> r.error == IndexOutOfBounds
  {
    var read :- ExtractXByteAsUsize(inputs, index, 2);
    var ins := TwoByteOperandInstruction(tag, read.0);
    var c := codes + [ins, Noope, Noope];
    assert c[|codes| + 1..] == Noopes(2);
    return Ok((c, read.1, 3));
  }

  /** `ldc2_w` and `iinc`: the two operand bytes taken as a vector. */
  method PushBytePair(codes: seq<Instruction>, inputs: seq<byte>, index: nat, tag: nat)
    returns (r: Result<(seq<Instruction>, nat, nat)>)
    requires IsBytePairOpcode(tag)
    ensures r.Ok? <==> index + 2 <= |inputs|
    ensures r.Ok? ==> Pushed(codes, inputs, index, tag, r.value)
    ensures r.Ok? ==> r.value.0[|codes|] == BytePairInstruction(tag, inputs[index], inputs[index + 1])
    ensures r.Err? ==> r.error == IndexOutOfBounds
  {
    var read :- ExtractXByteAsVec(inputs, index, 2);
    var ins := BytePairInstruction(tag, read.0[0], read.0[1]);
    var c := codes + [ins, Noope, Noope];
    assert c[|codes| + 1..] == Noopes(2);
    return Ok((c, read.1, 3));
  }

  /** The conditional branches and `goto`: the if-target is
      `(val + code_length - 1) & 0xffff` with `code_length` taken before the
      push, the else-target `code_length + 2`. */
  method PushBranch(codes: seq<Instruction>, inputs: seq<byte>, index: nat, tag: nat)
    returns (r: Result<(seq<Instruction>, nat, nat)>)
    requires IsConditionalBranchOpcode(tag) || tag == 0xa7
    ensures r.Ok? <==> index + 2 <= |inputs| && BigEndian(inputs[index..index + 2]) + |codes| >= 1
    ensures r.Ok? ==> Pushed(codes, inputs, index, tag, r.value)
    ensures r.Ok? && tag == 0xa7 ==>
      r.value.0[|codes|] == Goto(BranchTarget(BigEndian(inputs[index..index + 2]), |codes|))
    ensures r.Ok? && tag != 0xa7 ==>
      r.value.0[|codes|] == ConditionalBranchInstruction(tag,
        BranchTarget(BigEndian(inputs[index..index + 2]), |codes|), |codes| + 2)
    ensures r.Err? ==> r.error == (if index + 2 <= |inputs| then ArithmeticOverflow else IndexOutOfBounds)
  {
    var read :- ExtractXByteAsUsize(inputs, index, 2);
    var codeLength := |codes|;
    if read.0 + codeLength < 1 {
      // `val + code_length - 1` on a usize
      return Err(ArithmeticOverflow);
    }
    var target := (read.0 + codeLength - 1) % 0x10000;
    var ins := if tag == 0xa7 then Goto(target)
               else ConditionalBranchInstruction(tag, target, codeLength + 2);
    var c := codes + [ins, Noope, Noope];
    assert c[|codes| + 1..] == Noopes(2);
    return Ok((c, read.1, 3));
  }

  /** `multianewarray`: a `u2` class index and a `u1` dimension count. */
  method PushMultianewarray(codes: seq<Instruction>, inputs: seq<byte>, index: nat)
    returns (r: Result<(seq<Instruction>, nat, nat)>)
    ensures r.Ok? <==> index + 3 <= |inputs|
    ensures r.Ok? ==> Pushed(codes, inputs, index, 0xc5, r.value)
    ensures r.Ok? ==> r.value.0[|codes|] == Multianewarray(BigEndian(inputs[index..index + 2]), inputs[index + 2])
    ensures r.Err? ==> r.error == IndexOutOfBounds
  {
    var read :- ExtractXByteAsUsize(inputs, index, 2);
    var dimensions :- ExtractXByteAsUsize(inputs, read.1, 1);
    assert inputs[index + 2..index + 3] == [inputs[index + 2]];
    assert [inputs[index + 2]][..0] == [];
    var ins := Multianewarray(read.0, dimensions.0);
    var c := codes + [ins, Noope, Noope, Noope];
    assert c[|codes| + 1..] == Noopes(3);
    return Ok((c, dimensions.1, 4));
  }

  /** `Instruction::create_and_push`: decode the opcode `tag` whose operand
      bytes start at `inputs[index]`, and append it with its fillers.
      Returns the extended vector, the index after the operands and the
      instruction's size. */
  method CreateAndPush(codes: seq<Instruction>, inputs: seq<byte>, index: nat, tag: nat)
    returns (r: Result<(seq<Instruction>, nat, nat)>)
    ensures Decodes(codes, inputs, index, tag, r)
  {
    match KindOf(tag)
    case IconstM1Kind =>
      // `val - 0x03` on a usize
      return Err(ArithmeticOverflow);
    case NoOperandKind =>
      var c := codes + [NoOperandInstruction(tag).value];
      assert c[|codes| + 1..] == Noopes(0);
      return Ok((c, index, 1));
    case OneByteKind =>
      r := PushOneByteOperand(codes, inputs, index, tag);
    case TwoByteKind =>
      r := PushTwoByteOperand(codes, inputs, index, tag);
    case BytePairKind =>
      r := PushBytePair(codes, inputs, index, tag);
    case BranchKind =>
      r := PushBranch(codes, inputs, index, tag);
    case LookupswitchKind =>
      r := PushLookupswitch(codes, inputs, index);
    case MultianewarrayKind =>
      r := PushMultianewarray(codes, inputs, index);
    case UnknownKind =>
      r := Err(Unimplemented);
  }

  /** `Instruction::counsume_index`: how far `execute` moves past an
      instruction's operand bytes.  The conditional branches other than
      `if_icmple`, `goto`, the `Noope` filler and the other instructions the
      source does not list are `unimplemented`. */
  function CounsumeIndex(ins: Instruction): (r: Result<nat>)
    ensures r.Err? ==> r.error == Unimplemented
    ensures ins.Noope? || ins.Goto? ==> r.Err?
  {
    match ins
    case Lookupswitch(vals) => Ok(|vals| * 4)
    case Multianewarray(_, _) => Ok(3)
    case Ificmple(_, _) | Getstatic(_) | Putstatic(_) | Getfield(_) | Putfield(_)
       | Iinc(_, _) | Sipush(_) | Ldc2W(_, _) | Invokevirtual(_) | Invokespecial(_)
       | Invokestatic(_) | New(_) | Anewarray(_) => Ok(2)
    case Iload(_) | Aload(_) | Istore(_) | Astore(_) | Bipush(_) | Newarray(_) | Ldc(_) => Ok(1)
    case IconstN(_) | LconstN(_) | IstoreN(_) | IloadN(_) | LstoreN(_) | LloadN(_)
       | AstoreN(_) | AloadN(_) | Pop | Dup | Iadd | Ladd | Isub | Lsub | Imul | Lmul
       | Idiv | Ldiv | Irem | Lrem | Lcmp | Ireturn | Areturn | Iaload | Aaload
       | Iastore | Aastore | Return => Ok(0)
    case _ => Err(Unimplemented)
  }

  /** For every fixed-size instruction `counsume_index` accepts, it is the
      number of fillers `create_and_push` puts after the instruction, so
      `index + 1 + counsume_index` is the next instruction's position. */
  lemma CounsumeIndexMatchesLayout(ins: Instruction)
    requires CounsumeIndex(ins).Ok? && !ins.Lookupswitch?
    ensures CounsumeIndex(ins).value == EncodedLength(ins) - 1
  {
    if ins.Multianewarray? {
    } else if TwoAfterOpcode(ins) {
      TwoAfterOpcodeLayout(ins);
    } else if HasOneOperandByte(ins) {
      OneOperandByteLayout(ins);
    } else {
      NoOperandLayout(ins);
    }
  }

  /** The arm of `counsume_index` that answers 2. */
  predicate TwoAfterOpcode(ins: Instruction)
  {
    || ins.Ificmple? || ins.Getstatic? || ins.Putstatic? || ins.Getfield? || ins.Putfield?
    || ins.Iinc? || ins.Sipush? || ins.Ldc2W? || ins.Invokevirtual? || ins.Invokespecial?
    || ins.Invokestatic? || ins.New? || ins.Anewarray?
  }

  lemma TwoAfterOpcodeLayout(ins: Instruction)
    requires TwoAfterOpcode(ins)
    ensures CounsumeIndex(ins) == Ok(2) && EncodedLength(ins) == 3
  {
  }

  lemma OneOperandByteLayout(ins: Instruction)
    requires HasOneOperandByte(ins)
    ensures CounsumeIndex(ins) == Ok(1) && EncodedLength(ins) == 2
  {
  }

  lemma NoOperandLayout(ins: Instruction)
    requires CounsumeIndex(ins).Ok? && !ins.Lookupswitch? && !ins.Multianewarray?
    requires !TwoAfterOpcode(ins) && !HasOneOperandByte(ins)
    ensures CounsumeIndex(ins) == Ok(0) && EncodedLength(ins) == 1
  {
  }

  /** For `lookupswitch` it is only half the fillers: 4 per entry against
      8.  `execute` jumps out of a `lookupswitch` without consulting it. */
  lemma CounsumeIndexLookupswitchIsHalf(vals: seq<(Option<nat>, nat)>)
    ensures CounsumeIndex(Lookupswitch(vals)).value * 2 == EncodedLength(Lookupswitch(vals)) - 1
  {
  }

  /** Decoding inverts `Opcode` on the short forms: `iconst_<n>` for n in
      0..5, and the `<n>` forms 0..3 of the loads and stores. */
  lemma ShortFormsRoundTrip(ins: Instruction)
    requires || (ins.IconstN? && ins.n <= 5) || (ins.LconstN? && ins.n <= 1)
             || ((ins.IloadN? || ins.LloadN? || ins.AloadN? || ins.IstoreN? || ins.LstoreN? || ins.AstoreN?) && ins.n <= 3)
    ensures NoOperandInstruction(Opcode(ins)) == Some(ins)
  {
  }
}
