# rust-jvm core in Dafny

A model of the core of rust-jvm, a small Java Virtual Machine written in Rust,
with proofs about it.  The model covers two parts of the program.

- **The class-file reader.**
  - `ClassFile::new` reads the header and the access flags.
  - `ConstantPool::new` and `ConstPoolItem::new` decode constant-pool
    entries.
  - `Method::new` and the field access flags come with their flag sets.
  - The attributes are Code, SourceFile, LineNumberTable and the
    StackMapTable `same_frame`.
  - The bytecode decoder `Instruction::create_and_push` appends every
    decoded instruction to the code vector, followed by one `Noope` filler
    per operand byte.  A position in the vector is therefore the
    instruction's byte offset.
- **The interpreter.**
  - `Context::execute` is one instruction.
  - `run_method` is the loop that runs a method.
  - `create_new_stack_frame` builds a callee's frame.
  - The helpers `load_n`, `store_n` and `create_multi_dimentions_array`
    are included.
  - So are the heaps (`ObjectMap`, `ArrayMap`), the string pool, the stack
    frame and the operand stack.

Where the Rust code mutates state, the model does too.

- `Context`, `ObjectMap`, `ArrayMap`, `StringPool`, `Stackframe` and
  `OperandStack` are classes with `modifies` clauses.
- The interpreter state is also written as a value, a `State` made of
  frames, array heap and id counter.
- `ContextSteps.Step` is `execute` as a function on `State`.  It takes a
  `Semantics`: `AsWritten` is the program as written, defects included;
  `Intended` is the behaviour with the defects listed under Findings below
  corrected.  A property of a member with a `sem` parameter holds for
  both unless its row names one.
- `Contexts.Context.Execute` changes the object in place.  For either
  `Semantics` it is proved to leave exactly the state `Step` computes.
- The properties proved of `Step` and `Run` therefore hold of the methods.
- The class-file decoders that loop over the input (`Code::new`,
  `Method::new`, the attribute tables) are methods proved equal to
  recursive functions (`AttributesFrom`, `InstructionsFrom`, `CodeAt`,
  …).  What the bytes decode to is proved about those functions.

Rust failure semantics:

- A panic (`unwrap` on `None`, `expect`, `unreachable!`, `unimplemented!`,
  an index out of range, an overflow) is an `Err` carrying a `Fault` that
  names the kind of panic.
- Integer arithmetic follows a debug build: overflow panics.  The
  exception is constant.rs, whose `u8` shifts by 16 always overflow in a
  debug build.  Its decoders take a `BuildMode`: a release build masks the
  shift amount to its low three bits.
- `as i32` is a two's-complement wrap (`Operand.WrapI32`).
- `x as usize` of a negative `i32` is a 64-bit wrap
  (`ContextSteps.AsUsize`).  A wrapped `multianewarray` count panics only
  where `Vec::with_capacity` is asked for that many entries
  (`MultiDimensions.CapacityOverflows`).

Code that executes outside the model enters as a function parameter
(`ContextSteps.Externals`, and the pool and field decoders of
`ClassFiles.ClassFileNew`).  This covers:

- the ordering on `Item` (`partial_cmp`);
- the `Item` arithmetic of the operand stack (`iadd`, `ladd`, `lcmp`, …);
- the constant-pool accessor `get_class_ref_name`.

## Model

| member | source | states |
|---|---|---|
| Operand.WrapI32 | src/context.rs:156-173 | the result is an `i32`, congruent to the input modulo 2^32, and equal to it when it is already an `i32` |
| Operand.OperandStack.constructor | src/operand.rs:13-15 | a new stack is empty |
| Operand.OperandStack.Bipush | src/operand.rs:34-36 | exactly the item is pushed on top; the items below are unchanged |
| Operand.OperandStack.Iconst | src/operand.rs:38-40 | the stack grows by one, with the item on top and the old stack below it |
| Operand.AddTwoItem | src/operand.rs:24-32 | succeeds exactly when both items are `I32` and their sum fits in an `i32`; the result is that sum |
| Operand.Iadd | src/operand.rs:17-22 | fewer than two items fail; otherwise the top two are popped and the result is the checked sum of top and second, nothing pushed |
| Objects.ObjectMap.constructor | src/object.rs:13-18 | counter 0, no objects, invariant established |
| Objects.ObjectMap.Get | src/object.rs:27-29 | `Some` exactly for stored ids, holding the stored object |
| Objects.ObjectMap.Add | src/object.rs:20-25 | returns the old counter, which was unused, and increments it; only that id changes, and `Get` of it gives the value back |
| Objects.ObjectMap.GetMut | src/object.rs:31-33 | found exactly when the id is stored; only that entry is updated, the counter is kept |
| Arrays.PrimitiveArrayTypeCode | src/array.rs:36-46 | every `atype` discriminant lies in 4..11 |
| Arrays.PrimitiveArrayTypeCodesAreAtype | src/array.rs:36-46 | the discriminants are exactly 4..11, one variant each |
| Arrays.ArrayMap.constructor | src/array.rs:13-18 | counter 0, no arrays, invariant established |
| Arrays.ArrayMap.Get | src/array.rs:27-29 | `Some` exactly for stored ids, holding the stored array |
| Arrays.ArrayMap.Add | src/array.rs:20-25 | returns the old counter, which was unused, and increments it; only that id changes |
| Arrays.ArrayMap.GetMut | src/array.rs:31-33 | found exactly when the id is stored; only that entry is updated |
| StringPools.StringPool.constructor | src/string_pool.rs:10-16 | counter 0, both maps empty, the maps-are-inverses invariant holds |
| StringPools.StringPool.Insert | src/string_pool.rs:18-30 | an interned value keeps its id and nothing changes; a new value gets the old counter in both maps; the invariant is kept |
| StringPools.StringPool.GetValue | src/string_pool.rs:32-37 | `Ok` exactly for stored ids, holding the stored string |
| StringPools.InsertThenGetValue | src/string_pool.rs:18-37 | `get_value(insert(v))` is `v` for every pool and string |
| Stackframes.InsertAt | src/stackframe.rs:19 | `Vec::insert`: one longer, the element at `i`, the prefix kept, the rest shifted by one |
| Stackframes.InsertAtRemoves | src/stackframe.rs:19 | removing the inserted element gives the old sequence back |
| Stackframes.Stackframe.constructor | src/stackframe.rs:10-15 | empty locals and a fresh, empty operand stack |
| Stackframes.Stackframe.Istore | src/stackframe.rs:17-21 | an empty stack changes nothing; otherwise the top item is popped and inserted at `index`, failing exactly when `index` is past the locals |
| Utils.BigEndianBound | src/utils.rs:32-38 | an x-byte big-endian value is below 256^x |
| Utils.BigEndianTwo | src/utils.rs:32-38 | two bytes read as `hi * 256 + lo` |
| Utils.U2AtIsBigEndian | src/utils.rs:32-38 | the two-byte read used by the decoders is the big-endian value of those bytes |
| Utils.U4AtIsBigEndian | src/utils.rs:32-38 | the four-byte read used by the decoders is the big-endian value of those bytes |
| Utils.BigEndianStep | src/utils.rs:32-38 | appending a byte multiplies the value read so far by 256 and adds the byte |
| Utils.ExtractXByteAsVec | src/utils.rs:24-30 | `Ok` exactly when the x bytes exist; they are returned with the index moved past them |
| Utils.ExtractXByteAsUsize | src/utils.rs:32-38 | `Ok` exactly when the x bytes exist; the result is their big-endian value and the index moves past them |
| Utils.ReadU2Pair | src/class_file.rs:55-56 | two consecutive u2 values and the index after them, `Ok` exactly when the four bytes exist |
| Utils.DevideI64ToTwoI32AsWritten | src/utils.rs:40-42 | the split as written, both halves `i32` |
| Utils.DevideAsWrittenHighHalfIsZero | src/utils.rs:40-42 | as written, the high half is 0 for every input |
| Utils.DevideAsWrittenLosesHighWord | src/utils.rs:40-42 | as written, 2^32 and 0 split to the same pair |
| Utils.DevideI64ToTwoI32 | src/utils.rs:40-42 | the intended split: two `i32` halves |
| Utils.DevideI64ToTwoI32RoundTrip | src/utils.rs:40-42 | the intended halves recombine to the input for every `i64` |
| Utils.IniailizePrimitiveArray | src/utils.rs:63-86 | types 4, 10 and 11 give `length` copies of their default pair; any other type fails |
| Utils.InitializeObjectrefArray | src/utils.rs:88-104 | `length` consecutive fresh ids, each holding an uninitialised object of the class; no existing object changes |
| Utils.BitAnd | src/utils.rs:106-113 | `&` is bounded by both operands |
| Utils.BitAndSingleBit | src/utils.rs:106-113 | against a one-bit mask, `&` is non-zero exactly when that bit is set |
| Utils.BitOfZero | src/utils.rs:106-113 | no bit is set in 0, so an empty flag word yields no flags |
| Utils.Join | src/class_file.rs:156-166 | joining strings: empty for none, the string itself for one, and otherwise the lengths plus one separator between each pair |
| Constant.ShlU8 | src/constant.rs:101-102 | a debug build fails exactly on a shift of 8 or more; otherwise the byte shifted by the amount modulo 8, truncated to 8 bits |
| Constant.AddU8 | src/constant.rs:105 | a debug build fails exactly on overflow; otherwise the sum modulo 256 |
| Constant.ConstPoolTagFrom | src/constant.rs:56-76 | accepts exactly the 14 tag bytes and returns the variant with that discriminant; any other byte fails |
| Constant.ConstPoolTagRoundTrip | src/constant.rs:37-76 | every tag except `ConstantNull` survives discriminant-then-`from`; `ConstantNull`'s 0 is rejected |
| Constant.ConstantPoolNew | src/constant.rs:4-34 | slot 0 is `ConstantNull` and zero entries give just that; with entries, input that has run out fails; at most `length` more slots, each a Utf8 entry whose byte count is its length; a debug build reads no entry; the arms the source leaves out are the model's choice, stated below |
| Constant.ReadClass | src/constant.rs:100-107 | fails in a debug build; in release, succeeds exactly when two bytes remain, with name index `(hi + lo) mod 256` |
| Constant.ReadMethodref | src/constant.rs:108-118 | fails in a debug build; in release, succeeds exactly when four bytes remain, with both indexes `(hi + lo) mod 256` |
| Constant.Next | src/constant.rs:100-131 | `byte_iter.next().unwrap()`: `Ok` exactly while bytes remain, giving the byte and the next position |
| Constant.ReadShiftedIndex | src/constant.rs:111-116 | the name-and-type index: `Ok` exactly in release with two bytes left, giving their sum modulo 256 |
| Constant.ReadUtf8 | src/constant.rs:119-133 | fails in a debug build; in release, succeeds exactly when the two length bytes and `(hi + lo) mod 256` further bytes remain; the entry's length is `(hi + lo) mod 256` and it holds exactly those bytes, the index moving past them |
| Constant.ConstPoolItemNew | src/constant.rs:98-136 | unknown tags fail with `BadConversion`; known tags other than 1, 7 and 10 are unimplemented; per tag the entry kind and bytes consumed |
| ClassFiles.AccessFlagFrom | src/class_file.rs:140-154 | a success returns the flag whose discriminant is the input; anything else fails with `BadConversion` |
| ClassFiles.AccessFlagFromValue | src/class_file.rs:113-154 | every flag's discriminant converts back to it, so `from` accepts exactly the eight discriminants |
| ClassFiles.Selected | src/class_file.rs:99-111 | the flags of the list whose bit is set, in declaration order |
| ClassFiles.PositionOrdersValue | src/class_file.rs:113-123 | declaration order is increasing discriminant order |
| ClassFiles.ExtractAccessFlags | src/class_file.rs:99-111 | contains a flag exactly when its bit is set in `num`, in increasing discriminant order |
| ClassFiles.DisplayAccessFlags | src/class_file.rs:156-166 | "flags: " followed by the names joined by ", " |
| ClassFiles.Names | src/class_file.rs:156-166 | one name per flag |
| ClassFiles.ParseFields | src/class_file.rs:61-67 | a success holds exactly `fields_count` fields |
| ClassFiles.ReadFields | src/class_file.rs:61-67 | the field loop gives the same result as `ParseFields` |
| ClassFiles.ParseFieldsFailureSticks | src/class_file.rs:61-67 | once a field fails, every longer run fails with the same fault |
| ClassFiles.ReadHeader | src/class_file.rs:41-49 | `Ok` exactly when 10 bytes remain, else an out-of-bounds fault: the u4 magic and the three u2 values |
| ClassFiles.ReadClassInfo | src/class_file.rs:52-58 | `Ok` exactly when 10 bytes remain, else an out-of-bounds fault: access flags as a flag set, then this_class, super_class, interfaces_count and fields_count |
| ClassFiles.ClassFileNew | src/class_file.rs:40-96 | `Ok` exactly when the header, the pool, the ten info bytes, the fields and the last four count bytes all read; otherwise the fault of the first read that fails; on success every field read at its offset from the header on; the interface, method and attribute vectors are empty with their counts kept; the index after attributes_count is returned |
| Fields.FieldAccessFlagFrom | src/field.rs:26-42 | accepts exactly 0 and the nine flag bits, returning the variant for that value; anything else fails |
| Fields.FieldAccessFlagFromBits | src/field.rs:12-42 | every variant is reached from its own value |
| Fields.FieldAccessFlagFromInjective | src/field.rs:26-42 | no two accepted values give the same variant |
| Methods.MethodAccessFlagFrom | src/method.rs:118-136 | a success returns the flag whose discriminant is the input; anything else fails with `BadConversion` |
| Methods.MethodAccessFlagFromValue | src/method.rs:83-136 | every flag's discriminant converts back to it |
| Methods.Selected | src/method.rs:64-81 | the flags of the list whose bit is set, in declaration order |
| Methods.PositionOrdersValue | src/method.rs:83-97 | declaration order is increasing discriminant order |
| Methods.ExtractAccessFlags | src/method.rs:64-81 | contains a flag exactly when its bit is set in `num`, in increasing discriminant order |
| Methods.DisplayAccessFlags | src/method.rs:138-152 | empty without flags, otherwise the names joined by ", " |
| Methods.Names | src/method.rs:138-152 | one name per flag |
| Methods.MethodNew | src/method.rs:16-40 | fails without the 8 header bytes; otherwise succeeds exactly when the `attributes_count` attributes decode one after the other (`AttributesFrom`), failing with their fault; the attributes and the returned index are exactly that fold's; the u2 fields at their offsets, the flags extracted from the first |
| AttributeTags.From | src/attribute/defs.rs:113-146 | a failure is the `unreachable!` fault |
| AttributeTags.FromName | src/attribute/defs.rs:113-146 | each tag's name converts back to that tag, so all 23 names are accepted |
| Attributes.AttributeNew | src/attribute/defs.rs:34-70 | the result is exactly `AttributeAt`'s, whose cases `AttributeAtSpec` states |
| Attributes.DispatchAttribute | src/attribute/defs.rs:44-63 | tags other than the four decoded ones are unimplemented; SourceFile, LineNumberTable, StackMapTable and Code give exactly `SourceFileAt`, `LineNumberTableAt`, `StackMapTableAt` and `CodeAt`; a result carries the tag and the name index |
| Attributes.SourceFileNew | src/attribute/defs.rs:155-170 | `Ok` exactly when six bytes remain: attribute_length and sourcefile_index, and `index + 6`; equal to `SourceFileAt` |
| Attributes.SourceFileAt | src/attribute/defs.rs:155-170 | a success is a SourceFile with the given name index that ends past `index` and within the input |
| Attributes.LineNumberTableNew | src/attribute/defs.rs:186-222 | the entry loop gives exactly `LineNumberTableAt`, whose contents `LineNumberTableAtSpec` states |
| Attributes.LineNumberTableAt | src/attribute/defs.rs:186-222 | a success is a LineNumberTable with the given name index that ends past `index` and within the input |
| Attributes.LineItems | src/attribute/defs.rs:198-210 | the `n` entries read one after the other |
| Attributes.LineItemsAt | src/attribute/defs.rs:198-210 | entry k is the four bytes at `pos + 4k`: start_pc and line_number |
| Attributes.LineNumberTableAtSpec | src/attribute/defs.rs:186-222 | `Ok` exactly when the header and all `n` entries fit; the index after them is returned, the header fields are read at their offsets and entry k is read at `index + 6 + 4k` |
| Attributes.StackMapFrameNewAsWritten | src/attribute/defs.rs:316-323 | the `0..63` pattern as written: `Ok` exactly for frame types below 63 |
| Attributes.StackMapFrameAsWrittenRejects63 | src/attribute/defs.rs:319-321 | frame type 63 is rejected as written and accepted by the corrected decoder |
| Attributes.StackMapFrameNew | src/attribute/defs.rs:316-323 | frame types 0 to 63 are `same_frame`s carrying their type, one byte consumed |
| Attributes.StackMapFrameNewExtendsAsWritten | src/attribute/defs.rs:316-323 | the corrected decoder agrees with the as-written one wherever that succeeds, and differs only on 63 |
| Attributes.FrameAt | src/attribute/defs.rs:316-323 | `Ok` exactly when the byte exists and is below the bound (63 as written, 64 as intended): a `same_frame` of that type, one byte consumed |
| Attributes.FramesAt | src/attribute/defs.rs:271-275 | a success holds exactly `n` frames and they fit in the input |
| Attributes.FramesAtSpec | src/attribute/defs.rs:271-275 | `Ok` exactly when the `n` bytes exist and each is below the bound; frame k is the `same_frame` of byte `pos + k` |
| Attributes.StackMapTableAt | src/attribute/defs.rs:259-286 | a success is a StackMapTable with the given name index that ends past `index` and within the input |
| Attributes.StackMapTableAtSpec | src/attribute/defs.rs:259-286 | `Ok` exactly when the header and `number_of_entries` bytes fit and each byte is below the bound; frame k is the `same_frame` of the byte at `index + 6 + k`, and the index after them is returned |
| Attributes.FramesAtStep | src/attribute/defs.rs:271-275 | one iteration of the frame loop moves one decoded frame from the rest to the frames read |
| Attributes.StackMapTableNew | src/attribute/defs.rs:259-286 | the frame loop gives exactly `StackMapTableAt`, whose contents `StackMapTableAtSpec` states; as written a frame type of 63 fails |
| Attributes.SpansKept | src/attribute/code.rs:41-47 | appending to a laid-out code vector keeps each instruction's filler span |
| Attributes.LayoutAppend | src/attribute/code.rs:41-47 | appending an instruction and its fillers to a laid-out vector keeps it laid out |
| Attributes.AttributeAt | src/attribute/defs.rs:34-70 | `Attribute::new` as a function: a success ends past the name index and within the input |
| Attributes.NamedAt | src/attribute/defs.rs:39-69 | after the name index: a success ends past `index` and within the input |
| Attributes.TaggedAt | src/attribute/defs.rs:42-63 | after the Utf8 name: a success ends past `index` and within the input |
| Attributes.DispatchAt | src/attribute/defs.rs:44-63 | the per-tag decoder: a success ends past `index` and within the input |
| Attributes.AttributeAtSpec | src/attribute/defs.rs:34-70 | a missing name index or one past the pool fails; a name entry that is not Utf8 is the `panic!`; a name whose tag is not decoded is unimplemented; a success carries the name index and the tag its Utf8 entry names, one of the four decoded |
| Attributes.DispatchAtSpec | src/attribute/defs.rs:44-63 | tags other than the four decoded ones are unimplemented; a success carries the tag and the name index |
| Attributes.CodeAt | src/attribute/code.rs:21-76 | `Code::new` as a function: a success is a Code attribute with the given name index that ends past `index` and within the input |
| Attributes.CodeTailAt | src/attribute/code.rs:49-58 | after the code: exception_table_length, attributes_count and that many attributes, ending at least four bytes on and within the input |
| Attributes.CodeTail | src/attribute/code.rs:49-58 | the tail loop gives exactly `CodeTailAt` |
| Attributes.CodeAtFields | src/attribute/code.rs:21-76 | a success has the u4 and u2 header fields at their offsets, exactly `code_length` entries decoded from the code bytes (`InstructionsFrom`, laid out, each from its opcode byte), an empty exception table with its length kept, `attributes_count`, and exactly the attributes and end index of `AttributesFrom` after the code |
| Attributes.AttributesFrom | src/attribute/code.rs:52-58 | `count` attributes decoded one after the other by `Attribute::new`: a success holds `count` of them and ends within the input, at `start` when `count` is 0 |
| Attributes.AttributesFromDecoded | src/attribute/code.rs:52-58 | every attribute of a success is of one of the four decoded kinds |
| Attributes.AllDecodedCons | src/attribute/code.rs:52-58 | prepending a decoded attribute to decoded attributes keeps them all decoded |
| Attributes.AttributesFromStep | src/attribute/code.rs:54-58 | one iteration of the attribute loop moves one decoded attribute to the attributes read and continues at the index it returned |
| Attributes.InstructionsFrom | src/attribute/code.rs:37-47 | the decoding loop as a function: a success has exactly `code_length` entries and returns `index + code_length` |
| Attributes.NextInstructionFrom | src/attribute/code.rs:41-47 | one iteration of the loop: the same counts as the loop |
| Attributes.PushedFrom | src/attribute/code.rs:43-46 | after reading the opcode byte: the same counts as the loop |
| Attributes.OneByte | src/attribute/code.rs:42 | a one-byte read is the byte itself |
| Attributes.DecodeStep | src/attribute/code.rs:41-47 | an iteration whose `create_and_push` fails fails the loop with that fault; otherwise the loop continues from the index and vector it returned |
| Attributes.PushedShape | src/attribute/instruction.rs:163-644 | `create_and_push` appends one instruction and then only fillers |
| Attributes.StepDecodes | src/attribute/code.rs:43-46 | appending the decoded instruction and its fillers keeps the vector laid out and decoded from its bytes, within the input |
| Attributes.DecodedAppend | src/attribute/code.rs:43-46 | appending an instruction decoded at its position and fillers keeps every entry decoded from its byte |
| Attributes.InstructionsFromDecodes | src/attribute/code.rs:37-47 | from a laid-out, decoded prefix, a success of the loop is laid out and every instruction in it is the one its opcode byte decodes to, within the input |
| Attributes.DecodeInstructions | src/attribute/code.rs:37-47 | equal to `InstructionsFrom`; a success holds exactly `code_length` entries laid out by byte offset, each instruction the one `create_and_push` decodes from the opcode byte at `index + p`, and returns `index + code_length` |
| Attributes.ReadAttributes | src/attribute/code.rs:52-58 | equal to `AttributesFrom`, the left-to-right fold of `Attribute::new`; `count` attributes, each of a decoded kind |
| Attributes.CodeNew | src/attribute/code.rs:21-76 | the result is exactly `CodeAt`'s, whose fields `CodeAtFields` states |
| Attributes.CodeListing | src/attribute/code.rs:78-104 | exactly the non-`Noope` instructions, each labelled with its position, in increasing order |
| Attributes.ListingLabelsAreOffsets | src/attribute/code.rs:80-86 | on a laid-out vector the first label is 0 and each next label is the previous plus the instruction's encoded length |
| Instructions.ShortFormInstruction | src/attribute/instruction.rs:170-277 | an `<n>` short form decodes to an instruction whose opcode is the tag, one byte long |
| Instructions.ArrayStackInstruction | src/attribute/instruction.rs:239-297 | array and stack opcodes decode to an instruction with that opcode, one byte long |
| Instructions.IntArithmeticInstruction | src/attribute/instruction.rs:298-347 | `int` arithmetic opcodes decode to an instruction with that opcode, one byte long |
| Instructions.LongArithmeticInstruction | src/attribute/instruction.rs:298-361 | `long` arithmetic and `lcmp` decode to an instruction with that opcode, one byte long |
| Instructions.ReturnInstruction | src/attribute/instruction.rs:538-552 | return opcodes decode to an instruction with that opcode, one byte long |
| Instructions.NoOperandInstruction | src/attribute/instruction.rs:169-552 | every opcode without operand bytes decodes to an instruction with that opcode, one byte long |
| Instructions.OneByteOperandInstruction | src/attribute/instruction.rs:180-262 | the one-`u1`-operand arms: the opcode is the tag, two bytes long, carrying the operand |
| Instructions.TwoByteOperandInstruction | src/attribute/instruction.rs:553-631 | the one-`u2`-operand arms: the opcode is the tag, three bytes long, carrying the operand |
| Instructions.BytePairInstruction | src/attribute/instruction.rs:348-356 | `ldc2_w` and `iinc` keep their two operand bytes; three bytes long |
| Instructions.ConditionalBranchInstruction | src/attribute/instruction.rs:362-504 | the branch opcodes keep both targets; three bytes long |
| Instructions.NoOperandOpcodes | src/attribute/instruction.rs:169-552 | the opcodes without operand bytes are exactly those `NoOperandInstruction` decodes |
| Instructions.KindOfPartition | src/attribute/instruction.rs:169-643 | `KindOf`, the arm of `create_and_push` an opcode takes: each kind holds exactly its group of opcodes, so the arms partition them |
| Instructions.KindOfUnknown | src/attribute/instruction.rs:642 | the `unimplemented!` arm holds exactly the unknown opcodes |
| Instructions.EncodedLength | src/attribute/instruction.rs:163-644 | each instruction takes at least one entry: itself plus its operand bytes as fillers |
| Instructions.Noopes | src/attribute/instruction.rs:533-535 | `n` fillers |
| Instructions.BranchTarget | src/attribute/instruction.rs:362-513 | `(offset + position - 1) & 0xffff`: below 2^16, and the sum itself when it fits |
| Instructions.BranchAt | src/attribute/instruction.rs:362-513 | a decoded branch is an instruction with the branch opcode |
| Instructions.LookupswitchAt | src/attribute/instruction.rs:515-537 | a decoded `lookupswitch` is a `Lookupswitch` |
| Instructions.InstructionAt | src/attribute/instruction.rs:163-644 | the instruction `create_and_push` decodes from an opcode byte: never a filler, and its opcode is the byte |
| Instructions.InstructionAtFits | src/attribute/instruction.rs:163-644 | a decoded instruction with operands fits in the input with its operand bytes |
| Instructions.SwitchPairs | src/attribute/instruction.rs:523-528 | `count` pairs, each with a `Some` key |
| Instructions.ReadSwitchPair | src/attribute/instruction.rs:524-527 | `Ok` exactly when eight bytes remain: the key and the target plus the pair count |
| Instructions.ReadSwitchValues | src/attribute/instruction.rs:516-528 | `Ok` exactly when the default, the count and all pairs fit; the default entry comes first, then the pairs, and the index after them |
| Instructions.PushNoopes | src/attribute/instruction.rs:533-535 | appends exactly `n` fillers |
| Instructions.PushLookupswitch | src/attribute/instruction.rs:515-537 | the instruction and `(n + 1) * 8` fillers, `Ok` exactly when the table fits |
| Instructions.PushOneByteOperand | src/attribute/instruction.rs:180-223 | `Ok` exactly when the operand byte exists; the instruction carries it, then one filler |
| Instructions.PushTwoByteOperand | src/attribute/instruction.rs:553-616 | `Ok` exactly when two bytes exist; the instruction carries their big-endian value, then two fillers |
| Instructions.PushBytePair | src/attribute/instruction.rs:202-209 | `Ok` exactly when two bytes exist; both are kept, then two fillers |
| Instructions.PushBranch | src/attribute/instruction.rs:362-513 | `Ok` exactly when the offset exists and the target does not underflow; the if-target is `(offset + position - 1) & 0xffff` and the else-target `position + 2` |
| Instructions.PushMultianewarray | src/attribute/instruction.rs:633-641 | `Ok` exactly when three bytes exist: the class index and the dimension count, then three fillers |
| Instructions.CreateAndPush | src/attribute/instruction.rs:163-644 | unknown opcodes are unimplemented and `iconst_m1` underflows; each known opcode appends its instruction and fillers, with the index and byte count of its arm |
| Instructions.CounsumeIndex | src/attribute/instruction.rs:646-700 | a failure is `unimplemented!`; `Noope` and `goto` have no arm |
| Instructions.CounsumeIndexMatchesLayout | src/attribute/instruction.rs:646-700 | for fixed-size instructions it is the number of fillers the decoder pushes |
| Instructions.TwoAfterOpcodeLayout | src/attribute/instruction.rs:650-662 | the arm answering 2 covers three-byte instructions |
| Instructions.OneOperandByteLayout | src/attribute/instruction.rs:663-669 | the arm answering 1 covers two-byte instructions |
| Instructions.NoOperandLayout | src/attribute/instruction.rs:670-697 | the arm answering 0 covers one-byte instructions |
| Instructions.CounsumeIndexLookupswitchIsHalf | src/attribute/instruction.rs:648 | for `lookupswitch` it is half the fillers pushed |
| Instructions.ShortFormsRoundTrip | src/attribute/instruction.rs:170-277 | decoding the opcode of a short form (`iconst_<n>`, `lconst_<n>`, the `_<n>` loads and stores) gives it back |
| MultiDimensions.Filled | src/context.rs:955-958 | `size` copies of the initial pair |
| MultiDimensions.Levels | src/context.rs:944-982 | the sizes `create_multi_dimentions_array` visits: the starting size, then the counts below it |
| MultiDimensions.CapacityOverflowsReached | src/context.rs:944-982 | `Build` asks `with_capacity` for a wrapped size exactly when some level up to the first empty one has one |
| MultiDimensions.ShapedStable | src/context.rs:944-982 | a built tree is unaffected by entries above its root |
| MultiDimensions.BuildSpec | src/context.rs:944-982 | the builder allocates fresh ids only, keeps existing arrays, returns the last id allocated, and leaves a tree of the requested shape |
| MultiDimensions.BuildChildrenSpec | src/context.rs:965-975 | the children loop makes `count` well-shaped children with fresh ids |
| MultiDimensions.ShapedFromOneIsMultiArray | src/context.rs:944-982 | started at depth 1 with `counts[0]` entries, the builder makes exactly the requested array |
| MultiDimensions.ShapedDepth | src/context.rs:944-982 | with non-empty levels, a built tree is one level deeper than the counts left |
| MultiDimensions.StartAtZeroAddsLevel | src/context.rs:679-686 | started at depth 0, as `execute` does, the result is never the requested array |
| ContextSteps.CreateUninitializedItem | src/context.rs:935-942 | exactly int, long and boolean get a default pair, whose first item is a `Long` exactly for long and whose second is `Null` otherwise; any other descriptor is unimplemented |
| ContextSteps.UninitializedMatchesArrayDefaults | src/context.rs:935-942 | int and long defaults equal `newarray`'s element defaults |
| ContextSteps.SetTop | src/context.rs:712-716 | replaces the current frame only |
| ContextSteps.SetTopTwice | src/context.rs:712-716 | a second update of the current frame overrides the first |
| ContextSteps.SetTopSame | src/context.rs:712-716 | writing back the current frame changes nothing |
| ContextSteps.PopTop | src/context.rs:718-721 | `None` on an empty operand stack; otherwise the top item, removed from the current frame only |
| ContextSteps.PushTop | src/context.rs:718-721 | pushes onto the current frame's operand stack only |
| ContextSteps.FindKey | src/context.rs:177-183 | the first index holding the key, or `None` when no later entry holds it |
| ContextSteps.SwitchTarget | src/context.rs:174-191 | `Ok` exactly with a default entry: the target of the first case with the key, else the default's |
| ContextSteps.AsUsize | src/context.rs:177-183 | `k as usize` on a 64-bit target: below 2^64, the value itself when non-negative, `k + 2^64` when negative; `LookupTargetAsWritten` compares it with the case keys |
| ContextSteps.LookupTarget | src/context.rs:174-191 | `Ok` exactly with a default entry; the first matching case's target, or else the default's |
| ContextSteps.LookupNegativeKeyMissesAsWritten | src/context.rs:177-183 | as written, a negative key never matches a u4 case key, so the default is taken |
| ContextSteps.LookupNegativeKeyExample | src/context.rs:174-191 | `switch (-1)` with `case -1` goes to the default as written and to the case as intended |
| ContextSteps.BranchStep | src/context.rs:174-309 | for either `Semantics`, branches keep the frame count, the array heap and the counter; their targets are given by `GotoJumps`, `ZeroTestBranch`, `PairTestBranch` and `LookupswitchBranch` |
| ContextSteps.PushedConstantAsWritten | src/context.rs:166-173 | as written, the pushed value is an `i32`, and for every decoded operand (a byte for `bipush`, a u2 for `sipush`) it is that operand read unsigned, in 0..255 or 0..65535 |
| ContextSteps.PushedConstantAsWrittenOffByWidth | src/context.rs:166-173 | for every decoded operand, the value pushed as written is the intended signed value plus 2^8 (`bipush`) or 2^16 (`sipush`) when that value is negative, and equal to it otherwise |
| ContextSteps.PushedConstantAsWrittenLosesSign | src/context.rs:166-173 | `bipush -1` pushes 255 and `sipush -1` pushes 65535 |
| ContextSteps.SignedByte | src/context.rs:166-169 | the byte read as signed: in -128..127 and congruent to it modulo 256 |
| ContextSteps.SignedShort | src/context.rs:170-173 | the two bytes read as signed: in -32768..32767 and congruent modulo 65536 |
| ContextSteps.PushedConstant | src/context.rs:166-173 | the intended value: `bipush` a signed byte and `sipush` a signed short, congruent to the operand |
| ContextSteps.StackStep | src/context.rs:101-173 | for either `Semantics`, stack instructions keep the frame count, the array heap and the counter; `PushConstantStep` gives the value `bipush`/`sipush` push |
| ContextSteps.Load | src/context.rs:815-825 | keeps the frame count, the array heap and the counter; `LoadPushesLocal` gives the value pushed |
| ContextSteps.LoadPushesLocal | src/context.rs:815-825 | `load_n` pushes a copy of local `index` and keeps the locals; a missing local fails the `expect` |
| ContextSteps.AddToLocal | src/context.rs:195-202 | an `Int` local gets the checked sum; overflow fails; other locals leave everything unchanged |
| ContextSteps.IincAsWrittenAddsUnsigned | src/context.rs:195-202 | as written, `iinc 0, -1` adds 255 |
| ContextSteps.IincLocals | src/context.rs:195-202 | the intended `iinc`: the signed constant is added to an `Int` local; it fails exactly on `i32` overflow |
| ContextSteps.IincDecrements | src/context.rs:195-202 | `iinc 0, -1` takes 5 to 4 |
| ContextSteps.IincStep | src/context.rs:195-202 | `iinc` on the current frame (`IincLocalsAsWritten` as written, `IincLocals` as intended) keeps the frame count, the array heap and the counter |
| ContextSteps.AccessStep | src/context.rs:310-333 | loads and stores keep the frame count, the array heap and the counter |
| ContextSteps.InsertSorted | src/context.rs:840-846 | one longer |
| ContextSteps.InsertSortedPermutes | src/context.rs:840-846 | insertion adds exactly the new pair |
| ContextSteps.InsertSortedKeepsOrder | src/context.rs:840-846 | inserting a new index keeps the pairs sorted |
| ContextSteps.ConsSorted | src/context.rs:840-846 | a pair below the first of a sorted sequence keeps it sorted when put in front |
| ContextSteps.SortByIndex | src/context.rs:840-846 | the result is sorted by index and a permutation of the input |
| ContextSteps.KeysOfPermutation | src/context.rs:840-846 | with distinct indexes, a permutation of the rest holds no other pair with the first pair's index |
| ContextSteps.WriteOne | src/context.rs:848-854 | overwrites an existing slot, appends at the end, fails past the end |
| ContextSteps.Popped | src/context.rs:830-839 | the i-th index is paired with the i-th item from the top |
| ContextSteps.StoreOneSlot | src/context.rs:321-326 | a single-slot store pops the top item into the slot, overwriting or appending |
| ContextSteps.StoreLongPair | src/context.rs:327-330 | `lstore_<n>` puts the deeper item in slot n and the top item in slot n + 1, popping both |
| ContextSteps.SortSwapsPair | src/context.rs:840-846 | two pairs in decreasing index order are swapped by the sort |
| ContextSteps.WriteAscendingPair | src/context.rs:848-854 | `WriteAll` of two adjacent ascending slots writes both and keeps every other local |
| ContextSteps.StoreN | src/context.rs:827-855 | keeps the frame count and the array heap |
| ContextSteps.LocalStep | src/context.rs:310-333 | for either `Semantics`, loads, stores and `iinc` keep the frame count, the array heap and the counter |
| ContextSteps.ArrayLoad | src/context.rs:334-373 | keeps the frame count, the array heap and the counter; `IaloadPushesElement` gives the value pushed |
| ContextSteps.ArrayStore | src/context.rs:374-418 | keeps the frame count, the set of array ids and the counter; `IastoreWritesElement` and `StoreToMissingArray` give the heap after it |
| ContextSteps.NewArray | src/context.rs:613-627 | takes exactly one id, the old counter, adds it to the heap, and keeps the frame count; `NewArrayAllocates` gives the array stored |
| ContextSteps.NewArrayFaultOrder | src/context.rs:613-627 | an unimplemented type index is `unreachable!` before the length is looked at; with an implemented type a negative length, cast to `usize`, cannot be allocated; otherwise `newarray` succeeds |
| ContextSteps.Counts | src/context.rs:656-665 | a failure is the `unreachable!` fault; one count per drained item |
| ContextSteps.CountsSpec | src/context.rs:656-665 | the counts are drained exactly when every item is an `Int`, and each count is that `Int` cast with `as usize` |
| ContextSteps.NewMultiArrayAsWrittenAddsLevel | src/context.rs:679-686 | as written, with positive counts the root is never the requested array |
| ContextSteps.NewMultiArrayIsRequested | src/context.rs:944-982 | started at depth 1: fresh ids only, existing arrays kept, and the root is the requested array |
| ContextSteps.UnallocatedNegativeCount | src/context.rs:653-690 | as written, counts `[0, -1]` wrap to `[0, 2^64 - 1]` without ever allocating the wrapped size, while `[2, -1]` does allocate it and so panics in `MultiANewArray` |
| ContextSteps.ReturnStep | src/context.rs:462-477 | keeps the frame count, the array heap and the counter |
| ContextSteps.GotoJumps | src/context.rs:192-194 | `goto` changes nothing and continues at its target |
| ContextSteps.ZeroTestBranch | src/context.rs:208-267 | pops exactly the tested value and continues at the if- or else-target as the test says |
| ContextSteps.PairTestBranch | src/context.rs:268-309 | pops both compared values, deeper first in the comparison, and continues as the comparison says |
| ContextSteps.LookupswitchBranch | src/context.rs:174-191 | pops the `Int` key and continues at the first case whose key equals it, else at the default: as written the key is `k as usize`, as intended `k mod 2^32` |
| ContextSteps.PushConstantStep | src/context.rs:166-173 | `bipush`/`sipush` push exactly one constant onto the current frame: as written `operand as i32`, as intended a signed value in -32768..32767 |
| ContextSteps.IaloadPushesElement | src/context.rs:334-355 | `iaload` on a stored primitive array pops the reference and index and pushes the element's first item |
| ContextSteps.IastoreWritesElement | src/context.rs:374-395 | `iastore` on a stored primitive array pops three items and writes the value at the index, leaving the other arrays |
| ContextSteps.StoreToMissingArray | src/context.rs:374-418 | `iastore`/`aastore` into an id with no array only pop their three operands |
| ContextSteps.NewArrayAllocates | src/context.rs:613-627 | `newarray` stores `length` default elements under the old counter, increments it and pushes the reference |
| ContextSteps.ReturnPassesResult | src/context.rs:462-477 | with a caller, the result moves onto the caller's stack, the current stack is cleared, and the method ends |
| ContextSteps.ReturnWithoutCaller | src/context.rs:470-475 | with a single frame, `length - 2` underflows |
| ContextSteps.FallThrough | src/context.rs:693-695 | every other instruction (`InPlaceStep`) continues at `index + counsume_index()` and does not finish |
| ContextSteps.StepKeepsFrameCount | src/context.rs:94-695 | `Step`, the whole `execute`, never adds or removes a frame, for either `Semantics` |
| ContextSteps.EffectKeepsFrameCount | src/context.rs:94-695 | `Effect`, the state change of the non-branching arms (`StackStep`, `LocalStep`, `ArrayStep`), keeps the frame count |
| ContextSteps.MultiANewArrayKeepsFrames | src/context.rs:653-690 | `MultiANewArray`, the `multianewarray` arm, keeps the frame count for either `Semantics` |
| ContextSteps.StepKeepsIdsFresh | src/context.rs:613-627 | every array id stays below the counter after any `Step` |
| ContextSteps.EffectKeepsIdsFresh | src/context.rs:613-627 | the same for `Effect` and `ArrayStep` |
| ContextSteps.MultiANewArrayKeepsIds | src/context.rs:944-982 | the same for `MultiANewArray`, which builds with `Build` |
| ContextSteps.NewStackFrame | src/context.rs:883-904 | `Ok` exactly with a frame and `n` operands; without a frame the `expect` fails (`Unreachable`), with too few operands `drain` is out of bounds; the callee's locals are the top `n` operands in order, which leave the caller's stack |
| ContextSteps.PopFrame | src/context.rs:91 | drops the last frame, a no-op without frames |
| ContextSteps.RunPopsOneFrame | src/context.rs:81-92 | a finished `Run` removes exactly the method's frame, a run out of fuel keeps it, and ids stay fresh |
| Contexts.FindCase | src/context.rs:177-183 | the loop finds the first case with the key |
| Contexts.Context.constructor | src/context.rs:37-50 | no frames, no arrays, the counter as given |
| Contexts.Context.PopOperand | src/context.rs:718-721 | the in-place pop leaves the state `PopTop` computes |
| Contexts.Context.PushOperand | src/context.rs:718-721 | the in-place push leaves the state `PushTop` computes |
| Contexts.Context.SetTopFrame | src/context.rs:712-716 | the in-place frame update leaves the state `SetTop` computes |
| Contexts.Context.PopStackFrame | src/context.rs:91 | leaves the state `PopFrame` computes |
| Contexts.Context.ExecuteBranch | src/context.rs:174-309 | the branch arms in place, equal to `BranchStep` for either `Semantics` |
| Contexts.Context.ExecuteStack | src/context.rs:101-173 | the stack arms in place, equal to `StackStep` for either `Semantics` |
| Contexts.Context.LoadN | src/context.rs:815-825 | `load_n` in place, equal to `Load` |
| Contexts.Context.PopPairs | src/context.rs:830-839 | `Ok` exactly with enough operands: the popped pairs, with the stack shortened by that many |
| Contexts.Context.WriteSorted | src/context.rs:848-855 | the write loop equals `WriteAll` |
| Contexts.Context.StoreN | src/context.rs:827-855 | `store_n` in place, equal to `ContextSteps.StoreN` |
| Contexts.Context.ExecuteLocal | src/context.rs:310-333 | the local-variable arms in place, equal to `LocalStep` for either `Semantics` |
| Contexts.Context.ExecuteLoad | src/context.rs:310-318 | the load arms in place, equal to `LocalStep` |
| Contexts.Context.ExecuteStore | src/context.rs:321-330 | the store arms in place, equal to `LocalStep` |
| Contexts.Context.ExecuteIinc | src/context.rs:195-202 | `iinc` in place, equal to `LocalStep`: the unsigned constant as written, the signed one as intended |
| Contexts.Context.ExecuteArrayLoad | src/context.rs:334-373 | `iaload`/`aaload` in place, equal to `ArrayLoad` |
| Contexts.Context.ExecuteArrayStore | src/context.rs:374-418 | `iastore`/`aastore` in place, equal to `ArrayStore` |
| Contexts.Context.ExecuteNewArray | src/context.rs:613-627 | `newarray` in place, equal to `NewArray` |
| Contexts.Context.CreateMultiDimensionsArray | src/context.rs:944-982 | the recursive builder in place gives the heap, counter and root of `Build`, whose shape `BuildSpec` gives; the frames are unchanged |
| Contexts.Context.ExecuteMultiANewArray | src/context.rs:653-690 | `multianewarray` in place, equal to `MultiANewArray`: as written the counts wrap with `as usize` and the build starts at depth 0 |
| Contexts.Context.ExecuteArray | src/context.rs:334-418 | the array arms in place, equal to `ArrayStep` for either `Semantics` |
| Contexts.Context.ExecuteReturn | src/context.rs:462-477 | `ireturn`/`areturn` in place, equal to `ReturnStep` |
| Contexts.Context.ExecuteEffect | src/context.rs:94-695 | the non-branching arms in place, equal to `Effect` for either `Semantics` |
| Contexts.Context.ExecuteJump | src/context.rs:174-309 | a branch instruction's whole `execute`, equal to `Step` for either `Semantics` |
| Contexts.Context.ExecuteValueReturn | src/context.rs:462-477 | a value return's whole `execute`, equal to `Step` |
| Contexts.Context.ExecuteInPlace | src/context.rs:693-695 | the effect, then `index + counsume_index()`, equal to `InPlaceStep` |
| Contexts.Context.Execute | src/context.rs:94-695 | `execute` in place leaves exactly the state, finish flag and index `Step` computes, for either `Semantics` |
| Contexts.Context.RunOne | src/context.rs:83-89 | one iteration relates the `Run` from the old state to the `Run` from the new one, as `Continue` does |
| Contexts.Context.RunMethod | src/context.rs:81-92 | the loop and the final frame pop give exactly the result of `Run`, for either `Semantics` |
| Contexts.Context.CreateNewStackFrame | src/context.rs:883-904 | `create_new_stack_frame` in place, equal to `NewStackFrame` |

## Left out

- Class loading and the instructions that need it are not modelled: invokes, `getstatic`/`putstatic`, `getfield`/`putfield`, `ldc`, `ldc2_w`, `new` and `anewarray`.  `Step` reports `NotModelled` for them, so `object_map`, `class_map`, `static_fields`, `set_static_fields`, `setup_static_fields` and `run_entry_file` are not modelled either.
- `program_count` and `root_path` are never read by the modelled code.
- `emit_debug_info`, `read_file` and every `Display` except the access flags and the `Code` listing are left out; they are I/O and formatting.
- `OBJECT_ID` is a global mutex.  It is the `objectId` field of the state, so locking and sharing across threads are not modelled.
- Frames are values inside `Context`, so the model does not capture borrowing a frame (`get_last_stackframe`) while other references exist.
- Contexts.Context.RunMethod and ContextSteps.Run take a fuel bound.  `run_method`'s loop need not terminate, and a run that uses up the fuel reports `OutOfFuel` instead of continuing.
- The ordering on `Item`, the `Item` arithmetic of the operand stack and `get_class_ref_name` are parameters.  Their definitions are not part of this model.
- `Field::new` and the constant-pool decoder are parameters of ClassFiles.ClassFileNew.  class_file.rs calls `ConstantPool::new` with a signature that constant.rs does not have.
- `FieldDescriptor::from` is not part of this model.  `multianewarray` reads only the base-type letters of the element descriptor; any other letter is reported as `NotModelled`.
- Attributes.AttributeNew decodes the name with `String::from_utf8_lossy` only for ASCII bytes.  Any other byte becomes the replacement character, without multi-byte decoding.
- AttributeTags.From: its contract does not state the reverse direction, that an accepted name is the name of the tag returned.  FromName proves every name maps to its own tag.
- Constant.ReadShiftedIndex: in a debug build it reports the first failing shift.  The contract states only that a debug build fails.
- `usize` is unbounded in the model.  Sums of indexes and lengths are assumed not to overflow 64 bits.
- Constant.ConstantPoolNew: `ConstantPool::new` does not compile as written.  constant.rs:8 assigns to the parameter `index`, which is not `mut`, and the `match` at constant.rs:10-30 does not cover every `ConstPoolTag`.  That every tag but Utf8 appends nothing and consumes only its tag byte is the model's choice, not behaviour of the program.
- ContextSteps.MultiANewArray: under `Intended`, a count at or above 2^63 (a negative `int` after `as usize`) fails with `ArithmeticOverflow`.  This stands in for the JVM's `NegativeArraySizeException`, which is not modelled.
- `create_uninitialized_item` gives a boolean the default `Boolean(true)`, as written.  That default is modelled and not corrected.

## Findings

`ContextSteps.Step`, and with it `Contexts.Context.Execute` and `RunMethod`,
runs the as-written half of the last four rows when given `AsWritten` and
the corrected half when given `Intended`.  The class-file decoders take the
same parameter for the `0..63` frame pattern.

| source | as written | input that shows it | evidently intended | confidence | as-written member | corrected member |
|---|---|---|---|---|---|---|
| src/utils.rs:40-42 | the high half is `((x >> 32) << 32) as i32`, which is always 0 | `x = 2^32` and `x = 0` both split to `(0, 0)` | the high half is `(x >> 32) as i32`, so the halves recombine to `x` | high (not executed) | Utils.DevideI64ToTwoI32AsWritten, Utils.DevideAsWrittenHighHalfIsZero, Utils.DevideAsWrittenLosesHighWord | Utils.DevideI64ToTwoI32, Utils.DevideI64ToTwoI32RoundTrip |
| src/attribute/defs.rs:320 | the pattern `0..63` excludes 63 | frame type byte 63, a `same_frame` in section 4.7.4 of The Java Virtual Machine Specification | `0..=63` | high (not executed) | Attributes.StackMapFrameNewAsWritten, Attributes.StackMapFrameAsWrittenRejects63, Attributes.FramesAtSpec | Attributes.StackMapFrameNew, Attributes.StackMapFrameNewExtendsAsWritten |
| src/context.rs:679-686 | the builder starts at depth 0 with `counts[0]` entries, adding one level | `new int[2][3]`: the root's two children each hold two arrays of three | start at depth 1, giving a `counts[0]` by `counts[1]` array | high (not executed) | ContextSteps.NewMultiArrayAsWrittenAddsLevel, MultiDimensions.StartAtZeroAddsLevel, ContextSteps.UnallocatedNegativeCount | ContextSteps.NewMultiArrayIsRequested, MultiDimensions.ShapedFromOneIsMultiArray |
| src/context.rs:195-202 | the `iinc` constant byte is added unsigned | `iinc 0, -1` (byte 0xFF) on local 5 gives 260 | sign-extend the constant (section 6.5 of The Java Virtual Machine Specification) | high (not executed) | ContextSteps.IincAsWrittenAddsUnsigned, ContextSteps.IincStep | ContextSteps.IincLocals, ContextSteps.IincDecrements |
| src/context.rs:166-173 | `bipush`/`sipush` push the operand unsigned | `bipush -1` pushes 255; `sipush -1` pushes 65535 | sign-extend the byte or short | high (not executed) | ContextSteps.PushedConstantAsWritten, ContextSteps.PushedConstantAsWrittenOffByWidth, ContextSteps.PushedConstantAsWrittenLosesSign, ContextSteps.PushConstantStep | ContextSteps.PushedConstant |
| src/context.rs:177-183 | the popped `i32` key is compared after `as usize` with the u4 case key | `switch (-1) { case -1: … }`: `-1 as usize` is 2^64 - 1, never 0xFFFFFFFF | compare the key with the case value read as a signed 32-bit integer | high (not executed) | ContextSteps.LookupNegativeKeyMissesAsWritten, ContextSteps.LookupNegativeKeyExample, ContextSteps.LookupswitchBranch | ContextSteps.LookupTarget |
