/** src/context.rs, `Context::execute` as a function of the interpreter
    state: the frames (each its locals and operand stack), the array heap
    and the shared id counter `OBJECT_ID`.  `Contexts.Context.Execute`
    performs the same step in place and is proved equal to `Step`.

    Things `execute` calls that are not part of this model are the fields
    of `Externals`: the ordering on `Item` (`partial_cmp`), the `Item`
    arithmetic of the operand stack (`iadd`/`isub`/.../`lcmp` return one
    item, `ladd`/`lsub`/... two) and the constant-pool accessor
    `get_class_ref_name`. */
module ContextSteps {
  import opened Wrappers
  import opened Operand
  import opened Instructions
  import Arrays
  import Utils
  import MultiDimensions

  datatype Frame = Frame(localVariables: seq<Item>, operandStack: seq<Item>)

  datatype State = State(frames: seq<Frame>, arrays: map<nat, Arrays.Array>, objectId: nat)

  datatype Externals = Externals(
    partialCmp: (Item, Item) -> Option<Ordering>,
    intOp: (Instruction, seq<Item>) -> Result<(seq<Item>, Item)>,
    longOp: (Instruction, seq<Item>) -> Result<(seq<Item>, Item, Item)>,
    classRefName: nat -> Result<string>)

  /** Field descriptors, section 4.3.2 of The Java Virtual Machine
      Specification (Java SE 8); `FieldDescriptor::from` is not part of this
      model, so only the base-type letters of Table 4.3-A are read. */
  datatype BaseType = B | C | D | F | I | J | S | Z
  datatype FieldDescriptor =
    | BaseType(base: BaseType)
    | ObjectType(className: string)
    | ArrayType(component: FieldDescriptor)

  function BaseTypeOf(c: char): Option<BaseType>
  {
    match c
    case 'B' => Some(B)
    case 'C' => Some(C)
    case 'D' => Some(D)
    case 'F' => Some(F)
    case 'I' => Some(I)
    case 'J' => Some(J)
    case 'S' => Some(S)
    case 'Z' => Some(Z)
    case _ => None
  }

  /** `create_uninitialized_item`: the value pair a fresh int, long or
      boolean starts with; every other descriptor is unimplemented. */
  function CreateUninitializedItem(d: FieldDescriptor): (r: Result<(Item, Item)>)
    ensures r.Ok? <==> d in {BaseType(I), BaseType(J), BaseType(Z)}
    ensures r.Err? ==> r.error == Unimplemented
    ensures r.Ok? ==> (r.value.0.Long? <==> d == BaseType(J))
    ensures r.Ok? && d != BaseType(J) ==> r.value.1 == Null
  {
    match d
    case BaseType(I) => Ok((Int(0), Null))
    case BaseType(J) => Ok((Long(0), Long(0)))
    case BaseType(Z) => Ok((Boolean(true), Null))
    case _ => Err(Unimplemented)
  }

  /** An int or long starts as the same pair a `newarray` element of that
      type does. */
  lemma UninitializedMatchesArrayDefaults()
    ensures CreateUninitializedItem(BaseType(I)) == Ok(Utils.IniailizePrimitiveArray(10, 1).value[0])
    ensures CreateUninitializedItem(BaseType(J)) == Ok(Utils.IniailizePrimitiveArray(11, 1).value[0])
  {
  }

  // ----- The current frame ------------------------------------------------

  function Top(st: State): Frame
    requires |st.frames| > 0
  {
    st.frames[|st.frames| - 1]
  }

  function SetTop(st: State, f: Frame): (r: State)
    requires |st.frames| > 0
    ensures |r.frames| == |st.frames| && Top(r) == f
    ensures r.frames[..|r.frames| - 1] == st.frames[..|st.frames| - 1]
  {
    st.(frames := st.frames[|st.frames| - 1 := f])
  }

  lemma SetTopTwice(st: State, f: Frame, g: Frame)
    requires |st.frames| > 0
    ensures SetTop(SetTop(st, f), g) == SetTop(st, g)
  {
  }

  lemma SetTopSame(st: State)
    requires |st.frames| > 0
    ensures SetTop(st, Top(st)) == st
  {
  }

  /** `get_operand_stack().pop()` on the current frame: `None` on an
      empty stack.  Every caller first checks that a frame exists, which is
      the `expect` of `get_last_stackframe`. */
  function PopTop(st: State): (r: (State, Option<Item>))
    requires |st.frames| > 0
    ensures |r.0.frames| == |st.frames| && r.0.arrays == st.arrays && r.0.objectId == st.objectId
    ensures |Top(st).operandStack| == 0 ==> r == (st, None)
    ensures |Top(st).operandStack| > 0 ==>
      var n := |Top(st).operandStack|;
      r == (SetTop(st, Top(st).(operandStack := Top(st).operandStack[..n - 1])), Some(Top(st).operandStack[n - 1]))
  {
    var f := Top(st);
    var n := |f.operandStack|;
    if n == 0 then (st, None)
    else (SetTop(st, f.(operandStack := f.operandStack[..n - 1])), Some(f.operandStack[n - 1]))
  }

  function PushTop(st: State, item: Item): (r: State)
    requires |st.frames| > 0
    ensures |r.frames| == |st.frames| && r.arrays == st.arrays && r.objectId == st.objectId
    ensures Top(r).operandStack == Top(st).operandStack + [item]
  {
    SetTop(st, Top(st).(operandStack := Top(st).operandStack + [item]))
  }

  // ----- Instruction groups -----------------------------------------------

  predicate IsZeroTest(ins: Instruction)
  {
    ins.Ifeq? || ins.Ifne? || ins.Iflt? || ins.Ifge? || ins.Ifgt? || ins.Ifle?
  }

  predicate IsPairTest(ins: Instruction)
  {
    ins.Ificmpeq? || ins.Ificmpne? || ins.Ificmplt? || ins.Ificmpge? || ins.Ificmpgt? || ins.Ificmple?
  }

  predicate IsBranch(ins: Instruction)
  {
    IsZeroTest(ins) || IsPairTest(ins) || ins.Goto? || ins.Lookupswitch?
  }

  predicate IsValueReturn(ins: Instruction)
  {
    ins.Ireturn? || ins.Areturn?
  }

  predicate IsIntArith(ins: Instruction)
  {
    ins.Iadd? || ins.Isub? || ins.Imul? || ins.Idiv? || ins.Irem? || ins.Lcmp?
  }

  predicate IsLongArith(ins: Instruction)
  {
    ins.Ladd? || ins.Lsub? || ins.Lmul? || ins.Ldiv? || ins.Lrem?
  }

  predicate IsStackOp(ins: Instruction)
  {
    || ins.IconstN? || ins.LconstN? || ins.Bipush? || ins.Sipush?
    || ins.Pop? || ins.Dup? || ins.Return? || IsIntArith(ins) || IsLongArith(ins)
  }

  predicate IsLocalOp(ins: Instruction)
  {
    || ins.Iload? || ins.IloadN? || ins.AloadN? || ins.LloadN?
    || ins.Istore? || ins.IstoreN? || ins.AstoreN? || ins.LstoreN? || ins.Iinc?
  }

  predicate IsArrayOp(ins: Instruction)
  {
    ins.Iaload? || ins.Aaload? || ins.Iastore? || ins.Aastore? || ins.Newarray? || ins.Multianewarray?
  }

  /** Instructions whose effect depends on class loading or on
      constant-pool accessors that are not part of this model. */
  predicate NeedsClassLoading(ins: Instruction)
  {
    || ins.Putstatic? || ins.Getstatic? || ins.Invokevirtual? || ins.Invokespecial?
    || ins.Invokestatic? || ins.Putfield? || ins.Getfield? || ins.Ldc? || ins.Ldc2W?
    || ins.New? || ins.Anewarray?
  }

  // ----- Branches -----------------------------------------------------------

  /** Rust's derived `PartialOrd` on `Option<Item>`: `None` sorts first. */
  function OptionCmp(ext: Externals, a: Option<Item>, b: Option<Item>): Option<Ordering>
  {
    match (a, b)
    case (None, None) => Some(Equal)
    case (None, Some(_)) => Some(Less)
    case (Some(_), None) => Some(Greater)
    case (Some(x), Some(y)) => ext.partialCmp(x, y)
  }

  /** The comparison of `ifeq`..`ifle` against `Item::Int(0)`: `==`/`!=`
      are structural, the orderings go through `partial_cmp`. */
  function ZeroTest(ext: Externals, ins: Instruction, v: Item): bool
    requires IsZeroTest(ins)
  {
    var o := ext.partialCmp(v, Int(0));
    match ins
    case Ifeq(_, _) => v == Int(0)
    case Ifne(_, _) => v != Int(0)
    case Iflt(_, _) => o == Some(Less)
    case Ifge(_, _) => o == Some(Greater) || o == Some(Equal)
    case Ifgt(_, _) => o == Some(Greater)
    case Ifle(_, _) => o == Some(Less) || o == Some(Equal)
  }

  /** The comparison `first OP second` of `if_icmp<cond>` on the two
      popped `Option<Item>`s. */
  function PairTest(ext: Externals, ins: Instruction, first: Option<Item>, second: Option<Item>): bool
    requires IsPairTest(ins)
  {
    var o := OptionCmp(ext, first, second);
    match ins
    case Ificmpeq(_, _) => first == second
    case Ificmpne(_, _) => first != second
    case Ificmplt(_, _) => o == Some(Less)
    case Ificmpge(_, _) => o == Some(Greater) || o == Some(Equal)
    case Ificmpgt(_, _) => o == Some(Greater)
    case Ificmple(_, _) => o == Some(Less) || o == Some(Equal)
  }

  function Target(ins: Instruction, taken: bool): nat
    requires IsZeroTest(ins) || IsPairTest(ins)
  {
    if taken then ins.ifTarget else ins.elseTarget
  }

  /** The first entry of `vals` from `from` on whose key is `Some(key)`. */
  function FindKey(vals: seq<(Option<nat>, nat)>, key: nat, from: nat): (r: Option<nat>)
    requires from <= |vals|
    ensures r.Some? ==> from <= r.value < |vals| && vals[r.value].0 == Some(key)
                        && forall i :: from <= i < r.value ==> vals[i].0 != Some(key)
    ensures r.None? ==> forall i :: from <= i < |vals| ==> vals[i].0 != Some(key)
    decreases |vals| - from
  {
    if from == |vals| then None
    else if vals[from].0 == Some(key) then Some(from)
    else FindKey(vals, key, from + 1)
  }

  /** The target of a `lookupswitch` for the (converted) key: the first
      matching entry, else the first entry of all, which the decoder makes
      the default; no entries at all fails the `expect`. */
  function SwitchTarget(vals: seq<(Option<nat>, nat)>, key: nat): (r: Result<nat>)
    ensures r.Ok? <==> |vals| > 0
    ensures r.Ok? ==>
      || (exists j :: 0 <= j < |vals| && vals[j].0 == Some(key) && r.value == vals[j].1
                      && forall i :: 0 <= i < j ==> vals[i].0 != Some(key))
      || ((forall i :: 0 <= i < |vals| ==> vals[i].0 != Some(key)) && r.value == vals[0].1)
  {
    match FindKey(vals, key, 0)
    case Some(j) => Ok(vals[j].1)
    case None => if |vals| == 0 then Err(Unreachable) else Ok(vals[0].1)
  }

  /** `target_key as usize` on a 64-bit target: a negative `i32` wraps to
      2^64 + k. */
  function AsUsize(k: int): (r: nat)
    ensures r < 0x1_0000_0000_0000_0000
    ensures 0 <= k < 0x1_0000_0000_0000_0000 ==> r == k
    ensures -0x1_0000_0000_0000_0000 <= k < 0 ==> r == k + 0x1_0000_0000_0000_0000
  {
    k % 0x1_0000_0000_0000_0000
  }

  /** The key comparison as written: the popped `i32` cast to `usize`
      against the case key the decoder read as an unsigned u4. */
  function LookupTargetAsWritten(vals: seq<(Option<nat>, nat)>, k: int): (r: Result<nat>)
  {
    SwitchTarget(vals, AsUsize(k))
  }

  /** The intended comparison: the u4 case key holds an `int`'s two's
      complement bits (section 6.5 of The Java Virtual Machine
      Specification, `lookupswitch`), so the popped `int` is compared by
      its own 32 bits. */
  function LookupTarget(vals: seq<(Option<nat>, nat)>, k: int): (r: Result<nat>)
    ensures r.Ok? <==> |vals| > 0
    ensures r.Ok? ==>
      || (exists j :: 0 <= j < |vals| && vals[j].0 == Some(k % 0x1_0000_0000) && r.value == vals[j].1
                      && forall i :: 0 <= i < j ==> vals[i].0 != Some(k % 0x1_0000_0000))
      || ((forall i :: 0 <= i < |vals| ==> vals[i].0 != Some(k % 0x1_0000_0000)) && r.value == vals[0].1)
  {
    SwitchTarget(vals, k % 0x1_0000_0000)
  }

  /** With the comparison as written, a negative key never matches a case
      key the decoder read, so `case -1` falls to the default. */
  lemma {:induction false} LookupNegativeKeyMissesAsWritten(vals: seq<(Option<nat>, nat)>, k: int)
    requires I32_MIN <= k < 0 && |vals| > 0
    requires forall i :: 0 <= i < |vals| && vals[i].0.Some? ==> vals[i].0.value < 0x1_0000_0000
    ensures LookupTargetAsWritten(vals, k) == Ok(vals[0].1)
  {
    assert AsUsize(k) == k + 0x1_0000_0000_0000_0000;
    assert forall i :: 0 <= i < |vals| ==> vals[i].0 != Some(AsUsize(k));
  }

  /** `switch (-1) { case -1: ... }` as decoded: the intended comparison
      takes the case, the one as written the default. */
  lemma LookupNegativeKeyExample()
    ensures LookupTargetAsWritten([(None, 7), (Some(0xFFFF_FFFF), 9)], -1) == Ok(7)
    ensures LookupTarget([(None, 7), (Some(0xFFFF_FFFF), 9)], -1) == Ok(9)
  {
    assert FindKey([(None, 7), (Some(0xFFFF_FFFF), 9)], 0xFFFF_FFFF, 0) == Some(1);
  }

  /** The branch instructions: each pops what it tests and returns the jump
      target; `goto` touches nothing. */
  function BranchStep(sem: Semantics, ext: Externals, st: State, ins: Instruction): (r: Result<(State, nat)>)
    requires IsBranch(ins)
    ensures r.Ok? ==> |r.value.0.frames| == |st.frames| && r.value.0.arrays == st.arrays
                      && r.value.0.objectId == st.objectId
  {
    if ins.Goto? then Ok((st, ins.target))
    else if |st.frames| == 0 then Err(Unreachable)
    else if ins.Lookupswitch? then
      var p := PopTop(st);
      if p.1.Some? && p.1.value.Int? then
        var t :- if sem.AsWritten? then LookupTargetAsWritten(ins.vals, p.1.value.i)
                 else LookupTarget(ins.vals, p.1.value.i);
        Ok((p.0, t))
      else Err(Unreachable)
    else if IsZeroTest(ins) then
      var p := PopTop(st);
      if p.1.None? then Err(Unreachable)
      else Ok((p.0, Target(ins, ZeroTest(ext, ins, p.1.value))))
    else
      var second := PopTop(st);
      var first := PopTop(second.0);
      Ok((first.0, Target(ins, PairTest(ext, ins, first.1, second.1))))
  }

  // ----- Constants, stack and arithmetic --------------------------------------

  /** `x as i8` then widened: the signed value of a byte operand. */
  function SignedByte(v: nat): (r: int)
    ensures -128 <= r < 128 && (v - r) % 256 == 0
  {
    var b := v % 256;
    if b < 128 then b else b - 256
  }

  /** `x as i16` then widened: the signed value of a two-byte operand. */
  function SignedShort(v: nat): (r: int)
    ensures -32768 <= r < 32768 && (v - r) % 65536 == 0
  {
    var b := v % 65536;
    if b < 32768 then b else b - 65536
  }

  /** The value `bipush`/`sipush` push as written: the operand, read as an
      unsigned byte or u2, cast with `as i32`. */
  function PushedConstantAsWritten(ins: Instruction): (r: Item)
    requires ins.Bipush? || ins.Sipush?
    ensures r.Int? && IsI32(r.i)
    ensures ins.Bipush? && ins.operand < 0x100 ==> r == Int(ins.operand) && 0 <= r.i < 0x100
    ensures ins.Sipush? && ins.operand < 0x1_0000 ==> r == Int(ins.operand) && 0 <= r.i < 0x1_0000
  {
    Int(WrapI32(ins.operand))
  }

  /** As written, `bipush -1` pushes 255 and `sipush -1` pushes 65535. */
  lemma PushedConstantAsWrittenLosesSign()
    ensures PushedConstantAsWritten(Bipush(0xFF)) == Int(255)
    ensures PushedConstantAsWritten(Sipush(0xFFFF)) == Int(65535)
  {
  }

  /** The intended value: `bipush` sign-extends its byte and `sipush` its
      two bytes (section 6.5 of The Java Virtual Machine Specification). */
  function PushedConstant(ins: Instruction): (r: Item)
    requires ins.Bipush? || ins.Sipush?
    ensures r.Int?
    ensures ins.Bipush? ==> -128 <= r.i < 128 && (ins.operand - r.i) % 256 == 0
    ensures ins.Sipush? ==> -32768 <= r.i < 32768 && (ins.operand - r.i) % 65536 == 0
  {
    if ins.Bipush? then Int(SignedByte(ins.operand)) else Int(SignedShort(ins.operand))
  }

  /** For every decoded operand, the value pushed as written exceeds the
      intended one by 2^8 (`bipush`) or 2^16 (`sipush`) exactly when the
      intended value is negative, and equals it otherwise. */
  lemma PushedConstantAsWrittenOffByWidth(ins: Instruction)
    requires (ins.Bipush? && ins.operand < 0x100) || (ins.Sipush? && ins.operand < 0x1_0000)
    ensures var width := if ins.Bipush? then 0x100 else 0x1_0000;
      PushedConstantAsWritten(ins).i
        == PushedConstant(ins).i + (if PushedConstant(ins).i < 0 then width else 0)
  {
  }

  /** The value `bipush`/`sipush` push, as written or as intended. */
  function ConstantOf(sem: Semantics, ins: Instruction): (r: Item)
    requires ins.Bipush? || ins.Sipush?
  {
    if sem.AsWritten? then PushedConstantAsWritten(ins) else PushedConstant(ins)
  }

  /** Constants, `pop`, `dup`, `return` and the arithmetic instructions:
      each changes only the current operand stack. */
  function StackStep(sem: Semantics, ext: Externals, st: State, ins: Instruction): (r: Result<State>)
    requires IsStackOp(ins)
    ensures r.Ok? ==> |r.value.frames| == |st.frames| && r.value.arrays == st.arrays
                      && r.value.objectId == st.objectId
  {
    if |st.frames| == 0 then Err(Unreachable)
    else if IsIntArith(ins) then
      var res :- ext.intOp(ins, Top(st).operandStack);
      Ok(SetTop(st, Top(st).(operandStack := res.0 + [res.1])))
    else if IsLongArith(ins) then
      var res :- ext.longOp(ins, Top(st).operandStack);
      Ok(SetTop(st, Top(st).(operandStack := res.0 + [res.1, res.2])))
    else
      var f := Top(st);
      match ins
      case IconstN(n) => Ok(PushTop(st, Int(WrapI32(n))))
      case LconstN(n) => Ok(PushTop(PushTop(st, Long(0)), Long(WrapI32(n))))
      case Bipush(_) => Ok(PushTop(st, ConstantOf(sem, ins)))
      case Sipush(_) => Ok(PushTop(st, ConstantOf(sem, ins)))
      case Pop => Ok(PopTop(st).0)
      case Dup =>
        if |f.operandStack| == 0 then Err(Unreachable)
        else Ok(PushTop(st, f.operandStack[|f.operandStack| - 1]))
      case Return => Ok(SetTop(st, f.(operandStack := [])))
  }

  // ----- Locals -----------------------------------------------------------------

  /** `load_n`: push a copy of local `index`; a missing local fails the
      `expect`. */
  function Load(st: State, index: nat): (r: Result<State>)
    ensures r.Ok? ==> |r.value.frames| == |st.frames| && r.value.arrays == st.arrays
                      && r.value.objectId == st.objectId
  {
    if |st.frames| == 0 || index >= |Top(st).localVariables| then Err(Unreachable)
    else Ok(PushTop(st, Top(st).localVariables[index]))
  }

  /** `load_n` pushes a copy of the local and leaves the locals as they
      were; without that local it fails. */
  lemma LoadPushesLocal(st: State, index: nat)
    requires |st.frames| > 0
    ensures index < |Top(st).localVariables| ==>
      && Load(st, index).Ok?
      && Top(Load(st, index).value).operandStack == Top(st).operandStack + [Top(st).localVariables[index]]
      && Top(Load(st, index).value).localVariables == Top(st).localVariables
    ensures index >= |Top(st).localVariables| ==> Load(st, index) == Err(Unreachable)
  {
  }

  /** Adds `amount` to local `index` when it holds an `Int`, as `i32`
      addition (a debug build panics on overflow); a missing or non-`Int`
      local is left as it is. */
  function AddToLocal(locals: seq<Item>, index: nat, amount: int): (r: Result<seq<Item>>)
    ensures index < |locals| && locals[index].Int? && IsI32(locals[index].i + amount) ==>
      r == Ok(locals[index := Int(locals[index].i + amount)])
    ensures index < |locals| && locals[index].Int? && !IsI32(locals[index].i + amount) ==>
      r == Err(ArithmeticOverflow)
    ensures !(index < |locals| && locals[index].Int?) ==> r == Ok(locals)
  {
    if index < |locals| && locals[index].Int? then
      var sum := locals[index].i + amount;
      if IsI32(sum) then Ok(locals[index := Int(sum)]) else Err(ArithmeticOverflow)
    else Ok(locals)
  }

  /** `iinc` as written: the constant, read as an unsigned byte, is cast
      with `as i32`. */
  function IincLocalsAsWritten(locals: seq<Item>, index: nat, delta: nat): (r: Result<seq<Item>>)
  {
    AddToLocal(locals, index, WrapI32(delta))
  }

  /** As written, `iinc 0, -1` (constant byte 0xFF) adds 255. */
  lemma IincAsWrittenAddsUnsigned()
    ensures IincLocalsAsWritten([Int(5)], 0, 0xFF) == Ok([Int(260)])
  {
    assert [Int(5)][0 := Int(260)] == [Int(260)];
  }

  /** The intended `iinc`: the constant is a signed byte (section 6.5 of
      The Java Virtual Machine Specification), so 0xFF decrements. */
  function IincLocals(locals: seq<Item>, index: nat, delta: nat): (r: Result<seq<Item>>)
    ensures r.Ok? ==> |r.value| == |locals|
                      && forall k :: 0 <= k < |locals| && k != index ==> r.value[k] == locals[k]
    ensures r.Ok? && index < |locals| && locals[index].Int? ==>
      && r.value[index].Int?
      && -128 <= r.value[index].i - locals[index].i < 128
      && (r.value[index].i - locals[index].i - delta) % 256 == 0
    ensures r.Err? <==> index < |locals| && locals[index].Int? && !IsI32(locals[index].i + SignedByte(delta))
  {
    AddToLocal(locals, index, SignedByte(delta))
  }

  lemma IincDecrements()
    ensures IincLocals([Int(5)], 0, 0xFF) == Ok([Int(4)])
  {
    assert [Int(5)][0 := Int(4)] == [Int(4)];
  }

  predicate SortedByIndex(s: seq<(nat, Item)>)
  {
    forall i, j :: 0 <= i < j < |s| ==> s[i].0 < s[j].0
  }

  predicate DistinctIndexes(s: seq<nat>)
  {
    forall i, j :: 0 <= i < j < |s| ==> s[i] != s[j]
  }

  predicate DistinctKeys(s: seq<(nat, Item)>)
  {
    forall i, j :: 0 <= i < j < |s| ==> s[i].0 != s[j].0
  }

  /** One step of the sort: `p` placed before the first larger index. */
  function InsertSorted(p: (nat, Item), s: seq<(nat, Item)>): (r: seq<(nat, Item)>)
    ensures |r| == |s| + 1
  {
    if |s| == 0 then [p]
    else if p.0 < s[0].0 then [p] + s
    else [s[0]] + InsertSorted(p, s[1..])
  }

  /** Insertion adds `p` and loses nothing. */
  lemma {:induction false} InsertSortedPermutes(p: (nat, Item), s: seq<(nat, Item)>)
    ensures multiset(InsertSorted(p, s)) == multiset(s) + multiset{p}
  {
    if |s| > 0 && p.0 >= s[0].0 {
      InsertSortedPermutes(p, s[1..]);
      assert s == [s[0]] + s[1..];
    }
  }

  /** Inserting an index that is not yet there keeps the order, and
      nothing lands below the old first index except `p` itself. */
  lemma {:induction false} InsertSortedKeepsOrder(p: (nat, Item), s: seq<(nat, Item)>)
    requires SortedByIndex(s)
    requires forall k :: 0 <= k < |s| ==> s[k].0 != p.0
    ensures var r := InsertSorted(p, s);
      && SortedByIndex(r)
      && forall k :: 0 <= k < |r| ==> r[k].0 == p.0 || (|s| > 0 && r[k].0 >= s[0].0)
  {
    if |s| > 0 && p.0 < s[0].0 {
      ConsSorted(p, s);
    } else if |s| > 0 {
      var rest := InsertSorted(p, s[1..]);
      InsertSortedKeepsOrder(p, s[1..]);
      ConsSorted(s[0], rest);
    }
  }

  /** An entry below every index of a sorted sequence can go in front. */
  lemma ConsSorted(x: (nat, Item), s: seq<(nat, Item)>)
    requires SortedByIndex(s)
    requires |s| > 0 ==> x.0 < s[0].0
    ensures SortedByIndex([x] + s)
    ensures forall k :: 0 <= k < |s| + 1 ==> ([x] + s)[k].0 >= x.0
  {
    var r := [x] + s;
    forall i, j | 0 <= i < j < |r|
      ensures r[i].0 < r[j].0
    {
      assert r[j] == s[j - 1];
      if i > 0 {
        assert r[i] == s[i - 1];
      }
    }
  }

  /** The `sort_by` of `store_n`.  Its comparator answers `Less` for equal
      indexes, so it is an order only on distinct indexes, which is what
      every caller passes. */
  function SortByIndex(s: seq<(nat, Item)>): (r: seq<(nat, Item)>)
    requires DistinctKeys(s)
    ensures SortedByIndex(r)
    ensures multiset(r) == multiset(s)
  {
    if |s| == 0 then []
    else
      var rest := SortByIndex(s[1..]);
      KeysOfPermutation(s, rest);
      InsertSortedKeepsOrder(s[0], rest);
      InsertSortedPermutes(s[0], rest);
      assert s == [s[0]] + s[1..];
      InsertSorted(s[0], rest)
  }

  lemma {:induction false} KeysOfPermutation(s: seq<(nat, Item)>, rest: seq<(nat, Item)>)
    requires |s| > 0 && DistinctKeys(s) && multiset(rest) == multiset(s[1..])
    ensures forall k :: 0 <= k < |rest| ==> rest[k].0 != s[0].0
  {
    forall k | 0 <= k < |rest|
      ensures rest[k].0 != s[0].0
    {
      assert rest[k] in multiset(rest);
      assert rest[k] in s[1..];
      var j :| 0 <= j < |s[1..]| && s[1..][j] == rest[k];
      assert s[j + 1] == rest[k];
    }
  }

  /** One write of `store_n`'s final loop: overwrite an existing slot,
      otherwise `Vec::insert`, which past the end panics. */
  function WriteOne(locals: seq<Item>, p: (nat, Item)): (r: Result<seq<Item>>)
    ensures p.0 < |locals| ==> r == Ok(locals[p.0 := p.1])
    ensures p.0 == |locals| ==> r == Ok(locals + [p.1])
    ensures p.0 > |locals| ==> r == Err(IndexOutOfBounds)
  {
    if p.0 < |locals| then Ok(locals[p.0 := p.1])
    else if p.0 == |locals| then Ok(locals + [p.1])
    else Err(IndexOutOfBounds)
  }

  function WriteAll(locals: seq<Item>, pairs: seq<(nat, Item)>): (r: Result<seq<Item>>)
    decreases |pairs|
  {
    if |pairs| == 0 then Ok(locals)
    else
      var next :- WriteOne(locals, pairs[0]);
      WriteAll(next, pairs[1..])
  }

  /** The items `store_n` pops, paired with their indexes: the i-th index
      goes with the i-th item from the top. */
  function Popped(stack: seq<Item>, indexs: seq<nat>): (r: seq<(nat, Item)>)
    requires |indexs| <= |stack|
    ensures |r| == |indexs|
    ensures forall i :: 0 <= i < |indexs| ==> r[i] == (indexs[i], stack[|stack| - 1 - i])
  {
    seq(|indexs|, i requires 0 <= i < |indexs| => (indexs[i], stack[|stack| - 1 - i]))
  }

  /** `store_n` on one frame. */
  function StoreFrame(f: Frame, indexs: seq<nat>): (r: Result<Frame>)
    requires DistinctIndexes(indexs)
  {
    var n := |f.operandStack|;
    if n < |indexs| then Err(Unreachable)
    else
      var pairs := Popped(f.operandStack, indexs);
      assert DistinctKeys(pairs);
      var locals :- WriteAll(f.localVariables, SortByIndex(pairs));
      Ok(Frame(locals, f.operandStack[..n - |indexs|]))
  }

  /** A single-slot store (`istore`, `istore_<n>`, `astore_<n>`) pops the
      top item into the slot: an existing slot is overwritten, the slot
      just past the end is appended, anything further panics. */
  lemma {:induction false} StoreOneSlot(f: Frame, index: nat)
    requires |f.operandStack| > 0
    ensures var n := |f.operandStack|;
      var top := f.operandStack[n - 1];
      && (index < |f.localVariables| ==>
            StoreFrame(f, [index]) == Ok(Frame(f.localVariables[index := top], f.operandStack[..n - 1])))
      && (index == |f.localVariables| ==>
            StoreFrame(f, [index]) == Ok(Frame(f.localVariables + [top], f.operandStack[..n - 1])))
      && (index > |f.localVariables| ==> StoreFrame(f, [index]) == Err(IndexOutOfBounds))
  {
    var n := |f.operandStack|;
    var pairs := Popped(f.operandStack, [index]);
    assert pairs == [(index, f.operandStack[n - 1])];
    assert SortByIndex(pairs) == pairs;
    var w := WriteOne(f.localVariables, pairs[0]);
    if w.Ok? {
      assert WriteAll(f.localVariables, pairs) == WriteAll(w.value, []);
    }
  }

  /** `lstore_<n>` stores through `store_n(&[n + 1, n])`: the top item lands
      in slot n + 1 and the one below it in slot n, written in ascending
      order, so slot n may be the end of the locals. */
  lemma {:induction false} StoreLongPair(f: Frame, base: nat)
    requires |f.operandStack| >= 2 && base <= |f.localVariables|
    ensures StoreFrame(f, [base + 1, base]).Ok?
    ensures var n := |f.operandStack|;
      var g := StoreFrame(f, [base + 1, base]).value;
      && g.operandStack == f.operandStack[..n - 2]
      && |g.localVariables| == (if base + 2 <= |f.localVariables| then |f.localVariables| else base + 2)
      && g.localVariables[base] == f.operandStack[n - 2]
      && g.localVariables[base + 1] == f.operandStack[n - 1]
      && forall k :: 0 <= k < |f.localVariables| && k != base && k != base + 1 ==>
           g.localVariables[k] == f.localVariables[k]
  {
    var n := |f.operandStack|;
    var top := f.operandStack[n - 1];
    var below := f.operandStack[n - 2];
    var pairs := Popped(f.operandStack, [base + 1, base]);
    assert pairs == [(base + 1, top), (base, below)];
    SortSwapsPair((base + 1, top), (base, below));
    WriteAscendingPair(f.localVariables, (base, below), (base + 1, top));
  }

  /** Two pairs given in descending index order are swapped by the sort. */
  lemma SortSwapsPair(hi: (nat, Item), lo: (nat, Item))
    requires lo.0 < hi.0
    ensures SortByIndex([hi, lo]) == [lo, hi]
  {
    assert [hi, lo][1..] == [lo];
    assert SortByIndex([lo]) == [lo];
  }

  /** Writing two adjacent slots in ascending order, the first of them at
      most the end of the locals, never panics. */
  lemma WriteAscendingPair(locals: seq<Item>, a: (nat, Item), b: (nat, Item))
    requires a.0 <= |locals| && b.0 == a.0 + 1
    ensures WriteAll(locals, [a, b]).Ok?
    ensures var l := WriteAll(locals, [a, b]).value;
      && |l| == (if a.0 + 2 <= |locals| then |locals| else a.0 + 2)
      && l[a.0] == a.1 && l[b.0] == b.1
      && forall k :: 0 <= k < |locals| && k != a.0 && k != b.0 ==> l[k] == locals[k]
  {
    var l1 := WriteOne(locals, a).value;
    var l2 := WriteOne(l1, b).value;
    assert [a, b][1..] == [b];
    assert WriteAll(locals, [a, b]) == WriteAll(l1, [b]);
    assert WriteAll(l1, [b]) == WriteAll(l2, []);
  }

  function StoreN(st: State, indexs: seq<nat>): (r: Result<State>)
    requires DistinctIndexes(indexs)
    ensures r.Ok? ==> |r.value.frames| == |st.frames| && r.value.arrays == st.arrays
                      && r.value.objectId == st.objectId
  {
    if |st.frames| == 0 then Err(Unreachable)
    else
      var g :- StoreFrame(Top(st), indexs);
      Ok(SetTop(st, g))
  }

  /** `iinc` on the current frame, with the constant as written or as
      intended. */
  function IincStep(sem: Semantics, st: State, index: nat, delta: nat): (r: Result<State>)
    ensures r.Ok? ==> |r.value.frames| == |st.frames| && r.value.arrays == st.arrays
                      && r.value.objectId == st.objectId
  {
    if |st.frames| == 0 then Err(Unreachable)
    else
      var locals :- if sem.AsWritten? then IincLocalsAsWritten(Top(st).localVariables, index, delta)
                    else IincLocals(Top(st).localVariables, index, delta);
      Ok(SetTop(st, Top(st).(localVariables := locals)))
  }

  /** The loads and stores. */
  function AccessStep(st: State, ins: Instruction): (r: Result<State>)
    requires IsLocalOp(ins) && !ins.Iinc?
    ensures r.Ok? ==> |r.value.frames| == |st.frames| && r.value.arrays == st.arrays
                      && r.value.objectId == st.objectId
  {
    if ins.LloadN? then
      var s1 :- Load(st, ins.n);
      Load(s1, ins.n + 1)
    else if ins.LstoreN? then StoreN(st, [ins.n + 1, ins.n])
    else if IsSingleStore(ins) then StoreN(st, [Slot(ins)])
    else Load(st, Slot(ins))
  }

  /** Loads, stores and `iinc`: each changes only the current frame. */
  function LocalStep(sem: Semantics, st: State, ins: Instruction): (r: Result<State>)
    requires IsLocalOp(ins)
    ensures r.Ok? ==> |r.value.frames| == |st.frames| && r.value.arrays == st.arrays
                      && r.value.objectId == st.objectId
  {
    if ins.Iinc? then IincStep(sem, st, ins.local, ins.delta) else AccessStep(st, ins)
  }

  predicate IsSingleStore(ins: Instruction)
  {
    ins.Istore? || ins.IstoreN? || ins.AstoreN?
  }

  /** The local a single-slot load or store names. */
  function Slot(ins: Instruction): nat
    requires ins.Iload? || ins.IloadN? || ins.AloadN? || IsSingleStore(ins)
  {
    match ins
    case Iload(i) => i
    case IloadN(i) => i
    case AloadN(i) => i
    case Istore(i) => i
    case IstoreN(i) => i
    case AstoreN(i) => i
  }

  // ----- Arrays -------------------------------------------------------------------

  /** `items[index as usize]`: a negative `i32` becomes a huge `usize`. */
  predicate InBounds(i: int, length: nat)
  {
    0 <= i < length
  }

  /** `iaload`/`aaload`: pops index then array reference and pushes the
      element (`iaload` pushes a pair's second half too unless it is
      `Null`). */
  function ArrayLoad(st: State, ins: Instruction): (r: Result<State>)
    requires ins.Iaload? || ins.Aaload?
    ensures r.Ok? ==> |r.value.frames| == |st.frames| && r.value.arrays == st.arrays
                      && r.value.objectId == st.objectId
  {
    if |st.frames| == 0 then Err(Unreachable)
    else
      var p1 := PopTop(st);
      var p2 := PopTop(p1.0);
      var s := p2.0;
      if !(p1.1.Some? && p1.1.value.Int? && p2.1.Some? && p2.1.value.Arrayref?) then Err(Unreachable)
      else
        var i := p1.1.value.i;
        var id := p2.1.value.arrayId;
        if id !in s.arrays then Err(Unreachable)
        else
          var cell := s.arrays[id];
          if ins.Iaload? then
            if !cell.Primitive? then Err(Unimplemented)
            else if !InBounds(i, |cell.items|) then Err(IndexOutOfBounds)
            else
              var s1 := PushTop(s, cell.items[i].0);
              if cell.items[i].1 == Null then Ok(s1) else Ok(PushTop(s1, cell.items[i].1))
          else
            if !cell.Custom? then Err(Unimplemented)
            else if !InBounds(i, |cell.refs|) then Err(IndexOutOfBounds)
            else Ok(PushTop(s, Objectref(cell.refs[i])))
  }

  /** `iastore`/`aastore`: pops value, index and array reference and writes
      the element; an id with no array silently does nothing. */
  function ArrayStore(st: State, ins: Instruction): (r: Result<State>)
    requires ins.Iastore? || ins.Aastore?
    ensures r.Ok? ==> |r.value.frames| == |st.frames| && r.value.arrays.Keys == st.arrays.Keys
                      && r.value.objectId == st.objectId
  {
    if |st.frames| == 0 then Err(Unreachable)
    else
      var p1 := PopTop(st);
      var p2 := PopTop(p1.0);
      var p3 := PopTop(p2.0);
      var s := p3.0;
      if !(p1.1.Some? && p2.1.Some? && p2.1.value.Int? && p3.1.Some? && p3.1.value.Arrayref?) then
        Err(Unreachable)
      else if ins.Aastore? && !p1.1.value.Objectref? then Err(Unreachable)
      else
        var i := p2.1.value.i;
        var id := p3.1.value.arrayId;
        if id !in s.arrays then Ok(s)
        else
          var cell := s.arrays[id];
          if ins.Iastore? then
            if !cell.Primitive? then Err(Unimplemented)
            else if !InBounds(i, |cell.items|) then Err(IndexOutOfBounds)
            else Ok(s.(arrays := s.arrays[id := Arrays.Primitive(cell.items[i := (p1.1.value, Null)])]))
          else
            if !cell.Custom? then Err(Unimplemented)
            else if !InBounds(i, |cell.refs|) then Err(IndexOutOfBounds)
            else Ok(s.(arrays := s.arrays[id := Arrays.Custom(cell.refs[i := p1.1.value.objectId])]))
  }

  /** `newarray`: takes the next id, pops the `Int` length and stores the
      default-filled primitive array under the id, then pushes its
      reference.  A negative length cast to `usize` is too large to
      allocate. */
  function NewArray(st: State, typeIndex: nat): (r: Result<State>)
    ensures r.Ok? ==> |r.value.frames| == |st.frames| && r.value.objectId == st.objectId + 1
                      && r.value.arrays.Keys == st.arrays.Keys + {st.objectId}
  {
    if |st.frames| == 0 then Err(Unreachable)
    else
      var id := st.objectId;
      var s0 := st.(objectId := id + 1);
      var p := PopTop(s0);
      if !(p.1.Some? && p.1.value.Int?) then Err(Unreachable)
      else if Utils.PrimitiveDefault(typeIndex).Err? then Err(Unreachable)
      else if p.1.value.i < 0 then Err(ArithmeticOverflow)
      else
        var items := Utils.IniailizePrimitiveArray(typeIndex, p.1.value.i).value;
        Ok(PushTop(p.0.(arrays := p.0.arrays[id := Arrays.Primitive(items)]), Arrayref(id)))
  }

  /** The dimension sizes `multianewarray` drains from the stack: each
      `Int` cast with `as usize`; any other item is `unreachable!`. */
  function Counts(items: seq<Item>): (r: Result<seq<nat>>)
    ensures r.Err? ==> r.error == Unreachable
    ensures r.Ok? ==> |r.value| == |items|
  {
    if |items| == 0 then Ok([])
    else if !items[0].Int? then Err(Unreachable)
    else
      var rest :- Counts(items[1..]);
      Ok([AsUsize(items[0].i)] + rest)
  }

  /** The counts are drained only when every item is an `Int`, and each is
      that `Int` cast with `as usize`. */
  lemma {:induction false} CountsSpec(items: seq<Item>)
    ensures Counts(items).Ok? <==> forall k :: 0 <= k < |items| ==> items[k].Int?
    ensures Counts(items).Ok? ==> forall k :: 0 <= k < |items| ==> Counts(items).value[k] == AsUsize(items[k].i)
    decreases |items|
  {
    if |items| > 0 {
      CountsSpec(items[1..]);
      assert forall k :: 1 <= k < |items| ==> items[1..][k - 1] == items[k];
    }
  }

  /** The array heap, counter and root after `multianewarray` as written:
      the builder starts at depth 0 with `counts[0]` entries. */
  function NewMultiArrayAsWritten(st: State, counts: seq<nat>, init: (Item, Item)): (r: (State, nat))
    requires |counts| >= 1
  {
    var b := MultiDimensions.Build(st.arrays, st.objectId, counts, 0, counts[0], init);
    (st.(arrays := b.0, objectId := b.1), b.2)
  }

  /** As written, with every count positive the root is never the array
      that was asked for: it has one level too many. */
  lemma {:induction false} NewMultiArrayAsWrittenAddsLevel(st: State, counts: seq<nat>, init: (Item, Item))
    requires |counts| >= 1 && forall k :: 0 <= k < |counts| ==> counts[k] > 0
    requires forall k :: k in st.arrays ==> k < st.objectId
    ensures var r := NewMultiArrayAsWritten(st, counts, init);
      !MultiDimensions.MultiArray(r.0.arrays, r.1, counts, init)
  {
    MultiDimensions.BuildSpec(st.arrays, st.objectId, counts, 0, counts[0], init);
    var b := MultiDimensions.Build(st.arrays, st.objectId, counts, 0, counts[0], init);
    MultiDimensions.StartAtZeroAddsLevel(b.0, b.2, counts, init);
  }

  /** The intended `multianewarray`: the builder starts at depth 1 with
      `counts[0]` entries. */
  function NewMultiArray(st: State, counts: seq<nat>, init: (Item, Item)): (r: (State, nat))
    requires |counts| >= 1
  {
    var b := MultiDimensions.Build(st.arrays, st.objectId, counts, 1, counts[0], init);
    (st.(arrays := b.0, objectId := b.1), b.2)
  }

  /** It allocates fresh ids only, keeps every existing array, and the root
      is exactly the requested array, under an id below the new counter. */
  lemma {:induction false} NewMultiArrayIsRequested(st: State, counts: seq<nat>, init: (Item, Item))
    requires |counts| >= 1
    requires forall k :: k in st.arrays ==> k < st.objectId
    ensures var r := NewMultiArray(st, counts, init);
      && MultiDimensions.MultiArray(r.0.arrays, r.1, counts, init)
      && st.objectId <= r.1 < r.0.objectId
      && (forall k :: k in r.0.arrays ==> k < r.0.objectId)
      && (forall k :: k in st.arrays ==> k in r.0.arrays && r.0.arrays[k] == st.arrays[k])
      && r.0.frames == st.frames
  {
    MultiDimensions.BuildSpec(st.arrays, st.objectId, counts, 1, counts[0], init);
    var b := MultiDimensions.Build(st.arrays, st.objectId, counts, 1, counts[0], init);
    MultiDimensions.ShapedFromOneIsMultiArray(b.0, b.2, counts, 1, init);
    assert counts[0..] == counts;
  }

  /** `multianewarray`: drains the `dimensions` counts from the top of the
      stack, reads the element descriptor after the `[`s of the class
      name, builds the arrays and pushes the root's reference.  As written
      the builder starts at depth 0 and a wrapped negative count panics
      only where `with_capacity` meets it; as intended the builder starts
      at depth 1 and any negative count is refused (section 6.5 of The Java
      Virtual Machine Specification, `NegativeArraySizeException`). */
  function MultiANewArray(sem: Semantics, ext: Externals, st: State, index: nat, dimensions: nat): (r: Result<State>)
  {
    if |st.frames| == 0 then Err(Unreachable)
    else
      var stack := Top(st).operandStack;
      if |stack| < dimensions then Err(ArithmeticOverflow)
      else
        var counts :- Counts(stack[|stack| - dimensions..]);
        var s1 := SetTop(st, Top(st).(operandStack := stack[..|stack| - dimensions]));
        var name :- ext.classRefName(index);
        if |name| < dimensions + 1 then Err(IndexOutOfBounds)
        else if name[dimensions] == 'L' then Err(Unimplemented)
        else if BaseTypeOf(name[dimensions]).None? then Err(NotModelled)
        else
          var init :- CreateUninitializedItem(BaseType(BaseTypeOf(name[dimensions]).value));
          if |counts| == 0 then Err(Unreachable)
          else if sem.AsWritten? then
            if MultiDimensions.CapacityOverflows(counts, 0, counts[0]) then Err(ArithmeticOverflow)
            else
              var built := NewMultiArrayAsWritten(s1, counts, init);
              Ok(PushTop(built.0, Arrayref(built.1)))
          else if exists k :: 0 <= k < |counts| && counts[k] >= MultiDimensions.CapacityLimit then
            Err(ArithmeticOverflow)
          else
            var built := NewMultiArray(s1, counts, init);
            Ok(PushTop(built.0, Arrayref(built.1)))
  }

  /** As written, counts `[0, -1]` build an empty root and never allocate
      the wrapped count below it, while `[2, -1]` allocates two children of
      the wrapped size. */
  lemma UnallocatedNegativeCount()
    ensures Counts([Int(0), Int(-1)]) == Ok([0, AsUsize(-1)])
    ensures !MultiDimensions.CapacityOverflows([0, AsUsize(-1)], 0, 0)
    ensures MultiDimensions.CapacityOverflows([2, AsUsize(-1)], 0, 2)
  {
    var items := [Int(0), Int(-1)];
    assert forall k :: 0 <= k < |items| ==> items[k].Int?;
    var r := Counts(items);
    assert r.value[0] == AsUsize(0) == 0;
    assert r.value == [0, AsUsize(-1)];
  }

  function ArrayStep(sem: Semantics, ext: Externals, st: State, ins: Instruction): (r: Result<State>)
    requires IsArrayOp(ins)
  {
    if ins.Iaload? || ins.Aaload? then ArrayLoad(st, ins)
    else if ins.Iastore? || ins.Aastore? then ArrayStore(st, ins)
    else if ins.Newarray? then NewArray(st, ins.operand)
    else MultiANewArray(sem, ext, st, ins.operand, ins.dimensions)
  }

  // ----- Returns and the whole step ---------------------------------------------

  /** `ireturn`/`areturn`: pops the result, clears the current operand
      stack and pushes the result onto the caller's frame, `length - 2`;
      with a single frame that `usize` subtraction underflows. */
  function ReturnStep(st: State): (r: Result<State>)
    ensures r.Ok? ==> |r.value.frames| == |st.frames| && r.value.arrays == st.arrays
                      && r.value.objectId == st.objectId
  {
    if |st.frames| == 0 then Err(Unreachable)
    else
      var p := PopTop(st);
      if p.1.None? then Err(Unreachable)
      else
        var n := |p.0.frames|;
        var s := SetTop(p.0, Top(p.0).(operandStack := []));
        if n < 2 then Err(ArithmeticOverflow)
        else
          var caller := s.frames[n - 2];
          Ok(s.(frames := s.frames[n - 2 := caller.(operandStack := caller.operandStack + [p.1.value])]))
  }

  /** The state change of a non-branching, non-returning instruction.
      `aload`, `astore` and the `Noope` filler have no arm in `execute`. */
  function Effect(sem: Semantics, ext: Externals, st: State, ins: Instruction): (r: Result<State>)
  {
    if IsStackOp(ins) then StackStep(sem, ext, st, ins)
    else if IsLocalOp(ins) then LocalStep(sem, st, ins)
    else if IsArrayOp(ins) then ArrayStep(sem, ext, st, ins)
    else if NeedsClassLoading(ins) then Err(NotModelled)
    else Ok(st)
  }

  /** `execute`: the new state, whether the method returned, and the index
      `run_method` continues after. */
  function Step(sem: Semantics, ext: Externals, st: State, ins: Instruction, index: nat): (r: Result<(State, bool, nat)>)
  {
    if IsBranch(ins) then
      var b :- BranchStep(sem, ext, st, ins);
      Ok((b.0, false, b.1))
    else if IsValueReturn(ins) then
      var s :- ReturnStep(st);
      Ok((s, true, index))
    else InPlaceStep(sem, ext, st, ins, index)
  }

  /** The arm of `execute` for instructions that neither branch nor
      return a value: the effect, then the operand bytes skipped. */
  function InPlaceStep(sem: Semantics, ext: Externals, st: State, ins: Instruction, index: nat): (r: Result<(State, bool, nat)>)
  {
    var e := Effect(sem, ext, st, ins);
    var c := CounsumeIndex(ins);
    if e.Err? then Err(e.error) else if c.Err? then Err(c.error) else Ok((e.value, false, index + c.value))
  }

  /** Proof step for `Contexts.Context.ExecuteInPlace`: `InPlaceStep`
      unfolded. */
  lemma InPlaceStepCases(sem: Semantics, ext: Externals, st: State, ins: Instruction, index: nat)
    ensures var e := Effect(sem, ext, st, ins);
      var c := CounsumeIndex(ins);
      InPlaceStep(sem, ext, st, ins, index)
      == if e.Err? then Err(e.error) else if c.Err? then Err(c.error) else Ok((e.value, false, index + c.value))
  {
  }

  // ----- Properties of one step ---------------------------------------------------

  /** `goto` changes nothing and continues at its target. */
  lemma GotoJumps(sem: Semantics, ext: Externals, st: State, target: nat, index: nat)
    ensures Step(sem, ext, st, Goto(target), index) == Ok((st, false, target))
  {
  }

  /** `ifeq`..`ifle` pop exactly the tested value and continue at the
      taken or the fall-through target; an empty stack panics. */
  lemma {:induction false} ZeroTestBranch(sem: Semantics, ext: Externals, st: State, ins: Instruction, index: nat)
    requires IsZeroTest(ins) && |st.frames| > 0
    ensures var stack := Top(st).operandStack;
      && (|stack| == 0 ==> Step(sem, ext, st, ins, index) == Err(Unreachable))
      && (|stack| > 0 ==>
            Step(sem, ext, st, ins, index)
            == Ok((SetTop(st, Top(st).(operandStack := stack[..|stack| - 1])), false,
                   if ZeroTest(ext, ins, stack[|stack| - 1]) then ins.ifTarget else ins.elseTarget)))
  {
  }

  /** `if_icmp<cond>` pops the two compared values, the deeper one first in
      the comparison, and continues at the taken or fall-through target. */
  lemma {:induction false} PairTestBranch(sem: Semantics, ext: Externals, st: State, ins: Instruction, index: nat)
    requires IsPairTest(ins) && |st.frames| > 0 && |Top(st).operandStack| >= 2
    ensures var stack := Top(st).operandStack;
      var n := |stack|;
      Step(sem, ext, st, ins, index)
      == Ok((SetTop(st, Top(st).(operandStack := stack[..n - 2])), false,
             if PairTest(ext, ins, Some(stack[n - 2]), Some(stack[n - 1])) then ins.ifTarget else ins.elseTarget))
  {
    var stack := Top(st).operandStack;
    var n := |stack|;
    var p1 := PopTop(st);
    assert Top(p1.0).operandStack == stack[..n - 1];
    assert stack[..n - 1][..n - 2] == stack[..n - 2];
    var p2 := PopTop(p1.0);
    assert p2.1 == Some(stack[n - 2]);
    assert p2.0 == SetTop(st, Top(st).(operandStack := stack[..n - 2]));
  }

  /** `lookupswitch` pops an `Int` key and continues at the target of the
      first case whose key equals it, else at the default: as written the
      key is the popped `i32` cast with `as usize`, as intended its 32
      bits. */
  lemma {:induction false} LookupswitchBranch(sem: Semantics, ext: Externals, st: State,
                                              vals: seq<(Option<nat>, nat)>, index: nat)
    requires |st.frames| > 0 && |vals| > 0
    requires |Top(st).operandStack| > 0 && Top(st).operandStack[|Top(st).operandStack| - 1].Int?
    ensures var stack := Top(st).operandStack;
      var k := stack[|stack| - 1].i;
      var key := if sem.AsWritten? then AsUsize(k) else k % 0x1_0000_0000;
      Step(sem, ext, st, Lookupswitch(vals), index)
      == Ok((SetTop(st, Top(st).(operandStack := stack[..|stack| - 1])), false, SwitchTarget(vals, key).value))
  {
  }

  /** `bipush`/`sipush` push the constant, as written its unsigned
      operand and as intended its sign-extended one. */
  lemma {:induction false} PushConstantStep(sem: Semantics, ext: Externals, st: State, ins: Instruction)
    requires (ins.Bipush? || ins.Sipush?) && |st.frames| > 0
    ensures Effect(sem, ext, st, ins) == Ok(PushTop(st, ConstantOf(sem, ins)))
    ensures sem.AsWritten? ==> ConstantOf(sem, ins) == Int(WrapI32(ins.operand))
    ensures sem.Intended? ==> ConstantOf(sem, ins).Int? && -32768 <= ConstantOf(sem, ins).i < 32768
  {
  }

  /** `iaload` on an element without a second half pops the index and the
      reference and pushes the element's item. */
  lemma {:induction false} IaloadPushesElement(st: State, id: nat, i: nat)
    requires |st.frames| > 0
    requires var stack := Top(st).operandStack;
      |stack| >= 2 && stack[|stack| - 2] == Arrayref(id) && stack[|stack| - 1] == Int(i)
    requires id in st.arrays && st.arrays[id].Primitive? && i < |st.arrays[id].items|
    requires st.arrays[id].items[i].1 == Null
    ensures var stack := Top(st).operandStack;
      ArrayLoad(st, Iaload)
      == Ok(SetTop(st, Top(st).(operandStack := stack[..|stack| - 2] + [st.arrays[id].items[i].0])))
  {
    var stack := Top(st).operandStack;
    var n := |stack|;
    var p1 := PopTop(st);
    assert Top(p1.0).operandStack == stack[..n - 1];
    assert stack[..n - 1][..n - 2] == stack[..n - 2];
    var p2 := PopTop(p1.0);
    assert p2.0 == SetTop(st, Top(st).(operandStack := stack[..n - 2]));
    SetTopTwice(st, Top(st).(operandStack := stack[..n - 2]),
                Top(st).(operandStack := stack[..n - 2] + [st.arrays[id].items[i].0]));
  }

  /** `iastore` into an existing `int` array writes the popped value at the
      index and changes nothing else but the operand stack. */
  lemma {:induction false} IastoreWritesElement(st: State, id: nat, i: nat, v: Item)
    requires |st.frames| > 0
    requires var stack := Top(st).operandStack;
      |stack| >= 3 && stack[|stack| - 3] == Arrayref(id) && stack[|stack| - 2] == Int(i) && stack[|stack| - 1] == v
    requires id in st.arrays && st.arrays[id].Primitive? && i < |st.arrays[id].items|
    ensures var stack := Top(st).operandStack;
      var s := SetTop(st, Top(st).(operandStack := stack[..|stack| - 3]));
      ArrayStore(st, Iastore)
      == Ok(s.(arrays := st.arrays[id := Arrays.Primitive(st.arrays[id].items[i := (v, Null)])]))
  {
    var stack := Top(st).operandStack;
    var n := |stack|;
    var p1 := PopTop(st);
    assert Top(p1.0).operandStack == stack[..n - 1];
    assert stack[..n - 1][..n - 2] == stack[..n - 2];
    var p2 := PopTop(p1.0);
    assert Top(p2.0).operandStack == stack[..n - 2];
    assert stack[..n - 2][..n - 3] == stack[..n - 3];
    var p3 := PopTop(p2.0);
    assert p3.0 == SetTop(st, Top(st).(operandStack := stack[..n - 3]));
  }

  /** A store through a reference with no array behind it pops its three
      operands and does nothing else. */
  lemma {:induction false} StoreToMissingArray(st: State, ins: Instruction, id: nat, i: int, v: Item)
    requires ins.Iastore? || (ins.Aastore? && v.Objectref?)
    requires |st.frames| > 0
    requires var stack := Top(st).operandStack;
      |stack| >= 3 && stack[|stack| - 3] == Arrayref(id) && stack[|stack| - 2] == Int(i) && stack[|stack| - 1] == v
    requires id !in st.arrays
    ensures var stack := Top(st).operandStack;
      ArrayStore(st, ins) == Ok(SetTop(st, Top(st).(operandStack := stack[..|stack| - 3])))
  {
    var stack := Top(st).operandStack;
    var n := |stack|;
    var p1 := PopTop(st);
    assert Top(p1.0).operandStack == stack[..n - 1];
    assert stack[..n - 1][..n - 2] == stack[..n - 2];
    var p2 := PopTop(p1.0);
    assert Top(p2.0).operandStack == stack[..n - 2];
    assert stack[..n - 2][..n - 3] == stack[..n - 3];
    var p3 := PopTop(p2.0);
    assert p3.0 == SetTop(st, Top(st).(operandStack := stack[..n - 3]));
  }

  /** `newarray` with a non-negative length stores a default-filled array
      of that length under the next id and pushes its reference. */
  lemma {:induction false} NewArrayAllocates(st: State, typeIndex: nat, length: nat)
    requires |st.frames| > 0
    requires var stack := Top(st).operandStack; |stack| >= 1 && stack[|stack| - 1] == Int(length)
    requires Utils.IniailizePrimitiveArray(typeIndex, length).Ok?
    ensures var stack := Top(st).operandStack;
      var s := SetTop(st, Top(st).(operandStack := stack[..|stack| - 1]));
      var items := Utils.IniailizePrimitiveArray(typeIndex, length).value;
      && |items| == length
      && NewArray(st, typeIndex)
         == Ok(PushTop(s.(arrays := st.arrays[st.objectId := Arrays.Primitive(items)], objectId := st.objectId + 1),
                       Arrayref(st.objectId)))
  {
  }

  /** The faults of `newarray` in the order the source meets them: an
      unimplemented type index reaches `unreachable!` inside
      `iniailize_primitive_array` before any allocation, and only then does
      a negative length, cast to a `usize` of at least 2^63, fail to be
      allocated. */
  lemma {:induction false} NewArrayFaultOrder(st: State, typeIndex: nat, length: int)
    requires |st.frames| > 0
    requires var stack := Top(st).operandStack; |stack| >= 1 && stack[|stack| - 1] == Int(length)
    ensures !(typeIndex == 4 || typeIndex == 10 || typeIndex == 11) ==> NewArray(st, typeIndex) == Err(Unreachable)
    ensures (typeIndex == 4 || typeIndex == 10 || typeIndex == 11) && length < 0 ==>
              NewArray(st, typeIndex) == Err(ArithmeticOverflow)
    ensures (typeIndex == 4 || typeIndex == 10 || typeIndex == 11) && length >= 0 ==> NewArray(st, typeIndex).Ok?
  {
    var p := PopTop(st.(objectId := st.objectId + 1));
    assert p.1 == Some(Int(length));
  }

  /** `ireturn`/`areturn` hand the popped result to the caller's operand
      stack, empty the returning frame's stack, touch nothing else, and end
      the method. */
  lemma {:induction false} ReturnPassesResult(sem: Semantics, ext: Externals, st: State, ins: Instruction, index: nat)
    requires IsValueReturn(ins) && |st.frames| >= 2 && |Top(st).operandStack| > 0
    ensures var n := |st.frames|;
      var stack := Top(st).operandStack;
      var r := Step(sem, ext, st, ins, index);
      && r.Ok? && r.value.1 && r.value.2 == index
      && |r.value.0.frames| == n
      && r.value.0.frames[..n - 2] == st.frames[..n - 2]
      && r.value.0.frames[n - 2] == st.frames[n - 2].(operandStack := st.frames[n - 2].operandStack + [stack[|stack| - 1]])
      && r.value.0.frames[n - 1] == Top(st).(operandStack := [])
      && r.value.0.arrays == st.arrays && r.value.0.objectId == st.objectId
  {
    var n := |st.frames|;
    var p := PopTop(st);
    var s := SetTop(p.0, Top(p.0).(operandStack := []));
    assert s.frames[..n - 1] == st.frames[..n - 1];
    assert s.frames[n - 2] == st.frames[n - 2];
  }

  /** With only its own frame there is no caller: `length - 2` underflows. */
  lemma ReturnWithoutCaller(sem: Semantics, ext: Externals, st: State, ins: Instruction, index: nat)
    requires IsValueReturn(ins) && |st.frames| == 1 && |Top(st).operandStack| > 0
    ensures Step(sem, ext, st, ins, index) == Err(ArithmeticOverflow)
  {
  }

  /** Every other instruction continues at `index + counsume_index()`. */
  lemma FallThrough(sem: Semantics, ext: Externals, st: State, ins: Instruction, index: nat)
    requires !IsBranch(ins) && !IsValueReturn(ins)
    ensures var r := Step(sem, ext, st, ins, index);
      r.Ok? ==> !r.value.1 && CounsumeIndex(ins).Ok? && r.value.2 == index + CounsumeIndex(ins).value
  {
  }

  /** Within a method no instruction adds or removes a frame (calls are
      not part of this model). */
  lemma {:induction false} StepKeepsFrameCount(sem: Semantics, ext: Externals, st: State, ins: Instruction, index: nat)
    ensures var r := Step(sem, ext, st, ins, index);
      r.Ok? ==> |r.value.0.frames| == |st.frames|
  {
    if !IsBranch(ins) && !IsValueReturn(ins) {
      EffectKeepsFrameCount(sem, ext, st, ins);
    }
  }

  lemma {:induction false} EffectKeepsFrameCount(sem: Semantics, ext: Externals, st: State, ins: Instruction)
    ensures var r := Effect(sem, ext, st, ins);
      r.Ok? ==> |r.value.frames| == |st.frames|
  {
    if !IsStackOp(ins) && !IsLocalOp(ins) && IsArrayOp(ins) && ins.Multianewarray? {
      MultiANewArrayKeepsFrames(sem, ext, st, ins.operand, ins.dimensions);
    }
  }

  lemma {:induction false} MultiANewArrayKeepsFrames(sem: Semantics, ext: Externals, st: State, index: nat, dimensions: nat)
    ensures var r := MultiANewArray(sem, ext, st, index, dimensions);
      r.Ok? ==> |r.value.frames| == |st.frames|
  {
    var r := MultiANewArray(sem, ext, st, index, dimensions);
    if r.Ok? {
      var stack := Top(st).operandStack;
      var counts := Counts(stack[|stack| - dimensions..]).value;
      var s1 := SetTop(st, Top(st).(operandStack := stack[..|stack| - dimensions]));
      var name := ext.classRefName(index).value;
      var init := CreateUninitializedItem(BaseType(BaseTypeOf(name[dimensions]).value)).value;
      var built := if sem.AsWritten? then NewMultiArrayAsWritten(s1, counts, init) else NewMultiArray(s1, counts, init);
      assert |built.0.frames| == |s1.frames| == |st.frames|;
      assert r.value == PushTop(built.0, Arrayref(built.1));
    }
  }

  /** Ids come from the counter: every array's id stays below it, the
      counter never goes back and no array disappears. */
  predicate IdsBelowCounter(st: State)
  {
    forall k :: k in st.arrays ==> k < st.objectId
  }

  lemma {:induction false} StepKeepsIdsFresh(sem: Semantics, ext: Externals, st: State, ins: Instruction, index: nat)
    requires IdsBelowCounter(st)
    ensures var r := Step(sem, ext, st, ins, index);
      r.Ok? ==>
        && IdsBelowCounter(r.value.0)
        && st.objectId <= r.value.0.objectId
        && st.arrays.Keys <= r.value.0.arrays.Keys
  {
    if !IsBranch(ins) && !IsValueReturn(ins) {
      EffectKeepsIdsFresh(sem, ext, st, ins);
    }
  }

  lemma {:induction false} EffectKeepsIdsFresh(sem: Semantics, ext: Externals, st: State, ins: Instruction)
    requires IdsBelowCounter(st)
    ensures var r := Effect(sem, ext, st, ins);
      r.Ok? ==>
        && IdsBelowCounter(r.value)
        && st.objectId <= r.value.objectId
        && st.arrays.Keys <= r.value.arrays.Keys
  {
    if !IsStackOp(ins) && !IsLocalOp(ins) && IsArrayOp(ins) && ins.Multianewarray? {
      MultiANewArrayKeepsIds(sem, ext, st, ins.operand, ins.dimensions);
    }
  }

  lemma {:induction false} MultiANewArrayKeepsIds(sem: Semantics, ext: Externals, st: State, index: nat, dimensions: nat)
    requires IdsBelowCounter(st)
    ensures var r := MultiANewArray(sem, ext, st, index, dimensions);
      r.Ok? ==>
        && IdsBelowCounter(r.value)
        && st.objectId <= r.value.objectId
        && st.arrays.Keys <= r.value.arrays.Keys
  {
    var r := MultiANewArray(sem, ext, st, index, dimensions);
    if r.Ok? {
      var stack := Top(st).operandStack;
      var counts := Counts(stack[|stack| - dimensions..]).value;
      var s1 := SetTop(st, Top(st).(operandStack := stack[..|stack| - dimensions]));
      var name := ext.classRefName(index).value;
      var init := CreateUninitializedItem(BaseType(BaseTypeOf(name[dimensions]).value)).value;
      var built := if sem.AsWritten? then NewMultiArrayAsWritten(s1, counts, init) else NewMultiArray(s1, counts, init);
      assert r.value == PushTop(built.0, Arrayref(built.1));
      MultiDimensions.BuildSpec(s1.arrays, s1.objectId, counts, if sem.AsWritten? then 0 else 1, counts[0], init);
    }
  }

  // ----- Calls -----------------------------------------------------------------------

  /** `create_new_stack_frame`: the top `n` operands of the caller, in
      their order, become the locals of a new frame with an empty operand
      stack, and leave the caller's stack.  Without a frame the `expect` of
      `get_last_stackframe` fails; more operands than the caller holds make
      `drain` panic. */
  function NewStackFrame(st: State, n: nat): (r: Result<(State, Frame)>)
    ensures r.Ok? <==> |st.frames| > 0 && n <= |Top(st).operandStack|
    ensures |st.frames| == 0 ==> r == Err(Unreachable)
    ensures |st.frames| > 0 && n > |Top(st).operandStack| ==> r == Err(IndexOutOfBounds)
    ensures r.Ok? ==>
      var s := r.value.0;
      var callee := r.value.1;
      && |callee.localVariables| == n && callee.operandStack == []
      && |s.frames| == |st.frames| && s.arrays == st.arrays && s.objectId == st.objectId
      && s.frames[..|s.frames| - 1] == st.frames[..|st.frames| - 1]
      && Top(s).localVariables == Top(st).localVariables
      && Top(s).operandStack + callee.localVariables == Top(st).operandStack
  {
    if |st.frames| == 0 then Err(Unreachable)
    else if n > |Top(st).operandStack| then Err(IndexOutOfBounds)
    else
      var stack := Top(st).operandStack;
      var k := |stack| - n;
      assert stack[..k] + stack[k..] == stack;
      Ok((SetTop(st, Top(st).(operandStack := stack[..k])), Frame(stack[k..], [])))
  }

  /** Proof step for `Contexts.Context.CreateNewStackFrame`: the result
      of `NewStackFrame` when it succeeds. */
  lemma NewStackFrameSplits(st: State, n: nat)
    requires |st.frames| > 0 && n <= |Top(st).operandStack|
    ensures var stack := Top(st).operandStack;
      NewStackFrame(st, n)
        == Ok((SetTop(st, Top(st).(operandStack := stack[..|stack| - n])), Frame(stack[|stack| - n..], [])))
  {
  }

  // ----- run_method -----------------------------------------------------------------

  datatype Outcome = Finished | OutOfFuel(index: nat)

  /** `stack_frames.pop()`, a no-op without frames. */
  function PopFrame(st: State): (r: State)
    ensures |st.frames| > 0 ==> r.frames == st.frames[..|st.frames| - 1]
    ensures r.arrays == st.arrays && r.objectId == st.objectId
  {
    if |st.frames| == 0 then st else st.(frames := st.frames[..|st.frames| - 1])
  }

  /** `run_method`: executes from `index` until the code ends or an
      instruction returns, then drops the method's frame.  The loop need
      not terminate, so at most `fuel` instructions are run. */
  function Run(sem: Semantics, ext: Externals, st: State, code: seq<Instruction>, index: nat, fuel: nat): (r: Result<(State, Outcome)>)
    decreases fuel, 1
  {
    if index >= |code| then Ok((PopFrame(st), Finished))
    else if fuel == 0 then Ok((st, OutOfFuel(index)))
    else Continue(sem, ext, Step(sem, ext, st, code[index], index), code, fuel)
  }

  /** What `run_method` does after one `execute` with `fuel` left: stop on
      an error, drop the frame after a return, otherwise go on after the
      index the instruction reported. */
  function Continue(sem: Semantics, ext: Externals, step: Result<(State, bool, nat)>, code: seq<Instruction>, fuel: nat)
    : (r: Result<(State, Outcome)>)
    requires fuel > 0
    decreases fuel, 0
  {
    match step
    case Err(e) => Err(e)
    case Ok(s) =>
      if s.1 then Ok((PopFrame(s.0), Finished))
      else Run(sem, ext, s.0, code, s.2 + 1, fuel - 1)
  }

  /** Proof step for `Contexts.Context.RunMethod`: `Run` unfolded once
      when code and fuel are left. */
  lemma RunUnfold(sem: Semantics, ext: Externals, st: State, code: seq<Instruction>, index: nat, fuel: nat,
                  step: Result<(State, bool, nat)>)
    requires index < |code| && fuel > 0 && step == Step(sem, ext, st, code[index], index)
    ensures Run(sem, ext, st, code, index, fuel) == Continue(sem, ext, step, code, fuel)
  {
  }

  /** A finished run removes exactly the method's own frame and keeps ids
      below the counter. */
  lemma {:induction false} RunPopsOneFrame(sem: Semantics, ext: Externals, st: State, code: seq<Instruction>, index: nat, fuel: nat)
    requires |st.frames| > 0 && IdsBelowCounter(st)
    ensures var r := Run(sem, ext, st, code, index, fuel);
      r.Ok? ==>
        && IdsBelowCounter(r.value.0)
        && (r.value.1 == Finished ==> |r.value.0.frames| == |st.frames| - 1)
        && (r.value.1.OutOfFuel? ==> |r.value.0.frames| == |st.frames|)
    decreases fuel
  {
    if index < |code| && fuel > 0 {
      var s := Step(sem, ext, st, code[index], index);
      if s.Ok? {
        StepKeepsFrameCount(sem, ext, st, code[index], index);
        StepKeepsIdsFresh(sem, ext, st, code[index], index);
        if !s.value.1 {
          RunPopsOneFrame(sem, ext, s.value.0, code, s.value.2 + 1, fuel - 1);
        }
      }
    }
  }
}
