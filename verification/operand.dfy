/** src/operand.rs: the operand stack, and the interpreter's value type `Item`.

    Two revisions meet here.  operand.rs itself stores `OperandStackItem`
    values (`Null` or `I32`), while stackframe.rs and context.rs push and pop
    `Item` values, a type whose definition is not part of this model.  The
    stack is therefore generic in its element type; `Iadd` exists only for
    the `OperandStackItem` stack, as in operand.rs. */
module Operand {
  import opened Wrappers

  const I32_MIN: int := -0x8000_0000
  const I32_MAX: int := 0x7fff_ffff

  predicate IsI32(x: int) { I32_MIN <= x <= I32_MAX }

  /** Two's-complement wrap of an integer to 32 bits, what Rust's `as i32`
      does to an integer of any width. */
  function WrapI32(x: int): (r: int)
    ensures IsI32(r)
    ensures (r - x) % 0x1_0000_0000 == 0
    ensures IsI32(x) ==> r == x
  {
    var m := x % 0x1_0000_0000;
    if m <= I32_MAX then m else m - 0x1_0000_0000
  }

  /** The value type of context.rs and stackframe.rs.  Only the variants
      those files construct or match on are listed; `Long` holds one
      32-bit half of a long, as context.rs stores longs in two slots. */
  datatype Item =
    | Null
    | Int(i: int)
    | Long(half: int)
    | Boolean(b: bool)
    | Arrayref(arrayId: nat)
    | Objectref(objectId: nat)
    | String(s: string)
    | Classref(name: string)

  /** Result of Rust's `PartialOrd::partial_cmp`. */
  datatype Ordering = Less | Equal | Greater

  /** The element type of operand.rs's own stack. */
  datatype OperandStackItem = NullItem | I32(v: int)

  class OperandStack<T> {
    var stack: seq<T>

    /** `OperandStack::new`: an empty stack. */
    constructor ()
      ensures stack == []
    {
      stack := [];
    }

    /** `bipush`: push exactly one item on top, nothing else changes. */
    method Bipush(item: T)
      modifies this
      ensures stack == old(stack) + [item]
    {
      stack := stack + [item];
    }

    /** `iconst`: same effect as `bipush`. */
    method Iconst(item: T)
      modifies this
      ensures |stack| == |old(stack)| + 1
      ensures stack[|stack| - 1] == item && stack[..|stack| - 1] == old(stack)
    {
      stack := stack + [item];
    }
  }

  /** `add_two_item`: both operands must be `I32`; the sum is an `i32`
      addition, which panics on overflow in a debug build. */
  function AddTwoItem(left: OperandStackItem, right: OperandStackItem): (r: Result<int>)
    ensures r.Ok? <==> left.I32? && right.I32? && IsI32(left.v + right.v)
    ensures r.Ok? ==> r.value == left.v + right.v && IsI32(r.value)
  {
    match (left, right)
    case (I32(l), I32(rr)) => if IsI32(l + rr) then Ok(l + rr) else Err(ArithmeticOverflow)
    case _ => Err(TypeMismatch)
  }

  /** `iadd`: pops the top two items (both pops happen before the match)
      and returns their sum WITHOUT pushing it; fewer than two items panic. */
  method Iadd(s: OperandStack<OperandStackItem>) returns (r: Result<int>)
    modifies s
    ensures |old(s.stack)| < 2 ==> r.Err?
    ensures |old(s.stack)| >= 2 ==>
      && s.stack == old(s.stack)[..|old(s.stack)| - 2]
      && r == AddTwoItem(old(s.stack)[|old(s.stack)| - 1], old(s.stack)[|old(s.stack)| - 2])
  {
    var n := |s.stack|;
    if n < 2 {
      s.stack := [];
      return Err(Unreachable);
    }
    var left := s.stack[n - 1];
    s.stack := s.stack[..n - 1];
    var right := s.stack[n - 2];
    s.stack := s.stack[..n - 2];
    r := AddTwoItem(left, right);
  }
}
