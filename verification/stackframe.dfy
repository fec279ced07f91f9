/** src/stackframe.rs: a method's frame, its local variables and its own
    operand stack. */
module Stackframes {
  import opened Wrappers
  import opened Operand

  /** `Vec::insert`: `x` lands at position `i` and the elements from `i`
      on move one place right. */
  function InsertAt<T>(s: seq<T>, i: nat, x: T): (r: seq<T>)
    requires i <= |s|
    ensures |r| == |s| + 1
    ensures r[i] == x
    ensures forall k :: 0 <= k < i ==> r[k] == s[k]
    ensures forall k :: i < k <= |s| ==> r[k] == s[k - 1]
  {
    s[..i] + [x] + s[i..]
  }

  /** Removing what `InsertAt` put in gives the old sequence back. */
  lemma {:induction false} InsertAtRemoves<T>(s: seq<T>, i: nat, x: T)
    requires i <= |s|
    ensures InsertAt(s, i, x)[..i] + InsertAt(s, i, x)[i + 1..] == s
  {
    var r := InsertAt(s, i, x);
    assert r[..i] == s[..i];
    assert r[i + 1..] == s[i..];
  }

  class Stackframe {
    var localVariables: seq<Item>
    var operandStack: OperandStack<Item>

    /** `Stackframe::new`: `variables_number` is only a capacity hint; both
        the locals and the operand stack start empty. */
    constructor (variablesNumber: nat)
      ensures localVariables == [] && fresh(operandStack) && operandStack.stack == []
    {
      localVariables := [];
      operandStack := new OperandStack();
    }

    /** `istore`: pops the top of `operandStack` (the caller's stack, which
        may be this frame's own) and inserts it at `index`, shifting the
        later locals right; an empty stack changes nothing, and an `index`
        past the end of the locals makes `Vec::insert` panic. */
    method Istore(operandStack: OperandStack<Item>, index: nat) returns (r: Result<()>)
      modifies this, operandStack
      ensures |old(operandStack.stack)| == 0 ==>
        r.Ok? && localVariables == old(localVariables) && operandStack.stack == []
      ensures |old(operandStack.stack)| > 0 ==>
        (r.Ok? <==> index <= |old(localVariables)|)
      ensures r.Ok? && |old(operandStack.stack)| > 0 ==>
        var n := |old(operandStack.stack)|;
        && operandStack.stack == old(operandStack.stack)[..n - 1]
        && localVariables == InsertAt(old(localVariables), index, old(operandStack.stack)[n - 1])
      ensures this.operandStack == old(this.operandStack)
    {
      var n := |operandStack.stack|;
      if n == 0 {
        return Ok(());
      }
      var val := operandStack.stack[n - 1];
      operandStack.stack := operandStack.stack[..n - 1];
      if index > |localVariables| {
        return Err(IndexOutOfBounds);
      }
      localVariables := InsertAt(localVariables, index, val);
      return Ok(());
    }
  }
}
