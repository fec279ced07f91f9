/** src/context.rs, `Context`: the interpreter's mutable state and the
    methods that change it in place.  Each method is proved to leave the
    state that the corresponding function of `ContextSteps` computes, so
    the lemmas proved there hold of the methods. */
module Contexts {
  import opened Wrappers
  import opened Operand
  import opened Instructions
  import Arrays
  import Utils
  import opened ContextSteps

  /** A method that returns `Ok(v)` left state `s`, as `spec` says;
      an `Err` is the same fault `spec` reports. */
  predicate Matches<T(==)>(r: Result<T>, s: State, spec: Result<(State, T)>)
  {
    if r.Ok? then spec == Ok((s, r.value)) else spec == Err(r.error)
  }

  predicate MatchesState(r: Result<()>, s: State, spec: Result<State>)
  {
    if r.Ok? then spec == Ok(s) else spec == Err(r.error)
  }

  /** `r`, the result of `execute` run on state `s`, is what `spec` says. */
  predicate StepMatches(r: Result<(bool, nat)>, s: State, spec: Result<(State, bool, nat)>)
  {
    if r.Ok? then spec == Ok((s, r.value.0, r.value.1)) else spec == Err(r.error)
  }

  /** The first index from which `vals` holds `Some(key)`: the `find` of
      `lookupswitch`. */
  method FindCase(vals: seq<(Option<nat>, nat)>, key: nat) returns (r: Option<nat>)
    ensures r == FindKey(vals, key, 0)
  {
    var i := 0;
    while i < |vals|
      invariant 0 <= i <= |vals|
      invariant FindKey(vals, key, 0) == FindKey(vals, key, i)
    {
      if vals[i].0 == Some(key) {
        return Some(i);
      }
      i := i + 1;
    }
    return None;
  }

  class Context {
    var frames: seq<Frame>
    var arrays: map<nat, Arrays.Array>
    var objectId: nat

    /** The state the functions of `ContextSteps` speak about. */
    function Snapshot(): State
      reads this
    {
      State(frames, arrays, objectId)
    }

    /** `Context::new`: no frames and no arrays yet; `counter` is the
        current value of the global `OBJECT_ID`. */
    constructor (counter: nat)
      ensures Snapshot() == State([], map[], counter)
    {
      frames := [];
      arrays := map[];
      objectId := counter;
    }

    method PopOperand() returns (item: Option<Item>)
      requires |frames| > 0
      modifies this
      ensures (Snapshot(), item) == PopTop(old(Snapshot()))
    {
      var f := frames[|frames| - 1];
      var n := |f.operandStack|;
      if n == 0 {
        return None;
      }
      item := Some(f.operandStack[n - 1]);
      frames := frames[|frames| - 1 := f.(operandStack := f.operandStack[..n - 1])];
    }

    method PushOperand(item: Item)
      requires |frames| > 0
      modifies this
      ensures Snapshot() == PushTop(old(Snapshot()), item)
    {
      var f := frames[|frames| - 1];
      frames := frames[|frames| - 1 := f.(operandStack := f.operandStack + [item])];
    }

    method SetTopFrame(f: Frame)
      requires |frames| > 0
      modifies this
      ensures Snapshot() == SetTop(old(Snapshot()), f)
    {
      frames := frames[|frames| - 1 := f];
    }

    /** `stack_frames.pop()`. */
    method PopStackFrame()
      modifies this
      ensures Snapshot() == PopFrame(old(Snapshot()))
    {
      if |frames| > 0 {
        frames := frames[..|frames| - 1];
      }
    }

    /** The branch arms of `execute`. */
    method ExecuteBranch(sem: Semantics, ext: Externals, ins: Instruction) returns (r: Result<nat>)
      requires IsBranch(ins)
      modifies this
      ensures Matches(r, Snapshot(), BranchStep(sem, ext, old(Snapshot()), ins))
    {
      if ins.Goto? {
        return Ok(ins.target);
      }
      if |frames| == 0 {
        return Err(Unreachable);
      }
      if ins.Lookupswitch? {
        var top := PopOperand();
        if !(top.Some? && top.value.Int?) {
          return Err(Unreachable);
        }
        var key := if sem.AsWritten? then AsUsize(top.value.i) else top.value.i % 0x1_0000_0000;
        var found := FindCase(ins.vals, key);
        if found.Some? {
          return Ok(ins.vals[found.value].1);
        }
        if |ins.vals| == 0 {
          return Err(Unreachable);
        }
        return Ok(ins.vals[0].1);
      }
      if IsZeroTest(ins) {
        var v := PopOperand();
        if v.None? {
          return Err(Unreachable);
        }
        return Ok(Target(ins, ZeroTest(ext, ins, v.value)));
      }
      var second := PopOperand();
      var first := PopOperand();
      return Ok(Target(ins, PairTest(ext, ins, first, second)));
    }

    /** The constant, stack and arithmetic arms of `execute`. */
    method ExecuteStack(sem: Semantics, ext: Externals, ins: Instruction) returns (r: Result<()>)
      requires IsStackOp(ins)
      modifies this
      ensures MatchesState(r, Snapshot(), StackStep(sem, ext, old(Snapshot()), ins))
    {
      if |frames| == 0 {
        return Err(Unreachable);
      }
      var f := frames[|frames| - 1];
      if IsIntArith(ins) {
        var res :- ext.intOp(ins, f.operandStack);
        SetTopFrame(f.(operandStack := res.0 + [res.1]));
        return Ok(());
      }
      if IsLongArith(ins) {
        var res :- ext.longOp(ins, f.operandStack);
        SetTopFrame(f.(operandStack := res.0 + [res.1, res.2]));
        return Ok(());
      }
      match ins {
        case IconstN(n) =>
          PushOperand(Int(WrapI32(n)));
        case LconstN(n) =>
          PushOperand(Long(0));
          PushOperand(Long(WrapI32(n)));
        case Bipush(_) =>
          PushOperand(ConstantOf(sem, ins));
        case Sipush(_) =>
          PushOperand(ConstantOf(sem, ins));
        case Pop =>
          var _ := PopOperand();
        case Dup =>
          if |f.operandStack| == 0 {
            return Err(Unreachable);
          }
          PushOperand(f.operandStack[|f.operandStack| - 1]);
        case Return =>
          SetTopFrame(f.(operandStack := []));
      }
      return Ok(());
    }

    /** `load_n`. */
    method LoadN(index: nat) returns (r: Result<()>)
      modifies this
      ensures MatchesState(r, Snapshot(), Load(old(Snapshot()), index))
    {
      if |frames| == 0 || index >= |frames[|frames| - 1].localVariables| {
        return Err(Unreachable);
      }
      PushOperand(frames[|frames| - 1].localVariables[index]);
      return Ok(());
    }

    /** The first loop of `store_n`: pops one item per index, pairing the
        i-th index with the i-th item from the top. */
    method PopPairs(indexs: seq<nat>) returns (r: Result<seq<(nat, Item)>>)
      requires |frames| > 0
      modifies this
      ensures var stack := Top(old(Snapshot())).operandStack;
        && (r.Ok? <==> |indexs| <= |stack|)
        && (r.Err? ==> r.error == Unreachable)
        && (r.Ok? ==>
              && r.value == Popped(stack, indexs)
              && Snapshot() == SetTop(old(Snapshot()), Top(old(Snapshot())).(operandStack := stack[..|stack| - |indexs|])))
    {
      ghost var s0 := Snapshot();
      ghost var f0 := Top(s0);
      ghost var n := |f0.operandStack|;
      assert f0.operandStack[..n] == f0.operandStack;
      SetTopSame(s0);
      var itemVec: seq<(nat, Item)> := [];
      var i := 0;
      while i < |indexs|
        invariant 0 <= i <= |indexs| && i <= n
        invariant Snapshot() == SetTop(s0, f0.(operandStack := f0.operandStack[..n - i]))
        invariant |itemVec| == i
        invariant forall j :: 0 <= j < i ==> itemVec[j] == (indexs[j], f0.operandStack[n - 1 - j])
      {
        ghost var before := Snapshot();
        var item := PopOperand();
        if item.None? {
          return Err(Unreachable);
        }
        assert f0.operandStack[..n - i][..n - i - 1] == f0.operandStack[..n - (i + 1)];
        SetTopTwice(s0, f0.(operandStack := f0.operandStack[..n - i]), f0.(operandStack := f0.operandStack[..n - (i + 1)]));
        itemVec := itemVec + [(indexs[i], item.value)];
        i := i + 1;
      }
      return Ok(itemVec);
    }

    /** The last loop of `store_n`: writes the sorted pairs in order. */
    static method WriteSorted(locals: seq<Item>, sorted: seq<(nat, Item)>) returns (r: Result<seq<Item>>)
      ensures r == WriteAll(locals, sorted)
    {
      var current := locals;
      var j := 0;
      while j < |sorted|
        invariant 0 <= j <= |sorted|
        invariant WriteAll(locals, sorted) == WriteAll(current, sorted[j..])
      {
        assert sorted[j..][1..] == sorted[j + 1..];
        var (index, item) := sorted[j];
        if index < |current| {
          current := current[index := item];
        } else if index == |current| {
          current := current + [item];
        } else {
          return Err(IndexOutOfBounds);
        }
        j := j + 1;
      }
      return Ok(current);
    }

    /** `store_n`: pops one item per index, sorts the pairs by index and
        writes them in that order, overwriting or appending. */
    method StoreN(indexs: seq<nat>) returns (r: Result<()>)
      requires DistinctIndexes(indexs)
      modifies this
      ensures MatchesState(r, Snapshot(), ContextSteps.StoreN(old(Snapshot()), indexs))
    {
      if |frames| == 0 {
        return Err(Unreachable);
      }
      ghost var s0 := Snapshot();
      var itemVec :- PopPairs(indexs);
      assert DistinctKeys(itemVec);
      var sorted := SortByIndex(itemVec);
      var locals :- WriteSorted(frames[|frames| - 1].localVariables, sorted);
      SetTopFrame(Frame(locals, frames[|frames| - 1].operandStack));
      SetTopTwice(s0, Top(s0).(operandStack := Top(s0).operandStack[..|Top(s0).operandStack| - |indexs|]),
                  Frame(locals, frames[|frames| - 1].operandStack));
      return Ok(());
    }

    /** The load, store and `iinc` arms of `execute`. */
    method ExecuteLocal(sem: Semantics, ins: Instruction) returns (r: Result<()>)
      requires IsLocalOp(ins)
      modifies this
      ensures MatchesState(r, Snapshot(), LocalStep(sem, old(Snapshot()), ins))
    {
      if ins.Iinc? {
        r := ExecuteIinc(sem, ins.local, ins.delta);
      } else if ins.Iload? || ins.IloadN? || ins.AloadN? || ins.LloadN? {
        r := ExecuteLoad(ins);
      } else {
        r := ExecuteStore(ins);
      }
    }

    method ExecuteLoad(ins: Instruction) returns (r: Result<()>)
      requires ins.Iload? || ins.IloadN? || ins.AloadN? || ins.LloadN?
      modifies this
      ensures MatchesState(r, Snapshot(), AccessStep(old(Snapshot()), ins))
    {
      if ins.LloadN? {
        r := LoadN(ins.n);
        if r.Ok? {
          r := LoadN(ins.n + 1);
        }
      } else {
        r := LoadN(Slot(ins));
      }
    }

    method ExecuteStore(ins: Instruction) returns (r: Result<()>)
      requires IsSingleStore(ins) || ins.LstoreN?
      modifies this
      ensures MatchesState(r, Snapshot(), AccessStep(old(Snapshot()), ins))
    {
      if ins.LstoreN? {
        r := StoreN([ins.n + 1, ins.n]);
      } else {
        r := StoreN([Slot(ins)]);
      }
    }

    /** `iinc`: adds the constant, as written or as intended, to an `Int`
        local. */
    method ExecuteIinc(sem: Semantics, index: nat, delta: nat) returns (r: Result<()>)
      modifies this
      ensures MatchesState(r, Snapshot(), IincStep(sem, old(Snapshot()), index, delta))
    {
      if |frames| == 0 {
        return Err(Unreachable);
      }
      var f := frames[|frames| - 1];
      if index < |f.localVariables| && f.localVariables[index].Int? {
        var amount := if sem.AsWritten? then WrapI32(delta) else SignedByte(delta);
        var sum := f.localVariables[index].i + amount;
        if !IsI32(sum) {
          return Err(ArithmeticOverflow);
        }
        SetTopFrame(f.(localVariables := f.localVariables[index := Int(sum)]));
      } else {
        SetTopSame(Snapshot());
      }
      r := Ok(());
    }

    /** `iaload` and `aaload`. */
    method ExecuteArrayLoad(ins: Instruction) returns (r: Result<()>)
      requires ins.Iaload? || ins.Aaload?
      modifies this
      ensures MatchesState(r, Snapshot(), ArrayLoad(old(Snapshot()), ins))
    {
      if |frames| == 0 {
        return Err(Unreachable);
      }
      var index := PopOperand();
      var aref := PopOperand();
      if !(index.Some? && index.value.Int? && aref.Some? && aref.value.Arrayref?) {
        return Err(Unreachable);
      }
      var i := index.value.i;
      var id := aref.value.arrayId;
      if id !in arrays {
        return Err(Unreachable);
      }
      var cell := arrays[id];
      if ins.Iaload? {
        if !cell.Primitive? {
          return Err(Unimplemented);
        }
        if !InBounds(i, |cell.items|) {
          return Err(IndexOutOfBounds);
        }
        PushOperand(cell.items[i].0);
        if cell.items[i].1 != Null {
          PushOperand(cell.items[i].1);
        }
      } else {
        if !cell.Custom? {
          return Err(Unimplemented);
        }
        if !InBounds(i, |cell.refs|) {
          return Err(IndexOutOfBounds);
        }
        PushOperand(Objectref(cell.refs[i]));
      }
      return Ok(());
    }

    /** `iastore` and `aastore`. */
    method ExecuteArrayStore(ins: Instruction) returns (r: Result<()>)
      requires ins.Iastore? || ins.Aastore?
      modifies this
      ensures MatchesState(r, Snapshot(), ArrayStore(old(Snapshot()), ins))
    {
      if |frames| == 0 {
        return Err(Unreachable);
      }
      var value := PopOperand();
      var index := PopOperand();
      var aref := PopOperand();
      if !(value.Some? && index.Some? && index.value.Int? && aref.Some? && aref.value.Arrayref?) {
        return Err(Unreachable);
      }
      if ins.Aastore? && !value.value.Objectref? {
        return Err(Unreachable);
      }
      var i := index.value.i;
      var id := aref.value.arrayId;
      if id in arrays {
        var cell := arrays[id];
        if ins.Iastore? {
          if !cell.Primitive? {
            return Err(Unimplemented);
          }
          if !InBounds(i, |cell.items|) {
            return Err(IndexOutOfBounds);
          }
          arrays := arrays[id := Arrays.Primitive(cell.items[i := (value.value, Null)])];
        } else {
          if !cell.Custom? {
            return Err(Unimplemented);
          }
          if !InBounds(i, |cell.refs|) {
            return Err(IndexOutOfBounds);
          }
          arrays := arrays[id := Arrays.Custom(cell.refs[i := value.value.objectId])];
        }
      }
      return Ok(());
    }

    /** `newarray`. */
    method ExecuteNewArray(typeIndex: nat) returns (r: Result<()>)
      modifies this
      ensures MatchesState(r, Snapshot(), NewArray(old(Snapshot()), typeIndex))
    {
      if |frames| == 0 {
        return Err(Unreachable);
      }
      var id := objectId;
      objectId := id + 1;
      var length := PopOperand();
      if !(length.Some? && length.value.Int?) {
        return Err(Unreachable);
      }
      if Utils.PrimitiveDefault(typeIndex).Err? {
        return Err(Unreachable);
      }
      if length.value.i < 0 {
        return Err(ArithmeticOverflow);
      }
      var items := Utils.IniailizePrimitiveArray(typeIndex, length.value.i).value;
      arrays := arrays[id := Arrays.Primitive(items)];
      PushOperand(Arrayref(id));
      return Ok(());
    }

    /** `create_multi_dimentions_array`: builds the arrays below depth
        `currentIndex` with `currentSize` entries, children first, each
        under a fresh id from the counter, and returns the root's id. */
    method CreateMultiDimensionsArray(counts: seq<nat>, currentIndex: nat, currentSize: nat,
                                      init: (Item, Item)) returns (id: nat)
      requires currentIndex <= |counts|
      modifies this
      ensures (arrays, objectId, id)
              == MultiDimensions.Build(old(arrays), old(objectId), counts, currentIndex, currentSize, init)
      ensures frames == old(frames)
      decreases |counts| - currentIndex
    {
      if currentIndex == |counts| {
        var items: seq<(Item, Item)> := [];
        var k := 0;
        while k < currentSize
          invariant 0 <= k <= currentSize
          invariant items == MultiDimensions.Filled(k, init)
        {
          items := items + [init];
          k := k + 1;
        }
        id := objectId;
        objectId := id + 1;
        arrays := arrays[id := Arrays.Primitive(items)];
        return id;
      }
      var nextSize := counts[currentIndex];
      var ids: seq<nat> := [];
      var k := 0;
      while k < currentSize
        invariant 0 <= k <= currentSize
        invariant (arrays, objectId, ids)
                  == MultiDimensions.BuildChildren(old(arrays), old(objectId), counts, currentIndex + 1,
                                                   nextSize, k, init)
        invariant frames == old(frames)
      {
        var child := CreateMultiDimensionsArray(counts, currentIndex + 1, nextSize, init);
        ids := ids + [child];
        k := k + 1;
      }
      id := objectId;
      objectId := id + 1;
      arrays := arrays[id := Arrays.Array(ids)];
    }

    /** `multianewarray`: as written the builder starts at depth 0 and a
        wrapped negative count panics where it is allocated; as intended it
        starts at depth 1 and any negative count is refused. */
    method ExecuteMultiANewArray(sem: Semantics, ext: Externals, index: nat, dimensions: nat) returns (r: Result<()>)
      modifies this
      ensures MatchesState(r, Snapshot(), MultiANewArray(sem, ext, old(Snapshot()), index, dimensions))
    {
      if |frames| == 0 {
        return Err(Unreachable);
      }
      var stack := frames[|frames| - 1].operandStack;
      if |stack| < dimensions {
        return Err(ArithmeticOverflow);
      }
      var counts :- Counts(stack[|stack| - dimensions..]);
      SetTopFrame(frames[|frames| - 1].(operandStack := stack[..|stack| - dimensions]));
      var name :- ext.classRefName(index);
      if |name| < dimensions + 1 {
        return Err(IndexOutOfBounds);
      }
      if name[dimensions] == 'L' {
        return Err(Unimplemented);
      }
      var base := BaseTypeOf(name[dimensions]);
      if base.None? {
        return Err(NotModelled);
      }
      var init :- CreateUninitializedItem(BaseType(base.value));
      if |counts| == 0 {
        return Err(Unreachable);
      }
      if sem.AsWritten? {
        if MultiDimensions.CapacityOverflows(counts, 0, counts[0]) {
          return Err(ArithmeticOverflow);
        }
        var id := CreateMultiDimensionsArray(counts, 0, counts[0], init);
        PushOperand(Arrayref(id));
      } else {
        if exists k :: 0 <= k < |counts| && counts[k] >= MultiDimensions.CapacityLimit {
          return Err(ArithmeticOverflow);
        }
        var id := CreateMultiDimensionsArray(counts, 1, counts[0], init);
        PushOperand(Arrayref(id));
      }
      return Ok(());
    }

    method ExecuteArray(sem: Semantics, ext: Externals, ins: Instruction) returns (r: Result<()>)
      requires IsArrayOp(ins)
      modifies this
      ensures MatchesState(r, Snapshot(), ArrayStep(sem, ext, old(Snapshot()), ins))
    {
      if ins.Iaload? || ins.Aaload? {
        r := ExecuteArrayLoad(ins);
      } else if ins.Iastore? || ins.Aastore? {
        r := ExecuteArrayStore(ins);
      } else if ins.Newarray? {
        r := ExecuteNewArray(ins.operand);
      } else {
        r := ExecuteMultiANewArray(sem, ext, ins.operand, ins.dimensions);
      }
    }

    /** `ireturn`/`areturn`. */
    method ExecuteReturn() returns (r: Result<()>)
      modifies this
      ensures MatchesState(r, Snapshot(), ReturnStep(old(Snapshot())))
    {
      if |frames| == 0 {
        return Err(Unreachable);
      }
      var v := PopOperand();
      if v.None? {
        return Err(Unreachable);
      }
      SetTopFrame(frames[|frames| - 1].(operandStack := []));
      var n := |frames|;
      if n < 2 {
        return Err(ArithmeticOverflow);
      }
      var caller := frames[n - 2];
      frames := frames[n - 2 := caller.(operandStack := caller.operandStack + [v.value])];
      return Ok(());
    }

    /** The arms of `execute` that neither branch nor return. */
    method ExecuteEffect(sem: Semantics, ext: Externals, ins: Instruction) returns (u: Result<()>)
      modifies this
      ensures MatchesState(u, Snapshot(), Effect(sem, ext, old(Snapshot()), ins))
    {
      if IsStackOp(ins) {
        u := ExecuteStack(sem, ext, ins);
      } else if IsLocalOp(ins) {
        u := ExecuteLocal(sem, ins);
      } else if IsArrayOp(ins) {
        u := ExecuteArray(sem, ext, ins);
      } else if NeedsClassLoading(ins) {
        u := Err(NotModelled);
      } else {
        u := Ok(());
      }
    }

    /** `execute`: whether the method returned, and the index `run_method`
        continues after. */
    method Execute(sem: Semantics, ext: Externals, ins: Instruction, index: nat) returns (r: Result<(bool, nat)>)
      modifies this
      ensures StepMatches(r, Snapshot(), Step(sem, ext, old(Snapshot()), ins, index))
    {
      if IsBranch(ins) {
        r := ExecuteJump(sem, ext, ins, index);
      } else if IsValueReturn(ins) {
        r := ExecuteValueReturn(sem, ext, ins, index);
      } else {
        r := ExecuteInPlace(sem, ext, ins, index);
      }
    }

    /** The branching arms: continue at the target. */
    method ExecuteJump(sem: Semantics, ext: Externals, ins: Instruction, index: nat) returns (r: Result<(bool, nat)>)
      requires IsBranch(ins)
      modifies this
      ensures StepMatches(r, Snapshot(), Step(sem, ext, old(Snapshot()), ins, index))
    {
      var target :- ExecuteBranch(sem, ext, ins);
      return Ok((false, target));
    }

    /** `ireturn` and `areturn`: the method is done. */
    method ExecuteValueReturn(sem: Semantics, ext: Externals, ins: Instruction, index: nat) returns (r: Result<(bool, nat)>)
      requires !IsBranch(ins) && IsValueReturn(ins)
      modifies this
      ensures StepMatches(r, Snapshot(), Step(sem, ext, old(Snapshot()), ins, index))
    {
      var done :- ExecuteReturn();
      return Ok((true, index));
    }

    /** Every other arm: its effect, then skip the operand bytes. */
    method ExecuteInPlace(sem: Semantics, ext: Externals, ins: Instruction, index: nat) returns (r: Result<(bool, nat)>)
      modifies this
      ensures StepMatches(r, Snapshot(), InPlaceStep(sem, ext, old(Snapshot()), ins, index))
    {
      InPlaceStepCases(sem, ext, Snapshot(), ins, index);
      var u := ExecuteEffect(sem, ext, ins);
      if u.Err? {
        return Err(u.error);
      }
      var c := CounsumeIndex(ins);
      if c.Err? {
        return Err(c.error);
      }
      return Ok((false, index + c.value));
    }

    /** One pass of `run_method`'s loop: executes `code[index]` and says
        how the rest of the run follows from the new state. */
    method RunOne(sem: Semantics, ext: Externals, code: seq<Instruction>, index: nat, left: nat) returns (r: Result<(bool, nat)>)
      requires index < |code| && left > 0
      modifies this
      ensures r.Err? ==> Run(sem, ext, old(Snapshot()), code, index, left) == Err(r.error)
      ensures r.Ok? && r.value.0 ==>
        Run(sem, ext, old(Snapshot()), code, index, left) == Ok((PopFrame(Snapshot()), Finished))
      ensures r.Ok? && !r.value.0 ==>
        Run(sem, ext, old(Snapshot()), code, index, left) == Run(sem, ext, Snapshot(), code, r.value.1 + 1, left - 1)
    {
      ghost var before := Snapshot();
      r := Execute(sem, ext, code[index], index);
      ghost var s := Step(sem, ext, before, code[index], index);
      RunUnfold(sem, ext, before, code, index, left, s);
    }

    /** `run_method`: runs the code from index 0 until it ends or returns,
        for at most `fuel` instructions, then drops the method's frame. */
    method RunMethod(sem: Semantics, ext: Externals, code: seq<Instruction>, fuel: nat) returns (r: Result<Outcome>)
      modifies this
      ensures Run(sem, ext, old(Snapshot()), code, 0, fuel)
              == if r.Ok? then Ok((Snapshot(), r.value)) else Err(r.error)
    {
      var index: nat := 0;
      var left := fuel;
      while index < |code| && left > 0
        invariant Run(sem, ext, old(Snapshot()), code, 0, fuel) == Run(sem, ext, Snapshot(), code, index, left)
        decreases left
      {
        var step := RunOne(sem, ext, code, index, left);
        if step.Err? {
          return Err(step.error);
        }
        var res := step.value;
        if res.0 {
          PopStackFrame();
          return Ok(Finished);
        }
        index := res.1 + 1;
        left := left - 1;
      }
      if index >= |code| {
        ghost var after := Snapshot();
        PopStackFrame();
        assert Run(sem, ext, after, code, index, left) == Ok((PopFrame(after), Finished));
        return Ok(Finished);
      }
      assert Run(sem, ext, Snapshot(), code, index, left) == Ok((Snapshot(), OutOfFuel(index)));
      return Ok(OutOfFuel(index));
    }

    /** `create_new_stack_frame`. */
    method CreateNewStackFrame(n: nat) returns (r: Result<Frame>)
      modifies this
      ensures Matches(r, Snapshot(), NewStackFrame(old(Snapshot()), n))
    {
      if |frames| == 0 {
        return Err(Unreachable);
      }
      var stack := frames[|frames| - 1].operandStack;
      if n > |stack| {
        return Err(IndexOutOfBounds);
      }
      var variables: seq<Item> := [];
      var k := 0;
      while k < n
        invariant 0 <= k <= n
        invariant variables == stack[|stack| - k..]
      {
        variables := [stack[|stack| - 1 - k]] + variables;
        k := k + 1;
      }
      ghost var fs0 := frames;
      ghost var last := |frames| - 1;
      assert stack[..|stack|] == stack;
      assert fs0 == fs0[last := fs0[last].(operandStack := stack[..|stack|])];
      k := 0;
      while k < n
        invariant 0 <= k <= n
        invariant frames == fs0[last := fs0[last].(operandStack := stack[..|stack| - k])]
        invariant arrays == old(arrays) && objectId == old(objectId)
      {
        var top := frames[|frames| - 1];
        assert top.operandStack[..|top.operandStack| - 1] == stack[..|stack| - (k + 1)];
        frames := frames[|frames| - 1 := top.(operandStack := top.operandStack[..|top.operandStack| - 1])];
        k := k + 1;
      }
      assert Snapshot() == SetTop(old(Snapshot()), Top(old(Snapshot())).(operandStack := stack[..|stack| - n]));
      NewStackFrameSplits(old(Snapshot()), n);
      return Ok(Frame(variables, []));
    }
  }
}
