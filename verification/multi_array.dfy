/** src/context.rs, `create_multi_dimentions_array`: the nested arrays that
    `multianewarray` allocates, as a function of the array heap and of the
    id counter it grows.  Children are allocated before their parent, so a
    parent's id is larger than every id below it. */
module MultiDimensions {
  import opened Operand
  import Arrays

  type Heap = map<nat, Arrays.Array>

  /** A primitive leaf of `size` copies of the initial value pair. */
  function Filled(size: nat, init: (Item, Item)): (r: seq<(Item, Item)>)
    ensures |r| == size
    ensures forall k :: 0 <= k < size ==> r[k] == init
  {
    seq(size, _ => init)
  }

  /** The heap, the next free id and the root id after building an array of
      `size` entries at depth `index` of `counts`: past the last count a
      `Primitive` leaf, otherwise `size` children of size `counts[index]`
      one level deeper, then the parent. */
  function Build(heap: Heap, next: nat, counts: seq<nat>, index: nat, size: nat,
                 init: (Item, Item)): (r: (Heap, nat, nat))
    requires index <= |counts|
    decreases |counts| - index, 0, 0
  {
    if index == |counts| then
      (heap[next := Arrays.Primitive(Filled(size, init))], next + 1, next)
    else
      var children := BuildChildren(heap, next, counts, index + 1, counts[index], size, init);
      (children.0[children.1 := Arrays.Array(children.2)], children.1 + 1, children.1)
  }

  /** `Vec::with_capacity` panics ("capacity overflow") for more than
      `isize::MAX` bytes.  A count taken from an `i32` with `as usize` is
      either below 2^31 or, when the `i32` was negative, at least
      2^64 - 2^31; the latter are the sizes at or above this limit. */
  const CapacityLimit: nat := 0x8000_0000_0000_0000

  /** Whether building at depth `index` with `size` entries reaches a
      `with_capacity` of a wrapped size: this level's own, or, when it has
      at least one child, the level below it. */
  predicate CapacityOverflows(counts: seq<nat>, index: nat, size: nat)
    requires index <= |counts|
    decreases |counts| - index
  {
    || size >= CapacityLimit
    || (index < |counts| && size > 0 && CapacityOverflows(counts, index + 1, counts[index]))
  }

  /** The sizes of the levels `Build` visits from depth `index`: `size`
      at the top, then the counts below it. */
  function Levels(counts: seq<nat>, index: nat, size: nat): (r: seq<nat>)
    requires index <= |counts|
    ensures |r| == |counts| - index + 1 && r[0] == size
  {
    [size] + counts[index..]
  }

  /** A wrapped size is reached exactly when some level up to the first
      empty one has a wrapped size. */
  lemma {:induction false} CapacityOverflowsReached(counts: seq<nat>, index: nat, size: nat)
    requires index <= |counts|
    ensures var levels := Levels(counts, index, size);
      CapacityOverflows(counts, index, size) <==>
        exists d :: 0 <= d < |levels| && levels[d] >= CapacityLimit && forall e :: 0 <= e < d ==> levels[e] > 0
    decreases |counts| - index
  {
    var levels := Levels(counts, index, size);
    if index < |counts| {
      var below := Levels(counts, index + 1, counts[index]);
      CapacityOverflowsReached(counts, index + 1, counts[index]);
      assert levels == [size] + below;
      if CapacityOverflows(counts, index, size) {
        if size < CapacityLimit {
          var d :| 0 <= d < |below| && below[d] >= CapacityLimit && forall e :: 0 <= e < d ==> below[e] > 0;
          assert levels[d + 1] == below[d];
          assert forall e :: 0 <= e < d + 1 ==> levels[e] > 0 by {
            forall e | 0 <= e < d + 1
              ensures levels[e] > 0
            {
              if e > 0 {
                assert levels[e] == below[e - 1];
              }
            }
          }
        } else {
          assert levels[0] >= CapacityLimit;
        }
      } else {
        forall d | 0 <= d < |levels| && levels[d] >= CapacityLimit
          ensures exists e :: 0 <= e < d && levels[e] == 0
        {
          assert d > 0;
          if size > 0 {
            assert below[d - 1] == levels[d];
            var e :| 0 <= e < d - 1 && below[e] == 0;
            assert levels[e + 1] == below[e];
          } else {
            assert levels[0] == 0;
          }
        }
      }
    } else {
      assert |levels| == 1;
      if size >= CapacityLimit {
        assert levels[0] >= CapacityLimit;
      }
    }
  }

  /** The first `count` children of one parent, built one after the other. */
  function BuildChildren(heap: Heap, next: nat, counts: seq<nat>, index: nat, childSize: nat,
                         count: nat, init: (Item, Item)): (r: (Heap, nat, seq<nat>))
    requires index <= |counts|
    decreases |counts| - index, 1, count
  {
    if count == 0 then (heap, next, [])
    else
      var prev := BuildChildren(heap, next, counts, index, childSize, count - 1, init);
      var child := Build(prev.0, prev.1, counts, index, childSize, init);
      (child.0, child.1, prev.2 + [child.2])
  }

  /** The tree under `id` is what `Build` makes at depth `index` with
      `size` entries, and every child id is below its parent's. */
  ghost predicate Shaped(heap: Heap, id: nat, counts: seq<nat>, index: nat, size: nat, init: (Item, Item))
    requires index <= |counts|
    decreases |counts| - index
  {
    && id in heap
    && if index == |counts| then heap[id] == Arrays.Primitive(Filled(size, init))
       else
         && heap[id].Array?
         && |heap[id].ids| == size
         && forall j :: 0 <= j < size ==>
              heap[id].ids[j] < id && Shaped(heap, heap[id].ids[j], counts, index + 1, counts[index], init)
  }

  /** A shaped tree only looks at ids up to its root, so adding or
      changing entries above the root keeps it. */
  lemma {:induction false} ShapedStable(heap: Heap, heap2: Heap, id: nat, counts: seq<nat>, index: nat,
                                        size: nat, init: (Item, Item))
    requires index <= |counts|
    requires Shaped(heap, id, counts, index, size, init)
    requires forall k :: k <= id && k in heap ==> k in heap2 && heap2[k] == heap[k]
    ensures Shaped(heap2, id, counts, index, size, init)
    decreases |counts| - index
  {
    if index < |counts| {
      forall j | 0 <= j < size
        ensures heap2[id].ids[j] < id && Shaped(heap2, heap2[id].ids[j], counts, index + 1, counts[index], init)
      {
        var c := heap[id].ids[j];
        ShapedStable(heap, heap2, c, counts, index + 1, counts[index], init);
      }
    }
  }

  /** `Build` allocates fresh ids only, keeps every existing entry, and
      leaves a shaped tree under the returned root, which is the last id
      it allocated. */
  lemma {:induction false} BuildSpec(heap: Heap, next: nat, counts: seq<nat>, index: nat, size: nat,
                                     init: (Item, Item))
    requires index <= |counts|
    requires forall k :: k in heap ==> k < next
    ensures var r := Build(heap, next, counts, index, size, init);
      && next < r.1 && r.2 == r.1 - 1
      && (forall k :: k in r.0 ==> k < r.1)
      && (forall k :: k in heap ==> k in r.0 && r.0[k] == heap[k])
      && Shaped(r.0, r.2, counts, index, size, init)
    decreases |counts| - index, 0, 0
  {
    if index < |counts| {
      var children := BuildChildren(heap, next, counts, index + 1, counts[index], size, init);
      BuildChildrenSpec(heap, next, counts, index + 1, counts[index], size, init);
      var heap2 := children.0[children.1 := Arrays.Array(children.2)];
      forall j | 0 <= j < size
        ensures Shaped(heap2, children.2[j], counts, index + 1, counts[index], init)
      {
        ShapedStable(children.0, heap2, children.2[j], counts, index + 1, counts[index], init);
      }
    }
  }

  /** `BuildChildren` makes `count` shaped children with fresh ids. */
  lemma {:induction false} BuildChildrenSpec(heap: Heap, next: nat, counts: seq<nat>, index: nat,
                                             childSize: nat, count: nat, init: (Item, Item))
    requires index <= |counts|
    requires forall k :: k in heap ==> k < next
    ensures var r := BuildChildren(heap, next, counts, index, childSize, count, init);
      && next <= r.1
      && |r.2| == count
      && (forall k :: k in r.0 ==> k < r.1)
      && (forall k :: k in heap ==> k in r.0 && r.0[k] == heap[k])
      && (forall j :: 0 <= j < count ==> r.2[j] < r.1 && Shaped(r.0, r.2[j], counts, index, childSize, init))
    decreases |counts| - index, 1, count
  {
    if count > 0 {
      var prev := BuildChildren(heap, next, counts, index, childSize, count - 1, init);
      BuildChildrenSpec(heap, next, counts, index, childSize, count - 1, init);
      var child := Build(prev.0, prev.1, counts, index, childSize, init);
      BuildSpec(prev.0, prev.1, counts, index, childSize, init);
      var ids := prev.2 + [child.2];
      forall j | 0 <= j < count
        ensures ids[j] < child.1 && Shaped(child.0, ids[j], counts, index, childSize, init)
      {
        if j < count - 1 {
          ShapedStable(prev.0, child.0, ids[j], counts, index, childSize, init);
        }
      }
    }
  }

  /** What a Java `multianewarray` with dimension sizes `dims` creates:
      `dims[0]` entries at the top, each the array for `dims[1..]`, down to
      primitive leaves of `dims[|dims| - 1]` values. */
  ghost predicate MultiArray(heap: Heap, id: nat, dims: seq<nat>, init: (Item, Item))
    requires |dims| >= 1
    decreases |dims|
  {
    && id in heap
    && if |dims| == 1 then heap[id] == Arrays.Primitive(Filled(dims[0], init))
       else
         && heap[id].Array?
         && |heap[id].ids| == dims[0]
         && forall j :: 0 <= j < dims[0] ==> MultiArray(heap, heap[id].ids[j], dims[1..], init)
  }

  /** Started one level down, at index 1 with `counts[0]` entries, the
      builder makes exactly the requested array. */
  lemma {:induction false} ShapedFromOneIsMultiArray(heap: Heap, id: nat, counts: seq<nat>, index: nat,
                                                     init: (Item, Item))
    requires 1 <= index <= |counts|
    requires Shaped(heap, id, counts, index, counts[index - 1], init)
    ensures MultiArray(heap, id, counts[index - 1..], init)
    decreases |counts| - index
  {
    if index < |counts| {
      forall j | 0 <= j < counts[index - 1]
        ensures MultiArray(heap, heap[id].ids[j], counts[index - 1..][1..], init)
      {
        ShapedFromOneIsMultiArray(heap, heap[id].ids[j], counts, index + 1, init);
        assert counts[index - 1..][1..] == counts[index..];
      }
    }
  }

  /** A shaped tree with non-empty levels is one level deeper than the
      counts left below `index`. */
  lemma {:induction false} ShapedDepth(heap: Heap, id: nat, counts: seq<nat>, index: nat, size: nat,
                                       init: (Item, Item), dims: seq<nat>)
    requires index <= |counts| && size > 0
    requires forall k :: 0 <= k < |counts| ==> counts[k] > 0
    requires Shaped(heap, id, counts, index, size, init)
    requires |dims| >= 1 && MultiArray(heap, id, dims, init)
    ensures |dims| == |counts| - index + 1
    decreases |counts| - index
  {
    if index < |counts| {
      var c := heap[id].ids[0];
      ShapedDepth(heap, c, counts, index + 1, counts[index], init, dims[1..]);
    }
  }

  /** Started at index 0 with `counts[0]` entries, as `execute` does for
      `multianewarray`, the builder adds a level: when every count is
      positive the result is never the requested array. */
  lemma {:induction false} StartAtZeroAddsLevel(heap: Heap, id: nat, counts: seq<nat>, init: (Item, Item))
    requires |counts| >= 1
    requires forall k :: 0 <= k < |counts| ==> counts[k] > 0
    requires Shaped(heap, id, counts, 0, counts[0], init)
    ensures !MultiArray(heap, id, counts, init)
  {
    if MultiArray(heap, id, counts, init) {
      ShapedDepth(heap, id, counts, 0, counts[0], init, counts);
    }
  }
}
