/** src/array.rs: the heap of arrays, an id-allocating table, and the
    `newarray` element type codes. */
module Arrays {
  import opened Wrappers
  import opened Operand

  /** An array value.  `Primitive` holds value pairs (a long takes both
      halves, other types leave the second `Null`); `Array` holds the ids of
      sub-arrays; `Custom` holds object ids. */
  datatype Array =
    | Primitive(items: seq<(Item, Item)>)
    | Array(ids: seq<nat>)
    | Custom(refs: seq<nat>)

  /** The `atype` operand of `newarray`, section 6.5 of The Java Virtual
      Machine Specification (Java SE 8). */
  datatype PrimitiveArrayType =
    TBoolean | TChar | TFloat | TDouble | TByte | TShort | TInt | TLong

  /** The enum's declared discriminants. */
  function PrimitiveArrayTypeCode(t: PrimitiveArrayType): (r: nat)
    ensures 4 <= r <= 11
  {
    match t
    case TBoolean => 4
    case TChar => 5
    case TFloat => 6
    case TDouble => 7
    case TByte => 8
    case TShort => 9
    case TInt => 10
    case TLong => 11
  }

  /** The codes are exactly 4..11, one type per code. */
  lemma {:induction false} PrimitiveArrayTypeCodesAreAtype(code: nat)
    ensures (exists t :: PrimitiveArrayTypeCode(t) == code) <==> 4 <= code <= 11
    ensures forall t, u :: PrimitiveArrayTypeCode(t) == PrimitiveArrayTypeCode(u) ==> t == u
  {
    if 4 <= code <= 11 {
      var all := [TBoolean, TChar, TFloat, TDouble, TByte, TShort, TInt, TLong];
      assert PrimitiveArrayTypeCode(all[code - 4]) == code;
    }
  }

  class ArrayMap {
    /** The next id to hand out. */
    var id: nat
    /** The source's `map` field (`map` is a Dafny keyword). */
    var table: map<nat, Array>

    /** Every stored id was handed out before, so `Add` never overwrites. */
    ghost predicate Valid()
      reads this
    {
      forall k :: k in table ==> k < id
    }

    /** `ArrayMap::new`: counter at zero, no arrays. */
    constructor ()
      ensures Valid()
      ensures id == 0 && table == map[]
    {
      id := 0;
      table := map[];
    }

    /** `get`: `None` exactly for ids that hold no array. */
    function Get(k: nat): (r: Option<Array>)
      reads this
      ensures r.Some? <==> k in table
      ensures r.Some? ==> r.value == table[k]
    {
      if k in table then Some(table[k]) else None
    }

    /** `add`: stores the value under the pre-call counter, which it returns,
        and bumps the counter by one; every other entry is untouched. */
    method Add(value: Array) returns (r: nat)
      requires Valid()
      modifies this
      ensures Valid()
      ensures r == old(id) && id == old(id) + 1
      ensures r !in old(table) && table == old(table)[r := value]
      ensures Get(r) == Some(value)
      ensures forall k :: k != r ==> Get(k) == old(Get(k))
    {
      r := id;
      id := id + 1;
      table := table[r := value];
    }

    /** `get_mut`: a mutable borrow of the array under `k`, if any; the
        caller's write through it is the `update` function. */
    method GetMut(k: nat, update: Array -> Array) returns (found: bool)
      requires Valid()
      modifies this
      ensures Valid() && id == old(id)
      ensures found <==> k in old(table)
      ensures table == if found then old(table)[k := update(old(table)[k])] else old(table)
    {
      found := k in table;
      if found {
        table := table[k := update(table[k])];
      }
    }
  }
}
