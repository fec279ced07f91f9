/** src/object.rs: the heap of objects, an id-allocating table. */
module Objects {
  import opened Wrappers
  import opened Operand

  /** An object: its class's string-pool id, its fields keyed by
      (name id, slot) and holding a value pair, and whether `<init>` ran. */
  datatype Objectref = Objectref(
    classNameId: nat,
    fieldMap: map<(nat, nat), (Item, Item)>,
    isInitialized: bool)

  class ObjectMap {
    /** The next id to hand out. */
    var id: nat
    /** The source's `map` field (`map` is a Dafny keyword). */
    var table: map<nat, Objectref>

    /** Every stored id was handed out before, so `Add` never overwrites. */
    ghost predicate Valid()
      reads this
    {
      forall k :: k in table ==> k < id
    }

    /** `ObjectMap::new`: counter at zero, no objects. */
    constructor ()
      ensures Valid()
      ensures id == 0 && table == map[]
    {
      id := 0;
      table := map[];
    }

    /** `get`: `None` exactly for ids that hold no object. */
    function Get(k: nat): (r: Option<Objectref>)
      reads this
      ensures r.Some? <==> k in table
      ensures r.Some? ==> r.value == table[k]
    {
      if k in table then Some(table[k]) else None
    }

    /** `add`: stores the value under the pre-call counter, which it returns,
        and bumps the counter by one; every other entry is untouched. */
    method Add(value: Objectref) returns (r: nat)
      requires Valid()
      modifies this
      ensures Valid()
      ensures r == old(id) && id == old(id) + 1
      ensures r !in old(table) && table == old(table)[r := value]
      ensures Get(r) == Some(value)
      ensures forall k :: k != r ==> Get(k) == old(Get(k))
    {
      r := id;
      id := id + 1;
      table := table[r := value];
    }

    /** `get_mut`: a mutable borrow of the object under `k`, if any; the
        caller's write through it is the `update` function.  An absent id
        gives `None` and changes nothing. */
    method GetMut(k: nat, update: Objectref -> Objectref) returns (found: bool)
      requires Valid()
      modifies this
      ensures Valid() && id == old(id)
      ensures found <==> k in old(table)
      ensures table == if found then old(table)[k := update(old(table)[k])] else old(table)
    {
      found := k in table;
      if found {
        table := table[k := update(table[k])];
      }
    }
  }
}
