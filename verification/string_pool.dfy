/** src/string_pool.rs: string interning with a counter and two maps. */
module StringPools {
  import opened Wrappers

  class StringPool {
    /** The next id to hand out. */
    var id: nat
    var keyValueMap: map<nat, string>
    var valueKeyMap: map<string, nat>

    /** The two maps are mutual inverses and every id handed out is below
        the counter. */
    ghost predicate Valid()
      reads this
    {
      && (forall k :: k in keyValueMap ==>
            k < id && keyValueMap[k] in valueKeyMap && valueKeyMap[keyValueMap[k]] == k)
      && (forall v :: v in valueKeyMap ==>
            valueKeyMap[v] in keyValueMap && keyValueMap[valueKeyMap[v]] == v)
    }

    /** `StringPool::new`: counter at zero, both maps empty. */
    constructor ()
      ensures Valid()
      ensures id == 0 && keyValueMap == map[] && valueKeyMap == map[]
    {
      id := 0;
      keyValueMap := map[];
      valueKeyMap := map[];
    }

    /** `insert`: a value already interned keeps its id and nothing changes;
        a new value gets the pre-call counter, which goes up by one. */
    method Insert(value: string) returns (r: nat)
      requires Valid()
      modifies this
      ensures Valid()
      ensures value in old(valueKeyMap) ==>
        r == old(valueKeyMap)[value] && id == old(id)
        && keyValueMap == old(keyValueMap) && valueKeyMap == old(valueKeyMap)
      ensures value !in old(valueKeyMap) ==>
        r == old(id) && id == old(id) + 1
        && keyValueMap == old(keyValueMap)[r := value]
        && valueKeyMap == old(valueKeyMap)[value := r]
      ensures value in valueKeyMap && valueKeyMap[value] == r
      ensures r in keyValueMap && keyValueMap[r] == value
    {
      if value in valueKeyMap {
        return valueKeyMap[value];
      }
      r := id;
      id := id + 1;
      valueKeyMap := valueKeyMap[value := r];
      keyValueMap := keyValueMap[r := value];
    }

    /** `get_value`: the string under `k`; an absent id fails the `expect`. */
    function GetValue(k: nat): (r: Result<string>)
      reads this
      ensures r.Ok? <==> k in keyValueMap
      ensures r.Ok? ==> r.value == keyValueMap[k]
    {
      if k in keyValueMap then Ok(keyValueMap[k]) else Err(Unreachable)
    }
  }

  /** `get_value(insert(v)) == v`, for any pool and any string. */
  method InsertThenGetValue(pool: StringPool, value: string) returns (back: Result<string>)
    requires pool.Valid()
    modifies pool
    ensures pool.Valid()
    ensures back == Ok(value)
  {
    var k := pool.Insert(value);
    back := pool.GetValue(k);
  }
}
