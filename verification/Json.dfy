/** JSON documents as Python holds them after `json.loads`: objects keep their insertion order, which
    `json.dumps` writes out and content ids therefore depend on. */
module Json {
  import opened Wrappers

  datatype Json =
    | Null
    | Bool(b: bool)
    | Num(n: int)
    | Str(s: string)
    | Arr(items: seq<Json>)
    | Obj(fields: Dict)

  datatype Field = Field(key: string, value: Json)

  type Dict = seq<Field>

  function Get(d: Dict, k: string): Option<Json> {
    if d == [] then None
    else if d[0].key == k then Some(d[0].value)
    else Get(d[1..], k)
  }

  predicate Has(d: Dict, k: string) {
    Get(d, k).Some?
  }

  /** `d[k] = v`: in place when the key is there, else at the end. */
  function Set(d: Dict, k: string, v: Json): Dict {
    if d == [] then [Field(k, v)]
    else if d[0].key == k then [Field(k, v)] + d[1..]
    else [d[0]] + Set(d[1..], k, v)
  }

  /** `d.pop(k, None)`. */
  function Del(d: Dict, k: string): Dict {
    if d == [] then []
    else if d[0].key == k then Del(d[1..], k)
    else [d[0]] + Del(d[1..], k)
  }

  lemma {:induction false} GetSet(d: Dict, k: string, v: Json, j: string)
    ensures Get(Set(d, k, v), j) == if j == k then Some(v) else Get(d, j)
  {
    if d != [] && d[0].key != k {
      GetSet(d[1..], k, v, j);
      assert Set(d, k, v)[1..] == Set(d[1..], k, v);
    } else if d != [] {
      assert Set(d, k, v)[1..] == d[1..];
    }
  }

  lemma {:induction false} GetDel(d: Dict, k: string, j: string)
    ensures Get(Del(d, k), j) == if j == k then None else Get(d, j)
  {
    if d != [] {
      GetDel(d[1..], k, j);
      if d[0].key != k {
        assert Del(d, k)[1..] == Del(d[1..], k);
      }
    }
  }

  lemma {:induction false} DelAbsent(d: Dict, k: string)
    requires !Has(d, k)
    ensures Del(d, k) == d
  {
    if d != [] {
      DelAbsent(d[1..], k);
    }
  }

  /** Adding a new key and removing it again gives back the same document, order included. */
  lemma {:induction false} DelOfSet(d: Dict, k: string, v: Json)
    requires !Has(d, k)
    ensures Del(Set(d, k, v), k) == d
  {
    if d != [] {
      DelOfSet(d[1..], k, v);
      assert Set(d, k, v)[1..] == Set(d[1..], k, v);
    }
  }

  /** How deep a recursion with this depth limit can still go. */
  function Fuel(depth: int): nat {
    if depth <= 0 then 0 else depth
  }

  /** Python truthiness. */
  predicate Truthy(j: Json) {
    match j
    case Null => false
    case Bool(b) => b
    case Num(n) => n != 0
    case Str(s) => s != []
    case Arr(items) => items != []
    case Obj(fields) => fields != []
  }
}
