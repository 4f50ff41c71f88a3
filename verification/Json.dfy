/** JSON values as the dispatcher sees them. A number keeps the value of its
    double; an object keeps its members in order and may repeat a key, the
    first one being the one that lookup finds. */
module Json {

  datatype Option<+T> = None | Some(value: T)

  datatype Json =
    | Null
    | Bool(b: bool)
    | Num(n: real)
    | Str(s: string)
    | Arr(items: seq<Json>)
    | Obj(fields: seq<Field>)

  datatype Field = Field(key: string, val: Json)

  /** Case-sensitive lookup: the first member with this key. */
  function Get(fields: seq<Field>, key: string): Option<Json> {
    if fields == [] then None
    else if fields[0].key == key then Some(fields[0].val)
    else Get(fields[1..], key)
  }

  /** How many members carry this key. */
  function Occurrences(fields: seq<Field>, key: string): nat {
    if fields == [] then 0
    else (if fields[0].key == key then 1 else 0) + Occurrences(fields[1..], key)
  }
}
