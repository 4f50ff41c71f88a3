/** The allocator and the part of cJSON that the server uses, as a contract. A
    pointer that the code may free stands for a whole block or a whole detached
    tree; a tree that has been added to another is no longer in `forest`, so
    freeing it, adding it again or reading it as a tree of its own is an error
    here. Which allocations fail is decided by an arbitrary schedule. */
module Heap {
  import opened Json

  type Ptr = nat

  /** An item inside a detached tree: the root, and the child taken at each level. */
  datatype Ref = Ref(root: Ptr, path: seq<nat>)

  function Opt(p: Option<Ptr>): set<Ptr> { if p.Some? then {p.value} else {} }

  datatype Block = Text(s: string) | Slots(n: nat)

  // ----- items inside trees -----

  function Child(j: Json, i: nat): Option<Json> {
    match j
    case Arr(items) => if i < |items| then Some(items[i]) else None
    case Obj(fields) => if i < |fields| then Some(fields[i].val) else None
    case _ => None
  }

  function At(j: Json, path: seq<nat>): Option<Json> {
    if path == [] then Some(j)
    else match Child(j, path[0])
      case None => None
      case Some(c) => At(c, path[1..])
  }

  function Replace(j: Json, i: nat, v: Json): Json {
    match j
    case Arr(items) => if i < |items| then Arr(items[i := v]) else j
    case Obj(fields) => if i < |fields| then Obj(fields[i := fields[i].(val := v)]) else j
    case _ => j
  }

  /** The tree with the item at this path replaced. */
  function Put(j: Json, path: seq<nat>, v: Json): Json {
    if path == [] then v
    else match Child(j, path[0])
      case None => j
      case Some(c) => Replace(j, path[0], Put(c, path[1..], v))
  }

  /** What is put at a path is found there. */
  lemma {:induction false} AtPut(j: Json, path: seq<nat>, v: Json)
    requires At(j, path).Some?
    ensures At(Put(j, path, v), path) == Some(v)
  {
    if path != [] {
      AtPut(Child(j, path[0]).value, path[1..], v);
    }
  }

  lemma {:induction false} AtChild(j: Json, path: seq<nat>, i: nat)
    requires At(j, path).Some?
    ensures At(j, path + [i]) == Child(At(j, path).value, i)
  {
    if path == [] {
      assert path + [i] == [i] && [i][1..] == [];
    } else {
      AtChild(Child(j, path[0]).value, path[1..], i);
      assert (path + [i])[1..] == path[1..] + [i];
    }
  }

  /** A member that is added last is found one step further. */
  lemma AddedIsThere(j: Json, path: seq<nat>, fields: seq<Field>, f: Field)
    requires At(j, path).Some?
    ensures At(Put(j, path, Obj(fields + [f])), path + [|fields|]) == Some(f.val)
  {
    AtPut(j, path, Obj(fields + [f]));
    AtChild(Put(j, path, Obj(fields + [f])), path, |fields|);
  }

  lemma PutLast(fields: seq<Field>, key: string, was: Json, v: Json)
    ensures At(Obj(fields + [Field(key, was)]), [|fields|]) == Some(was)
    ensures Put(Obj(fields + [Field(key, was)]), [|fields|], v) == Obj(fields + [Field(key, v)])
  {
    var fs := fields + [Field(key, was)];
    assert fs[|fields| := Field(key, v)] == fields + [Field(key, v)];
  }

  lemma PutLastOfLast(fields: seq<Field>, key: string, inner: seq<Field>, key': string, was: Json, v: Json)
    ensures At(Obj(fields + [Field(key, Obj(inner + [Field(key', was)]))]), [|fields|, |inner|]) == Some(was)
    ensures Put(Obj(fields + [Field(key, Obj(inner + [Field(key', was)]))]), [|fields|, |inner|], v)
         == Obj(fields + [Field(key, Obj(inner + [Field(key', v)]))])
  {
    PutLast(inner, key', was, v);
    PutLast(fields, key, Obj(inner + [Field(key', was)]), Obj(inner + [Field(key', v)]));
    assert [|fields|, |inner|][1..] == [|inner|];
  }

  // ----- the heap -----

  /** The n allocating calls from number `from` on all get their memory. */
  ghost predicate Served(fails: nat -> bool, from: nat, n: nat) {
    forall k :: from <= k < from + n ==> !fails(k)
  }

  lemma ServedThen(fails: nat -> bool, from: nat, n: nat, m: nat)
    ensures Served(fails, from, n + m) <==> Served(fails, from, n) && Served(fails, from + n, m)
    ensures Served(fails, from, 0) && (Served(fails, from, 1) <==> !fails(from))
  {}

  class Heap {
    const fails: nat -> bool      // does the n-th allocating call fail?
    var clock: nat                // allocating calls so far
    ghost var failures: nat       // how many of them failed
    var next: Ptr                 // no pointer from here on has been given out
    var forest: map<Ptr, Json>    // the detached trees
    var blocks: map<Ptr, Block>   // what malloc and realloc gave out

    ghost predicate Valid()
      reads this
    {
      && (forall p :: p in forest ==> p < next)
      && (forall p :: p in blocks ==> p < next)
      && forest.Keys !! blocks.Keys
    }

    constructor (fails: nat -> bool)
      ensures Valid() && this.fails == fails && clock == failures == 0 && forest == map[] && blocks == map[]
    {
      this.fails, clock, failures, next, forest, blocks := fails, 0, 0, 0, map[], map[];
    }

    method Decide() returns (ok: bool)
      modifies this`clock, this`failures
      ensures ok == !fails(old(clock)) && clock == old(clock) + 1
      ensures failures == old(failures) + if ok then 0 else 1
    {
      ok := !fails(clock);
      clock := clock + 1;
      if !ok { failures := failures + 1; }
    }

    // ----- detached trees -----

    /** cJSON_CreateObject, CreateArray, CreateNull, CreateString, CreateNumber,
        and cJSON_Duplicate of a tree with this value. */
    method Create(v: Json) returns (r: Option<Ptr>)
      requires Valid()
      modifies this`clock, this`failures, this`next, this`forest
      ensures clock == old(clock) + 1 && (r.Some? <==> !fails(old(clock)))
      ensures Valid() && failures == old(failures) + if r.Some? then 0 else 1
      ensures r.Some? ==> r.value !in old(forest) && r.value !in blocks && forest == old(forest)[r.value := v]
      ensures r == None ==> forest == old(forest)
    {
      var ok := Decide();
      if !ok {
        return None;
      }
      r := Some(next);
      forest := forest[next := v];
      next := next + 1;
    }

    /** cJSON_Delete; NULL is allowed. */
    method Delete(r: Option<Ptr>)
      requires Valid() && (r.Some? ==> r.value in forest)
      modifies this`forest
      ensures Valid()
      ensures forest == old(forest) - Opt(r)
    {
      if r.Some? {
        forest := forest - {r.value};
      }
    }

    // ----- adding to trees -----

    ghost predicate IsObject(ref: Ref)
      reads this
    {
      ref.root in forest && At(forest[ref.root], ref.path).Some? && At(forest[ref.root], ref.path).value.Obj?
    }

    ghost predicate IsArray(ref: Ref)
      reads this
    {
      ref.root in forest && At(forest[ref.root], ref.path).Some? && At(forest[ref.root], ref.path).value.Arr?
    }

    ghost function Fields(ref: Ref): seq<Field>
      requires IsObject(ref)
      reads this
    {
      At(forest[ref.root], ref.path).value.fields
    }

    ghost function Items(ref: Ref): seq<Json>
      requires IsArray(ref)
      reads this
    {
      At(forest[ref.root], ref.path).value.items
    }

    /** cJSON_AddStringToObject and its kin: a new last member, or NULL. */
    method AddNew(ref: Ref, key: string, v: Json) returns (r: Option<Ref>)
      requires Valid() && IsObject(ref)
      modifies this`clock, this`failures, this`forest
      ensures clock == old(clock) + 1 && (r.Some? <==> !fails(old(clock)))
      ensures Valid() && failures == old(failures) + if r.Some? then 0 else 1
      ensures r.Some? ==> r.value == Ref(ref.root, ref.path + [|old(Fields(ref))|])
      ensures r.Some? ==> ref.root in forest && At(forest[ref.root], r.value.path) == Some(v)
      ensures r.Some? ==> forest == old(forest)[ref.root :=
        Put(old(forest[ref.root]), ref.path, Obj(old(Fields(ref)) + [Field(key, v)]))]
      ensures r == None ==> forest == old(forest)
    {
      var ok := Decide();
      if !ok {
        return None;
      }
      var tree := forest[ref.root];
      var fields := At(tree, ref.path).value.fields;
      forest := forest[ref.root := Put(tree, ref.path, Obj(fields + [Field(key, v)]))];
      AddedIsThere(tree, ref.path, fields, Field(key, v));
      return Some(Ref(ref.root, ref.path + [|fields|]));
    }

    /** cJSON_AddItemToObject: takes the item over, or leaves it with the caller. */
    method AddItemToObject(ref: Ref, key: string, item: Ptr) returns (ok: bool)
      requires Valid() && IsObject(ref) && item in forest && item != ref.root
      modifies this`clock, this`failures, this`forest
      ensures clock == old(clock) + 1 && ok == !fails(old(clock))
      ensures Valid() && failures == old(failures) + if ok then 0 else 1
      ensures ok ==> forest == (old(forest) - {item})[ref.root :=
        Put(old(forest[ref.root]), ref.path, Obj(old(Fields(ref)) + [Field(key, old(forest[item]))]))]
      ensures !ok ==> forest == old(forest)
    {
      ok := Decide();
      if ok {
        var tree := forest[ref.root];
        var fields := At(tree, ref.path).value.fields;
        forest := (forest - {item})[ref.root := Put(tree, ref.path, Obj(fields + [Field(key, forest[item])]))];
      }
    }

    /** cJSON_AddItemToArray, and cJSON_InsertItemInArray at index 0. */
    method AddItemToArray(ref: Ref, item: Ptr, first: bool) returns (ok: bool)
      requires Valid() && IsArray(ref) && item in forest && item != ref.root
      modifies this`clock, this`failures, this`forest
      ensures Valid() && failures == old(failures) + if ok then 0 else 1
      ensures ok ==> forest == (old(forest) - {item})[ref.root :=
        Put(old(forest[ref.root]), ref.path, Arr(
          if first then [old(forest[item])] + old(Items(ref)) else old(Items(ref)) + [old(forest[item])]))]
      ensures !ok ==> forest == old(forest)
    {
      ok := Decide();
      if ok {
        var tree := forest[ref.root];
        var items := At(tree, ref.path).value.items;
        var v := forest[item];
        var items' := if first then [v] + items else items + [v];
        forest := (forest - {item})[ref.root := Put(tree, ref.path, Arr(items'))];
      }
    }

    // ----- plain blocks -----

    method Malloc(b: Block) returns (r: Option<Ptr>)
      requires Valid()
      modifies this`clock, this`failures, this`next, this`blocks
      ensures clock == old(clock) + 1 && (r.Some? <==> !fails(old(clock)))
      ensures Valid() && failures == old(failures) + if r.Some? then 0 else 1
      ensures r.Some? ==> r.value !in old(blocks) && r.value !in forest && blocks == old(blocks)[r.value := b]
      ensures r == None ==> blocks == old(blocks)
    {
      var ok := Decide();
      if !ok {
        return None;
      }
      r := Some(next);
      blocks := blocks[next := b];
      next := next + 1;
    }

    /** free; NULL is allowed. */
    method Free(r: Option<Ptr>)
      requires Valid() && (r.Some? ==> r.value in blocks)
      modifies this`blocks
      ensures Valid()
      ensures blocks == old(blocks) - Opt(r)
    {
      if r.Some? {
        blocks := blocks - {r.value};
      }
    }

    /** realloc: on failure the old block stays. */
    method Realloc(r: Option<Ptr>, b: Block) returns (r': Option<Ptr>)
      requires Valid() && (r.Some? ==> r.value in blocks)
      modifies this`clock, this`failures, this`next, this`blocks
      ensures Valid() && failures == old(failures) + if r'.Some? then 0 else 1
      ensures r'.Some? ==> r'.value !in old(blocks) && r'.value !in forest
      ensures r'.Some? ==> blocks == (old(blocks) - Opt(r))[r'.value := b]
      ensures r' == None ==> blocks == old(blocks)
    {
      r' := Malloc(b);
      if r'.Some? {
        Free(r);
      }
    }
  }
}
