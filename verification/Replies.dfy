/** Replies as mcp_jsonrpc.c builds them, tree by tree (src/mcp_jsonrpc.c:7-76).
    Whatever the schedule of failures, a call leaves in the forest what was there
    and, if it returns a pointer, the one tree behind it. */
module Replies {
  import opened Json
  import opened Heap
  import opened Protocol

  // ----- a forest and one more tree -----

  /** `after` is `before` and, unless r is NULL, one new tree with value v. */
  ghost predicate Made(before: map<Ptr, Json>, after: map<Ptr, Json>, r: Option<Ptr>, v: Json) {
    match r
    case None => after == before
    case Some(p) => With(before, after, p, v)
  }

  ghost predicate With(before: map<Ptr, Json>, after: map<Ptr, Json>, p: Ptr, v: Json) {
    p !in before && after == before[p := v]
  }

  /** The object at this path with one member more. */
  function Grown(v: Json, path: seq<nat>, key: string, member: Json): Json
    requires At(v, path).Some? && At(v, path).value.Obj?
  {
    Put(v, path, Obj(At(v, path).value.fields + [Field(key, member)]))
  }

  /** Adding to the object that is the last member; and to the last one of that. */
  lemma GrownLast(fields: seq<Field>, key: string, inner: seq<Field>, k: string, member: Json)
    ensures var v := Obj(fields + [Field(key, Obj(inner))]);
      && At(v, [|fields|]) == Some(Obj(inner))
      && Grown(v, [|fields|], k, member) == Obj(fields + [Field(key, Obj(inner + [Field(k, member)]))])
  {
    PutLast(fields, key, Obj(inner), Obj(inner + [Field(k, member)]));
  }

  lemma GrownLastOfLast(fields: seq<Field>, key: string, mid: seq<Field>, key': string, inner: seq<Field>,
                        k: string, member: Json)
    ensures var v := Obj(fields + [Field(key, Obj(mid + [Field(key', Obj(inner))]))]);
      && At(v, [|fields|, |mid|]) == Some(Obj(inner))
      && Grown(v, [|fields|, |mid|], k, member)
         == Obj(fields + [Field(key, Obj(mid + [Field(key', Obj(inner + [Field(k, member)]))]))])
  {
    PutLastOfLast(fields, key, mid, key', Obj(inner), Obj(inner + [Field(k, member)]));
  }

  /** cJSON_AddStringToObject and the like on the one new tree; `at` is where the
      new member is, the pointer that the call returns. */
  method AddChild(heap: Heap, root: Ptr, path: seq<nat>, key: string, member: Json,
                  ghost before: map<Ptr, Json>, ghost v: Json) returns (ok: bool, at: seq<nat>)
    requires heap.Valid() && With(before, heap.forest, root, v)
    requires At(v, path).Some? && At(v, path).value.Obj?
    modifies heap`clock, heap`failures, heap`forest
    ensures heap.clock == old(heap.clock) + 1 && ok == !heap.fails(old(heap.clock))
    ensures heap.Valid() && heap.failures == old(heap.failures) + if ok then 0 else 1
    ensures With(before, heap.forest, root, if ok then Grown(v, path, key, member) else v)
    ensures ok ==> at == path + [|At(v, path).value.fields|] && At(Grown(v, path, key, member), at) == Some(member)
  {
    var r := heap.AddNew(Ref(root, path), key, member);
    ok, at := r.Some?, if r.Some? then r.value.path else [];
  }

  /** The same where the pointer is not used. */
  method AddMember(heap: Heap, root: Ptr, path: seq<nat>, key: string, member: Json,
                   ghost before: map<Ptr, Json>, ghost v: Json) returns (ok: bool)
    requires heap.Valid() && With(before, heap.forest, root, v)
    requires At(v, path).Some? && At(v, path).value.Obj?
    modifies heap`clock, heap`failures, heap`forest
    ensures heap.clock == old(heap.clock) + 1 && ok == !heap.fails(old(heap.clock))
    ensures heap.Valid() && heap.failures == old(heap.failures) + if ok then 0 else 1
    ensures With(before, heap.forest, root, if ok then Grown(v, path, key, member) else v)
  {
    var at;
    ok, at := AddChild(heap, root, path, key, member, before, v);
  }

  /** cJSON_AddItemToObject of a second tree to the one new tree. On failure the
      second tree is still there. */
  method AddTree(heap: Heap, root: Ptr, path: seq<nat>, key: string, item: Ptr,
                 ghost before: map<Ptr, Json>, ghost v: Json, ghost w: Json) returns (ok: bool)
    requires heap.Valid() && item !in before && item != root
    requires root !in before && heap.forest == before[root := v][item := w]
    requires At(v, path).Some? && At(v, path).value.Obj?
    modifies heap`clock, heap`failures, heap`forest
    ensures heap.clock == old(heap.clock) + 1 && ok == !heap.fails(old(heap.clock))
    ensures heap.Valid() && heap.failures == old(heap.failures) + if ok then 0 else 1
    ensures ok ==> With(before, heap.forest, root, Grown(v, path, key, w))
    ensures !ok ==> heap.forest == before[root := v][item := w]
  {
    ok := heap.AddItemToObject(Ref(root, path), key, item);
    if ok {
      Absorbed(before, root, v, item, w, Grown(v, path, key, w));
    }
  }

  lemma Absorbed(before: map<Ptr, Json>, root: Ptr, v: Json, item: Ptr, w: Json, v': Json)
    requires root !in before && item !in before && item != root
    ensures (before[root := v][item := w] - {item})[root := v'] == before[root := v']
  {
  }

  /** Freeing the one new tree. */
  method Discard(heap: Heap, root: Ptr, ghost before: map<Ptr, Json>, ghost v: Json)
    requires heap.Valid() && With(before, heap.forest, root, v)
    modifies heap`forest
    ensures heap.Valid() && heap.forest == before
  {
    heap.Delete(Some(root));
  }

  // ----- envelopes -----

  function EnvelopeStart(id: Option<Json>): Json {
    Obj([Field("jsonrpc", Str("2.0")), Field("id", NormalId(id))])
  }

  lemma EnvelopeIs(id: Option<Json>, payload: Field)
    ensures Envelope(id, payload) == Obj(EnvelopeStart(id).fields + [payload])
  {
  }

  /** clone_id. */
  method CloneId(heap: Heap, id: Option<Json>) returns (r: Option<Ptr>)
    requires heap.Valid()
    modifies heap`clock, heap`failures, heap`next, heap`forest
    ensures heap.Valid() && Made(old(heap.forest), heap.forest, r, NormalId(id))
    ensures r.Some? ==> IsEcho(heap.forest[r.value], id)
    ensures heap.failures == old(heap.failures) + if r.Some? then 0 else 1
  {
    if id == None || id.value.Null? {
      r := heap.Create(Null);
    } else if id.value.Str? {
      r := heap.Create(Str(id.value.s));
    } else if id.value.Num? {
      r := heap.Create(Num(id.value.n));
    } else {
      r := heap.Create(Null);
    }
  }

  /** make_envelope. */
  method MakeEnvelope(heap: Heap, id: Option<Json>) returns (r: Option<Ptr>)
    requires heap.Valid()
    modifies heap`clock, heap`failures, heap`next, heap`forest
    ensures heap.Valid() && Made(old(heap.forest), heap.forest, r, EnvelopeStart(id))
    ensures heap.failures >= old(heap.failures) && (r.Some? <==> heap.failures == old(heap.failures))
  {
    ghost var before := heap.forest;
    var env := heap.Create(Obj([]));
    if env == None {
      return None;
    }
    var ok := AddMember(heap, env.value, [], "jsonrpc", Str("2.0"), before, Obj([]));
    if !ok {
      Discard(heap, env.value, before, Obj([]));
      return None;
    }
    ghost var v := Obj([Field("jsonrpc", Str("2.0"))]);
    assert Grown(Obj([]), [], "jsonrpc", Str("2.0")) == v;
    var copy := CloneId(heap, id);
    var added := false;
    if copy.Some? {
      added := AddTree(heap, env.value, [], "id", copy.value, before, v, NormalId(id));
    }
    if !added {
      heap.Delete(copy);
      Discard(heap, env.value, before, v);
      return None;
    }
    assert Grown(v, [], "id", NormalId(id)) == EnvelopeStart(id);
    return env;
  }

  /** make_error. */
  method MakeError(heap: Heap, id: Option<Json>, code: int, message: string) returns (r: Option<Ptr>)
    requires heap.Valid()
    modifies heap`clock, heap`failures, heap`next, heap`forest
    ensures heap.Valid() && Made(old(heap.forest), heap.forest, r, ErrorReply(id, code, message))
    ensures heap.failures >= old(heap.failures) && (r.Some? <==> heap.failures == old(heap.failures))
  {
    ghost var before := heap.forest;
    r := MakeEnvelope(heap, id);
    if r == None {
      return None;
    }
    var ok := AddError(heap, r.value, id, code, message, before);
    if !ok {
      heap.Delete(r);
      return None;
    }
  }

  /** The three adds of make_error; on failure some may be there. */
  method AddError(heap: Heap, env: Ptr, id: Option<Json>, code: int, message: string, ghost before: map<Ptr, Json>)
    returns (ok: bool)
    requires heap.Valid() && With(before, heap.forest, env, EnvelopeStart(id))
    modifies heap`clock, heap`failures, heap`forest
    ensures heap.Valid() && heap.failures == old(heap.failures) + if ok then 0 else 1
    ensures ok ==> With(before, heap.forest, env, ErrorReply(id, code, message))
    ensures !ok ==> env in heap.forest && heap.forest - {env} == before
  {
    ghost var start := EnvelopeStart(id).fields;
    var err;
    ok, err := AddChild(heap, env, [], "error", Obj([]), before, Obj(start));
    if !ok { return; }
    ghost var v := Obj(start + [Field("error", Obj([]))]);
    assert Grown(Obj(start), [], "error", Obj([])) == v;
    GrownLast(start, "error", [], "code", Num(code as real));
    ok := AddMember(heap, env, err, "code", Num(code as real), before, v);
    if !ok { return; }
    ghost var inner := [Field("code", Num(code as real))];
    assert [] + inner == inner;
    GrownLast(start, "error", inner, "message", Str(message));
    ok := AddMember(heap, env, err, "message", Str(message), before, Obj(start + [Field("error", Obj(inner))]));
    assert inner + [Field("message", Str(message))] == [inner[0], Field("message", Str(message))];
    EnvelopeIs(id, Field("error", Obj([inner[0], Field("message", Str(message))])));
  }

  /** make_result takes the result over, whether it succeeds or not. */
  method MakeResult(heap: Heap, id: Option<Json>, result: Ptr, ghost before: map<Ptr, Json>, ghost w: Json)
    returns (r: Option<Ptr>)
    requires heap.Valid() && With(before, heap.forest, result, w)
    modifies heap`clock, heap`failures, heap`next, heap`forest
    ensures heap.Valid() && Made(before, heap.forest, r, ResultReply(id, w))
    ensures heap.failures >= old(heap.failures) && (r.Some? <==> heap.failures == old(heap.failures))
  {
    r := MakeEnvelope(heap, id);
    if r == None {
      heap.Delete(Some(result));
      return None;
    }
    ghost var v := EnvelopeStart(id);
    assert heap.forest == before[r.value := v][result := w];
    var ok := AddTree(heap, r.value, [], "result", result, before, v, w);
    if !ok {
      heap.Delete(Some(result));
      heap.Delete(r);
      return None;
    }
    EnvelopeIs(id, Field("result", w));
  }
}
