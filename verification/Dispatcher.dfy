/** mcp_jsonrpc.c as it runs: trees built in place, with clean-up by hand on
    every path (src/mcp_jsonrpc.c:78-327). Whatever allocations fail, a message
    leaves the forest as it was but for the reply that is returned; when none
    fails, the reply is the one that module Protocol computes. */
module Dispatcher {
  import opened Json
  import opened Heap
  import opened Protocol
  import opened ProtocolLaws
  import opened Registry
  import opened Replies
  import opened ToolCalls
  import opened ToolResponses

  /** The usual contract of a handler: the reply is `normal` or says "oom", and
      it is `normal` when no allocation failed. */
  ghost predicate Answered(before: map<Ptr, Json>, after: map<Ptr, Json>, r: Option<Ptr>,
                           id: Option<Json>, normal: Json, fine: bool) {
    match r
    case None => after == before && !fine
    case Some(p) =>
      With(before, after, p, normal) || (!fine && With(before, after, p, OomReply(id)))
  }

  method Oom(heap: Heap, id: Option<Json>) returns (r: Option<Ptr>)
    requires heap.Valid()
    modifies heap`clock, heap`failures, heap`next, heap`forest
    ensures heap.Valid() && heap.failures >= old(heap.failures)
    ensures Made(old(heap.forest), heap.forest, r, OomReply(id))
  {
    r := MakeError(heap, id, INTERNAL_ERROR, "oom");
  }

  /** The last lines of a handler: the result, or "oom" when it is NULL. */
  method Finish(heap: Heap, id: Option<Json>, result: Option<Ptr>, ghost before: map<Ptr, Json>, ghost w: Json)
    returns (r: Option<Ptr>)
    requires heap.Valid() && Made(before, heap.forest, result, w)
    modifies heap`clock, heap`failures, heap`next, heap`forest
    ensures heap.Valid() && heap.failures >= old(heap.failures)
    ensures Answered(before, heap.forest, r, id, ResultReply(id, w),
                     result.Some? && heap.failures == old(heap.failures))
    ensures result == None ==> Made(before, heap.forest, r, OomReply(id))
  {
    if result == None {
      r := Oom(heap, id);
    } else {
      r := MakeResult(heap, id, result.value, before, w);
    }
  }

  // ----- initialize and ping -----

  /** The adds of handle_initialize, in order; the first failure ends them. */
  method AddInitialize(heap: Heap, root: Ptr, name: string, version: string, ghost before: map<Ptr, Json>)
    returns (ok: bool)
    requires heap.Valid() && With(before, heap.forest, root, Obj([]))
    modifies heap`clock, heap`failures, heap`forest
    ensures ok <==> Served(heap.fails, old(heap.clock), 7)
    ensures ok ==> heap.clock == old(heap.clock) + 7
    ensures heap.Valid() && heap.failures == old(heap.failures) + if ok then 0 else 1
    ensures ok ==> With(before, heap.forest, root, InitializeResult(Server(name, version, [], false)))
    ensures !ok ==> root in heap.forest && heap.forest - {root} == before
  {
    hide Served, AllThree, InitializeResult;
    ServedSeven(heap.fails, heap.clock);
    ghost var version1 := Field("protocolVersion", Str(PROTOCOL_VERSION));
    ok := AddMember(heap, root, [], "protocolVersion", Str(PROTOCOL_VERSION), before, Obj([]));
    if !ok { return; }
    assert [] + [version1] == [version1];
    ok := AddCapabilities(heap, root, [version1], before);
    if !ok { return; }
    assert [version1] + [Capabilities()] == [version1, Capabilities()];
    ok := AddServerInfo(heap, root, [version1, Capabilities()], name, version, before);
    ghost var info := Field("serverInfo", Obj([Field("name", Str(name)), Field("version", Str(version))]));
    assert [version1, Capabilities()] + [info] == [version1, Capabilities(), info];
    InitializeIs(name, version);
  }

  lemma InitializeIs(name: string, version: string)
    ensures InitializeResult(Server(name, version, [], false)) ==
      Obj([Field("protocolVersion", Str(PROTOCOL_VERSION)), Capabilities(),
           Field("serverInfo", Obj([Field("name", Str(name)), Field("version", Str(version))]))])
  {}

  predicate AllThree(fails: nat -> bool, c: nat) { !fails(c) && !fails(c + 1) && !fails(c + 2) }

  lemma ServedSeven(fails: nat -> bool, c: nat)
    ensures Served(fails, c, 7) <==> !fails(c) && AllThree(fails, c + 1) && AllThree(fails, c + 4)
  {
    ServedThen(fails, c, 1, 6);
    ServedThen(fails, c + 1, 3, 3);
  }

  function Capabilities(): Field {
    Field("capabilities", Obj([Field("tools", Obj([Field("listChanged", Bool(false))]))]))
  }

  method AddCapabilities(heap: Heap, root: Ptr, ghost fields: seq<Field>, ghost before: map<Ptr, Json>)
    returns (ok: bool)
    requires heap.Valid() && With(before, heap.forest, root, Obj(fields)) && |fields| == 1
    modifies heap`clock, heap`failures, heap`forest
    ensures ok <==> AllThree(heap.fails, old(heap.clock))
    ensures ok ==> heap.clock == old(heap.clock) + 3
    ensures heap.Valid() && heap.failures == old(heap.failures) + if ok then 0 else 1
    ensures ok ==> With(before, heap.forest, root, Obj(fields + [Capabilities()]))
    ensures !ok ==> root in heap.forest && heap.forest - {root} == before
  {
    var caps, tools;
    ok, caps := AddChild(heap, root, [], "capabilities", Obj([]), before, Obj(fields));
    if !ok { return; }
    GrownLast(fields, "capabilities", [], "tools", Obj([]));
    ok, tools := AddChild(heap, root, caps, "tools", Obj([]), before, Obj(fields + [Field("capabilities", Obj([]))]));
    if !ok { return; }
    GrownLastOfLast(fields, "capabilities", [], "tools", [], "listChanged", Bool(false));
    ghost var v := Obj(fields + [Field("capabilities", Obj([] + [Field("tools", Obj([]))]))]);
    ok := AddMember(heap, root, tools, "listChanged", Bool(false), before, v);
    ghost var inner := [Field("listChanged", Bool(false))];
    assert [] + inner == inner;
    assert [] + [Field("tools", Obj(inner))] == [Field("tools", Obj(inner))];
  }

  method AddServerInfo(heap: Heap, root: Ptr, ghost fields: seq<Field>, name: string, version: string,
                       ghost before: map<Ptr, Json>) returns (ok: bool)
    requires heap.Valid() && With(before, heap.forest, root, Obj(fields)) && |fields| == 2
    modifies heap`clock, heap`failures, heap`forest
    ensures ok <==> AllThree(heap.fails, old(heap.clock))
    ensures ok ==> heap.clock == old(heap.clock) + 3
    ensures heap.Valid() && heap.failures == old(heap.failures) + if ok then 0 else 1
    ensures ok ==> With(before, heap.forest, root,
      Obj(fields + [Field("serverInfo", Obj([Field("name", Str(name)), Field("version", Str(version))]))]))
    ensures !ok ==> root in heap.forest && heap.forest - {root} == before
  {
    var info;
    ok, info := AddChild(heap, root, [], "serverInfo", Obj([]), before, Obj(fields));
    if !ok { return; }
    GrownLast(fields, "serverInfo", [], "name", Str(name));
    ok := AddMember(heap, root, info, "name", Str(name), before, Obj(fields + [Field("serverInfo", Obj([]))]));
    if !ok { return; }
    ghost var inner := [Field("name", Str(name))];
    assert [] + inner == inner;
    GrownLast(fields, "serverInfo", inner, "version", Str(version));
    ok := AddMember(heap, root, info, "version", Str(version), before,
                       Obj(fields + [Field("serverInfo", Obj(inner))]));
    assert inner + [Field("version", Str(version))] == [inner[0], Field("version", Str(version))];
  }

  /** handle_initialize. The flag is set exactly when the eight allocating calls
      for the result succeed. The envelope comes after them: a reply that is lost
      there leaves the server initialized. */
  method HandleInitialize(heap: Heap, srv: Registry.Server, id: Option<Json>) returns (r: Option<Ptr>)
    requires srv.Ready(heap)
    modifies srv`initialized, heap`clock, heap`failures, heap`next, heap`forest
    ensures heap.Valid() && heap.failures >= old(heap.failures)
    ensures var reply := ResultReply(id, InitializeResult(old(srv.Model(heap))));
      Answered(old(heap.forest), heap.forest, r, id, reply, heap.failures == old(heap.failures))
    ensures srv.initialized <==> old(srv.initialized) || Served(heap.fails, old(heap.clock), 8)
    ensures heap.failures == old(heap.failures) ==> srv.initialized
  {
    ghost var before := heap.forest;
    ghost var model := srv.Model(heap);
    var name, version := heap.blocks[srv.name.value].s, heap.blocks[srv.version.value].s;
    ServedThen(heap.fails, heap.clock, 1, 7);
    var result := heap.Create(Obj([]));
    if result.Some? {
      var ok := AddInitialize(heap, result.value, name, version, before);
      if ok {
        srv.initialized := true;
      } else {
        heap.Delete(result);
        result := None;
      }
    }
    assert InitializeResult(model) == InitializeResult(Server(name, version, [], false));
    r := Finish(heap, id, result, before, InitializeResult(model));
  }

  /** handle_ping. */
  method HandlePing(heap: Heap, id: Option<Json>) returns (r: Option<Ptr>)
    requires heap.Valid()
    modifies heap`clock, heap`failures, heap`next, heap`forest
    ensures heap.Valid() && heap.failures >= old(heap.failures)
    ensures Answered(old(heap.forest), heap.forest, r, id, ResultReply(id, Obj([])),
                     heap.failures == old(heap.failures))
  {
    ghost var before := heap.forest;
    var empty := heap.Create(Obj([]));
    r := Finish(heap, id, empty, before, Obj([]));
  }

  // ----- tools/list -----

  /** Adds a text member unless there is no text. */
  method AddOptional(heap: Heap, root: Ptr, key: string, value: Option<string>,
                     ghost before: map<Ptr, Json>, ghost fields: seq<Field>) returns (ok: bool)
    requires heap.Valid() && With(before, heap.forest, root, Obj(fields))
    modifies heap`clock, heap`failures, heap`forest
    ensures heap.Valid() && heap.failures == old(heap.failures) + if ok then 0 else 1
    ensures ok ==> With(before, heap.forest, root, Obj(fields + OptionalField(key, value)))
    ensures !ok ==> root in heap.forest && heap.forest - {root} == before
  {
    ok := true;
    if value.Some? {
      ok := AddMember(heap, root, [], key, Str(value.value), before, Obj(fields));
    } else {
      assert fields + [] == fields;
    }
  }

  /** The names and texts of one entry of the list. */
  method AddTexts(heap: Heap, obj: Ptr, t: Tool, ghost before: map<Ptr, Json>) returns (ok: bool)
    requires heap.Valid() && With(before, heap.forest, obj, Obj([]))
    modifies heap`clock, heap`failures, heap`forest
    ensures heap.Valid() && heap.failures == old(heap.failures) + if ok then 0 else 1
    ensures ok ==> With(before, heap.forest, obj, Obj(ListingTexts(t)))
    ensures !ok ==> obj in heap.forest && heap.forest - {obj} == before
  {
    ghost var fields := [Field("name", Str(t.name))];
    assert [] + fields == fields;
    ok := AddMember(heap, obj, [], "name", Str(t.name), before, Obj([]));
    if ok {
      ok := AddOptional(heap, obj, "title", t.title, before, fields);
    }
    if ok {
      ok := AddOptional(heap, obj, "description", t.description, before, fields + OptionalField("title", t.title));
    }
  }

  function ListingTexts(t: Tool): seq<Field> {
    [Field("name", Str(t.name))] + OptionalField("title", t.title) + OptionalField("description", t.description)
  }

  /** The object for one tool, with a copy of its schema. */
  method MakeListing(heap: Heap, t: Tool) returns (r: Option<Ptr>)
    requires heap.Valid()
    modifies heap`clock, heap`failures, heap`next, heap`forest
    ensures heap.Valid() && Made(old(heap.forest), heap.forest, r, Listing(t))
    ensures heap.failures >= old(heap.failures) && (r.Some? <==> heap.failures == old(heap.failures))
  {
    ghost var before := heap.forest;
    r := heap.Create(Obj([]));
    if r == None {
      return None;
    }
    var ok := AddTexts(heap, r.value, t, before);
    if ok {
      ok := AddSchema(heap, r.value, t, before);
    }
    if !ok {
      heap.Delete(r);
      return None;
    }
  }

  method AddSchema(heap: Heap, obj: Ptr, t: Tool, ghost before: map<Ptr, Json>) returns (ok: bool)
    requires heap.Valid() && With(before, heap.forest, obj, Obj(ListingTexts(t)))
    modifies heap`clock, heap`failures, heap`next, heap`forest
    ensures heap.Valid() && heap.failures == old(heap.failures) + if ok then 0 else 1
    ensures ok ==> With(before, heap.forest, obj, Listing(t))
    ensures !ok ==> obj in heap.forest && heap.forest - {obj} == before
  {
    var copy := heap.Create(t.schema);
    ok := false;
    if copy.Some? {
      ok := AddTree(heap, obj, [], "inputSchema", copy.value, before, Obj(ListingTexts(t)), t.schema);
    }
    if !ok {
      heap.Delete(copy);
    }
  }

  function ToolsField(items: seq<Json>): Json { Obj([Field("tools", Arr(items))]) }

  lemma ToolsArray(items: seq<Json>, more: seq<Json>)
    ensures At(ToolsField(items), [0]) == Some(Arr(items))
    ensures Put(ToolsField(items), [0], Arr(more)) == ToolsField(more)
  {
    assert [] + [Field("tools", Arr(items))] == [Field("tools", Arr(items))];
    assert [] + [Field("tools", Arr(more))] == [Field("tools", Arr(more))];
    PutLast([], "tools", Arr(items), Arr(more));
  }

  /** Makes one entry and appends it. */
  method AppendListing(heap: Heap, result: Ptr, arr: seq<nat>, t: Tool, ghost before: map<Ptr, Json>,
                       ghost items: seq<Json>) returns (ok: bool)
    requires arr == [0] && heap.Valid() && With(before, heap.forest, result, ToolsField(items))
    modifies heap`clock, heap`failures, heap`next, heap`forest
    ensures heap.Valid()
    ensures With(before, heap.forest, result, ToolsField(if ok then items + [Listing(t)] else items))
    ensures heap.failures >= old(heap.failures) && (ok <==> heap.failures == old(heap.failures))
  {
    ghost var v := ToolsField(items);
    var obj := MakeListing(heap, t);
    if obj == None {
      return false;
    }
    ToolsArray(items, items + [Listing(t)]);
    assert heap.forest == before[result := v][obj.value := Listing(t)];
    ok := heap.AddItemToArray(Ref(result, arr), obj.value, false);
    if ok {
      Absorbed(before, result, v, obj.value, Listing(t), ToolsField(items + [Listing(t)]));
    } else {
      heap.Delete(obj);
    }
  }

  /** The tool of a slot, as its pointers give it. */
  method ReadTool(heap: Heap, s: Slot, ghost was: map<Ptr, Json>) returns (t: Tool)
    requires Live(s, heap.blocks, was) && s.schema.value in heap.forest
    requires heap.forest[s.schema.value] == was[s.schema.value]
    ensures t == ToolAt(s, heap.blocks, was)
  {
    var title := if s.title.Some? then Some(heap.blocks[s.title.value].s) else None;
    var description := if s.description.Some? then Some(heap.blocks[s.description.value].s) else None;
    t := Tool(heap.blocks[s.name.value].s, title, description, heap.forest[s.schema.value], s.handler);
  }

  /** The result of tools/list: one entry for each tool, in order. */
  method MakeList(heap: Heap, srv: Registry.Server) returns (r: Option<Ptr>)
    requires srv.Ready(heap)
    modifies heap`clock, heap`failures, heap`next, heap`forest
    ensures heap.Valid() && heap.failures >= old(heap.failures)
    ensures Made(old(heap.forest), heap.forest, r, ToolsField(Listings(old(srv.View(heap)))))
    ensures r.Some? <==> heap.failures == old(heap.failures)
  {
    hide Separate, AllLive, BlocksOf, TreesOf, Live, Tools, ToolAt, Listing;
    ghost var before := heap.forest;
    r := heap.Create(Obj([]));
    if r == None {
      return None;
    }
    var ok, arr := AddChild(heap, r.value, [], "tools", Arr([]), before, Obj([]));
    if ok {
      assert [] + [Field("tools", Arr([]))] == [Field("tools", Arr([]))];
      ok := AppendAll(heap, srv, r.value, arr, before);
    }
    if !ok {
      heap.Delete(r);
      return None;
    }
  }

  /** The loop over the tools. */
  method AppendAll(heap: Heap, srv: Registry.Server, result: Ptr, arr: seq<nat>, ghost before: map<Ptr, Json>)
    returns (ok: bool)
    requires arr == [0] && heap.Valid() && srv.Shaped() && Sound(srv.Mem(), heap.blocks, before)
    requires With(before, heap.forest, result, ToolsField([]))
    modifies heap`clock, heap`failures, heap`next, heap`forest
    ensures heap.Valid()
    ensures ok ==> With(before, heap.forest, result, ToolsField(Listings(Tools(srv.used, heap.blocks, before))))
    ensures !ok ==> result in heap.forest && heap.forest - {result} == before
    ensures heap.failures >= old(heap.failures) && (ok <==> heap.failures == old(heap.failures))
  {
    hide Separate, BlocksOf, TreesOf, Listing;
    ghost var all := Listings(Tools(srv.used, heap.blocks, before));
    var i := 0;
    while i < srv.count
      invariant 0 <= i <= srv.count && heap.Valid() && heap.failures == old(heap.failures)
      invariant With(before, heap.forest, result, ToolsField(all[..i]))
    {
      assert Live(srv.used[i], heap.blocks, before);
      var t := ReadTool(heap, srv.slots[i], before);
      assert all[..i + 1] == all[..i] + [Listing(t)];
      ok := AppendListing(heap, result, arr, t, before, all[..i]);
      if !ok {
        return false;
      }
      i := i + 1;
    }
    assert all[..i] == all;
    return true;
  }

  /** handle_tools_list. */
  method HandleToolsList(heap: Heap, srv: Registry.Server, id: Option<Json>) returns (r: Option<Ptr>)
    requires srv.Ready(heap)
    modifies heap`clock, heap`failures, heap`next, heap`forest
    ensures heap.Valid() && heap.failures >= old(heap.failures)
    ensures var reply := ResultReply(id, ToolsField(Listings(old(srv.View(heap)))));
      Answered(old(heap.forest), heap.forest, r, id, reply, heap.failures == old(heap.failures))
  {
    ghost var before := heap.forest;
    ghost var w := ToolsField(Listings(srv.View(heap)));
    var list := MakeList(heap, srv);
    r := Finish(heap, id, list, before, w);
  }

  // ----- tools/call -----

  /** Runs tool i and reports. `argsEmpty` is the empty object that stands in for
      missing arguments, freed when the handler is done. */
  method CallTool(heap: Heap, handler: Json -> Script, id: Option<Json>, argsEmpty: Option<Ptr>, args: Json,
                  ghost before: map<Ptr, Json>)
    returns (r: Option<Ptr>, ghost ran: bool, ghost oks: seq<bool>, ghost last: bool)
    requires heap.Valid() && Made(before, heap.forest, argsEmpty, Obj([]))
    modifies heap`clock, heap`failures, heap`next, heap`forest
    ensures heap.Valid() && heap.failures >= old(heap.failures)
    ensures var reply := ResultReply(id, CallResult(BuiltWith(handler(args), oks, last)));
      Answered(before, heap.forest, r, id, reply, heap.failures == old(heap.failures))
    ensures heap.failures == old(heap.failures) ==> ran && AllTrue(oks) && last
  {
    hide BuiltWith, CallResult, ResultReply, ErrorReply;
    ran, oks, last := false, [], true;
    ghost var base := heap.forest;
    var content := heap.Create(Arr([]));
    if content == None {
      heap.Delete(argsEmpty);
      r := Oom(heap, id);
      return;
    }
    var resp := new Response(content.value);
    var script := handler(args);
    ran := true;
    oks, last := RunHandler(heap, resp, script, base);
    ghost var b := BuiltWith(script, oks, last);
    ArgumentsGo(before, base, argsEmpty, resp.content, resp.errorMsg, b);
    heap.Delete(argsEmpty);
    assert resp.Holds(before, heap.forest, b);
    var result := MakeCallResult(heap, resp, before, b);
    r := Finish(heap, id, result, before, CallResult(b));
  }

  lemma ArgumentsGo(before: map<Ptr, Json>, base: map<Ptr, Json>, p: Option<Ptr>,
                    content: Ptr, e: Option<Ptr>, b: Built)
    requires Made(before, base, p, Obj([])) && content !in base && (e.Some? ==> e.value !in base && e.value != content)
    ensures WithError(base[content := Arr(b.content)], e, b.error) - Opt(p)
         == WithError(before[content := Arr(b.content)], e, b.error)
    ensures content !in before && (e.Some? ==> e.value !in before)
    ensures p.Some? ==> p.value in WithError(base[content := Arr(b.content)], e, b.error)
  {
  }

  // ----- the replies that are possible -----

  /** What may be replied when the whole of the memory would give `out`: that, or
      "oom", or the result of a call some of whose builder calls failed. */
  ghost predicate MayReply(srv: Protocol.Server, id: Option<Json>, out: Outcome, reply: Json) {
    || out.reply == Some(reply)
    || (out.reply.Some? && reply == OomReply(id))
    || (out.ran.Some? && out.ran.value.tool < |srv.tools|
        && PartialCall(srv.tools[out.ran.value.tool].handler(out.ran.value.args), id, reply))
  }

  ghost predicate PartialCall(script: Script, id: Option<Json>, reply: Json) {
    exists oks, last :: reply == ResultReply(id, CallResult(BuiltWith(script, oks, last)))
  }

  /** At the end of a message the forest is what it was and the reply, if any. */
  ghost predicate Settled(before: map<Ptr, Json>, after: map<Ptr, Json>, r: Option<Ptr>,
                          srv: Protocol.Server, id: Option<Json>, out: Outcome, fine: bool) {
    match r
    case None => after == before && (fine ==> out.reply == None)
    case Some(p) =>
      && p !in before && p in after && after == before[p := after[p]]
      && MayReply(srv, id, out, after[p]) && (fine ==> out.reply == Some(after[p]))
  }

  lemma SettledByAnswer(before: map<Ptr, Json>, after: map<Ptr, Json>, r: Option<Ptr>,
                        srv: Protocol.Server, id: Option<Json>, out: Outcome, normal: Json, fine: bool)
    requires Answered(before, after, r, id, normal, fine) && out.reply == Some(normal)
    ensures Settled(before, after, r, srv, id, out, fine)
  {
  }

  lemma SettledByError(before: map<Ptr, Json>, after: map<Ptr, Json>, r: Option<Ptr>,
                       srv: Protocol.Server, id: Option<Json>, out: Outcome, normal: Json, fine: bool)
    requires Made(before, after, r, normal) && (r.Some? <==> fine) && out.reply == Some(normal)
    ensures Settled(before, after, r, srv, id, out, fine)
  {
  }

  lemma SettledByCall(before: map<Ptr, Json>, after: map<Ptr, Json>, r: Option<Ptr>,
                      srv: Protocol.Server, id: Option<Json>, i: nat, args: Json,
                      oks: seq<bool>, last: bool, fine: bool)
    requires i < |srv.tools|
    requires var reply := ResultReply(id, CallResult(BuiltWith(srv.tools[i].handler(args), oks, last)));
      Answered(before, after, r, id, reply, fine)
    requires fine ==> AllTrue(oks) && last
    ensures Settled(before, after, r, srv, id, RunTool(srv, id, i, args), fine)
  {
    var script := srv.tools[i].handler(args);
    if fine { BuiltWithMemory(script, oks); }
    assert PartialCall(script, id, ResultReply(id, CallResult(BuiltWith(script, oks, last))));
  }

  /** handle_tools_call. */
  method HandleToolsCall(heap: Heap, srv: Registry.Server, id: Option<Json>, params: Option<Json>)
    returns (r: Option<Ptr>, ghost ran: Option<Invocation>)
    requires srv.Ready(heap)
    modifies heap`clock, heap`failures, heap`next, heap`forest
    ensures heap.Valid() && heap.failures >= old(heap.failures)
    ensures var model := old(srv.Model(heap));
      var out := HandleCall(model, id, params);
      var fine := heap.failures == old(heap.failures);
      && Settled(old(heap.forest), heap.forest, r, model, id, out, fine)
      && (ran.Some? ==> ran == out.ran) && (fine ==> ran == out.ran)
  {
    hide Separate, AllLive, BlocksOf, TreesOf, Live, CallResult, MayReply, ErrorReply, ResultReply;
    ghost var before, model := heap.forest, srv.Model(heap);
    ghost var out := HandleCall(model, id, params);
    ran := None;
    if params == None || !params.value.Obj? {
      r := Refuse(heap, id, INVALID_PARAMS, "params must be an object", model, out);
      return;
    }
    var fields := params.value.fields;
    var jname := Get(fields, "name");
    if jname == None || !jname.value.Str? {
      r := Refuse(heap, id, INVALID_PARAMS, "params.name must be a string", model, out);
      return;
    }
    var found := srv.FindTool(heap, jname.value.s);
    if found == None {
      r := Refuse(heap, id, METHOD_NOT_FOUND, "unknown tool", model, out);
      return;
    }
    var args := Get(fields, "arguments");
    if args.Some? && !args.value.Obj? {
      r := Refuse(heap, id, INVALID_PARAMS, "params.arguments must be an object", model, out);
      return;
    }
    r, ran := CallFound(heap, srv, id, found.value, args, model);
  }

  /** make_error, where that is what the whole message comes to. */
  method Refuse(heap: Heap, id: Option<Json>, code: int, message: string,
                ghost model: Protocol.Server, ghost out: Outcome) returns (r: Option<Ptr>)
    requires heap.Valid() && out.reply == Some(ErrorReply(id, code, message))
    modifies heap`clock, heap`failures, heap`next, heap`forest
    ensures heap.Valid() && heap.failures >= old(heap.failures)
    ensures Settled(old(heap.forest), heap.forest, r, model, id, out, heap.failures == old(heap.failures))
  {
    r := MakeError(heap, id, code, message);
    SettledByError(old(heap.forest), heap.forest, r, model, id, out, ErrorReply(id, code, message),
                   heap.failures == old(heap.failures));
  }

  /** The rest of handle_tools_call, once the tool is found. */
  method CallFound(heap: Heap, srv: Registry.Server, id: Option<Json>, i: nat, args: Option<Json>,
                   ghost model: Protocol.Server) returns (r: Option<Ptr>, ghost ran: Option<Invocation>)
    requires srv.Ready(heap) && model == srv.Model(heap) && i < srv.count
    requires args.Some? ==> args.value.Obj?
    modifies heap`clock, heap`failures, heap`next, heap`forest
    ensures heap.Valid() && heap.failures >= old(heap.failures)
    ensures var value := if args.Some? then args.value else Obj([]);
      var fine := heap.failures == old(heap.failures);
      && Settled(old(heap.forest), heap.forest, r, model, id, RunTool(model, id, i, value), fine)
      && (ran.Some? ==> ran == Some(Invocation(i, value))) && (fine ==> ran.Some?)
  {
    hide Separate, AllLive, BlocksOf, TreesOf, Live, CallResult, MayReply, ErrorReply, ResultReply;
    ghost var before := heap.forest;
    var value, argsEmpty := Obj([]), None;
    if args == None {
      argsEmpty := heap.Create(Obj([]));
      if argsEmpty == None {
        r := Oom(heap, id);
        SettledByOom(before, heap.forest, r, model, id, RunTool(model, id, i, value));
        return r, None;
      }
    } else {
      value := args.value;
    }
    ghost var called, oks, last;
    r, called, oks, last := CallTool(heap, srv.slots[i].handler, id, argsEmpty, value, before);
    SettledByCall(before, heap.forest, r, model, id, i, value, oks, last, heap.failures == old(heap.failures));
    ran := if called then Some(Invocation(i, value)) else None;
  }

  lemma SettledByOom(before: map<Ptr, Json>, after: map<Ptr, Json>, r: Option<Ptr>,
                     srv: Protocol.Server, id: Option<Json>, out: Outcome)
    requires Made(before, after, r, OomReply(id)) && out.reply.Some?
    ensures Settled(before, after, r, srv, id, out, false)
  {
  }

  // ----- mcp_handle_message -----

  /** mcp_handle_message, for every schedule of failing allocations: the forest
      changes by the reply and nothing else, a handler runs only where the
      specification says so, and `initialized` is set by initialize alone and
      never reset. With no failure during the call, reply, state and handler run
      are those of Protocol.Handle. The message itself stays the caller's. */
  method HandleMessage(heap: Heap, srv: Registry.Server, msg: Json)
    returns (r: Option<Ptr>, ghost ran: Option<Invocation>)
    requires srv.Ready(heap)
    modifies srv`initialized, heap`clock, heap`failures, heap`next, heap`forest
    ensures srv.Ready(heap) && heap.failures >= old(heap.failures)
    ensures srv.Model(heap) == old(srv.Model(heap)).(initialized := srv.initialized)
    ensures old(srv.initialized) ==> srv.initialized
    ensures srv.initialized && !old(srv.initialized) ==> IsInitializeRequest(msg)
    ensures var model := old(srv.Model(heap));
      var out := Handle(model, msg);
      var fine := heap.failures == old(heap.failures);
      && Settled(old(heap.forest), heap.forest, r, model, RequestId(msg), out, fine)
      && (ran.Some? ==> ran == out.ran)
      && (fine ==> ran == out.ran && srv.Model(heap) == out.server)
  {
    hide Sound, AllLive, BlocksOf, TreesOf, Tools, MayReply, InitializeResult, HandleCall, ErrorReply, ResultReply;
    ghost var before, model := heap.forest, srv.Model(heap);
    ghost var out := Handle(model, msg);
    ran := None;
    if !msg.Obj? {
      r := Refuse(heap, None, INVALID_REQUEST, "message must be an object", model, out);
    } else {
      var jrpc := Get(msg.fields, "jsonrpc");
      var name := Get(msg.fields, "method");
      var id := Get(msg.fields, "id");
      if jrpc == None || !jrpc.value.Str? || jrpc.value.s != "2.0" {
        r := Refuse(heap, id, INVALID_REQUEST, "jsonrpc must be \"2.0\"", model, out);
      } else if name == None || !name.value.Str? {
        r := Refuse(heap, id, INVALID_REQUEST, "method must be a string", model, out);
      } else if id == None {
        r := None;
      } else {
        r, ran := HandleRequestIn(heap, srv, id, name.value.s, Get(msg.fields, "params"), model);
      }
    }
    StillSound(srv.Mem(), heap.blocks, before, heap.forest, r);
  }

  /** A request: initialize and ping always, the rest once initialized. */
  method HandleRequestIn(heap: Heap, srv: Registry.Server, id: Option<Json>, name: string, params: Option<Json>,
                         ghost model: Protocol.Server) returns (r: Option<Ptr>, ghost ran: Option<Invocation>)
    requires srv.Ready(heap) && model == srv.Model(heap)
    modifies srv`initialized, heap`clock, heap`failures, heap`next, heap`forest
    ensures heap.Valid() && heap.failures >= old(heap.failures)
    ensures old(srv.initialized) ==> srv.initialized
    ensures srv.initialized && !old(srv.initialized) ==> name == "initialize"
    ensures var out := HandleRequest(model, id, name, params);
      var fine := heap.failures == old(heap.failures);
      && Settled(old(heap.forest), heap.forest, r, model, id, out, fine)
      && (ran.Some? ==> ran == out.ran)
      && (fine ==> ran == out.ran && out.server == model.(initialized := srv.initialized))
  {
    hide Separate, AllLive, BlocksOf, TreesOf, Live, Tools, MayReply, InitializeResult, HandleCall, Listings;
    hide ErrorReply, ResultReply;
    ghost var before, failures := heap.forest, heap.failures;
    ghost var out := HandleRequest(model, id, name, params);
    ran := None;
    if name == "initialize" {
      r := HandleInitialize(heap, srv, id);
      SettledByAnswer(before, heap.forest, r, model, id, out, ResultReply(id, InitializeResult(model)),
                      heap.failures == failures);
    } else if name == "ping" {
      r := HandlePing(heap, id);
      SettledByAnswer(before, heap.forest, r, model, id, out, ResultReply(id, Obj([])), heap.failures == failures);
    } else if !srv.initialized {
      r := Refuse(heap, id, INVALID_REQUEST, "server not initialized", model, out);
    } else if name == "tools/list" {
      r := HandleToolsList(heap, srv, id);
      SettledByAnswer(before, heap.forest, r, model, id, out, ResultReply(id, ToolsField(Listings(model.tools))),
                      heap.failures == failures);
    } else if name == "tools/call" {
      r, ran := HandleToolsCall(heap, srv, id, params);
      CallKeepsServer(model, id, params);
    } else {
      r := Refuse(heap, id, METHOD_NOT_FOUND, name, model, out);
    }
  }

  lemma CallKeepsServer(srv: Protocol.Server, id: Option<Json>, params: Option<Json>)
    ensures HandleCall(srv, id, params).server == srv
  {
    CallRuns(srv, id, params);
  }

  /** A reply in the forest does not disturb the server. */
  lemma StillSound(m: Memory, blocks: map<Ptr, Block>, before: map<Ptr, Json>, after: map<Ptr, Json>, r: Option<Ptr>)
    requires Sound(m, blocks, before)
    requires after == before || (r.Some? && r.value !in before && r.value in after
                                 && after == before[r.value := after[r.value]])
    ensures Sound(m, blocks, after) && Tools(m.used, blocks, after) == Tools(m.used, blocks, before)
  {
    if after != before {
      Come(m, blocks, before, after, r.value, after[r.value]);
    }
  }

  /** What one call of HandleMessage may come to, under any failures. */
  ghost predicate MayHandle(srv: Protocol.Server, msg: Json, out: Outcome) {
    && out.server == srv.(initialized := out.server.initialized)
    && (srv.initialized ==> out.server.initialized)
    && (out.server.initialized && !srv.initialized ==> IsInitializeRequest(msg))
    && (out.ran.Some? ==> out.ran == Handle(srv, msg).ran)
    && (out.reply.Some? ==> MayReply(srv, RequestId(msg), Handle(srv, msg), out.reply.value))
  }

  /** Whatever is replied, with or without memory, is a response object for the
      request's id; and a notification is never replied to. */
  lemma EveryReplyConforms(srv: Protocol.Server, msg: Json, reply: Json)
    requires MayReply(srv, RequestId(msg), Handle(srv, msg), reply)
    ensures Conforms(reply, RequestId(msg)) && !IsNotification(msg)
  {
    var id, out := RequestId(msg), Handle(srv, msg);
    ExactlyOneAnswer(srv, msg);
    ErrorConforms(id, INTERNAL_ERROR, "oom");
    if out.reply != Some(reply) && reply != OomReply(id) {
      var script := srv.tools[out.ran.value.tool].handler(out.ran.value.args);
      var oks, last :| reply == ResultReply(id, CallResult(BuiltWith(script, oks, last)));
      ResultConforms(id, CallResult(BuiltWith(script, oks, last)));
    }
  }

  /** Whatever memory runs out, a reply shows the request's own id, when that is a
      string or a number, and null otherwise. */
  lemma ReplyShowsId(srv: Protocol.Server, msg: Json, reply: Json)
    requires MayReply(srv, RequestId(msg), Handle(srv, msg), reply)
    ensures reply.Obj?
    ensures var id := RequestId(msg);
      Get(reply.fields, "id") == if id.Some? && (id.value.Str? || id.value.Num?) then id else Some(Null)
  {
    hide MayReply, Handle;
    EveryReplyConforms(srv, msg, reply);
  }

  /** So a client that gives its requests different strings or numbers as ids can
      tell all their replies apart. */
  lemma DifferentIdsDifferentReplies(srv: Protocol.Server, msg: Json, reply: Json,
                                     srv': Protocol.Server, msg': Json, reply': Json)
    requires MayReply(srv, RequestId(msg), Handle(srv, msg), reply)
    requires MayReply(srv', RequestId(msg'), Handle(srv', msg'), reply')
    requires RequestId(msg) != RequestId(msg')
    requires RequestId(msg).Some? && (RequestId(msg).value.Str? || RequestId(msg).value.Num?)
    ensures reply.Obj? && reply'.Obj? && Get(reply.fields, "id") != Get(reply'.fields, "id")
  {
    hide MayReply, Handle;
    ReplyShowsId(srv, msg, reply);
    ReplyShowsId(srv', msg', reply');
  }

  /** The reply to a call whose handler ran, whatever memory runs out: "oom", or
      what a client reads of the texts that were accepted and the reason. */
  lemma CallReplyShows(srv: Protocol.Server, msg: Json, reply: Json)
    requires MayReply(srv, RequestId(msg), Handle(srv, msg), reply) && Handle(srv, msg).ran.Some?
    ensures reply != OomReply(RequestId(msg)) ==>
      exists oks, last :: ShowsCall(srv, Handle(srv, msg).ran.value, reply, oks, last)
  {
    var id, out := RequestId(msg), Handle(srv, msg);
    HandleFrame(srv, msg);
    var inv := out.ran.value;
    var script := srv.tools[inv.tool].handler(inv.args);
    RanReplies(srv, msg);
    hide Handle, CallResult;
    if reply != OomReply(id) {
      if out.reply == Some(reply) {
        BuiltWithMemory(script, []);
        ShowsPartialCall(srv, inv, id, reply, [], true);
      } else {
        var oks, last :| reply == ResultReply(id, CallResult(BuiltWith(script, oks, last)));
        ShowsPartialCall(srv, inv, id, reply, oks, last);
      }
    }
  }

  lemma RanReplies(srv: Protocol.Server, msg: Json)
    requires Handle(srv, msg).ran.Some?
    ensures var inv := Handle(srv, msg).ran.value;
      && inv.tool < |srv.tools|
      && Handle(srv, msg).reply == Some(ResultReply(RequestId(msg), CallOutcome(srv.tools[inv.tool].handler(inv.args))))
  {
    HandleFrame(srv, msg);
    CallRuns(srv, RequestId(msg), Get(msg.fields, "params"));
  }

  /** The result in this reply reports these calls of the handler that ran. */
  ghost predicate ShowsCall(srv: Protocol.Server, inv: Invocation, reply: Json, oks: seq<bool>, last: bool) {
    && inv.tool < |srv.tools| && reply.Obj? && Get(reply.fields, "result").Some?
    && var script := srv.tools[inv.tool].handler(inv.args);
    var calls, rc := Calls(script, oks), RunWith(script, Built([], false, None), oks).1;
    var failed := LastError(calls).Some? || rc != 0;
    var reason := match LastError(calls)
      case Some(Some(m)) => if m == "" then "tool error" else m
      case Some(None) => "tool error"
      case None => if last then "tool handler failed" else "tool error";
    Reports(Get(reply.fields, "result").value, failed, (if failed then [reason] else []) + Accepted(calls))
  }

  lemma ShowsPartialCall(srv: Protocol.Server, inv: Invocation, id: Option<Json>, reply: Json, oks: seq<bool>,
                         last: bool)
    requires inv.tool < |srv.tools|
    requires reply == ResultReply(id, CallResult(BuiltWith(srv.tools[inv.tool].handler(inv.args), oks, last)))
    ensures ShowsCall(srv, inv, reply, oks, last)
  {
    hide Reports, CallResult, BuiltWith, Conforms;
    PartialReport(srv.tools[inv.tool].handler(inv.args), oks, last);
    ResultConforms(id, CallResult(BuiltWith(srv.tools[inv.tool].handler(inv.args), oks, last)));
  }
}
