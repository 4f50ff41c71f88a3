/** The result of a tool call: the handler's run and what handle_tools_call makes
    of it (src/mcp_jsonrpc.c:186-266), under any schedule of failures. */
module ToolCalls {
  import opened Json
  import opened Heap
  import opened Protocol
  import opened Replies
  import opened ToolResponses
  import ProtocolLaws

  /** The content with the error in front, if there is one. */
  function Prefixed(b: Built): Built {
    if b.isError then b.(content := [TextItem(ErrorText(b.error))] + b.content) else b
  }

  method FreeResponse(heap: Heap, resp: Response, ghost before: map<Ptr, Json>, ghost b: Built)
    requires heap.Valid() && resp.Holds(before, heap.forest, b)
    modifies heap`forest
    ensures heap.Valid() && heap.forest == before
  {
    heap.Delete(Some(resp.content));
    heap.Delete(resp.errorMsg);
  }

  /** The message to show: the handler's own unless it is missing or empty. */
  method ErrorMessage(heap: Heap, resp: Response, ghost before: map<Ptr, Json>, ghost b: Built)
    returns (message: string)
    requires resp.Holds(before, heap.forest, b)
    ensures message == ErrorText(b.error)
  {
    message := "tool error";
    if resp.errorMsg.Some? && heap.forest[resp.errorMsg.value].Str? {
      var s := heap.forest[resp.errorMsg.value].s;
      if s != "" {
        message := s;
      }
    }
  }

  /** The error item goes in front of the content. */
  method Prepend(heap: Heap, resp: Response, ghost before: map<Ptr, Json>, ghost b: Built) returns (ok: bool)
    requires heap.Valid() && resp.Holds(before, heap.forest, b) && b.isError
    modifies heap`clock, heap`failures, heap`next, heap`forest
    ensures heap.Valid() && resp.Holds(before, heap.forest, if ok then Prefixed(b) else b)
    ensures ok ==>
      var v := heap.forest[resp.content];
      v.Arr? && v.items != [] && ShowsText(v.items[0],
        if b.error.Some? && b.error.value != "" then b.error.value else "tool error")
    ensures heap.failures >= old(heap.failures) && (ok <==> heap.failures == old(heap.failures))
  {
    hide TextItem, ShowsText;
    ProtocolLaws.TextItemShows(ErrorText(b.error));
    var message := ErrorMessage(heap, resp, before, b);
    var item := MakeTextItem(heap, message);
    if item == None {
      return false;
    }
    ok := heap.AddItemToArray(Ref(resp.content, []), item.value, true);
    if !ok {
      heap.Delete(item);
    }
  }

  /** Whatever happens, the response is used up. */
  method MakeCallResult(heap: Heap, resp: Response, ghost before: map<Ptr, Json>, ghost b: Built)
    returns (r: Option<Ptr>)
    requires heap.Valid() && resp.Holds(before, heap.forest, b)
    modifies heap`clock, heap`failures, heap`next, heap`forest
    ensures heap.Valid() && Made(before, heap.forest, r, CallResult(b))
    ensures heap.failures >= old(heap.failures) && (r.Some? <==> heap.failures == old(heap.failures))
  {
    r := heap.Create(Obj([]));
    if r == None {
      FreeResponse(heap, resp, before, b);
      return None;
    }
    ghost var base := before[r.value := Obj([])];
    assert resp.Holds(base, heap.forest, b);
    var ok := true;
    if resp.isError {
      ok := Prepend(heap, resp, base, b);
    }
    if !ok {
      FreeResponse(heap, resp, base, b);
      heap.Delete(r);
      return None;
    }
    var done := Assemble(heap, resp, r.value, before, Prefixed(b));
    return if done then r else None;
  }

  /** Puts the content and the flag into the result, or frees everything. */
  method Assemble(heap: Heap, resp: Response, result: Ptr, ghost before: map<Ptr, Json>, ghost b: Built)
    returns (ok: bool)
    requires heap.Valid() && result !in before && resp.Holds(before[result := Obj([])], heap.forest, b)
    modifies heap`clock, heap`failures, heap`forest
    ensures heap.Valid() && heap.failures == old(heap.failures) + if ok then 0 else 1
    ensures ok ==> With(before, heap.forest, result,
      Obj([Field("content", Arr(b.content)), Field("isError", Bool(b.isError))]))
    ensures !ok ==> heap.forest == before
  {
    ghost var content := Field("content", Arr(b.content));
    ghost var was := heap.forest;
    ok := heap.AddItemToObject(Ref(result, []), "content", resp.content);
    if !ok {
      FreeResponse(heap, resp, before[result := Obj([])], b);
      heap.Delete(Some(result));
      return;
    }
    assert [] + [content] == [content];
    ContentJoins(before, result, resp.content, resp.errorMsg, b, was, heap.forest, Obj([content]));
    heap.Delete(resp.errorMsg);
    assert [content] + [Field("isError", Bool(b.isError))] == [content, Field("isError", Bool(b.isError))];
    ok := AddMember(heap, result, [], "isError", Bool(resp.isError), before, Obj([content]));
    if !ok {
      heap.Delete(Some(result));
    }
  }

  lemma ContentJoins(before: map<Ptr, Json>, result: Ptr, content: Ptr, e: Option<Ptr>, b: Built,
                     was: map<Ptr, Json>, now: map<Ptr, Json>, v: Json)
    requires result !in before && content !in before && content != result
    requires e.Some? ==> e.value !in before && e.value != content && e.value != result
    requires (e.Some? <==> b.error.Some?)
    requires was == WithError(before[result := Obj([])][content := Arr(b.content)], e, b.error)
    requires now == (was - {content})[result := v]
    ensures now == WithError(before[result := v], e, b.error) && now - Opt(e) == before[result := v]
  {
  }

  // ----- the run of the handler -----

  /** What the response comes to: the builder calls of `oks`, and then, for a
      handler that failed silently, a message of the dispatcher's own. */
  function BuiltWith(script: Script, oks: seq<bool>, last: bool): Built {
    var (b, rc) := RunWith(script, Built([], false, None), oks);
    if rc != 0 && !b.isError then b.(isError := true, error := if last then Some("tool handler failed") else None)
    else b
  }

  /** The result of a call some of whose builder calls ran out of memory, as a
      client reads it: the texts that were accepted, in order, and when in error in
      front of them the last set_error message, if it was copied and is not empty,
      the dispatcher's own for a handler that failed silently, or a default. */
  lemma PartialReport(script: Script, oks: seq<bool>, last: bool)
    ensures var calls, rc := Calls(script, oks), RunWith(script, Built([], false, None), oks).1;
      var failed := LastError(calls).Some? || rc != 0;
      var reason := match LastError(calls)
        case Some(Some(m)) => if m == "" then "tool error" else m
        case Some(None) => "tool error"
        case None => if last then "tool handler failed" else "tool error";
      ProtocolLaws.Reports(CallResult(BuiltWith(script, oks, last)), failed,
                           (if failed then [reason] else []) + Accepted(calls))
  {
    hide ShowsText, CallResult, RunWith, Calls, Accepted, LastError, ProtocolLaws.Reports;
    var start := Built([], false, None);
    BuiltFromCalls(script, start, oks);
    var b := RunWith(script, start, oks).0;
    assert b.content[0..] == b.content;
    ProtocolLaws.ReportOf(BuiltWith(script, oks, last), Accepted(Calls(script, oks)));
  }

  lemma BuiltWithMemory(script: Script, oks: seq<bool>)
    requires AllTrue(oks)
    ensures CallResult(BuiltWith(script, oks, true)) == CallOutcome(script)
  {
    RunWithMemory(script, Built([], false, None), oks);
  }

  /** Runs the handler on a fresh response. */
  method RunHandler(heap: Heap, resp: Response, script: Script, ghost before: map<Ptr, Json>)
    returns (ghost oks: seq<bool>, ghost last: bool)
    requires heap.Valid() && resp.Holds(before, heap.forest, Built([], false, None))
    modifies resp`isError, resp`errorMsg, heap`clock, heap`failures, heap`next, heap`forest
    ensures heap.Valid() && resp.Holds(before, heap.forest, BuiltWith(script, oks, last))
    ensures heap.failures >= old(heap.failures)
    ensures heap.failures == old(heap.failures) ==> AllTrue(oks) && last
  {
    var rc;
    rc, oks := resp.Run(heap, script, before, Built([], false, None));
    last := true;
    if rc != 0 && !resp.isError {
      last := resp.SetError(heap, "tool handler failed", before, RunWith(script, Built([], false, None), oks).0);
    }
  }
}
