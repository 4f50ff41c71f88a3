/** What a client finds on stdout when allocations and writes may fail. */
module StdioLaws {
  import opened Json
  import opened CStrings
  import opened Heap
  import opened Protocol
  import opened ProtocolLaws
  import opened Stdio
  import Dispatcher
  import Registry

  // ----- the lines that come in -----

  /** Trimming takes off the CRs and LFs at the end, all of them and nothing else. */
  lemma {:induction false} TrimTakesLineEnds(s: string)
    ensures var t := Trim(s);
      && t <= s && (t == "" || (t[|t| - 1] != '\r' && t[|t| - 1] != '\n'))
      && forall i :: |t| <= i < |s| ==> s[i] == '\r' || s[i] == '\n'
    decreases |s|
  {
    if s != "" && (s[|s| - 1] == '\n' || s[|s| - 1] == '\r') {
      var init := s[..|s| - 1];
      TrimTakesLineEnds(init);
      assert forall i :: 0 <= i < |init| ==> init[i] == s[i];
    }
  }

  function Joined(lines: seq<string>): string { if lines == [] then "" else lines[0] + Joined(lines[1..]) }

  /** The lines are the whole input, cut behind every newline and nowhere else. */
  lemma {:induction false} LinesAreTheInput(s: string)
    ensures var lines := InputLines(s);
      && Joined(lines) == s
      && (forall k :: 0 <= k < |lines| ==> lines[k] != "" && '\n' !in lines[k][..|lines[k]| - 1])
      && forall k :: 0 <= k < |lines| - 1 ==> lines[k][|lines[k]| - 1] == '\n'
    decreases |s|
  {
    if s != "" {
      var n := LineLength(s);
      var line, rest := s[..n], s[n..];
      LinesAreTheInput(rest);
      FirstOfInput(s);
      var lines := InputLines(s);
      assert lines == [line] + InputLines(rest) && lines[1..] == InputLines(rest);
      forall k | 0 <= k < |lines|
        ensures lines[k] != "" && '\n' !in lines[k][..|lines[k]| - 1]
        ensures k < |lines| - 1 ==> lines[k][|lines[k]| - 1] == '\n'
      {
        if k > 0 { assert lines[k] == InputLines(rest)[k - 1]; }
      }
    }
  }

  lemma FirstOfInput(s: string)
    requires s != ""
    ensures var line := s[..LineLength(s)];
      && line != "" && '\n' !in line[..|line| - 1]
      && (s[LineLength(s)..] != "" ==> line[|line| - 1] == '\n')
      && line + s[LineLength(s)..] == s
  {
    var n := IndexOf(s, '\n');
    assert s[..LineLength(s)][..LineLength(s) - 1] == s[..LineLength(s) - 1];
    if n < |s| { assert s[..n + 1][..n] == s[..n]; }
    else { assert s[..n] == s; assert forall i :: 0 <= i < |s| ==> s[i] in s[..n]; }
  }

  /** A line of nothing but line ends is skipped. */
  lemma BlankIsSkipped(line: string, lines: seq<string>, parse: string -> Option<Json>)
    requires forall i :: 0 <= i < |line| ==> line[i] == '\r' || line[i] == '\n'
    ensures Items([line] + lines, parse) == Items(lines, parse) && Stdio.Texts([line] + lines) == Stdio.Texts(lines)
  {
    TrimTakesLineEnds(line);
    assert Trim(line) == "";
    assert ([line] + lines)[1..] == lines;
    assert [] + Stdio.Texts(lines) == Stdio.Texts(lines);
  }

  // ----- what is answered -----

  /** The answer to a line that does not parse, as a client reads it. */
  lemma ParseErrorShows()
    ensures Conforms(ParseErrorReply(), None)
    ensures var e := Get(ParseErrorReply().fields, "error");
      && e.Some? && e.value.Obj?
      && Get(e.value.fields, "code") == Some(Num(-32700.0))
      && Get(e.value.fields, "message") == Some(Str("parse error"))
  {
    ErrorConforms(None, PARSE_ERROR, "parse error");
  }

  ghost predicate IsOwed(item: Item) { item.Message? ==> !IsNotification(item.msg) }

  ghost function OwedItems(items: seq<Item>): seq<Item> {
    if items == [] then [] else (if IsOwed(items[0]) then [items[0]] else []) + OwedItems(items[1..])
  }

  /** While nothing fails every line that is not blank and not a notification is
      answered, in order: a message by a response for its id, a line that does not
      parse by the parse error. */
  lemma {:induction false} ServeAnswers(srv: Server, items: seq<Item>)
    ensures var replies, owed := Serve(srv, items).1, OwedItems(items);
      && |replies| == |owed|
      && forall k :: 0 <= k < |owed| ==>
           if owed[k].Garbage? then replies[k] == ParseErrorReply() else Conforms(replies[k], RequestId(owed[k].msg))
    decreases |items|
  {
    hide Handle, Conforms, IsNotification, ParseErrorReply;
    if items != [] {
      match items[0] {
        case Garbage => ServeAnswers(srv, items[1..]);
        case Message(msg) =>
          ServeAnswers(Handle(srv, msg).server, items[1..]);
          ExactlyOneAnswer(srv, msg);
      }
    }
  }

  // ----- the replies -----

  /** The reply to a message is a response for its id, and none goes to a
      notification; the reply to a refused line is a response exactly when it is
      the whole parse error reply. */
  lemma TurnConforms(srv: Server, srv': Server, text: string, t: Turn, parse: string -> Option<Json>,
                     render: Json -> string)
    requires TurnOk(srv, srv', text, t, parse, render) && !t.put.Silence?
    ensures t.Served? ==> Conforms(t.put.reply, RequestId(t.msg)) && !IsNotification(t.msg)
    ensures t.Refused? ==> (Conforms(t.put.reply, None) <==> t.put.reply == ParseErrorReply())
  {
    hide Conforms, IsNotification, PartialReply, ParseErrorReply, Handle, Dispatcher.MayReply;
    match t
    case Served(msg, out, put) => Dispatcher.EveryReplyConforms(srv, msg, put.reply);
    case Refused(put) =>
      var a :| Coherent(a) && put.reply == PartialReply(a);
      var all := Adds(true, true, true, true, true);
      PartialReplyConforms(a);
      PartialReplyConforms(all);
      WholeReply();
  }

  // ----- the lines -----

  /** Some of a line was written, but not all of it. */
  predicate Cut(put: Put, render: Json -> string) {
    put.Broken? && put.text != "" && put.text != render(put.reply) + "\n"
  }

  /** Nothing is written behind a line that was cut. */
  ghost predicate Clean(turns: seq<Turn>, render: Json -> string) {
    forall i, j :: 0 <= i < j < |turns| && Cut(turns[i].put, render) ==> PutText(turns[j].put, render) == ""
  }

  /** The replies whose lines were written to the end. */
  function WholeReplies(turns: seq<Turn>, render: Json -> string): seq<Json> {
    if turns == [] then []
    else
      var put := turns[|turns| - 1].put;
      WholeReplies(turns[..|turns| - 1], render)
      + if PutText(put, render) == "" || Cut(put, render) then [] else [put.reply]
  }

  /** What is left of the line that was cut last. */
  function Tail(turns: seq<Turn>, render: Json -> string): string {
    if turns == [] then ""
    else if Cut(turns[|turns| - 1].put, render) then turns[|turns| - 1].put.text
    else Tail(turns[..|turns| - 1], render)
  }

  lemma {:induction false} PrintedSnoc(replies: seq<Json>, r: Json, render: Json -> string)
    ensures Printed(replies + [r], render) == Printed(replies, render) + (render(r) + "\n")
  {
    if replies == [] {
      assert [r][1..] == [] && Printed([], render) == "";
      assert Printed([r], render) == render(r) + "\n" + "";
    } else {
      PrintedSnoc(replies[1..], r, render);
      assert (replies + [r])[1..] == replies[1..] + [r];
    }
  }

  lemma {:induction false} NoTail(turns: seq<Turn>, render: Json -> string)
    requires forall i :: 0 <= i < |turns| ==> !Cut(turns[i].put, render)
    ensures Tail(turns, render) == ""
  {
    if turns != [] { NoTail(turns[..|turns| - 1], render); }
  }

  /** The output is then the whole lines, and at most one part of a line. */
  lemma {:induction false} CleanOutput(turns: seq<Turn>, render: Json -> string)
    requires Clean(turns, render)
    ensures Written(turns, render) == Printed(WholeReplies(turns, render), render) + Tail(turns, render)
  {
    hide Cut;
    if turns != [] {
      var init, put := turns[..|turns| - 1], turns[|turns| - 1].put;
      assert Clean(init, render) by {
        forall i, j | 0 <= i < j < |init| && Cut(init[i].put, render) ensures PutText(init[j].put, render) == "" {
          assert turns[i] == init[i] && turns[j] == init[j];
        }
      }
      CleanOutput(init, render);
      if PutText(put, render) != "" {
        assert forall i :: 0 <= i < |init| ==> init[i] == turns[i];
        NoTail(init, render);
        assert Printed(WholeReplies(init, render), render) + "" == Printed(WholeReplies(init, render), render);
        if !Cut(put, render) {
          WholeText(put, render);
          PrintedSnoc(WholeReplies(init, render), put.reply, render);
        } else {
          CutText(put, render);
          assert Written(init, render) == Printed(WholeReplies(init, render), render);
          assert WholeReplies(turns, render) == WholeReplies(init, render);
        }
      } else {
        NotCut(put, render);
        assert Written(init, render) + "" == Written(init, render);
        assert WholeReplies(init, render) + [] == WholeReplies(init, render);
      }
    }
  }

  lemma WholeText(put: Put, render: Json -> string)
    requires !Cut(put, render) && PutText(put, render) != ""
    ensures !put.Silence? && PutText(put, render) == render(put.reply) + "\n"
  {}

  lemma CutText(put: Put, render: Json -> string)
    requires Cut(put, render)
    ensures put.Broken? && PutText(put, render) == put.text
  {}

  lemma NotCut(put: Put, render: Json -> string)
    requires PutText(put, render) == ""
    ensures !Cut(put, render)
  {}

  /** In every run of the loop, whatever fails, nothing is written behind a cut
      line if and only if nothing is written behind a cut parse error reply: a
      reply to a message that is cut ends the run, a parse error reply does not. */
  lemma CleanExactly(t: Trace, srv: Server, last: Server, texts: seq<string>, parse: string -> Option<Json>,
                     render: Json -> string)
    requires TraceOk(t, srv, last, texts, parse, render)
    ensures Clean(t.turns, render) <==>
      forall i, j :: 0 <= i < j < |t.turns| && t.turns[i].Refused? && Cut(t.turns[i].put, render) ==>
        PutText(t.turns[j].put, render) == ""
  {
    hide TurnOk, PutText;
    forall i | 0 <= i < |t.turns| - 1 && Cut(t.turns[i].put, render) ensures t.turns[i].Refused? {
      assert !Ends(t.turns[i]);
    }
  }

  /** A refused line, while memory lasts. */
  lemma RefusalWithMemory(fails: nat -> bool, c: nat, faulty: nat -> bool, taken: nat -> nat, d: nat,
                          render: Json -> string)
    requires forall n :: !fails(n)
    ensures var (left, after, done) := LineLeft(faulty, taken, d, render(ParseErrorReply()));
      && PutText(RefusalPut(fails, c, faulty, taken, d, render), render) == left
      && AfterRefusal(fails, c, faulty, taken, d, render) == after
  {
    hide PartialReply, ParseErrorReply;
    WholeReply();
    assert AddsFrom(fails, c) == Adds(true, true, true, true, true);
    LineLeftIsPrefix(faulty, taken, d, render(ParseErrorReply()));
  }

  method RefuseLine(heap: Heap, srv: Registry.Server, term: Terminal, text: string, parse: string -> Option<Json>,
                    render: Json -> string)
    requires srv.Ready(heap) && (forall n :: !heap.fails(n)) && parse(text) == None
    modifies srv`initialized, heap`clock, heap`failures, heap`next, heap`forest, heap`blocks,
             term`clock, term`faults, term`output
    ensures srv.Ready(heap)
    ensures var (left, after, done) :=
        LineLeft(term.fails, term.taken, old(term.clock), render(ParseErrorReply()));
      term.output == old(term.output) + left && term.clock == after
  {
    hide Registry.Server.Valid, ParseErrorReply, LostOnly, TurnOk, RefusalPut, AfterRefusal, PutText, Handle, LineLeft;
    RefusalWithMemory(heap.fails, heap.clock, term.fails, term.taken, term.clock, render);
    var ok, gone, turn := ServeLine(heap, srv, term, text, parse, render);
  }

  /** When a write of the first of two refused lines takes one byte and fails, the
      second one's reply goes out behind that byte, on the same line. */
  method CutLineGoesOn(heap: Heap, srv: Registry.Server, parse: string -> Option<Json>, render: Json -> string)
    returns (term: Terminal)
    requires srv.Ready(heap) && forall n :: !heap.fails(n)
    requires parse("{") == None && |render(ParseErrorReply())| > 1
    modifies srv`initialized, heap`clock, heap`failures, heap`next, heap`forest, heap`blocks
    ensures fresh(term) && term.output == render(ParseErrorReply())[..1] + (render(ParseErrorReply()) + "\n")
  {
    hide Registry.Server.Valid, ParseErrorReply;
    term := new Terminal("", n => n == 1, n => 1);
    RefuseLine(heap, srv, term, "{", parse, render);
    RefuseLine(heap, srv, term, "{", parse, render);
  }
}
