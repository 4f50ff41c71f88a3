/** What a client reads on its stream, in every run. */
module StreamLaws {
  import opened Json
  import opened Machine
  import opened Lifetime
  import opened Streams
  import Sse

  // ----- a stream is opened at most once -----

  predicate IsHeadJob(pc: Pc) { Writes(pc) && pc.job == Head }

  /** The owner has not finished sending the opening. */
  predicate HeadPending(pc: Pc) {
    || pc.InsertWant? || pc.Insert? || pc.InsertUnlock?
    || (IsHeadJob(pc) && !pc.WriteUnlock?)
  }

  /** The owner has sent the opening and goes on. */
  predicate OwnerTalking(pc: Pc) {
    || pc.PollShutdown? || pc.PollClosed? || pc.Recv?
    || (Writes(pc) && pc.job == Ping)
    || (IsHeadJob(pc) && pc.WriteUnlock? && pc.ok)
  }

  /** No completed unit is an opening. */
  predicate Unopened(log: seq<Entry>) { forall i :: 0 <= i < |log| ==> log[i].what.Sent? }

  ghost predicate LogOk(se: Session) {
    && (forall i :: 0 <= i < |se.log| && se.log[i].what.Opening? ==> se.log[i].what == Opening(se.id))
    && (forall i, j :: 0 <= i < j < |se.log| ==> se.log[i].what.Sent? || se.log[j].what.Sent?)
    && (se.broken && se.tornUnit.Opening? ==> se.tornUnit == Opening(se.id) && Unopened(se.log))
  }

  ghost predicate TalkOk(th: Thread, sessions: map<Sid, Session>) {
    var about := Counted(th.pc);
    th.role == Stream && about.Some? && about.value in sessions ==>
      var log := sessions[about.value].log;
      (HeadPending(th.pc) ==> Unopened(log)) && (OwnerTalking(th.pc) ==> !Unopened(log))
  }

  ghost predicate Orderly(st: State) {
    && (forall s :: s in st.sessions ==> LogOk(st.sessions[s]))
    && (forall t :: t in st.threads ==> TalkOk(st.threads[t], st.sessions))
  }

  lemma AdvanceUnit(th: Thread)
    requires WellTyped(th.role, th.pc) && th.pc.Writing?
    ensures th.role == Stream || th.role.Post?
    ensures th.role.Post? ==> th.pc.job.Reply?
    ensures th.role == Stream ==> !th.pc.job.Reply?
  {}

  lemma LogsKept(st: State, t: Tid, e: Effect, s: Sid)
    requires t in st.threads && WellTyped(st.threads[t].role, st.threads[t].pc)
    requires Calm(st, st.threads[t], e) || Advance(st, st.threads[t], e)
    requires TalkOk(st.threads[t], st.sessions)
    requires s in Apply(st, t, e).sessions
    requires s in st.sessions ==> LogOk(st.sessions[s])
    ensures LogOk(Apply(st, t, e).sessions[s])
  {
    var th := st.threads[t];
    if Advance(st, th, e) && s == th.pc.s {
      AdvanceUnit(th);
      assert Counted(th.pc) == Some(s);
      assert th.pc.job == Head ==> Unopened(st.sessions[s].log);
    }
  }

  /** The thread's own promise after its step. */
  ghost predicate TalkLocal(st: State, t: Tid, e: Effect) {
    TalkOk(e.th, Apply(st, t, e).sessions)
  }

  lemma StreamTalk(st: State, t: Tid, ch: Choice, e: Effect)
    requires t in st.threads && st.threads[t].role == Stream && StreamStep(st, t, ch) == Some(e)
    requires TalkOk(st.threads[t], st.sessions)
    ensures TalkLocal(st, t, e)
  {}

  lemma PostTalk(c: Config, st: State, t: Tid, sid: string, body: Option<Json>, ch: Choice, e: Effect)
    requires t in st.threads && st.threads[t].role.Post? && PostStep(c, st, t, sid, body, ch) == Some(e)
    ensures TalkLocal(st, t, e)
  {}

  lemma DispatchTalk(c: Config, st: State, t: Tid, msg: Json, e: Effect)
    requires t in st.threads && DispatchStep(c, st, t, msg) == Some(e)
    requires st.threads[t].role != Stream && TalkOk(st.threads[t], st.sessions)
    ensures TalkLocal(st, t, e)
  {}

  lemma WriteTalk(st: State, t: Tid, ch: Choice, e: Effect)
    requires t in st.threads && Writes(st.threads[t].pc) && WriteStep(st, t, ch) == Some(e)
    requires WellTyped(st.threads[t].role, st.threads[t].pc)
    requires st.threads[t].pc.Writing? ==> st.threads[t].pc.todo != []
    requires TalkOk(st.threads[t], st.sessions)
    ensures TalkLocal(st, t, e)
  {
    hide Unopened, Pieces;
    var pc := st.threads[t].pc;
    if pc.Writing? && e.cell.Some? && |e.cell.value.se.log| > |st.sessions[pc.s].log| {
      var log := st.sessions[pc.s].log;
      OpenedWith(log, Entry(t, UnitOf(pc.job, st.sessions[pc.s].id)));
    }
  }

  lemma OpenedWith(log: seq<Entry>, entry: Entry)
    ensures Unopened(log + [entry]) <==> Unopened(log) && entry.what.Sent?
  {
    var all := log + [entry];
    assert all[|log|] == entry && forall i :: 0 <= i < |log| ==> all[i] == log[i];
  }

  lemma ReleaseTalk(st: State, t: Tid, e: Effect)
    requires t in st.threads && Releases(st.threads[t].pc) && ReleaseStep(st, t) == Some(e)
    ensures TalkLocal(st, t, e)
  {}

  lemma StepTalk(c: Config, st: State, t: Tid, ch: Choice, e: Effect)
    requires t in st.threads && ThreadStep(c, st, t, ch) == Some(e)
    requires WellTyped(st.threads[t].role, st.threads[t].pc)
    requires st.threads[t].pc.Writing? ==> st.threads[t].pc.todo != []
    requires TalkOk(st.threads[t], st.sessions)
    ensures TalkLocal(st, t, e)
  {
    var th := st.threads[t];
    if Releases(th.pc) { ReleaseTalk(st, t, e); }
    else if Writes(th.pc) { WriteTalk(st, t, ch, e); }
    else {
      match th.role
      case Main => assert Counted(e.th.pc) == None;
      case Stream => StreamTalk(st, t, ch, e);
      case Post(sid, body) =>
        if Dispatches(th.pc) && body.Some? { DispatchTalk(c, st, t, body.value, e); }
        else { PostTalk(c, st, t, sid, body, ch, e); }
      case Mcp(body) => DispatchTalk(c, st, t, body.value, e);
    }
  }

  lemma OneOwner(st: State, t: Tid, u: Tid, s: Sid)
    requires Owned(st) && s in st.sessions && t in st.threads && u in st.threads
    requires st.threads[t].role == Stream && About(st.threads[t].pc) == Some(s)
    requires st.threads[u].role == Stream && About(st.threads[u].pc) == Some(s)
    ensures t == u
  {
    assert st.sessions[s].owner == t;
  }

  /** Another thread's promise survives: a log that has an opening keeps it, and
      one that has none, while its owner is still opening, gets it from nobody
      else. */
  lemma OtherTalk(st: State, t: Tid, e: Effect, u: Tid)
    requires t in st.threads && u in st.threads && u != t && Owned(st)
    requires WellTyped(st.threads[t].role, st.threads[t].pc)
    requires Calm(st, st.threads[t], e) || Advance(st, st.threads[t], e)
    requires TalkOk(st.threads[u], st.sessions)
    ensures TalkOk(st.threads[u], Apply(st, t, e).sessions)
  {
    hide Calm, Advance, Unopened, UnitOf;
    var pc := st.threads[u].pc;
    if Counted(pc).Some? && st.threads[u].role == Stream {
      var s := Counted(pc).value;
      CountedIsAbout(pc);
      if s in st.sessions {
        LogsOnlyGrow(st, t, e, s);
        var was, log := st.sessions[s], Apply(st, t, e).sessions[s].log;
        if log != was.log {
          OnlyOwnersOpen(st, t, u, s);
          var who :| log == was.log + [Entry(who, UnitOf(st.threads[t].pc.job, was.id))];
          OpenedWith(was.log, Entry(who, UnitOf(st.threads[t].pc.job, was.id)));
        }
      }
    }
  }

  lemma OnlyOwnersOpen(st: State, t: Tid, u: Tid, s: Sid)
    requires Owned(st) && s in st.sessions && t in st.threads && u in st.threads && t != u
    requires WellTyped(st.threads[t].role, st.threads[t].pc)
    requires st.threads[t].pc.Writing? && st.threads[t].pc.s == s
    requires st.threads[u].role == Stream && About(st.threads[u].pc) == Some(s)
    ensures forall id :: UnitOf(st.threads[t].pc.job, id).Sent?
  {
    AdvanceUnit(st.threads[t]);
    CountedIsAbout(st.threads[t].pc);
    if st.threads[t].role == Stream { OneOwner(st, t, u, s); }
  }

  /** A step adds to a log at most the unit its thread is writing there. */
  lemma LogsOnlyGrow(st: State, t: Tid, e: Effect, s: Sid)
    requires t in st.threads && s in st.sessions
    requires Calm(st, st.threads[t], e) || Advance(st, st.threads[t], e)
    ensures s in Apply(st, t, e).sessions
    ensures var was, log := st.sessions[s], Apply(st, t, e).sessions[s].log;
      log == was.log || GrowsBy(was, log, st.threads[t].pc, s)
  {}

  ghost predicate GrowsBy(was: Session, log: seq<Entry>, pc: Pc, s: Sid) {
    pc.Writing? && pc.s == s && exists who :: log == was.log + [Entry(who, UnitOf(pc.job, was.id))]
  }

  lemma EffectKeepsOrder(c: Config, st: State, t: Tid, ch: Choice, e: Effect)
    requires PrintsOneLine(c) && Typed(st) && Owned(st) && StreamsOk(st) && WritersOk(st) && Orderly(st)
    requires t in st.threads && ThreadStep(c, st, t, ch) == Some(e)
    ensures Orderly(Apply(st, t, e))
  {
    var st' := Apply(st, t, e);
    WritingHasSession(st, t);
    StepAdvances(c, st, t, ch, e);
    StepTalk(c, st, t, ch, e);
    forall s | s in st'.sessions ensures LogOk(st'.sessions[s]) { LogsKept(st, t, e, s); }
    forall u | u in st'.threads ensures TalkOk(st'.threads[u], st'.sessions) {
      if u != t { OtherTalk(st, t, e, u); }
    }
  }

  lemma WritingHasSession(st: State, t: Tid)
    requires Exist(st) && StreamsOk(st) && WritersOk(st) && t in st.threads
    ensures WriterOk(st.threads[t].pc, st.sessions)
    ensures st.threads[t].pc.Writing? ==>
      && st.threads[t].pc.s in st.sessions && Sse.OneLine(st.sessions[st.threads[t].pc.s].id)
      && st.threads[t].pc.todo != []
  {
    var pc := st.threads[t].pc;
    if pc.Writing? {
      assert About(pc) == Some(pc.s);
      assert StreamOk(st, pc.s, st.sessions[pc.s]);
    }
  }

  lemma StepKeepsOrder(c: Config, st: State, a: Action, st': State)
    requires PrintsOneLine(c) && Typed(st) && Owned(st) && StreamsOk(st) && WritersOk(st) && Orderly(st)
    requires Step(c, st, a) == Some(st')
    ensures Orderly(st')
  {
    match a
    case Signal =>
    case Spawn(t, role) => StartHoldsNothing(role, st.sh.now);
    case Go(t, ch) => EffectKeepsOrder(c, st, t, ch, ThreadStep(c, st, t, ch).value);
  }

  lemma NextOrder(c: Config, states: seq<State>, actions: seq<Action>, i: nat)
    requires |states| == |actions| + 1 && i < |actions| && StepAt(c, states, actions, i)
    requires PrintsOneLine(c) && Inv(states[i]) && StreamsOk(states[i]) && WritersOk(states[i]) && Orderly(states[i])
    ensures Orderly(states[i + 1])
  {
    StepKeepsOrder(c, states[i], actions[i], states[i + 1]);
  }

  lemma {:induction false} RunOrder(c: Config, states: seq<State>, actions: seq<Action>, i: nat)
    requires PrintsOneLine(c) && IsRun(c, states, actions) && i < |states|
    ensures Orderly(states[i])
  {
    if i > 0 {
      RunOrder(c, states, actions, i - 1);
      RunInv(c, states, actions, i - 1);
      RunStreams(c, states, actions, i - 1);
      NextOrder(c, states, actions, i - 1);
    }
  }

  // ----- reading the stream -----

  function FramesOf(log: seq<Entry>): seq<Sse.Frame>
    requires forall i :: 0 <= i < |log| ==> log[i].what.Sent?
  {
    seq(|log|, i requires 0 <= i < |log| => log[i].what.frame)
  }

  lemma OpeningText(id: string)
    ensures EncodeUnit(Opening(id)) == HeadText(id) + Sse.Wire([EndpointFrame(id)])
  {
    var first := EndpointFrame(id);
    Sse.FlattenCons(HeadText(id), Sse.Pieces(first));
    assert [first][1..] == [];
    assert Sse.Wire([first]) == Sse.Encode(first) + "";
  }

  ghost predicate OpenedWire(log: seq<Entry>, k: nat, id: string)
    requires k < |log| && forall i :: k < i < |log| ==> log[i].what.Sent?
  {
    WireUnits(log) == WireUnits(log[..k]) + HeadText(id) + Sse.Wire([EndpointFrame(id)] + FramesOf(log[k + 1..]))
  }

  /** The bytes of a log, split where the response head of its opening ends. */
  lemma {:induction false} WireUnitsOpening(log: seq<Entry>, k: nat, id: string)
    requires k < |log| && log[k].what == Opening(id)
    requires forall i :: k < i < |log| ==> log[i].what.Sent?
    ensures OpenedWire(log, k, id)
  {
    hide OpenedWire, WireUnits, FramesOf;
    if |log| == k + 1 {
      OpeningOnly(log, k, id);
    } else {
      var init := log[..|log| - 1];
      WireUnitsOpening(init, k, id);
      assert init[..k] == log[..k];
      WireUnitsFrame(log, k, id);
    }
  }

  lemma OpeningOnly(log: seq<Entry>, k: nat, id: string)
    requires |log| == k + 1 && log[k].what == Opening(id)
    ensures OpenedWire(log, k, id)
  {
    OpeningText(id);
    NoFrames(log[k + 1..], id);
    Sse.Assoc(WireUnits(log[..k]), HeadText(id), Sse.Wire([EndpointFrame(id)]));
  }

  lemma NoFrames(log: seq<Entry>, id: string)
    requires log == []
    ensures [EndpointFrame(id)] + FramesOf(log) == [EndpointFrame(id)]
  {}

  /** One frame more. */
  lemma WireUnitsFrame(log: seq<Entry>, k: nat, id: string)
    requires k + 1 < |log| && forall i :: k < i < |log| ==> log[i].what.Sent?
    requires OpenedWire(log[..|log| - 1], k, id) && log[..|log| - 1][..k] == log[..k]
    ensures OpenedWire(log, k, id)
  {
    hide FramesOf, HeadText, EndpointFrame;
    var init := log[..|log| - 1];
    FramesGrow(log, k, id);
    WireGrows(WireUnits(log[..k]) + HeadText(id), WireUnits(init),
              [EndpointFrame(id)] + FramesOf(init[k + 1..]), log[|log| - 1].what.frame);
  }

  lemma FramesGrow(log: seq<Entry>, k: nat, id: string)
    requires k + 2 <= |log| && forall i :: k < i < |log| ==> log[i].what.Sent?
    ensures [EndpointFrame(id)] + FramesOf(log[k + 1..])
         == [EndpointFrame(id)] + FramesOf(log[..|log| - 1][k + 1..]) + [log[|log| - 1].what.frame]
  {}

  lemma WireGrows(head: string, wire: string, frames: seq<Sse.Frame>, f: Sse.Frame)
    requires wire == head + Sse.Wire(frames)
    ensures wire + EncodeUnit(Sent(f)) == head + Sse.Wire(frames + [f])
  {
    Sse.WireSnoc(frames, f);
  }

  ghost predicate TailOf(se: Session, tail: string, u: Unit) {
    && SendableUnit(u) && Truncated(tail, u) && se.stream == WireUnits(se.log) + tail
    && (u.Opening? ==> u == Opening(se.id) && Unopened(se.log))
  }

  lemma QuietTail(se: Session)
    requires Wellformed(se, "") && !se.broken
    ensures exists tail, u :: TailOf(se, tail, u)
  {
    EncodeNonempty(Sent(Sse.Keepalive));
    assert TailOf(se, "", Sent(Sse.Keepalive));
  }

  lemma WriterTail(th: Thread, se: Session, sessions: map<Sid, Session>)
    requires WellTyped(th.role, th.pc) && th.pc.Writing? && th.pc.s in sessions && sessions[th.pc.s] == se
    requires Wellformed(se, th.pc.done) && !se.broken
    requires WriterOk(th.pc, sessions) && TalkOk(th, sessions)
    ensures exists tail, u :: TailOf(se, tail, u)
  {
    AdvanceUnit(th);
    assert Counted(th.pc) == Some(th.pc.s);
    var what := UnitOf(th.pc.job, se.id);
    UnitSendable(th.pc.job, se.id);
    assert TailOf(se, th.pc.done, what);
  }

  /** What is on the stream after the last completed unit belongs to a frame once
      the opening is complete. */
  lemma TailUnit(st: State, s: Sid)
    requires Typed(st) && Exist(st) && WriteLocks(st) && StreamsOk(st) && WritersOk(st) && Orderly(st)
    requires s in st.sessions
    ensures exists tail, u :: TailOf(st.sessions[s], tail, u)
  {
    var se := st.sessions[s];
    assert StreamOk(st, s, se) && LogOk(se);
    if se.broken {
      assert TailOf(se, se.torn, se.tornUnit);
    } else if se.lock.Some? && PcOf(st, se.lock.value).Writing? {
      var t := se.lock.value;
      assert HoldsWrite(st.threads[t].pc) == Some(s);
      WriterTail(st.threads[t], se, st.sessions);
    } else {
      QuietTail(se);
    }
  }

  /** In every run a stream is opened at most once, by the response head and the
      endpoint event of its own session; and what follows the head, read by the
      WHATWG rules, is the endpoint event and then exactly the events of the
      frames completed since, in the order in which their writers held the
      write_lock, keepalives being invisible. */
  lemma StreamReadsBack(c: Config, states: seq<State>, actions: seq<Action>, i: nat, s: Sid, k: nat)
    requires PrintsOneLine(c) && IsRun(c, states, actions) && i < |states| && s in states[i].sessions
    requires k < |states[i].sessions[s].log| && states[i].sessions[s].log[k].what.Opening?
    ensures ReadsBack(states[i].sessions[s], k)
  {
    RunOrder(c, states, actions, i);
    RunInv(c, states, actions, i);
    RunStreams(c, states, actions, i);
    ReadBack(states[i], s, k);
  }

  /** Unit k is the opening, and reading after its head gives what was sent. */
  ghost predicate ReadsBack(se: Session, k: nat)
    requires k < |se.log|
  {
    && se.log[k].what == Opening(se.id)
    && (forall j :: 0 <= j < |se.log| && j != k ==> se.log[j].what.Sent?)
    && var head := WireUnits(se.log[..k]) + HeadText(se.id);
    && head <= se.stream
    && Sse.Interpret(Sse.EMPTY, se.stream[|head|..])
       == [Sse.Dispatched("endpoint", ENDPOINT + se.id)] + Sse.Visible(FramesOf(se.log[k + 1..]))
  }

  lemma ReadBack(st: State, s: Sid, k: nat)
    requires Typed(st) && Exist(st) && WriteLocks(st) && StreamsOk(st) && WritersOk(st) && Orderly(st)
    requires s in st.sessions && k < |st.sessions[s].log| && st.sessions[s].log[k].what.Opening?
    ensures ReadsBack(st.sessions[s], k)
  {
    var se := st.sessions[s];
    assert StreamOk(st, s, se) && LogOk(se);
    TailUnit(st, s);
    var tail, u :| TailOf(se, tail, u);
    assert !Unopened(se.log);
    ReadUnits(se, k, tail, u);
  }

  lemma ReadUnits(se: Session, k: nat, tail: string, u: Unit)
    requires LogOk(se) && k < |se.log| && se.log[k].what.Opening? && Sse.OneLine(se.id)
    requires forall j :: 0 <= j < |se.log| ==> SendableUnit(se.log[j].what)
    requires SendableUnit(u) && u.Sent? && Truncated(tail, u) && se.stream == WireUnits(se.log) + tail
    ensures ReadsBack(se, k)
  {
    var rest := FramesOf(se.log[k + 1..]);
    var head := WireUnits(se.log[..k]) + HeadText(se.id);
    WireUnitsOpening(se.log, k, se.id);
    AfterHead(head, Sse.Wire([EndpointFrame(se.id)] + rest), tail, se.stream);
    AllSendable(se, k);
    Sse.DecodeFrames([EndpointFrame(se.id)] + rest, tail, u.frame);
    VisibleFirst(se.id, rest);
  }

  lemma AfterHead(head: string, wire: string, tail: string, stream: string)
    requires stream == head + wire + tail
    ensures head <= stream && stream[|head|..] == wire + tail
  {}

  lemma AllSendable(se: Session, k: nat)
    requires LogOk(se) && k < |se.log| && se.log[k].what.Opening? && Sse.OneLine(se.id)
    requires forall j :: 0 <= j < |se.log| ==> SendableUnit(se.log[j].what)
    ensures var frames := [EndpointFrame(se.id)] + FramesOf(se.log[k + 1..]);
      forall j :: 0 <= j < |frames| ==> Sse.Sendable(frames[j])
  {
    EndpointOneLine(se.id);
    var rest := FramesOf(se.log[k + 1..]);
    forall j | 0 <= j < |rest| ensures Sse.Sendable(rest[j]) {
      assert SendableUnit(se.log[k + 1 + j].what);
    }
  }

  lemma VisibleFirst(id: string, rest: seq<Sse.Frame>)
    ensures Sse.Visible([EndpointFrame(id)] + rest) == [Sse.Dispatched("endpoint", ENDPOINT + id)] + Sse.Visible(rest)
  {
    assert ([EndpointFrame(id)] + rest)[1..] == rest;
  }
}
