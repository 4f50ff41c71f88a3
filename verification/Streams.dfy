/** The bytes on each legacy stream, in every interleaving of owner writes and
    posters' events. */
module Streams {
  import opened Json
  import opened Machine
  import opened Lifetime
  import SessionId
  import Sse

  function WireUnits(log: seq<Entry>): string {
    if log == [] then "" else WireUnits(log[..|log| - 1]) + EncodeUnit(log[|log| - 1].what)
  }

  predicate SendableUnit(u: Unit) {
    match u
    case Opening(id) => Sse.OneLine(id)
    case Sent(f) => Sse.Sendable(f)
  }

  /** Cut before its end: a proper prefix. */
  ghost predicate Truncated(tail: string, u: Unit) {
    |tail| < |EncodeUnit(u)| && tail == EncodeUnit(u)[..|tail|]
  }

  /** What the current holder of the write_lock has put on the stream of the unit
      it is writing. */
  function Partial(st: State, s: Sid, se: Session): string {
    if se.lock.None? then ""
    else match PcOf(st, se.lock.value)
      case Writing(s', _, done, _) => if s' == s then done else ""
      case _ => ""
  }

  ghost predicate Wellformed(se: Session, partial: string) {
    && (forall i :: 0 <= i < |se.log| ==> SendableUnit(se.log[i].what))
    && Sse.OneLine(se.id)
    && if se.broken then
         se.stream == WireUnits(se.log) + se.torn && Truncated(se.torn, se.tornUnit) && SendableUnit(se.tornUnit)
       else
         se.stream == WireUnits(se.log) + partial
  }

  ghost predicate StreamOk(st: State, s: Sid, se: Session) { Wellformed(se, Partial(st, s, se)) }

  ghost predicate StreamsOk(st: State) {
    forall s :: s in st.sessions ==> StreamOk(st, s, st.sessions[s])
  }

  predicate JobOk(job: Job) { job.Reply? ==> Sse.OneLine(job.text) }

  /** What a writer still has to write completes what it has written. */
  ghost predicate WriterOk(pc: Pc, sessions: map<Sid, Session>) {
    && (Writes(pc) ==> JobOk(pc.job))
    && (pc.Writing? && pc.s in sessions ==>
          var se := sessions[pc.s];
          && pc.done + Sse.Flatten(pc.todo) == EncodeUnit(UnitOf(pc.job, se.id))
          && EndsFull(pc.todo) && |pc.done| < |EncodeUnit(UnitOf(pc.job, se.id))|
          && (se.broken ==> pc.done == ""))
  }

  ghost predicate WritersOk(st: State) {
    forall t :: t in st.threads ==> WriterOk(st.threads[t].pc, st.sessions)
  }

  lemma EncodeNonempty(u: Unit)
    ensures EncodeUnit(u) != ""
  {
    match u
    case Opening(id) =>
      Sse.FlattenCons(HeadText(id), Sse.Pieces(EndpointFrame(id)));
    case Sent(f) =>
      match f
      case Keepalive => Sse.EncodeKeepalive();
      case Event(name, data) => Sse.EncodeEvent(name, data);
  }

  lemma NameIsOneLine(id: string)
    requires SessionId.IsName(id)
    ensures Sse.OneLine(id)
  {}

  // ----- one step -----

  function OwnPartial(pc: Pc): string { if pc.Writing? then pc.done else "" }

  predicate SameStream(a: Session, b: Session) {
    && a.id == b.id && a.stream == b.stream && a.log == b.log
    && a.broken == b.broken && a.torn == b.torn && a.tornUnit == b.tornUnit
  }

  /** The step leaves every stream alone. */
  ghost predicate Calm(st: State, th: Thread, e: Effect) {
    && OwnPartial(th.pc) == OwnPartial(e.th.pc)
    && (e.cell.Some? && e.cell.value.s in st.sessions ==> SameStream(e.cell.value.se, st.sessions[e.cell.value.s]))
    && (e.cell.Some? && e.cell.value.s !in st.sessions ==>
          Sse.OneLine(e.cell.value.se.id) && exists o :: e.cell.value.se == NewSession(e.cell.value.se.id, o))
  }

  ghost predicate Sends(was: Session, se: Session, done: string, done': string) {
    !was.broken && done <= done' && se == was.(stream := was.stream + done'[|done|..])
  }

  ghost predicate Completes(was: Session, se: Session, done: string, what: Unit) {
    && !was.broken && SendableUnit(what) && done <= EncodeUnit(what)
    && exists who :: se == was.(stream := was.stream + EncodeUnit(what)[|done|..], log := was.log + [Entry(who, what)])
  }

  ghost predicate Breaks(was: Session, se: Session, done: string, what: Unit) {
    if was.broken then se == was
    else se == was.(broken := true, torn := done, tornUnit := what) && Truncated(done, what) && SendableUnit(what)
  }

  /** The step sends some of the unit being written, sends the last of it, or
      finds the stream broken. */
  ghost predicate Advance(st: State, th: Thread, e: Effect) {
    && th.pc.Writing? && th.pc.s in st.sessions && e.cell.Some? && e.cell.value.s == th.pc.s
    && var was, se := st.sessions[th.pc.s], e.cell.value.se;
    var what := UnitOf(th.pc.job, was.id);
    if e.th.pc.Writing? then e.th.pc.s == th.pc.s && Sends(was, se, th.pc.done, e.th.pc.done)
    else Completes(was, se, th.pc.done, what) || Breaks(was, se, th.pc.done, what)
  }

  lemma WireUnitsSnoc(log: seq<Entry>, entry: Entry)
    ensures WireUnits(log + [entry]) == WireUnits(log) + EncodeUnit(entry.what)
  {
    assert (log + [entry])[..|log|] == log;
  }

  lemma Finish(wire: string, done: string, full: string)
    requires done <= full
    ensures wire + done + full[|done|..] == wire + full
  {
    assert full == done + full[|done|..];
  }

  lemma CompletesWellformed(was: Session, se: Session, done: string, what: Unit)
    requires Wellformed(was, done) && Completes(was, se, done, what)
    ensures Wellformed(se, "")
  {
    var who :| se == was.(stream := was.stream + EncodeUnit(what)[|done|..], log := was.log + [Entry(who, what)]);
    WireUnitsSnoc(was.log, Entry(who, what));
    Finish(WireUnits(was.log), done, EncodeUnit(what));
    assert se.stream + "" == se.stream;
  }

  lemma SendsWellformed(was: Session, se: Session, done: string, done': string)
    requires Wellformed(was, done) && Sends(was, se, done, done')
    ensures Wellformed(se, done')
  {
    assert done + done'[|done|..] == done';
  }

  lemma PartialOfHolder(st: State, s: Sid, t: Tid)
    requires WriteLocks(st) && s in st.sessions && t in st.threads
    ensures st.sessions[s].lock == Some(t) <==> HoldsWrite(st.threads[t].pc) == Some(s)
    ensures st.sessions[s].lock == Some(t) ==> Partial(st, s, st.sessions[s]) == OwnPartial(st.threads[t].pc)
  {}

  lemma CalmKeeps(st: State, t: Tid, e: Effect, s: Sid)
    requires t in st.threads && WriteLocks(st) && Calm(st, st.threads[t], e)
    requires s in Apply(st, t, e).sessions
    requires s in st.sessions ==> StreamOk(st, s, st.sessions[s])
    requires WriteLockLocal(st, t, st.threads[t], e)
    ensures StreamOk(Apply(st, t, e), s, Apply(st, t, e).sessions[s])
  {
    if s in st.sessions {
      PartialOfHolder(st, s, t);
      PartialUnchanged(st, t, e, s);
    }
  }

  lemma PartialUnchanged(st: State, t: Tid, e: Effect, s: Sid)
    requires t in st.threads && s in st.sessions
    requires st.sessions[s].lock == Some(t) <==> HoldsWrite(st.threads[t].pc) == Some(s)
    requires OwnPartial(st.threads[t].pc) == OwnPartial(e.th.pc)
    requires WriteLockLocal(st, t, st.threads[t], e)
    ensures Partial(Apply(st, t, e), s, Apply(st, t, e).sessions[s]) == Partial(st, s, st.sessions[s])
  {
    var se, se' := st.sessions[s], Apply(st, t, e).sessions[s];
    if se.lock == Some(t) && se'.lock == Some(t) {
      assert HoldsWrite(e.th.pc) == Some(s);
    }
  }

  lemma AdvanceKeepsOther(st: State, t: Tid, e: Effect, s: Sid)
    requires t in st.threads && WriteLocks(st) && Advance(st, st.threads[t], e)
    requires s in st.sessions && StreamOk(st, s, st.sessions[s]) && s != st.threads[t].pc.s
    ensures StreamOk(Apply(st, t, e), s, Apply(st, t, e).sessions[s])
  {
    PartialOfHolder(st, s, t);
    assert Partial(Apply(st, t, e), s, st.sessions[s]) == Partial(st, s, st.sessions[s]);
  }

  lemma AdvanceKeepsOwn(st: State, t: Tid, e: Effect)
    requires t in st.threads && WriteLocks(st) && Advance(st, st.threads[t], e)
    requires StreamOk(st, st.threads[t].pc.s, st.sessions[st.threads[t].pc.s])
    ensures var s := st.threads[t].pc.s; StreamOk(Apply(st, t, e), s, Apply(st, t, e).sessions[s])
  {
    var th := st.threads[t];
    var s := th.pc.s;
    PartialOfHolder(st, s, t);
    var was, se := st.sessions[s], e.cell.value.se;
    assert se.lock == Some(t);
    assert Partial(Apply(st, t, e), s, se) == OwnPartial(e.th.pc);
    if e.th.pc.Writing? { SendsWellformed(was, se, th.pc.done, e.th.pc.done); }
    else if Completes(was, se, th.pc.done, UnitOf(th.pc.job, was.id)) {
      CompletesWellformed(was, se, th.pc.done, UnitOf(th.pc.job, was.id));
    }
  }

  // ----- every step is one of the two -----

  /** Responses are printed on one line. */
  ghost predicate PrintsOneLine(c: Config) { forall j :: Sse.OneLine(c.render(j)) }

  lemma EndpointOneLine(id: string)
    requires Sse.OneLine(id)
    ensures Sse.Sendable(EndpointFrame(id))
  {
    var e := ENDPOINT + id;
    forall i | 0 <= i < |e| ensures e[i] != '\r' && e[i] != '\n' {
      if i < |ENDPOINT| { assert e[i] == ENDPOINT[i]; } else { assert e[i] == id[i - |ENDPOINT|]; }
    }
  }

  lemma UnitSendable(job: Job, id: string)
    requires JobOk(job) && Sse.OneLine(id)
    ensures SendableUnit(UnitOf(job, id))
  {}

  lemma FlattenSend(done: string, todo: seq<string>, n: nat)
    requires todo != [] && n <= |todo[0]|
    ensures (done + todo[0][..n]) + Sse.Flatten([todo[0][n..]] + todo[1..]) == done + Sse.Flatten(todo)
    ensures |todo| == 1 ==> Sse.Flatten(todo) == todo[0]
  {
    Sse.FlattenCons(todo[0][n..], todo[1..]);
    assert todo[0] == todo[0][..n] + todo[0][n..];
  }

  /** The rest of the last piece is never empty. */
  predicate EndsFull(todo: seq<string>) { todo != [] && todo[|todo| - 1] != "" }

  lemma FlattenFull(todo: seq<string>)
    requires EndsFull(todo)
    ensures Sse.Flatten(todo) != ""
  {
    if |todo| > 1 { FlattenFull(todo[1..]); }
  }

  lemma PiecesEndFull(u: Unit)
    ensures EndsFull(Pieces(u))
  {}

  /** The send that takes the last of the last piece. */
  lemma LastSend(st: State, t: Tid, ch: Choice, e: Effect)
    requires t in st.threads && st.threads[t].pc.Writing? && WriteStep(st, t, ch) == Some(e)
    requires WriterOk(st.threads[t].pc, st.sessions)
    requires var Writing(s, _, _, todo) := st.threads[t].pc;
      && s in st.sessions && Sse.OneLine(st.sessions[s].id)
      && todo[0] != "" && ch.ok && st.sessions[s].sock == Open && !st.sessions[s].broken
      && |todo| == 1 && |todo[0]| <= ch.n
    ensures Advance(st, st.threads[t], e)
  {
    var Writing(s, job, done, todo) := st.threads[t].pc;
    var se := st.sessions[s];
    var what := UnitOf(job, se.id);
    UnitSendable(job, se.id);
    FlattenSend(done, todo, |todo[0]|);
    assert todo[0][..|todo[0]|] == todo[0];
    assert done + todo[0] == EncodeUnit(what);
    assert EncodeUnit(what)[|done|..] == todo[0];
    assert e.cell.value.se == se.(stream := se.stream + EncodeUnit(what)[|done|..], log := se.log + [Entry(t, what)]);
    assert Completes(se, e.cell.value.se, done, what);
  }

  lemma PartialSend(done: string, todo: seq<string>, n: nat)
    requires EndsFull(todo) && n <= |todo[0]| && !(n == |todo[0]| && |todo| == 1)
    ensures EndsFull([todo[0][n..]] + todo[1..])
    ensures (done + todo[0][..n])[|done|..] == todo[0][..n]
  {
    var todo' := [todo[0][n..]] + todo[1..];
    assert todo'[|todo'| - 1] == if |todo| == 1 then todo[0][n..] else todo[|todo| - 1];
  }

  lemma MiddleSend(st: State, t: Tid, ch: Choice, e: Effect)
    requires t in st.threads && st.threads[t].pc.Writing? && WriteStep(st, t, ch) == Some(e)
    requires WriterOk(st.threads[t].pc, st.sessions)
    requires var Writing(s, _, _, todo) := st.threads[t].pc;
      && s in st.sessions && todo[0] != "" && ch.ok && st.sessions[s].sock == Open && !st.sessions[s].broken
      && !(|todo| == 1 && |todo[0]| <= ch.n)
    ensures Advance(st, st.threads[t], e)
    ensures WriterOk(e.th.pc, Apply(st, t, e).sessions)
  {
    hide UnitOf, EncodeUnit, Pieces, Sse.Flatten;
    var Writing(s, job, done, todo) := st.threads[t].pc;
    var n := if ch.n <= |todo[0]| then ch.n else |todo[0]|;
    FlattenSend(done, todo, n);
    PartialSend(done, todo, n);
    FlattenFull([todo[0][n..]] + todo[1..]);
    assert Sends(st.sessions[s], e.cell.value.se, done, done + todo[0][..n]);
  }

  lemma WritingStep(st: State, t: Tid, ch: Choice, e: Effect)
    requires t in st.threads && st.threads[t].pc.Writing? && WriteStep(st, t, ch) == Some(e)
    requires WriterOk(st.threads[t].pc, st.sessions)
    requires st.threads[t].pc.s in st.sessions && Sse.OneLine(st.sessions[st.threads[t].pc.s].id)
    ensures Calm(st, st.threads[t], e) || Advance(st, st.threads[t], e)
    ensures WriterOk(e.th.pc, Apply(st, t, e).sessions)
  {
    var th := st.threads[t];
    var Writing(s, job, done, todo) := th.pc;
    var se := st.sessions[s];
    var what := UnitOf(job, se.id);
    UnitSendable(job, se.id);
    if todo[0] == "" {
      assert todo[1..][|todo| - 2] == todo[|todo| - 1];
    } else if ch.ok && se.sock == Open && !se.broken {
      if |todo| == 1 && |todo[0]| <= ch.n { LastSend(st, t, ch, e); } else { MiddleSend(st, t, ch, e); }
    } else {
      assert done == EncodeUnit(what)[..|done|];
      assert Breaks(se, e.cell.value.se, done, what);
    }
  }

  lemma WriteAdvances(st: State, t: Tid, ch: Choice, e: Effect)
    requires t in st.threads && Writes(st.threads[t].pc) && !st.threads[t].pc.Writing?
    requires WriteStep(st, t, ch) == Some(e)
    requires WriterOk(st.threads[t].pc, st.sessions)
    ensures Calm(st, st.threads[t], e)
    ensures WriterOk(e.th.pc, Apply(st, t, e).sessions)
  {
    if st.threads[t].pc.WriteBegin? {
      var what := UnitOf(st.threads[t].pc.job, st.sessions[st.threads[t].pc.s].id);
      EncodeNonempty(what);
      PiecesEndFull(what);
    }
  }

  lemma MainAdvances(st: State, t: Tid, e: Effect)
    requires t in st.threads && MainStep(st, t) == Some(e)
    ensures Calm(st, st.threads[t], e) && WriterOk(e.th.pc, Apply(st, t, e).sessions)
  {}

  lemma StreamAdvances(st: State, t: Tid, ch: Choice, e: Effect)
    requires t in st.threads && StreamStep(st, t, ch) == Some(e)
    ensures Calm(st, st.threads[t], e) && WriterOk(e.th.pc, Apply(st, t, e).sessions)
  {
    if st.threads[t].pc == Fresh && ch.ok {
      NameIsOneLine(ch.id);
      assert e.cell.value.se == NewSession(ch.id, t);
    }
  }

  lemma PostAdvances(c: Config, st: State, t: Tid, sid: string, body: Option<Json>, ch: Choice, e: Effect)
    requires PrintsOneLine(c)
    requires t in st.threads && PostStep(c, st, t, sid, body, ch) == Some(e)
    ensures Calm(st, st.threads[t], e) && WriterOk(e.th.pc, Apply(st, t, e).sessions)
  {}

  lemma DispatchAdvances(c: Config, st: State, t: Tid, msg: Json, e: Effect)
    requires t in st.threads && DispatchStep(c, st, t, msg) == Some(e)
    ensures Calm(st, st.threads[t], e) && WriterOk(e.th.pc, Apply(st, t, e).sessions)
  {}

  lemma ReleaseAdvances(st: State, t: Tid, e: Effect)
    requires t in st.threads && Releases(st.threads[t].pc) && ReleaseStep(st, t) == Some(e)
    ensures Calm(st, st.threads[t], e) && WriterOk(e.th.pc, Apply(st, t, e).sessions)
  {}

  lemma StepAdvances(c: Config, st: State, t: Tid, ch: Choice, e: Effect)
    requires PrintsOneLine(c)
    requires t in st.threads && ThreadStep(c, st, t, ch) == Some(e)
    requires WriterOk(st.threads[t].pc, st.sessions)
    requires st.threads[t].pc.Writing? && st.threads[t].pc.s in st.sessions ==>
      Sse.OneLine(st.sessions[st.threads[t].pc.s].id)
    ensures Calm(st, st.threads[t], e) || Advance(st, st.threads[t], e)
    ensures WriterOk(e.th.pc, Apply(st, t, e).sessions)
  {
    var th := st.threads[t];
    if Releases(th.pc) { ReleaseAdvances(st, t, e); }
    else if th.pc.Writing? { WritingStep(st, t, ch, e); }
    else if Writes(th.pc) { WriteAdvances(st, t, ch, e); }
    else {
      match th.role
      case Main => MainAdvances(st, t, e);
      case Stream => StreamAdvances(st, t, ch, e);
      case Post(sid, body) =>
        if Dispatches(th.pc) && body.Some? { DispatchAdvances(c, st, t, body.value, e); }
        else { PostAdvances(c, st, t, sid, body, ch, e); }
      case Mcp(body) => DispatchAdvances(c, st, t, body.value, e);
    }
  }

  /** A writer holds the lock of its session, so nobody else changes what it
      depends on. */
  lemma WriterKept(st: State, t: Tid, e: Effect, u: Tid)
    requires t in st.threads && u in st.threads && u != t && WriteLocks(st) && Exist(st)
    requires Calm(st, st.threads[t], e) || Advance(st, st.threads[t], e)
    requires WriterOk(st.threads[u].pc, st.sessions)
    ensures WriterOk(st.threads[u].pc, Apply(st, t, e).sessions)
  {
    var pc := st.threads[u].pc;
    if pc.Writing? {
      assert About(pc) == Some(pc.s);
      NotTheWriter(st, t, u);
      OthersSession(st, t, e, pc.s);
    }
  }

  lemma NotTheWriter(st: State, t: Tid, u: Tid)
    requires WriteLocks(st) && t in st.threads && u in st.threads && u != t
    requires st.threads[u].pc.Writing? && st.threads[u].pc.s in st.sessions
    ensures HoldsWrite(st.threads[t].pc) != Some(st.threads[u].pc.s)
  {
    assert st.sessions[st.threads[u].pc.s].lock == Some(u);
  }

  lemma OthersSession(st: State, t: Tid, e: Effect, s: Sid)
    requires t in st.threads && s in st.sessions && HoldsWrite(st.threads[t].pc) != Some(s)
    requires Calm(st, st.threads[t], e) || Advance(st, st.threads[t], e)
    ensures SameStream(Apply(st, t, e).sessions[s], st.sessions[s])
  {}

  lemma EffectKeepsStreams(c: Config, st: State, t: Tid, ch: Choice, e: Effect)
    requires PrintsOneLine(c) && Typed(st) && Exist(st) && WriteLocks(st)
    requires StreamsOk(st) && WritersOk(st) && t in st.threads && ThreadStep(c, st, t, ch) == Some(e)
    ensures StreamsOk(Apply(st, t, e)) && WritersOk(Apply(st, t, e))
  {
    var st' := Apply(st, t, e);
    StepLocal(c, st, t, ch, e);
    StepAdvances(c, st, t, ch, e);
    forall s | s in st'.sessions ensures StreamOk(st', s, st'.sessions[s]) {
      if s in st.sessions { assert StreamOk(st, s, st.sessions[s]); }
      if Calm(st, st.threads[t], e) { CalmKeeps(st, t, e, s); }
      else if s == st.threads[t].pc.s { AdvanceKeepsOwn(st, t, e); }
      else { AdvanceKeepsOther(st, t, e, s); }
    }
    forall u | u in st'.threads ensures WriterOk(st'.threads[u].pc, st'.sessions) {
      if u != t { WriterKept(st, t, e, u); }
    }
  }

  lemma StepKeepsStreams(c: Config, st: State, a: Action, st': State)
    requires PrintsOneLine(c) && Inv(st) && StreamsOk(st) && WritersOk(st) && Step(c, st, a) == Some(st')
    ensures StreamsOk(st') && WritersOk(st')
  {
    match a
    case Signal => StreamsIrrelevant(st, st');
    case Spawn(t, role) =>
      StartHoldsNothing(role, st.sh.now);
      var mid := Spawned(st, t, role);
      SpawnKeepsStreams(st, t, role);
      StreamsIrrelevant(mid, st');
    case Go(t, ch) =>
      var e := ThreadStep(c, st, t, ch).value;
      EffectKeepsStreams(c, st, t, ch, e);
      StreamsIrrelevant(Apply(st, t, e), st');
  }

  lemma StreamsIrrelevant(st: State, st': State)
    requires StreamsOk(st) && WritersOk(st) && st'.threads == st.threads && st'.sessions == st.sessions
    ensures StreamsOk(st') && WritersOk(st')
  {
    forall s | s in st'.sessions ensures StreamOk(st', s, st'.sessions[s]) {
      assert StreamOk(st, s, st.sessions[s]);
      assert Partial(st', s, st'.sessions[s]) == Partial(st, s, st.sessions[s]);
    }
  }

  lemma SpawnKeepsStreams(st: State, t: Tid, role: Role)
    requires WriteLocks(st) && StreamsOk(st) && WritersOk(st) && t !in st.threads && role != Main
    ensures StreamsOk(Spawned(st, t, role)) && WritersOk(Spawned(st, t, role))
  {
    var st' := Spawned(st, t, role);
    forall s | s in st'.sessions ensures StreamOk(st', s, st'.sessions[s]) {
      assert StreamOk(st, s, st.sessions[s]);
      SpawnPartial(st, t, role, s);
    }
  }

  lemma SpawnPartial(st: State, t: Tid, role: Role, s: Sid)
    requires WriteLocks(st) && t !in st.threads && s in st.sessions
    ensures Partial(Spawned(st, t, role), s, st.sessions[s]) == Partial(st, s, st.sessions[s])
  {
    assert st.sessions[s].lock != Some(t);
  }

  lemma NextStreams(c: Config, states: seq<State>, actions: seq<Action>, i: nat)
    requires |states| == |actions| + 1 && i < |actions| && StepAt(c, states, actions, i)
    requires PrintsOneLine(c) && Inv(states[i]) && StreamsOk(states[i]) && WritersOk(states[i])
    ensures StreamsOk(states[i + 1]) && WritersOk(states[i + 1])
  {
    StepKeepsStreams(c, states[i], actions[i], states[i + 1]);
  }

  lemma {:induction false} RunStreams(c: Config, states: seq<State>, actions: seq<Action>, i: nat)
    requires PrintsOneLine(c) && IsRun(c, states, actions) && i < |states|
    ensures StreamsOk(states[i]) && WritersOk(states[i])
  {
    if i > 0 {
      RunStreams(c, states, actions, i - 1);
      RunInv(c, states, actions, i - 1);
      NextStreams(c, states, actions, i - 1);
    }
  }

  /** In every run the bytes on every stream are the completed units, whole and
      in the order in which their writers held the write_lock, followed by at
      most one unit cut short. */
  lemma WholeUnitsThenOneCut(c: Config, states: seq<State>, actions: seq<Action>, i: nat, s: Sid)
    requires PrintsOneLine(c) && IsRun(c, states, actions) && i < |states| && s in states[i].sessions
    ensures var se := states[i].sessions[s];
      exists tail, u :: SendableUnit(u) && Truncated(tail, u) && se.stream == WireUnits(se.log) + tail
  {
    RunStreams(c, states, actions, i);
    RunInv(c, states, actions, i);
    CutUnit(states[i], s);
  }

  lemma CutUnit(st: State, s: Sid)
    requires StreamsOk(st) && WritersOk(st) && WriteLocks(st) && s in st.sessions
    ensures var se := st.sessions[s];
      exists tail, u :: SendableUnit(u) && Truncated(tail, u) && se.stream == WireUnits(se.log) + tail
  {
    var se := st.sessions[s];
    assert StreamOk(st, s, se);
    if se.broken {
      assert SendableUnit(se.tornUnit) && Truncated(se.torn, se.tornUnit);
    } else if se.lock.Some? && PcOf(st, se.lock.value).Writing? {
      var pc := st.threads[se.lock.value].pc;
      assert HoldsWrite(pc) == Some(s);
      assert WriterOk(pc, st.sessions);
      var what := UnitOf(pc.job, se.id);
      UnitSendable(pc.job, se.id);
      assert Truncated(pc.done, what);
    } else {
      var what := Sent(Sse.Keepalive);
      EncodeNonempty(what);
      assert Truncated("", what);
    }
  }
}
