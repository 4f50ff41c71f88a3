/** What comes first on a stream: its opening, or the event of a client that
    knew the session's name before the server had sent a byte. */
module Openings {
  import opened Json
  import opened Machine
  import opened Lifetime
  import opened Streams
  import opened StreamLaws
  import opened Posts

  /** Some POST began its event on the session before a byte had been sent. */
  ghost predicate Guessed(se: Session) {
    exists k :: 0 <= k < |se.begun| && se.begun[k].first
  }

  predicate WritesReply(pc: Pc, s: Sid) { pc.Writing? && pc.s == s && pc.job.Reply? }

  /** The first completed unit tells which it was; before there is one, the unit
      that was cut short does, or else the one being written. */
  ghost predicate FirstOk(st: State, s: Sid, se: Session) {
    if se.log != [] then se.log[0].what.Sent? <==> Guessed(se)
    else if se.broken then se.tornUnit.Sent? <==> Guessed(se)
    else Guessed(se) <==> se.lock.Some? && WritesReply(PcOf(st, se.lock.value), s)
  }

  ghost predicate FirstsOk(st: State) {
    forall s :: s in st.sessions ==> FirstOk(st, s, st.sessions[s])
  }

  // ----- one step -----

  /** What a session records of its writers. */
  predicate SameRecord(a: Session, b: Session) {
    && a.id == b.id && a.log == b.log && a.holds == b.holds
    && a.begun == b.begun && a.broken == b.broken && a.tornUnit == b.tornUnit
  }

  /** A step that writes nothing on a stream and takes or gives no write_lock. */
  ghost predicate Aloof(st: State, th: Thread, e: Effect) {
    && HoldsWrite(th.pc) == None && HoldsWrite(e.th.pc) == None
    && (e.cell.Some? ==>
          var Cell(s, se) := e.cell.value;
          if s in st.sessions then SameRecord(se, st.sessions[s]) && se.lock == st.sessions[s].lock
          else se.log == [] && se.holds == [] && se.begun == [] && !se.broken && se.lock == None)
  }

  lemma MainAloof(st: State, t: Tid, e: Effect)
    requires t in st.threads && MainStep(st, t) == Some(e)
    ensures Aloof(st, st.threads[t], e)
  {}

  lemma StreamAloof(st: State, t: Tid, ch: Choice, e: Effect)
    requires t in st.threads && StreamStep(st, t, ch) == Some(e)
    ensures Aloof(st, st.threads[t], e)
  {}

  lemma PostAloof(c: Config, st: State, t: Tid, sid: string, body: Option<Json>, ch: Choice, e: Effect)
    requires t in st.threads && PostStep(c, st, t, sid, body, ch) == Some(e)
    ensures Aloof(st, st.threads[t], e)
  {}

  lemma DispatchAloof(c: Config, st: State, t: Tid, msg: Json, e: Effect)
    requires t in st.threads && DispatchStep(c, st, t, msg) == Some(e)
    ensures Aloof(st, st.threads[t], e)
  {}

  lemma ReleaseAloof(st: State, t: Tid, e: Effect)
    requires t in st.threads && ReleaseStep(st, t) == Some(e)
    ensures Aloof(st, st.threads[t], e)
  {}

  lemma StepAloof(c: Config, st: State, t: Tid, ch: Choice, e: Effect)
    requires t in st.threads && ThreadStep(c, st, t, ch) == Some(e) && !Writes(st.threads[t].pc)
    ensures Aloof(st, st.threads[t], e)
  {
    var th := st.threads[t];
    if Releases(th.pc) { ReleaseAloof(st, t, e); }
    else {
      match th.role
      case Main => MainAloof(st, t, e);
      case Stream => StreamAloof(st, t, ch, e);
      case Post(sid, body) =>
        if Dispatches(th.pc) && body.Some? { DispatchAloof(c, st, t, body.value, e); }
        else { PostAloof(c, st, t, sid, body, ch, e); }
      case Mcp(body) => DispatchAloof(c, st, t, body.value, e);
    }
  }

  lemma AloofKeeps(st: State, t: Tid, e: Effect, s: Sid)
    requires t in st.threads && Aloof(st, st.threads[t], e) && WriteLocks(st)
    requires s in Apply(st, t, e).sessions && (s in st.sessions ==> FirstOk(st, s, st.sessions[s]))
    ensures FirstOk(Apply(st, t, e), s, Apply(st, t, e).sessions[s])
  {
    if s in st.sessions { assert st.sessions[s].lock != Some(t); }
  }

  /** A writing step leaves every session but its own alone. */
  lemma WriteKeepsOthers(st: State, t: Tid, ch: Choice, e: Effect, s: Sid)
    requires t in st.threads && Writes(st.threads[t].pc) && WriteStep(st, t, ch) == Some(e) && WriteLocks(st)
    requires s in st.sessions && s != st.threads[t].pc.s && FirstOk(st, s, st.sessions[s])
    ensures s in Apply(st, t, e).sessions && FirstOk(Apply(st, t, e), s, Apply(st, t, e).sessions[s])
  {
    assert st.sessions[s].lock != Some(t);
  }

  /** Taking the lock, checking, and giving it back. */
  lemma QuietWriteKeeps(st: State, t: Tid, ch: Choice, e: Effect)
    requires t in st.threads && Writes(st.threads[t].pc) && WriteStep(st, t, ch) == Some(e) && WriteLocks(st)
    requires !st.threads[t].pc.WriteBegin? && !st.threads[t].pc.Writing? && st.threads[t].pc.s in st.sessions
    requires FirstOk(st, st.threads[t].pc.s, st.sessions[st.threads[t].pc.s])
    ensures var s := st.threads[t].pc.s; FirstOk(Apply(st, t, e), s, Apply(st, t, e).sessions[s])
  {
    var s := st.threads[t].pc.s;
    assert HoldsWrite(st.threads[t].pc) == Some(s) ==> st.sessions[s].lock == Some(t);
  }

  lemma GuessedWith(a: Session, b: Session, begun: Begun)
    requires b.begun == a.begun + [begun]
    ensures Guessed(b) <==> Guessed(a) || begun.first
  {
    if Guessed(a) {
      var k :| 0 <= k < |a.begun| && a.begun[k].first;
      assert b.begun[k].first;
    }
    assert b.begun[|a.begun|] == begun;
  }

  lemma LoggedIsSent(log: seq<Entry>)
    requires log != []
    ensures WireUnits(log) != ""
  {
    EncodeNonempty(log[|log| - 1].what);
  }

  /** A stream that works is empty at the start of a unit exactly when no unit is
      complete. */
  lemma BareStream(st: State, t: Tid)
    requires t in st.threads && st.threads[t].pc.WriteBegin? && st.threads[t].pc.s in st.sessions
    requires var s := st.threads[t].pc.s; StreamOk(st, s, st.sessions[s]) && st.sessions[s].lock == Some(t)
    ensures var se := st.sessions[st.threads[t].pc.s]; !se.broken ==> (se.stream == "" <==> se.log == [])
  {
    var se := st.sessions[st.threads[t].pc.s];
    if se.log != [] { LoggedIsSent(se.log); }
  }

  /** Beginning an event: it is the first thing on the stream exactly when no
      unit is complete and none was cut short. */
  lemma BeginKeeps(st: State, t: Tid, ch: Choice, e: Effect)
    requires t in st.threads && st.threads[t].pc.WriteBegin? && WriteStep(st, t, ch) == Some(e) && WriteLocks(st)
    requires st.threads[t].pc.s in st.sessions
    requires var s := st.threads[t].pc.s; FirstOk(st, s, st.sessions[s]) && StreamOk(st, s, st.sessions[s])
    ensures var s := st.threads[t].pc.s; FirstOk(Apply(st, t, e), s, Apply(st, t, e).sessions[s])
  {
    hide StreamOk, Guessed, Pieces, UnitOf;
    var s := st.threads[t].pc.s;
    var was, se := st.sessions[s], Apply(st, t, e).sessions[s];
    assert was.lock == Some(t);
    BareStream(st, t);
    if st.threads[t].pc.job.Reply? {
      GuessedWith(was, se, Begun(t, was.closed, was.stream == "" && !was.broken));
    }
  }

  /** Writing: the first unit to complete, or to be cut short, is the one that
      was begun first. */
  lemma WritingKeeps(st: State, t: Tid, ch: Choice, e: Effect)
    requires t in st.threads && st.threads[t].pc.Writing? && WriteStep(st, t, ch) == Some(e) && WriteLocks(st)
    requires WellTyped(st.threads[t].role, st.threads[t].pc) && TalkOk(st.threads[t], st.sessions)
    requires st.threads[t].pc.s in st.sessions && st.threads[t].pc.todo != []
    requires FirstOk(st, st.threads[t].pc.s, st.sessions[st.threads[t].pc.s])
    ensures var s := st.threads[t].pc.s; FirstOk(Apply(st, t, e), s, Apply(st, t, e).sessions[s])
  {
    var pc := st.threads[t].pc;
    var was, se := st.sessions[pc.s], Apply(st, t, e).sessions[pc.s];
    assert was.lock == Some(t);
    AdvanceUnit(st.threads[t]);
    assert pc.job == Ping ==> was.log != [];
    assert se.begun == was.begun && (Guessed(se) <==> Guessed(was));
  }

  lemma EffectKeepsFirst(c: Config, st: State, t: Tid, ch: Choice, e: Effect)
    requires Typed(st) && Exist(st) && WriteLocks(st) && StreamsOk(st) && WritersOk(st) && Orderly(st) && FirstsOk(st)
    requires t in st.threads && ThreadStep(c, st, t, ch) == Some(e)
    ensures FirstsOk(Apply(st, t, e))
  {
    hide MainStep, StreamStep, PostStep, DispatchStep, WriteStep, ReleaseStep, FirstOk, TalkOk, StreamOk, WriterOk;
    var st' := Apply(st, t, e);
    var pc := st.threads[t].pc;
    if !Writes(pc) {
      StepAloof(c, st, t, ch, e);
      forall s | s in st'.sessions ensures FirstOk(st', s, st'.sessions[s]) { AloofKeeps(st, t, e, s); }
    } else {
      assert About(pc) == Some(pc.s);
      WritingHasSession(st, t);
      assert FirstOk(st, pc.s, st.sessions[pc.s]) && StreamOk(st, pc.s, st.sessions[pc.s]);
      OwnWriteKeeps(st, t, ch, e);
      forall s | s in st'.sessions ensures FirstOk(st', s, st'.sessions[s]) {
        WriteAddsNone(st, t, ch, e);
        if s != pc.s { WriteKeepsOthers(st, t, ch, e, s); }
      }
    }
  }

  lemma WriteAddsNone(st: State, t: Tid, ch: Choice, e: Effect)
    requires t in st.threads && Writes(st.threads[t].pc) && WriteStep(st, t, ch) == Some(e)
    requires st.threads[t].pc.s in st.sessions
    ensures Apply(st, t, e).sessions.Keys == st.sessions.Keys
  {}

  lemma OwnWriteKeeps(st: State, t: Tid, ch: Choice, e: Effect)
    requires t in st.threads && Writes(st.threads[t].pc) && WriteStep(st, t, ch) == Some(e) && WriteLocks(st)
    requires WellTyped(st.threads[t].role, st.threads[t].pc) && TalkOk(st.threads[t], st.sessions)
    requires st.threads[t].pc.s in st.sessions && (st.threads[t].pc.Writing? ==> st.threads[t].pc.todo != [])
    requires var s := st.threads[t].pc.s; FirstOk(st, s, st.sessions[s]) && StreamOk(st, s, st.sessions[s])
    ensures var s := st.threads[t].pc.s; FirstOk(Apply(st, t, e), s, Apply(st, t, e).sessions[s])
  {
    if st.threads[t].pc.WriteBegin? { BeginKeeps(st, t, ch, e); }
    else if st.threads[t].pc.Writing? { WritingKeeps(st, t, ch, e); }
    else { QuietWriteKeeps(st, t, ch, e); }
  }

  lemma FirstIrrelevant(st: State, st': State)
    requires FirstsOk(st) && st'.sessions == st.sessions
    requires forall t :: PcOf(st', t) == PcOf(st, t) || (!PcOf(st', t).Writing? && !PcOf(st, t).Writing?)
    ensures FirstsOk(st')
  {
    forall s | s in st'.sessions ensures FirstOk(st', s, st'.sessions[s]) { assert FirstOk(st, s, st.sessions[s]); }
  }

  lemma StepKeepsFirst(c: Config, st: State, a: Action, st': State)
    requires Inv(st) && StreamsOk(st) && WritersOk(st) && Orderly(st) && FirstsOk(st) && Step(c, st, a) == Some(st')
    ensures FirstsOk(st')
  {
    hide StreamsOk, WritersOk, Orderly, ThreadStep;
    match a
    case Signal => FirstIrrelevant(st, st');
    case Spawn(t, role) =>
      StartHoldsNothing(role, st.sh.now);
      FirstIrrelevant(st, st');
    case Go(t, ch) =>
      var e := ThreadStep(c, st, t, ch).value;
      EffectKeepsFirst(c, st, t, ch, e);
      FirstIrrelevant(Apply(st, t, e), st');
  }

  lemma NextFirst(c: Config, states: seq<State>, actions: seq<Action>, i: nat)
    requires |states| == |actions| + 1 && i < |actions| && StepAt(c, states, actions, i)
    requires Inv(states[i]) && StreamsOk(states[i]) && WritersOk(states[i]) && Orderly(states[i]) && FirstsOk(states[i])
    ensures FirstsOk(states[i + 1])
  {
    StepKeepsFirst(c, states[i], actions[i], states[i + 1]);
  }

  lemma {:induction false} RunFirst(c: Config, states: seq<State>, actions: seq<Action>, i: nat)
    requires PrintsOneLine(c) && IsRun(c, states, actions) && i < |states|
    ensures FirstsOk(states[i])
  {
    if i > 0 {
      RunFirst(c, states, actions, i - 1);
      RunInv(c, states, actions, i - 1);
      RunStreams(c, states, actions, i - 1);
      RunOrder(c, states, actions, i - 1);
      NextFirst(c, states, actions, i - 1);
    }
  }

  /** In every run the first completed unit of a stream is not its opening if and
      only if some POST began its event before a byte had been sent on it. */
  lemma WhatComesFirst(c: Config, states: seq<State>, actions: seq<Action>, i: nat, s: Sid)
    requires PrintsOneLine(c) && IsRun(c, states, actions) && i < |states| && s in states[i].sessions
    requires states[i].sessions[s].log != []
    ensures var se := states[i].sessions[s]; se.log[0].what != Opening(se.id) <==> Guessed(se)
  {
    RunFirst(c, states, actions, i);
    RunOrder(c, states, actions, i);
    assert LogOk(states[i].sessions[s]) && FirstOk(states[i], s, states[i].sessions[s]);
  }

  // ----- clients that learn a session's name from its stream -----

  /** A POST finds a session only after a byte of its stream has been sent: the
      response head names the session, and no earlier byte does. */
  ghost predicate DiscreetStep(st: State, a: Action) {
    a.Go? && a.t in st.threads && st.threads[a.t].pc.Count? && st.threads[a.t].pc.s in st.sessions ==>
      st.sessions[st.threads[a.t].pc.s].stream != ""
  }

  ghost predicate DiscreetAt(states: seq<State>, actions: seq<Action>, i: nat)
    requires i < |states| && i < |actions|
  {
    DiscreetStep(states[i], actions[i])
  }

  ghost predicate IsDiscreetRun(c: Config, states: seq<State>, actions: seq<Action>) {
    IsRun(c, states, actions) && forall i :: 0 <= i < |actions| ==> DiscreetAt(states, actions, i)
  }

  /** What a poster knows of the session it acquired. */
  ghost predicate Informed(th: Thread, sessions: map<Sid, Session>) {
    th.role.Post? && About(th.pc).Some? && About(th.pc).value in sessions ==>
      sessions[About(th.pc).value].stream != ""
  }

  ghost predicate Unguessed(st: State) {
    && (forall s :: s in st.sessions ==> !Guessed(st.sessions[s]))
    && (forall t :: t in st.threads ==> Informed(st.threads[t], st.sessions))
  }

  lemma StreamsGrow(st: State, t: Tid, e: Effect, s: Sid)
    requires t in st.threads && s in st.sessions
    requires Calm(st, st.threads[t], e) || Advance(st, st.threads[t], e)
    ensures s in Apply(st, t, e).sessions
    ensures st.sessions[s].stream != "" ==> Apply(st, t, e).sessions[s].stream != ""
  {}

  lemma OwnKnowledge(st: State, t: Tid, ch: Choice, e: Effect)
    requires t in st.threads && AboutLocal(st, st.threads[t], e) && e.th.role == st.threads[t].role
    requires WellTyped(st.threads[t].role, st.threads[t].pc) && Exist(st)
    requires Calm(st, st.threads[t], e) || Advance(st, st.threads[t], e)
    requires Informed(st.threads[t], st.sessions) && DiscreetStep(st, Go(t, ch))
    ensures Informed(e.th, Apply(st, t, e).sessions)
  {
    if e.th.role.Post? && About(e.th.pc).Some? {
      var s := About(e.th.pc).value;
      assert About(st.threads[t].pc) == Some(s) || (st.threads[t].pc.Count? && st.threads[t].pc.s == s);
      StreamsGrow(st, t, e, s);
    }
  }

  lemma StillUnguessed(c: Config, st: State, t: Tid, e: Effect, s: Sid)
    requires t in st.threads && PostLocals(c, st, t, st.threads[t], e)
    requires Informed(st.threads[t], st.sessions) && s in Apply(st, t, e).sessions
    requires s in st.sessions ==> !Guessed(st.sessions[s])
    ensures !Guessed(Apply(st, t, e).sessions[s])
  {
    if s in st.sessions {
      var was, se := st.sessions[s], Apply(st, t, e).sessions[s];
      if se.begun != was.begun {
        GuessedWith(was, se, Begun(t, was.closed, was.stream == "" && !was.broken));
      }
    }
  }

  lemma EffectKeepsUnguessed(c: Config, st: State, t: Tid, ch: Choice, e: Effect)
    requires PrintsOneLine(c) && Inv(st) && StreamsOk(st) && WritersOk(st) && PostsOk(c, st) && Unguessed(st)
    requires t in st.threads && ThreadStep(c, st, t, ch) == Some(e) && DiscreetStep(st, Go(t, ch))
    ensures Unguessed(Apply(st, t, e))
  {
    hide Inv, StreamsOk, WritersOk, PostsOk, ThreadStep, Guessed, PostLocals, Calm, Advance, AboutLocal, DiscreetStep;
    StepFacts(c, st, t, ch, e);
    var st' := Apply(st, t, e);
    forall s | s in st'.sessions ensures !Guessed(st'.sessions[s]) { StillUnguessed(c, st, t, e, s); }
    OwnKnowledge(st, t, ch, e);
    forall u | u in st'.threads ensures Informed(st'.threads[u], st'.sessions) {
      if u != t && About(st.threads[u].pc).Some? { StreamsGrow(st, t, e, About(st.threads[u].pc).value); }
    }
  }

  /** What a step is known to do. */
  lemma StepFacts(c: Config, st: State, t: Tid, ch: Choice, e: Effect)
    requires PrintsOneLine(c) && Inv(st) && StreamsOk(st) && WritersOk(st) && PostsOk(c, st)
    requires t in st.threads && ThreadStep(c, st, t, ch) == Some(e)
    ensures WellTyped(st.threads[t].role, st.threads[t].pc) && Exist(st) && e.th.role == st.threads[t].role
    ensures AboutLocal(st, st.threads[t], e) && PostLocals(c, st, t, st.threads[t], e)
    ensures Calm(st, st.threads[t], e) || Advance(st, st.threads[t], e)
  {
    hide ThreadStep, Calm, Advance, PostLocals, AboutLocal, StreamOk, SessionPosts;
    WritingHasSession(st, t);
    StepLocal(c, st, t, ch, e);
    StepAdvances(c, st, t, ch, e);
    StepPosts(c, st, t, ch, e);
  }

  lemma StepKeepsUnguessed(c: Config, st: State, a: Action, st': State)
    requires PrintsOneLine(c) && Inv(st) && StreamsOk(st) && WritersOk(st) && PostsOk(c, st) && Unguessed(st)
    requires Step(c, st, a) == Some(st') && DiscreetStep(st, a)
    ensures Unguessed(st')
  {
    hide Inv, StreamsOk, WritersOk, PostsOk, ThreadStep, Guessed, DiscreetStep;
    match a
    case Signal =>
    case Spawn(t, role) => StartHoldsNothing(role, st.sh.now);
    case Go(t, ch) => EffectKeepsUnguessed(c, st, t, ch, ThreadStep(c, st, t, ch).value);
  }

  lemma NextUnguessed(c: Config, states: seq<State>, actions: seq<Action>, i: nat)
    requires |states| == |actions| + 1 && i < |actions| && StepAt(c, states, actions, i)
    requires PrintsOneLine(c) && Inv(states[i]) && StreamsOk(states[i]) && WritersOk(states[i])
    requires PostsOk(c, states[i]) && Unguessed(states[i]) && DiscreetAt(states, actions, i)
    ensures Unguessed(states[i + 1])
  {
    StepKeepsUnguessed(c, states[i], actions[i], states[i + 1]);
  }

  lemma {:induction false} RunUnguessed(c: Config, states: seq<State>, actions: seq<Action>, i: nat)
    requires PrintsOneLine(c) && IsDiscreetRun(c, states, actions) && i < |states|
    ensures Unguessed(states[i])
  {
    if i > 0 {
      RunUnguessed(c, states, actions, i - 1);
      RunInv(c, states, actions, i - 1);
      RunStreams(c, states, actions, i - 1);
      RunPosts(c, states, actions, i - 1);
      NextUnguessed(c, states, actions, i - 1);
    }
  }

  /** When no POST counts a session before a byte of its stream has been sent, a
      stream carries nothing before its opening: the whole of it, or a part. */
  lemma OpeningComesFirst(c: Config, states: seq<State>, actions: seq<Action>, i: nat, s: Sid)
    requires PrintsOneLine(c) && IsDiscreetRun(c, states, actions) && i < |states| && s in states[i].sessions
    ensures var se := states[i].sessions[s];
      if se.log == [] then Truncated(se.stream, Opening(se.id)) else ReadsBack(se, 0)
  {
    RunUnguessed(c, states, actions, i);
    RunFirst(c, states, actions, i);
    if states[i].sessions[s].log == [] {
      RunInv(c, states, actions, i);
      RunStreams(c, states, actions, i);
      RunOrder(c, states, actions, i);
      OnlyOpening(states[i], s);
    } else {
      WhatComesFirst(c, states, actions, i, s);
      StreamReadsBack(c, states, actions, i, s, 0);
    }
  }

  lemma OnlyOpening(st: State, s: Sid)
    requires Typed(st) && WriteLocks(st) && StreamsOk(st) && WritersOk(st) && Orderly(st) && FirstsOk(st)
    requires s in st.sessions && st.sessions[s].log == [] && !Guessed(st.sessions[s])
    ensures Truncated(st.sessions[s].stream, Opening(st.sessions[s].id))
  {
    hide EncodeUnit, WriterOk;
    var se := st.sessions[s];
    assert StreamOk(st, s, se) && LogOk(se) && FirstOk(st, s, se);
    if se.broken {
      assert se.stream == se.torn;
    } else if se.lock.Some? && PcOf(st, se.lock.value).Writing? {
      var t := se.lock.value;
      assert HoldsWrite(st.threads[t].pc) == Some(s);
      OpeningWriter(st.threads[t], se, st.sessions);
      assert se.stream == st.threads[t].pc.done;
    } else {
      EncodeNonempty(Opening(se.id));
      assert se.stream == "";
    }
  }

  lemma OpeningWriter(th: Thread, se: Session, sessions: map<Sid, Session>)
    requires WellTyped(th.role, th.pc) && th.pc.Writing? && !th.pc.job.Reply?
    requires th.pc.s in sessions && sessions[th.pc.s] == se && se.log == []
    requires WriterOk(th.pc, sessions) && TalkOk(th, sessions)
    ensures Truncated(th.pc.done, Opening(se.id))
  {
    hide EncodeUnit;
    AdvanceUnit(th);
    assert Unopened(se.log);
    assert th.pc.job == Head;
  }
}
