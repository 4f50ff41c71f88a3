/** Runs and inputs at which the code does what a reader might not expect. */
module Witnesses {
  import opened Json
  import opened Machine
  import Protocol
  import Sse

  // ----- runs, step by step -----

  /** Some run ends in this state. */
  ghost predicate Reachable(c: Config, st: State) {
    exists states, actions :: IsRun(c, states, actions) && states[|actions|] == st
  }

  lemma ReachInit(c: Config)
    ensures Reachable(c, Init(c))
  {
    assert IsRun(c, [Init(c)], []);
  }

  lemma ReachStep(c: Config, st: State, a: Action, st': State)
    requires Reachable(c, st) && Step(c, st, a) == Some(st')
    ensures Reachable(c, st')
  {
    hide Step;
    var states, actions :| IsRun(c, states, actions) && states[|actions|] == st;
    var more, further := states + [st'], actions + [a];
    forall i | 0 <= i < |further| ensures StepAt(c, more, further, i) {
      if i < |actions| { assert StepAt(c, states, actions, i); }
    }
    assert IsRun(c, more, further) && more[|further|] == st';
  }

  lemma Advance(c: Config, st: State, t: Tid, ch: Choice) returns (st': State)
    requires Reachable(c, st) && t in st.threads && ThreadStep(c, st, t, ch).Some?
    ensures Reachable(c, st') && st' == Tick(Apply(st, t, ThreadStep(c, st, t, ch).value))
  {
    hide ThreadStep;
    st' := Tick(Apply(st, t, ThreadStep(c, st, t, ch).value));
    ReachStep(c, st, Go(t, ch), st');
  }

  // ----- a client that guesses a name -----

  const OWNER: Tid := 1
  const POSTER: Tid := 2
  const SESSION: Sid := 1

  /** Every call succeeds, and a send takes what it is given. */
  function Yes(id: string, n: nat): Choice { Choice(true, n, Data, SESSION, id) }

  /** The main thread accepts; an owner and a poster, who sends the message
      `null` to the session named `id`, are where it says; and g_sessions_lock
      and g_dispatch_lock are free unless it says so. */
  datatype Scene = Scene(owner: Pc, poster: Pc, sessions: map<Sid, Session>, list: seq<Sid>,
                         sessLock: Option<Tid>, dispLock: Option<Tid>)

  ghost predicate Shows(c: Config, id: string, st: State, sc: Scene) {
    && MAIN in st.threads && st.threads[MAIN].role == Main && st.threads[MAIN].pc == Accepting
    && OWNER in st.threads && st.threads[OWNER].role == Stream && st.threads[OWNER].pc == sc.owner
    && POSTER in st.threads && st.threads[POSTER].role == Post(id, Some(Null)) && st.threads[POSTER].pc == sc.poster
    && st.sessions == sc.sessions && st.sh.list == sc.list
    && st.sh.sessLock == sc.sessLock && st.sh.dispLock == sc.dispLock && st.sh.server == c.server
  }

  /** The first dispatch refuses the message `null`, as it does whenever memory
      lasts. */
  ghost predicate Refuses(c: Config) { c.handle(c.server, Null, 0) == Protocol.Handle(c.server, Null) }

  function Refusal(): Json { Protocol.ErrorReply(None, Protocol.INVALID_REQUEST, "message must be an object") }

  /** What is printed in answer to the message `null`. */
  function Text(c: Config): string { c.render(Refusal()) }

  lemma TwoConnections(c: Config, id: string) returns (st: State)
    ensures Reachable(c, st) && st.sh.order == [] && Shows(c, id, st, Scene(Fresh, FindWant, map[], [], None, None))
  {
    ReachInit(c);
    var st1 := Step(c, Init(c), Spawn(OWNER, Stream)).value;
    ReachStep(c, Init(c), Spawn(OWNER, Stream), st1);
    st := Step(c, st1, Spawn(POSTER, Post(id, Some(Null)))).value;
    ReachStep(c, st1, Spawn(POSTER, Post(id, Some(Null))), st);
  }

  lemma SessionMade(c: Config, id: string) returns (st: State)
    requires SessionId.IsName(id)
    ensures Reachable(c, st) && st.sh.order == []
    ensures Shows(c, id, st, Scene(InsertWant(SESSION), FindWant, map[SESSION := NewSession(id, OWNER)],
                                   [], None, None))
  {
    st := TwoConnections(c, id);
    st := Advance(c, st, OWNER, Yes(id, 0));
  }

  /** The owner lists its session and has not sent a byte. */
  lemma SessionListed(c: Config, id: string) returns (st: State)
    requires SessionId.IsName(id)
    ensures Reachable(c, st) && st.sh.order == []
    ensures Shows(c, id, st, Scene(WriteWant(SESSION, Head), FindWant, map[SESSION := NewSession(id, OWNER)],
                                   [SESSION], None, None))
  {
    hide MainStep, PostStep, DispatchStep, WriteStep, ReleaseStep, Reachable;
    st := SessionMade(c, id);
    st := Advance(c, st, OWNER, Yes(id, 0));
    st := Advance(c, st, OWNER, Yes(id, 0));
    st := Advance(c, st, OWNER, Yes(id, 0));
  }

  function Acquired(id: string): Session { NewSession(id, OWNER).(refcount := 2) }

  lemma SessionSought(c: Config, id: string) returns (st: State)
    requires SessionId.IsName(id)
    ensures Reachable(c, st) && st.sh.order == []
    ensures Shows(c, id, st, Scene(WriteWant(SESSION, Head), Count(SESSION), map[SESSION := NewSession(id, OWNER)],
                                   [SESSION], Some(POSTER), None))
  {
    hide MainStep, StreamStep, DispatchStep, WriteStep, ReleaseStep, Reachable, Text, SessionId.IsName;
    st := SessionListed(c, id);
    st := Advance(c, st, POSTER, Yes(id, 0));
    st := Advance(c, st, POSTER, Yes(id, 0));
  }

  /** The poster finds it by its name and counts itself. */
  lemma SessionFound(c: Config, id: string) returns (st: State)
    requires SessionId.IsName(id)
    ensures Reachable(c, st) && st.sh.order == []
    ensures Shows(c, id, st, Scene(WriteWant(SESSION, Head), FindUnlock(Some(SESSION)), map[SESSION := Acquired(id)],
                                   [SESSION], Some(POSTER), None))
  {
    hide MainStep, StreamStep, DispatchStep, WriteStep, ReleaseStep, Reachable, Text, SessionId.IsName;
    st := SessionSought(c, id);
    st := Advance(c, st, POSTER, Yes(id, 0));
  }

  lemma SessionAcquired(c: Config, id: string) returns (st: State)
    requires SessionId.IsName(id)
    ensures Reachable(c, st) && st.sh.order == []
    ensures Shows(c, id, st, Scene(WriteWant(SESSION, Head), DispatchWant(Some(SESSION)), map[SESSION := Acquired(id)],
                                [SESSION], None, None))
  {
    hide MainStep, StreamStep, DispatchStep, WriteStep, ReleaseStep, Reachable, Text, SessionId.IsName;
    st := SessionFound(c, id);
    st := Advance(c, st, POSTER, Yes(id, 0));
    st := Advance(c, st, POSTER, Yes(id, 0));
  }

  lemma Dispatching(c: Config, id: string) returns (st: State)
    requires SessionId.IsName(id)
    ensures Reachable(c, st) && POSTER in st.threads && st.threads[POSTER].slot == Some(0)
    ensures Shows(c, id, st, Scene(WriteWant(SESSION, Head), DispatchWrite(Some(SESSION), c.server),
                                   map[SESSION := Acquired(id)], [SESSION], None, Some(POSTER)))
  {
    hide MainStep, StreamStep, PostStep, WriteStep, ReleaseStep, Reachable;
    st := SessionAcquired(c, id);
    st := Advance(c, st, POSTER, Yes(id, 0));
    st := Advance(c, st, POSTER, Yes(id, 0));
  }

  /** Its message is dispatched and answered. */
  lemma Answered(c: Config, id: string) returns (st: State)
    requires Refuses(c) && SessionId.IsName(id)
    ensures Reachable(c, st) && POSTER in st.threads && st.threads[POSTER].reply == Some(Refusal())
    ensures Shows(c, id, st, Scene(WriteWant(SESSION, Head), DispatchUnlock(Some(SESSION)),
                                   map[SESSION := Acquired(id)], [SESSION], None, Some(POSTER)))
  {
    hide MainStep, StreamStep, PostStep, WriteStep, ReleaseStep, Reachable;
    st := Dispatching(c, id);
    st := Advance(c, st, POSTER, Yes(id, 0));
  }

  lemma Printed(c: Config, id: string) returns (st: State)
    requires Refuses(c) && SessionId.IsName(id)
    ensures Reachable(c, st)
    ensures Shows(c, id, st, Scene(WriteWant(SESSION, Head), WriteWant(SESSION, Reply(Text(c))),
                                   map[SESSION := Acquired(id)], [SESSION], None, None))
  {
    hide MainStep, StreamStep, WriteStep, ReleaseStep, Reachable, Refusal, SessionId.IsName;
    st := Answered(c, id);
    st := Advance(c, st, POSTER, Yes(id, 0));
    st := Advance(c, st, POSTER, Yes(id, 0));
  }

  function Held(c: Config, id: string): Session {
    Acquired(id).(lock := Some(POSTER), holds := [Entry(POSTER, UnitOf(Reply(Text(c)), id))])
  }

  lemma LockTaken(c: Config, id: string) returns (st: State)
    requires Refuses(c) && SessionId.IsName(id)
    ensures Reachable(c, st)
    ensures Shows(c, id, st, Scene(WriteWant(SESSION, Head), WriteCheck(SESSION, Reply(Text(c))),
                                   map[SESSION := Held(c, id)], [SESSION], None, None))
  {
    hide MainStep, StreamStep, PostStep, DispatchStep, ReleaseStep, Reachable, Text, UnitOf, SessionId.IsName;
    st := Printed(c, id);
    st := Advance(c, st, POSTER, Yes(id, 0));
    assert st.sessions[SESSION].holds == Held(c, id).holds;
  }

  /** It has the write_lock and has seen that the session is not closed. */
  lemma Poised(c: Config, id: string) returns (st: State)
    requires Refuses(c) && SessionId.IsName(id)
    ensures Reachable(c, st)
    ensures Shows(c, id, st, Scene(WriteWant(SESSION, Head), WriteBegin(SESSION, Reply(Text(c))),
                                   map[SESSION := Held(c, id)], [SESSION], None, None))
  {
    hide MainStep, StreamStep, PostStep, DispatchStep, ReleaseStep, Reachable, Text, UnitOf, SessionId.IsName;
    st := LockTaken(c, id);
    st := Advance(c, st, POSTER, Yes(id, 0));
  }

  /** A writer whose sends all succeed completes its unit. */
  lemma {:induction false} FinishUnit(c: Config, st: State, t: Tid, id: string) returns (st': State)
    requires Reachable(c, st) && t in st.threads && st.threads[t].pc.Writing?
    requires var pc := st.threads[t].pc;
      && pc.s in st.sessions && st.sessions[pc.s].sock == Open && !st.sessions[pc.s].broken
      && pc.todo != [] && pc.todo[|pc.todo| - 1] != ""
    ensures Reachable(c, st')
    ensures var pc := st.threads[t].pc; var se := st.sessions[pc.s];
      pc.s in st'.sessions && st'.sessions[pc.s].log == se.log + [Entry(t, UnitOf(pc.job, se.id))]
    decreases |st.threads[t].pc.todo|, if st.threads[t].pc.todo[0] == "" then 0 else 1
  {
    hide Pieces, UnitOf, Reachable, MainStep, StreamStep, PostStep, DispatchStep, ReleaseStep;
    var todo := st.threads[t].pc.todo;
    st' := Advance(c, st, t, Yes(id, |todo[0]|));
    if |todo| > 1 {
      var more := st'.threads[t].pc.todo;
      assert todo[0][|todo[0]|..] == "";
      assert more == if todo[0] == "" then todo[1..] else [""] + todo[1..];
      assert more[|more| - 1] == todo[|todo| - 1];
      st' := FinishUnit(c, st', t, id);
    }
  }

  /** A run in which the first thing on a stream is the event of a client that
      knew the name before the server had sent it. */
  lemma GuessComesFirst(c: Config, id: string) returns (states: seq<State>, actions: seq<Action>)
    requires Refuses(c) && SessionId.IsName(id)
    ensures IsRun(c, states, actions)
    ensures SESSION in states[|actions|].sessions
    ensures states[|actions|].sessions[SESSION].log == [Entry(POSTER, Sent(Sse.Event("message", Text(c))))]
  {
    hide MainStep, StreamStep, PostStep, DispatchStep, ReleaseStep;
    var st := Poised(c, id);
    st := Advance(c, st, POSTER, Yes(id, 0));
    assert st.threads[POSTER].pc.todo == ["event: ", "message", "\n", "data: ", Text(c), "\n\n"];
    st := FinishUnit(c, st, POSTER, id);
    states, actions :| IsRun(c, states, actions) && states[|actions|] == st;
  }

  /** The session of a scene closed by the walk. */
  lemma WalkPast(c: Config, id: string) returns (st: State)
    requires Refuses(c) && SessionId.IsName(id)
    ensures Reachable(c, st)
    ensures POSTER in st.threads && st.threads[POSTER].pc == WriteBegin(SESSION, Reply(Text(c)))
    ensures st.sessions == map[SESSION := Held(c, id).(closed := true)]
  {
    hide StreamStep, PostStep, DispatchStep, WriteStep, ReleaseStep, Reachable;
    st := Poised(c, id);
    ReachStep(c, st, Signal, Step(c, st, Signal).value);
    st := Step(c, st, Signal).value;
    st := Advance(c, st, MAIN, Yes(id, 0));
    st := Advance(c, st, MAIN, Yes(id, 0));
    st := Advance(c, st, MAIN, Yes(id, 0));
  }

  /** A run in which an event is begun on a session that shutdown has closed. */
  lemma EventAfterClose(c: Config, id: string) returns (states: seq<State>, actions: seq<Action>)
    requires Refuses(c) && SessionId.IsName(id)
    ensures IsRun(c, states, actions)
    ensures SESSION in states[|actions|].sessions
    ensures var se := states[|actions|].sessions[SESSION]; se.closed && |se.begun| == 1 && se.begun[0].late
  {
    hide MainStep, StreamStep, PostStep, DispatchStep, ReleaseStep;
    var st := WalkPast(c, id);
    st := Advance(c, st, POSTER, Yes(id, 0));
    states, actions :| IsRun(c, states, actions) && states[|actions|] == st;
  }
}
