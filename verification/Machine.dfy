/** The HTTP server's threads as a step machine (src/mcp_http.c): any number of
    connection threads and the main thread, interleaved at every lock, unlock,
    atomic operation, list access, send and close. A step is sequentially
    consistent. Streams belong to sessions, not to descriptor numbers, and a
    send that has failed on a stream fails from then on. */
module Machine {
  import opened Json
  import Protocol
  import SessionId
  import Sse

  type Tid = nat
  type Sid = nat

  /** The server a run starts from, what the dispatcher does with a server and a
      message, which may differ from one dispatch to the next, and how responses
      are printed. */
  datatype Config = Config(
    server: Protocol.Server,
    handle: (Protocol.Server, Json, nat) -> Protocol.Outcome,
    render: Json -> string)

  // ----- what is written on a stream -----

  /** The reasons a thread takes a session's write_lock. */
  datatype Job = Head | Ping | Reply(text: string)

  /** What one hold of write_lock puts on the stream. */
  datatype Unit = Opening(id: string) | Sent(frame: Sse.Frame)

  datatype Entry = Entry(who: Tid, what: Unit)

  const HEAD_START :=
    "HTTP/1.1 200 OK" + "\r\n" + ("Content-Type: " + "text/event-stream") + "\r\n"
    + "Cache-Control: no-cache" + "\r\n" + "Connection: close" + "\r\n" + "Access-Control-Allow-Origin: *" + "\r\n"
    + ("Access-Control-" + "Expose-Headers: " + "Mcp-Session-Id") + "\r\n" + ("Mcp-Session-Id" + ": ")
  const ENDPOINT := SessionId.ENDPOINT

  function HeadText(id: string): string { HEAD_START + id + "\r\n\r\n" }

  function EndpointFrame(id: string): Sse.Frame { Sse.Event("endpoint", ENDPOINT + id) }

  function UnitOf(job: Job, id: string): Unit {
    match job
    case Head => Opening(id)
    case Ping => Sent(Sse.Keepalive)
    case Reply(text) => Sent(Sse.Event("message", text))
  }

  /** The separate writes of a unit. */
  function Pieces(u: Unit): seq<string> {
    match u
    case Opening(id) => [HeadText(id)] + Sse.Pieces(EndpointFrame(id))
    case Sent(f) => Sse.Pieces(f)
  }

  function EncodeUnit(u: Unit): string { Sse.Flatten(Pieces(u)) }

  // ----- sessions -----

  datatype Sock = Open | Shut | Closed

  /** A message event that a poster began to write, whether the session had been
      closed by then, and whether nothing had been sent on the stream yet. */
  datatype Begun = Begun(who: Tid, late: bool, first: bool)

  /** `refcount`, `closed` and `lock` are the fields of sse_session_t; the rest
      records what happened: who brought the count to zero, whether the lock was
      destroyed, how often the memory was freed, the bytes accepted on the
      stream, the completed units, the unit a failed send cut short, the message
      events begun, and every hold of write_lock with the unit it was taken for. */
  datatype Session = Session(
    id: string, owner: Tid,
    refcount: int, closed: bool, lock: Option<Tid>,
    reaper: Option<Tid>, destroyed: bool, frees: nat,
    sock: Sock, stream: string, log: seq<Entry>,
    broken: bool, torn: string, tornUnit: Unit,
    begun: seq<Begun>, holds: seq<Entry>)

  // ----- threads -----

  datatype Role =
    | Main
    | Stream                                      // GET /sse
    | Post(sid: string, body: Option<Json>)       // POST /message; None: the body does not parse
    | Mcp(body: Option<Json>)                     // POST /mcp

  /** The message a connection carries, if it parses. */
  function MessageOf(role: Role): Option<Json> {
    match role
    case Post(_, body) => body
    case Mcp(body) => body
    case _ => None
  }

  /** Program points: what the thread is about to do next. */
  datatype Pc =
    // the main thread
    | Accepting
    | WalkWant
    | WalkMark(rest: seq<Sid>)
    | WalkShut(rest: seq<Sid>)
    // a stream owner
    | Fresh
    | InsertWant(s: Sid)
    | Insert(s: Sid)
    | InsertUnlock(s: Sid)
    | PollShutdown(s: Sid)
    | PollClosed(s: Sid)
    | Recv(s: Sid)
    | Leave(s: Sid)
    | UnlinkWant(s: Sid)
    | Unlink(s: Sid, rest: seq<Sid>)
    | UnlinkUnlock(s: Sid)
    | SockShutdown(s: Sid)
    | SockClose(s: Sid)
    // a poster
    | FindWant
    | Find(rest: seq<Sid>)
    | Count(s: Sid)
    | FindUnlock(found: Option<Sid>)
    | Parse(s: Sid)
    | DispatchWant(target: Option<Sid>)
    | DispatchRead(target: Option<Sid>)
    | DispatchWrite(target: Option<Sid>, seen: Protocol.Server)
    | DispatchUnlock(target: Option<Sid>)
    | Print(s: Sid)
    // writing on a stream under its write_lock
    | WriteWant(s: Sid, job: Job)
    | WriteCheck(s: Sid, job: Job)
    | WriteBegin(s: Sid, job: Job)
    | Writing(s: Sid, job: Job, done: string, todo: seq<string>)
    | WriteUnlock(s: Sid, job: Job, ok: bool)
    // giving the session back
    | Release(s: Sid)
    | Destroy(s: Sid)
    | Free(s: Sid)
    | Finished

  /** `slot` is the thread's place in the order of dispatches, `called` and
      `returned` the times its dispatch_locked call began and ended, `reply`
      what that call returned, `acquired` the session session_acquire gave. */
  datatype Thread = Thread(
    role: Role, pc: Pc,
    slot: Option<nat>, called: nat, returned: Option<nat>,
    reply: Option<Json>, acquired: Option<Sid>)

  /** One dispatch: who, with which message, and when it took g_dispatch_lock. */
  datatype Turn = Turn(tid: Tid, msg: Json, at: nat)

  /** The global variables: g_sessions_head (as the sequence of its nodes),
      g_sessions_lock, g_dispatch_lock, g_shutdown and the server. `walked` says
      that the shutdown walk is over; `order` and `now` record history. */
  datatype Shared = Shared(
    list: seq<Sid>,
    sessLock: Option<Tid>,
    dispLock: Option<Tid>,
    shutdown: bool,
    walked: bool,
    server: Protocol.Server,
    order: seq<Turn>,
    now: nat)

  datatype State = State(threads: map<Tid, Thread>, sessions: map<Sid, Session>, sh: Shared)

  const MAIN: Tid := 0

  function Init(c: Config): State {
    State(map[MAIN := Thread(Main, Accepting, None, 0, None, None, None)],
          map[], Shared([], None, None, false, false, c.server, [], 0))
  }

  // ----- steps -----

  datatype Received = Data | Eof | Timeout | Interrupted | Failed

  /** How the environment resolves a step: success of a call that may fail, the
      number of bytes a send takes, what recv returns, a new session's name. */
  datatype Choice = Choice(ok: bool, n: nat, recv: Received, sid: Sid, id: string)

  datatype Action =
    | Signal
    | Spawn(t: Tid, role: Role)
    | Go(t: Tid, ch: Choice)

  /** What one step of a thread writes: its own record, at most one session,
      and the global variables. */
  datatype Effect = Effect(th: Thread, cell: Option<Cell>, sh: Shared)
  datatype Cell = Cell(s: Sid, se: Session)

  function Apply(st: State, t: Tid, e: Effect): State {
    State(st.threads[t := e.th],
          match e.cell case None => st.sessions case Some(c) => st.sessions[c.s := c.se],
          e.sh)
  }

  function Goto(st: State, t: Tid, pc: Pc): Effect
    requires t in st.threads
  {
    Effect(st.threads[t].(pc := pc), None, st.sh)
  }

  function Set(st: State, t: Tid, pc: Pc, s: Sid, se: Session): Effect
    requires t in st.threads
  {
    Effect(st.threads[t].(pc := pc), Some(Cell(s, se)), st.sh)
  }

  function Start(role: Role, now: nat): Thread {
    var pc := match role
      case Main => Finished
      case Stream => Fresh
      case Post(_, _) => FindWant
      case Mcp(body) => if body.Some? then DispatchWant(None) else Finished;
    Thread(role, pc, None, now, None, None, None)
  }

  function NewSession(id: string, owner: Tid): Session {
    Session(id, owner, 1, false, None, None, false, 0, Open, "", [], false, "", Opening(id), [], [])
  }

  function Drop(list: seq<Sid>, k: nat): seq<Sid>
    requires k < |list|
  {
    list[..k] + list[k + 1..]
  }

  function MainStep(st: State, t: Tid): Option<Effect>
    requires t in st.threads
  {
    match st.threads[t].pc
    case Accepting => if st.sh.shutdown then Some(Goto(st, t, WalkWant)) else None
    case WalkWant =>
      if st.sh.sessLock.Some? then None
      else Some(Goto(st, t, WalkMark(st.sh.list)).(sh := st.sh.(sessLock := Some(t))))
    case WalkMark(rest) =>
      if rest == [] then Some(Goto(st, t, Finished).(sh := st.sh.(sessLock := None, walked := true)))
      else if rest[0] !in st.sessions then None
      else Some(Set(st, t, WalkShut(rest), rest[0], st.sessions[rest[0]].(closed := true)))
    case WalkShut(rest) =>
      if rest == [] || rest[0] !in st.sessions then None
      else
        var se := st.sessions[rest[0]];
        Some(Set(st, t, WalkMark(rest[1..]), rest[0], se.(sock := if se.sock == Closed then Closed else Shut)))
    case _ => None
  }

  function StreamStep(st: State, t: Tid, ch: Choice): Option<Effect>
    requires t in st.threads
  {
    match st.threads[t].pc
    case Fresh =>
      if !ch.ok then Some(Goto(st, t, Finished))
      else if ch.sid in st.sessions || !SessionId.IsName(ch.id) then None
      else Some(Set(st, t, InsertWant(ch.sid), ch.sid, NewSession(ch.id, t)))
    case InsertWant(s) =>
      if st.sh.sessLock.Some? then None
      else Some(Goto(st, t, Insert(s)).(sh := st.sh.(sessLock := Some(t))))
    case Insert(s) => Some(Goto(st, t, InsertUnlock(s)).(sh := st.sh.(list := [s] + st.sh.list)))
    case InsertUnlock(s) => Some(Goto(st, t, WriteWant(s, Head)).(sh := st.sh.(sessLock := None)))
    case PollShutdown(s) => Some(Goto(st, t, if st.sh.shutdown then Leave(s) else PollClosed(s)))
    case PollClosed(s) =>
      if s !in st.sessions then None
      else Some(Goto(st, t, if st.sessions[s].closed then Leave(s) else Recv(s)))
    case Recv(s) =>
      Some(Goto(st, t, match ch.recv
        case Data => PollShutdown(s)
        case Interrupted => PollShutdown(s)
        case Timeout => WriteWant(s, Ping)
        case Eof => Leave(s)
        case Failed => Leave(s)))
    case Leave(s) =>
      if s !in st.sessions then None
      else Some(Set(st, t, UnlinkWant(s), s, st.sessions[s].(closed := true)))
    case UnlinkWant(s) =>
      if st.sh.sessLock.Some? then None
      else Some(Goto(st, t, Unlink(s, st.sh.list)).(sh := st.sh.(sessLock := Some(t))))
    case Unlink(s, rest) =>
      if rest == [] then Some(Goto(st, t, UnlinkUnlock(s)))
      else if rest[0] != s then Some(Goto(st, t, Unlink(s, rest[1..])))
      else if |rest| > |st.sh.list| then None
      else Some(Goto(st, t, UnlinkUnlock(s)).(
        sh := st.sh.(list := Drop(st.sh.list, |st.sh.list| - |rest|))))
    case UnlinkUnlock(s) => Some(Goto(st, t, Release(s)).(sh := st.sh.(sessLock := None)))
    case SockShutdown(s) =>
      if s !in st.sessions then None
      else Some(Set(st, t, SockClose(s), s, st.sessions[s].(sock := Shut)))
    case SockClose(s) =>
      if s !in st.sessions then None
      else Some(Set(st, t, Finished, s, st.sessions[s].(sock := Closed)))
    case _ => None
  }

  function PostStep(c: Config, st: State, t: Tid, sid: string, body: Option<Json>, ch: Choice): Option<Effect>
    requires t in st.threads
  {
    var th := st.threads[t];
    match th.pc
    case FindWant =>
      if st.sh.sessLock.Some? then None
      else Some(Goto(st, t, Find(st.sh.list)).(sh := st.sh.(sessLock := Some(t))))
    case Find(rest) =>
      if rest == [] then Some(Goto(st, t, FindUnlock(None)))
      else if rest[0] !in st.sessions then None
      else Some(Goto(st, t, if st.sessions[rest[0]].id == sid then Count(rest[0]) else Find(rest[1..])))
    case Count(s) =>
      if s !in st.sessions then None
      else
        var se := st.sessions[s];
        Some(Effect(th.(pc := FindUnlock(Some(s)), acquired := Some(s)),
                    Some(Cell(s, se.(refcount := se.refcount + 1))), st.sh))
    case FindUnlock(found) =>
      Some(Goto(st, t, if found.Some? then Parse(found.value) else Finished).(sh := st.sh.(sessLock := None)))
    case Parse(s) =>
      if body.None? then Some(Goto(st, t, Release(s)))
      else Some(Effect(th.(pc := DispatchWant(Some(s)), called := st.sh.now), None, st.sh))
    case Print(s) =>
      if th.reply.Some? && ch.ok then Some(Goto(st, t, WriteWant(s, Reply(c.render(th.reply.value)))))
      else Some(Goto(st, t, Release(s)))
    case _ => None
  }

  /** dispatch_locked: the handler reads the server and writes it back in two
      steps, so that only g_dispatch_lock makes them one. */
  function DispatchStep(c: Config, st: State, t: Tid, msg: Json): Option<Effect>
    requires t in st.threads
  {
    var th := st.threads[t];
    match th.pc
    case DispatchWant(target) =>
      if st.sh.dispLock.Some? then None
      else Some(Effect(th.(pc := DispatchRead(target), slot := Some(|st.sh.order|)), None,
                       st.sh.(dispLock := Some(t), order := st.sh.order + [Turn(t, msg, st.sh.now)])))
    case DispatchRead(target) => Some(Goto(st, t, DispatchWrite(target, st.sh.server)))
    case DispatchWrite(target, seen) =>
      var out := c.handle(seen, msg, if th.slot.Some? then th.slot.value else 0);
      Some(Effect(th.(pc := DispatchUnlock(target), reply := out.reply), None, st.sh.(server := out.server)))
    case DispatchUnlock(target) =>
      var pc := if target.Some? then Print(target.value) else Finished;
      Some(Effect(th.(pc := pc, returned := Some(st.sh.now)), None, st.sh.(dispLock := None)))
    case _ => None
  }

  function WriteStep(st: State, t: Tid, ch: Choice): Option<Effect>
    requires t in st.threads
  {
    match st.threads[t].pc
    case WriteWant(s, job) =>
      if s !in st.sessions || st.sessions[s].lock.Some? then None
      else
        var se := st.sessions[s];
        var held := se.holds + [Entry(t, UnitOf(job, se.id))];
        Some(Set(st, t, if job.Reply? then WriteCheck(s, job) else WriteBegin(s, job),
                 s, se.(lock := Some(t), holds := held)))
    case WriteCheck(s, job) =>
      if s !in st.sessions then None
      else Some(Goto(st, t, if st.sessions[s].closed then WriteUnlock(s, job, false) else WriteBegin(s, job)))
    case WriteBegin(s, job) =>
      if s !in st.sessions then None
      else
        var se := st.sessions[s];
        var first := se.stream == "" && !se.broken;
        var begun := if job.Reply? then se.begun + [Begun(t, se.closed, first)] else se.begun;
        Some(Set(st, t, Writing(s, job, "", Pieces(UnitOf(job, se.id))), s, se.(begun := begun)))
    case Writing(s, job, done, todo) =>
      if s !in st.sessions then None
      else
        var se := st.sessions[s];
        var what := UnitOf(job, se.id);
        if todo == [] then Some(Goto(st, t, WriteUnlock(s, job, true)))
        else if todo[0] == "" then Some(Goto(st, t, Writing(s, job, done, todo[1..])))
        else if ch.ok && se.sock == Open && !se.broken then
          var n := if ch.n <= |todo[0]| then ch.n else |todo[0]|;
          var sent := se.(stream := se.stream + todo[0][..n]);
          if n == |todo[0]| && |todo| == 1 then
            Some(Set(st, t, WriteUnlock(s, job, true), s, sent.(log := se.log + [Entry(t, what)])))
          else Some(Set(st, t, Writing(s, job, done + todo[0][..n], [todo[0][n..]] + todo[1..]), s, sent))
        else
          Some(Set(st, t, WriteUnlock(s, job, false),
                   s, if se.broken then se else se.(broken := true, torn := done, tornUnit := what)))
    case WriteUnlock(s, job, ok) =>
      if s !in st.sessions then None
      else Some(Set(st, t, if job.Reply? then Release(s) else if ok then PollShutdown(s) else Leave(s),
                    s, st.sessions[s].(lock := None)))
    case _ => None
  }

  /** session_release: the thread that brings the count to zero destroys the
      lock and frees the session. A stream owner then closes its socket. */
  function ReleaseStep(st: State, t: Tid): Option<Effect>
    requires t in st.threads
  {
    var th := st.threads[t];
    match th.pc
    case Release(s) =>
      if s !in st.sessions then None
      else
        var se := st.sessions[s];
        var last := se.refcount == 1;
        Some(Set(st, t, if last then Destroy(s) else AfterRelease(th.role, s),
                 s, se.(refcount := se.refcount - 1, reaper := if last then Some(t) else se.reaper)))
    case Destroy(s) =>
      if s !in st.sessions then None
      else Some(Set(st, t, Free(s), s, st.sessions[s].(destroyed := true)))
    case Free(s) =>
      if s !in st.sessions then None
      else
        var se := st.sessions[s];
        Some(Set(st, t, AfterRelease(th.role, s), s, se.(frees := se.frees + 1)))
    case _ => None
  }

  function AfterRelease(role: Role, s: Sid): Pc {
    if role == Stream then SockShutdown(s) else Finished
  }

  predicate Releases(pc: Pc) { pc.Release? || pc.Destroy? || pc.Free? }

  predicate Writes(pc: Pc) {
    pc.WriteWant? || pc.WriteCheck? || pc.WriteBegin? || pc.Writing? || pc.WriteUnlock?
  }

  predicate Dispatches(pc: Pc) {
    pc.DispatchWant? || pc.DispatchRead? || pc.DispatchWrite? || pc.DispatchUnlock?
  }

  /** One step of thread t; None when it is blocked or done. */
  function ThreadStep(c: Config, st: State, t: Tid, ch: Choice): Option<Effect>
    requires t in st.threads
  {
    var th := st.threads[t];
    if Releases(th.pc) then ReleaseStep(st, t)
    else if Writes(th.pc) then WriteStep(st, t, ch)
    else match th.role
      case Main => MainStep(st, t)
      case Stream => StreamStep(st, t, ch)
      case Post(sid, body) =>
        if Dispatches(th.pc) && body.Some? then DispatchStep(c, st, t, body.value)
        else PostStep(c, st, t, sid, body, ch)
      case Mcp(body) => if body.Some? then DispatchStep(c, st, t, body.value) else None
  }

  function Tick(st: State): State { st.(sh := st.sh.(now := st.sh.now + 1)) }

  /** One step of the whole server. Signals may arrive at any time; connections
      arrive while the main thread is in its accept loop. */
  function Step(c: Config, st: State, a: Action): Option<State> {
    match a
    case Signal => Some(Tick(st.(sh := st.sh.(shutdown := true))))
    case Spawn(t, role) =>
      if t in st.threads || role == Main || MAIN !in st.threads || st.threads[MAIN].pc != Accepting then None
      else Some(Tick(st.(threads := st.threads[t := Start(role, st.sh.now)])))
    case Go(t, ch) =>
      if t !in st.threads then None
      else match ThreadStep(c, st, t, ch)
        case None => None
        case Some(e) => Some(Tick(Apply(st, t, e)))
  }

  ghost predicate StepAt(c: Config, states: seq<State>, actions: seq<Action>, i: nat)
    requires |states| == |actions| + 1 && i < |actions|
  {
    Step(c, states[i], actions[i]) == Some(states[i + 1])
  }

  /** Any run of the server, of any length, under any schedule. */
  ghost predicate IsRun(c: Config, states: seq<State>, actions: seq<Action>) {
    && |states| == |actions| + 1
    && states[0] == Init(c)
    && forall i :: 0 <= i < |actions| ==> StepAt(c, states, actions, i)
  }
}
