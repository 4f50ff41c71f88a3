/** Locks, reference counts and session memory, in every interleaving. */
module Lifetime {
  import opened Json
  import opened Machine

  // ----- what a program point means -----

  /** The session the thread holds a counted reference to. */
  function Counted(pc: Pc): Option<Sid> {
    match pc
    case InsertWant(s) => Some(s)
    case Insert(s) => Some(s)
    case InsertUnlock(s) => Some(s)
    case PollShutdown(s) => Some(s)
    case PollClosed(s) => Some(s)
    case Recv(s) => Some(s)
    case Leave(s) => Some(s)
    case UnlinkWant(s) => Some(s)
    case Unlink(s, _) => Some(s)
    case UnlinkUnlock(s) => Some(s)
    case FindUnlock(found) => found
    case Parse(s) => Some(s)
    case DispatchWant(target) => target
    case DispatchRead(target) => target
    case DispatchWrite(target, _) => target
    case DispatchUnlock(target) => target
    case Print(s) => Some(s)
    case WriteWant(s, _) => Some(s)
    case WriteCheck(s, _) => Some(s)
    case WriteBegin(s, _) => Some(s)
    case Writing(s, _, _, _) => Some(s)
    case WriteUnlock(s, _, _) => Some(s)
    case Release(s) => Some(s)
    case _ => None
  }

  /** The session a stream owner's program point is about. */
  function About(pc: Pc): Option<Sid> {
    match pc
    case Destroy(s) => Some(s)
    case Free(s) => Some(s)
    case SockShutdown(s) => Some(s)
    case SockClose(s) => Some(s)
    case _ => Counted(pc)
  }

  /** The sessions whose memory the thread's next step reads or writes. Taking a
      node out of the list also writes the link of the node in front of it. */
  function Touches(pc: Pc, list: seq<Sid>): set<Sid> {
    match pc
    case WalkMark(rest) => if rest == [] then {} else {rest[0]}
    case WalkShut(rest) => if rest == [] then {} else {rest[0]}
    case Find(rest) => if rest == [] then {} else {rest[0]}
    case Count(s) => {s}
    case Unlink(s, rest) =>
      if rest == [] then {} else if rest[0] == s then {s} + InFrontOf(rest, list) else {rest[0]}
    case Insert(s) => {s}
    case PollClosed(s) => {s}
    case Leave(s) => {s}
    case WriteWant(s, _) => {s}
    case WriteCheck(s, _) => {s}
    case WriteBegin(s, _) => {s}
    case Writing(s, _, _, _) => {s}
    case WriteUnlock(s, _, _) => {s}
    case Release(s) => {s}
    case Destroy(s) => {s}
    case Free(s) => {s}
    case _ => {}
  }

  /** The node whose link leads to the rest of the list; none at the head. */
  function InFrontOf(rest: seq<Sid>, list: seq<Sid>): set<Sid> {
    if |rest| < |list| then {list[|list| - |rest| - 1]} else {}
  }

  predicate HoldsSessions(pc: Pc) {
    || pc.WalkMark? || pc.WalkShut? || pc.Insert? || pc.InsertUnlock?
    || pc.Unlink? || pc.UnlinkUnlock? || pc.Find? || pc.Count? || pc.FindUnlock?
  }

  predicate HoldsDispatch(pc: Pc) { pc.DispatchRead? || pc.DispatchWrite? || pc.DispatchUnlock? }

  function HoldsWrite(pc: Pc): Option<Sid> {
    match pc
    case WriteCheck(s, _) => Some(s)
    case WriteBegin(s, _) => Some(s)
    case Writing(s, _, _, _) => Some(s)
    case WriteUnlock(s, _, _) => Some(s)
    case _ => None
  }

  /** The owner has put session s into the list and not yet taken it out. */
  predicate Listed(pc: Pc, s: Sid) {
    Counted(pc) == Some(s) && !pc.InsertWant? && !pc.Insert? && !pc.UnlinkUnlock? && !pc.Release?
  }

  /** The thread is on the way to freeing s. */
  predicate Reaping(pc: Pc, s: Sid) { pc == Destroy(s) || pc == Free(s) }

  predicate WellTyped(role: Role, pc: Pc) {
    match role
    case Main => pc.Accepting? || pc.WalkWant? || pc.WalkMark? || pc.WalkShut? || pc.Finished?
    case Stream =>
      || pc.Fresh? || pc.InsertWant? || pc.Insert? || pc.InsertUnlock?
      || pc.PollShutdown? || pc.PollClosed? || pc.Recv? || pc.Leave?
      || pc.UnlinkWant? || pc.Unlink? || pc.UnlinkUnlock? || pc.SockShutdown? || pc.SockClose?
      || ((pc.WriteWant? || pc.WriteBegin? || pc.Writing? || pc.WriteUnlock?) && !pc.job.Reply?)
      || pc.Release? || pc.Destroy? || pc.Free? || pc.Finished?
    case Post(_, _) =>
      || pc.FindWant? || pc.Find? || pc.Count? || pc.FindUnlock? || pc.Parse? || pc.Print?
      || ((pc.DispatchWant? || pc.DispatchRead? || pc.DispatchWrite? || pc.DispatchUnlock?) && pc.target.Some?)
      || ((pc.WriteWant? || pc.WriteCheck? || pc.WriteBegin? || pc.Writing? || pc.WriteUnlock?) && pc.job.Reply?)
      || pc.Release? || pc.Destroy? || pc.Free? || pc.Finished?
    case Mcp(_) =>
      || ((pc.DispatchWant? || pc.DispatchRead? || pc.DispatchWrite? || pc.DispatchUnlock?) && pc.target.None?)
      || pc.Finished?
  }

  function PcOf(st: State, t: Tid): Pc {
    if t in st.threads then st.threads[t].pc else Finished
  }

  // ----- the invariant -----

  ghost predicate Typed(st: State) {
    && MAIN in st.threads
    && (forall t :: t in st.threads ==> (st.threads[t].role == Main <==> t == MAIN))
    && (forall t :: t in st.threads ==> WellTyped(st.threads[t].role, st.threads[t].pc))
  }

  /** Every program point is about sessions that exist. */
  ghost predicate Exist(st: State) {
    forall t :: t in st.threads && About(st.threads[t].pc).Some? ==> About(st.threads[t].pc).value in st.sessions
  }

  /** A session's owner is a stream thread that is about this session, and about
      no other, until it is done. */
  ghost predicate OwnerOf(st: State, s: Sid, o: Tid) {
    && o in st.threads && st.threads[o].role == Stream
    && (st.threads[o].pc == Finished || About(st.threads[o].pc) == Some(s))
  }

  ghost predicate Owned(st: State) {
    && Exist(st)
    && (forall s :: s in st.sessions ==> OwnerOf(st, s, st.sessions[s].owner))
    && (forall t, s | t in st.threads && s in st.sessions && st.threads[t].role == Stream
                      && About(st.threads[t].pc) == Some(s) :: st.sessions[s].owner == t)
  }

  ghost predicate GlobalLocks(st: State) {
    && (forall t :: st.sh.sessLock == Some(t) <==> t in st.threads && HoldsSessions(st.threads[t].pc))
    && (forall t :: st.sh.dispLock == Some(t) <==> t in st.threads && HoldsDispatch(st.threads[t].pc))
  }

  ghost predicate WriteLocks(st: State) {
    forall s, t :: s in st.sessions ==>
      (st.sessions[s].lock == Some(t) <==> t in st.threads && HoldsWrite(st.threads[t].pc) == Some(s))
  }

  /** The threads that hold a reference to s: its owner until it releases it,
      and the posters between acquire and release. */
  function Counters(st: State, s: Sid): set<Tid> {
    set t | t in st.threads && Counted(st.threads[t].pc) == Some(s)
  }

  ghost predicate Counts(st: State) {
    forall s :: s in st.sessions ==> st.sessions[s].refcount == |Counters(st, s)|
  }

  ghost predicate Reaped(st: State) {
    && (forall s :: s in st.sessions ==> ReapedSession(st, s, st.sessions[s]))
    && (forall t, s :: t in st.threads && s in st.sessions ==> ReapingThread(st, t, s, st.sessions[s]))
  }

  ghost predicate Distinct(list: seq<Sid>) {
    forall i, j :: 0 <= i < j < |list| ==> list[i] != list[j]
  }

  ghost predicate Listing(st: State) {
    && Distinct(st.sh.list)
    && (forall i :: 0 <= i < |st.sh.list| ==> st.sh.list[i] in st.sessions)
    && (forall s :: s in st.sessions ==> (s in st.sh.list <==> Listed(PcOf(st, st.sessions[s].owner), s)))
  }

  ghost predicate Suffix(rest: seq<Sid>, list: seq<Sid>) {
    |rest| <= |list| && rest == list[|list| - |rest|..]
  }

  /** A list cursor is a suffix of the list it walks; an unlinking owner has not
      passed its own session. */
  ghost predicate CursorOk(pc: Pc, list: seq<Sid>) {
    match pc
    case WalkMark(rest) => Suffix(rest, list)
    case WalkShut(rest) => Suffix(rest, list) && rest != []
    case Find(rest) => Suffix(rest, list)
    case Unlink(s, rest) => Suffix(rest, list) && s in rest
    case Count(s) => s in list
    case _ => true
  }

  ghost predicate Cursors(st: State) {
    forall t :: t in st.threads ==> CursorOk(st.threads[t].pc, st.sh.list)
  }

  ghost predicate Inv(st: State) {
    && Typed(st) && Owned(st) && GlobalLocks(st) && WriteLocks(st)
    && Counts(st) && Reaped(st) && Listing(st) && Cursors(st)
  }

  // ----- what one step of a thread does, locally -----

  predicate TypedLocal(th: Thread, e: Effect) {
    e.th.role == th.role && WellTyped(th.role, e.th.pc)
  }

  predicate CellLocal(st: State, t: Tid, th: Thread, e: Effect) {
    e.cell.Some? ==>
      var Cell(s, se) := e.cell.value;
      if s in st.sessions then se.id == st.sessions[s].id && se.owner == st.sessions[s].owner
      else se == NewSession(se.id, t) && th.role == Stream && th.pc == Fresh && e.th.pc == InsertWant(s)
  }

  predicate AboutLocal(st: State, th: Thread, e: Effect) {
    if th.pc == Fresh then
      || e.th.pc == Finished
      || (e.th.pc.InsertWant? && e.cell.Some? && e.cell.value.s == e.th.pc.s && e.th.pc.s !in st.sessions)
    else
      || (About(e.th.pc) == About(th.pc) && th.pc != Finished)
      || e.th.pc == Finished
      || (th.role != Stream && th.pc.Count? && About(e.th.pc) == Some(th.pc.s) && th.pc.s in st.sessions)
  }

  predicate SessLockLocal(st: State, t: Tid, th: Thread, e: Effect) {
    || (HoldsSessions(e.th.pc) == HoldsSessions(th.pc) && e.sh.sessLock == st.sh.sessLock)
    || (!HoldsSessions(th.pc) && HoldsSessions(e.th.pc) && st.sh.sessLock == None && e.sh.sessLock == Some(t))
    || (HoldsSessions(th.pc) && !HoldsSessions(e.th.pc) && e.sh.sessLock == None)
  }

  predicate DispLockLocal(st: State, t: Tid, th: Thread, e: Effect) {
    || (HoldsDispatch(e.th.pc) == HoldsDispatch(th.pc) && e.sh.dispLock == st.sh.dispLock)
    || (!HoldsDispatch(th.pc) && HoldsDispatch(e.th.pc) && st.sh.dispLock == None && e.sh.dispLock == Some(t))
    || (HoldsDispatch(th.pc) && !HoldsDispatch(e.th.pc) && e.sh.dispLock == None)
  }

  predicate WriteLockLocal(st: State, t: Tid, th: Thread, e: Effect) {
    if e.cell.None? || e.cell.value.s !in st.sessions then HoldsWrite(e.th.pc) == HoldsWrite(th.pc)
    else
      var Cell(s, se) := e.cell.value;
      var was := st.sessions[s].lock;
      || (se.lock == was && HoldsWrite(e.th.pc) == HoldsWrite(th.pc))
      || (was == None && se.lock == Some(t) && HoldsWrite(th.pc) == None && HoldsWrite(e.th.pc) == Some(s))
      || (HoldsWrite(th.pc) == Some(s) && se.lock == None && HoldsWrite(e.th.pc) == None)
  }

  predicate AboutLocals(st: State, t: Tid, th: Thread, e: Effect) {
    TypedLocal(th, e) && CellLocal(st, t, th, e) && AboutLocal(st, th, e)
  }

  predicate GlobalLockLocals(st: State, t: Tid, th: Thread, e: Effect) {
    SessLockLocal(st, t, th, e) && DispLockLocal(st, t, th, e)
  }

  predicate Local(st: State, t: Tid, th: Thread, e: Effect) {
    AboutLocals(st, t, th, e) && GlobalLockLocals(st, t, th, e) && WriteLockLocal(st, t, th, e)
  }

  lemma MainTyped(st: State, t: Tid, e: Effect)
    requires t in st.threads && WellTyped(st.threads[t].role, st.threads[t].pc)
    requires st.threads[t].role == Main && MainStep(st, t) == Some(e)
    ensures TypedLocal(st.threads[t], e)
  {}

  lemma MainAbouts(st: State, t: Tid, e: Effect)
    requires t in st.threads && WellTyped(st.threads[t].role, st.threads[t].pc)
    requires st.threads[t].role == Main && MainStep(st, t) == Some(e)
    ensures CellLocal(st, t, st.threads[t], e) && AboutLocal(st, st.threads[t], e)
  {}

  lemma MainGlobalLocks(st: State, t: Tid, e: Effect)
    requires t in st.threads && WellTyped(st.threads[t].role, st.threads[t].pc)
    requires st.threads[t].role == Main && MainStep(st, t) == Some(e)
    ensures GlobalLockLocals(st, t, st.threads[t], e)
  {}

  lemma MainWriteLocks(st: State, t: Tid, e: Effect)
    requires t in st.threads && WellTyped(st.threads[t].role, st.threads[t].pc)
    requires st.threads[t].role == Main && MainStep(st, t) == Some(e)
    ensures WriteLockLocal(st, t, st.threads[t], e)
  {}

  lemma MainLocal(st: State, t: Tid, e: Effect)
    requires t in st.threads && WellTyped(st.threads[t].role, st.threads[t].pc)
    requires st.threads[t].role == Main && MainStep(st, t) == Some(e)
    ensures Local(st, t, st.threads[t], e)
  {
    MainTyped(st, t, e);
    MainAbouts(st, t, e);
    MainGlobalLocks(st, t, e);
    MainWriteLocks(st, t, e);
  }

  lemma StreamTyped(st: State, t: Tid, ch: Choice, e: Effect)
    requires t in st.threads && WellTyped(st.threads[t].role, st.threads[t].pc)
    requires st.threads[t].role == Stream && StreamStep(st, t, ch) == Some(e)
    ensures TypedLocal(st.threads[t], e)
  {}

  lemma StreamAbouts(st: State, t: Tid, ch: Choice, e: Effect)
    requires t in st.threads && WellTyped(st.threads[t].role, st.threads[t].pc)
    requires st.threads[t].role == Stream && StreamStep(st, t, ch) == Some(e)
    ensures CellLocal(st, t, st.threads[t], e) && AboutLocal(st, st.threads[t], e)
  {}

  lemma StreamGlobalLocks(st: State, t: Tid, ch: Choice, e: Effect)
    requires t in st.threads && WellTyped(st.threads[t].role, st.threads[t].pc)
    requires st.threads[t].role == Stream && StreamStep(st, t, ch) == Some(e)
    ensures GlobalLockLocals(st, t, st.threads[t], e)
  {}

  lemma StreamWriteLocks(st: State, t: Tid, ch: Choice, e: Effect)
    requires t in st.threads && WellTyped(st.threads[t].role, st.threads[t].pc)
    requires st.threads[t].role == Stream && StreamStep(st, t, ch) == Some(e)
    ensures WriteLockLocal(st, t, st.threads[t], e)
  {}

  lemma StreamLocal(st: State, t: Tid, ch: Choice, e: Effect)
    requires t in st.threads && WellTyped(st.threads[t].role, st.threads[t].pc)
    requires st.threads[t].role == Stream && StreamStep(st, t, ch) == Some(e)
    ensures Local(st, t, st.threads[t], e)
  {
    StreamTyped(st, t, ch, e);
    StreamAbouts(st, t, ch, e);
    StreamGlobalLocks(st, t, ch, e);
    StreamWriteLocks(st, t, ch, e);
  }

  lemma PostTyped(c: Config, st: State, t: Tid, sid: string, body: Option<Json>, ch: Choice, e: Effect)
    requires t in st.threads && WellTyped(st.threads[t].role, st.threads[t].pc)
    requires st.threads[t].role.Post? && PostStep(c, st, t, sid, body, ch) == Some(e)
    ensures TypedLocal(st.threads[t], e)
  {}

  lemma PostAbouts(c: Config, st: State, t: Tid, sid: string, body: Option<Json>, ch: Choice, e: Effect)
    requires t in st.threads && WellTyped(st.threads[t].role, st.threads[t].pc)
    requires st.threads[t].role.Post? && PostStep(c, st, t, sid, body, ch) == Some(e)
    ensures CellLocal(st, t, st.threads[t], e) && AboutLocal(st, st.threads[t], e)
  {}

  lemma PostGlobalLocks(c: Config, st: State, t: Tid, sid: string, body: Option<Json>, ch: Choice, e: Effect)
    requires t in st.threads && WellTyped(st.threads[t].role, st.threads[t].pc)
    requires st.threads[t].role.Post? && PostStep(c, st, t, sid, body, ch) == Some(e)
    ensures GlobalLockLocals(st, t, st.threads[t], e)
  {}

  lemma PostWriteLocks(c: Config, st: State, t: Tid, sid: string, body: Option<Json>, ch: Choice, e: Effect)
    requires t in st.threads && WellTyped(st.threads[t].role, st.threads[t].pc)
    requires st.threads[t].role.Post? && PostStep(c, st, t, sid, body, ch) == Some(e)
    ensures WriteLockLocal(st, t, st.threads[t], e)
  {}

  lemma PostLocal(c: Config, st: State, t: Tid, sid: string, body: Option<Json>, ch: Choice, e: Effect)
    requires t in st.threads && WellTyped(st.threads[t].role, st.threads[t].pc)
    requires st.threads[t].role.Post? && PostStep(c, st, t, sid, body, ch) == Some(e)
    ensures Local(st, t, st.threads[t], e)
  {
    PostTyped(c, st, t, sid, body, ch, e);
    PostAbouts(c, st, t, sid, body, ch, e);
    PostGlobalLocks(c, st, t, sid, body, ch, e);
    PostWriteLocks(c, st, t, sid, body, ch, e);
  }

  lemma DispatchTyped(c: Config, st: State, t: Tid, msg: Json, e: Effect)
    requires t in st.threads && WellTyped(st.threads[t].role, st.threads[t].pc)
    requires (st.threads[t].role.Post? || st.threads[t].role.Mcp?) && DispatchStep(c, st, t, msg) == Some(e)
    ensures TypedLocal(st.threads[t], e)
  {}

  lemma DispatchAbouts(c: Config, st: State, t: Tid, msg: Json, e: Effect)
    requires t in st.threads && WellTyped(st.threads[t].role, st.threads[t].pc)
    requires (st.threads[t].role.Post? || st.threads[t].role.Mcp?) && DispatchStep(c, st, t, msg) == Some(e)
    ensures CellLocal(st, t, st.threads[t], e) && AboutLocal(st, st.threads[t], e)
  {}

  lemma DispatchGlobalLocks(c: Config, st: State, t: Tid, msg: Json, e: Effect)
    requires t in st.threads && WellTyped(st.threads[t].role, st.threads[t].pc)
    requires (st.threads[t].role.Post? || st.threads[t].role.Mcp?) && DispatchStep(c, st, t, msg) == Some(e)
    ensures GlobalLockLocals(st, t, st.threads[t], e)
  {}

  lemma DispatchWriteLocks(c: Config, st: State, t: Tid, msg: Json, e: Effect)
    requires t in st.threads && WellTyped(st.threads[t].role, st.threads[t].pc)
    requires (st.threads[t].role.Post? || st.threads[t].role.Mcp?) && DispatchStep(c, st, t, msg) == Some(e)
    ensures WriteLockLocal(st, t, st.threads[t], e)
  {}

  lemma DispatchLocal(c: Config, st: State, t: Tid, msg: Json, e: Effect)
    requires t in st.threads && WellTyped(st.threads[t].role, st.threads[t].pc)
    requires (st.threads[t].role.Post? || st.threads[t].role.Mcp?) && DispatchStep(c, st, t, msg) == Some(e)
    ensures Local(st, t, st.threads[t], e)
  {
    DispatchTyped(c, st, t, msg, e);
    DispatchAbouts(c, st, t, msg, e);
    DispatchGlobalLocks(c, st, t, msg, e);
    DispatchWriteLocks(c, st, t, msg, e);
  }

  lemma WriteTyped(st: State, t: Tid, ch: Choice, e: Effect)
    requires t in st.threads && WellTyped(st.threads[t].role, st.threads[t].pc)
    requires Writes(st.threads[t].pc) && WriteStep(st, t, ch) == Some(e)
    ensures TypedLocal(st.threads[t], e)
  {}

  lemma WritingAbouts(st: State, t: Tid, ch: Choice, e: Effect)
    requires t in st.threads && st.threads[t].pc.Writing? && WriteStep(st, t, ch) == Some(e)
    ensures CellLocal(st, t, st.threads[t], e) && AboutLocal(st, st.threads[t], e)
  {}

  lemma WriteAbouts(st: State, t: Tid, ch: Choice, e: Effect)
    requires t in st.threads && WellTyped(st.threads[t].role, st.threads[t].pc)
    requires Writes(st.threads[t].pc) && WriteStep(st, t, ch) == Some(e)
    ensures CellLocal(st, t, st.threads[t], e) && AboutLocal(st, st.threads[t], e)
  {
    hide Pieces, UnitOf;
    if st.threads[t].pc.Writing? { WritingAbouts(st, t, ch, e); }
  }

  lemma WriteGlobalLocks(st: State, t: Tid, ch: Choice, e: Effect)
    requires t in st.threads && WellTyped(st.threads[t].role, st.threads[t].pc)
    requires Writes(st.threads[t].pc) && WriteStep(st, t, ch) == Some(e)
    ensures GlobalLockLocals(st, t, st.threads[t], e)
  {}

  lemma WritingWriteLocks(st: State, t: Tid, ch: Choice, e: Effect)
    requires t in st.threads && st.threads[t].pc.Writing? && WriteStep(st, t, ch) == Some(e)
    ensures WriteLockLocal(st, t, st.threads[t], e)
  {}

  lemma WriteWriteLocks(st: State, t: Tid, ch: Choice, e: Effect)
    requires t in st.threads && WellTyped(st.threads[t].role, st.threads[t].pc)
    requires Writes(st.threads[t].pc) && WriteStep(st, t, ch) == Some(e)
    ensures WriteLockLocal(st, t, st.threads[t], e)
  {
    if st.threads[t].pc.Writing? { WritingWriteLocks(st, t, ch, e); }
  }

  lemma WriteLocal(st: State, t: Tid, ch: Choice, e: Effect)
    requires t in st.threads && WellTyped(st.threads[t].role, st.threads[t].pc)
    requires Writes(st.threads[t].pc) && WriteStep(st, t, ch) == Some(e)
    ensures Local(st, t, st.threads[t], e)
  {
    WriteTyped(st, t, ch, e);
    WriteAbouts(st, t, ch, e);
    WriteGlobalLocks(st, t, ch, e);
    WriteWriteLocks(st, t, ch, e);
  }

  lemma ReleaseTyped(st: State, t: Tid, e: Effect)
    requires t in st.threads && WellTyped(st.threads[t].role, st.threads[t].pc)
    requires Releases(st.threads[t].pc) && ReleaseStep(st, t) == Some(e)
    ensures TypedLocal(st.threads[t], e)
  {}

  lemma ReleaseAbouts(st: State, t: Tid, e: Effect)
    requires t in st.threads && WellTyped(st.threads[t].role, st.threads[t].pc)
    requires Releases(st.threads[t].pc) && ReleaseStep(st, t) == Some(e)
    ensures CellLocal(st, t, st.threads[t], e) && AboutLocal(st, st.threads[t], e)
  {}

  lemma ReleaseGlobalLocks(st: State, t: Tid, e: Effect)
    requires t in st.threads && WellTyped(st.threads[t].role, st.threads[t].pc)
    requires Releases(st.threads[t].pc) && ReleaseStep(st, t) == Some(e)
    ensures GlobalLockLocals(st, t, st.threads[t], e)
  {}

  lemma ReleaseWriteLocks(st: State, t: Tid, e: Effect)
    requires t in st.threads && WellTyped(st.threads[t].role, st.threads[t].pc)
    requires Releases(st.threads[t].pc) && ReleaseStep(st, t) == Some(e)
    ensures WriteLockLocal(st, t, st.threads[t], e)
  {}

  lemma ReleaseLocal(st: State, t: Tid, e: Effect)
    requires t in st.threads && WellTyped(st.threads[t].role, st.threads[t].pc)
    requires Releases(st.threads[t].pc) && ReleaseStep(st, t) == Some(e)
    ensures Local(st, t, st.threads[t], e)
  {
    ReleaseTyped(st, t, e);
    ReleaseAbouts(st, t, e);
    ReleaseGlobalLocks(st, t, e);
    ReleaseWriteLocks(st, t, e);
  }

  lemma StepLocal(c: Config, st: State, t: Tid, ch: Choice, e: Effect)
    requires t in st.threads && ThreadStep(c, st, t, ch) == Some(e)
    requires WellTyped(st.threads[t].role, st.threads[t].pc)
    ensures Local(st, t, st.threads[t], e)
  {
    var th := st.threads[t];
    if Releases(th.pc) { ReleaseLocal(st, t, e); }
    else if Writes(th.pc) { WriteLocal(st, t, ch, e); }
    else {
      match th.role
      case Main => MainLocal(st, t, e);
      case Stream => StreamLocal(st, t, ch, e);
      case Post(sid, body) =>
        if Dispatches(th.pc) && body.Some? { DispatchLocal(c, st, t, body.value, e); }
        else { PostLocal(c, st, t, sid, body, ch, e); }
      case Mcp(body) => DispatchLocal(c, st, t, body.value, e);
    }
  }

  // ----- what that means for all threads -----

  lemma TypedKept(st: State, t: Tid, e: Effect)
    requires Typed(st) && t in st.threads && TypedLocal(st.threads[t], e)
    ensures Typed(Apply(st, t, e))
  {}

  lemma ExistKept(st: State, t: Tid, e: Effect)
    requires Exist(st) && t in st.threads
    requires AboutLocal(st, st.threads[t], e)
    ensures Exist(Apply(st, t, e))
  {
    var st' := Apply(st, t, e);
    forall u | u in st'.threads && About(st'.threads[u].pc).Some?
      ensures About(st'.threads[u].pc).value in st'.sessions
    {
      if u != t { assert st'.threads[u] == st.threads[u]; }
    }
  }

  lemma OwnersKept(st: State, t: Tid, e: Effect, s: Sid)
    requires Exist(st) && t in st.threads && e.th.role == st.threads[t].role
    requires CellLocal(st, t, st.threads[t], e) && AboutLocal(st, st.threads[t], e)
    requires s in st.sessions ==> OwnerOf(st, s, st.sessions[s].owner)
    requires s in Apply(st, t, e).sessions
    ensures OwnerOf(Apply(st, t, e), s, Apply(st, t, e).sessions[s].owner)
  {
    var th, pc' := st.threads[t], e.th.pc;
    if s in st.sessions && st.sessions[s].owner == t {
      assert th.pc != Fresh;
      assert About(pc') == About(th.pc) || pc' == Finished;
    }
  }

  lemma StreamsKept(st: State, t: Tid, e: Effect, u: Tid, s: Sid)
    requires Exist(st) && t in st.threads && e.th.role == st.threads[t].role
    requires CellLocal(st, t, st.threads[t], e) && AboutLocal(st, st.threads[t], e)
    requires var st' := Apply(st, t, e);
      u in st'.threads && s in st'.sessions && st'.threads[u].role == Stream && About(st'.threads[u].pc) == Some(s)
    requires u in st.threads && s in st.sessions && About(st.threads[u].pc) == Some(s) ==> st.sessions[s].owner == u
    ensures Apply(st, t, e).sessions[s].owner == u
  {
    if u != t { assert s in st.sessions; }
  }

  lemma AllOwnersKept(st: State, t: Tid, e: Effect)
    requires Owned(st) && t in st.threads && e.th.role == st.threads[t].role
    requires CellLocal(st, t, st.threads[t], e) && AboutLocal(st, st.threads[t], e)
    ensures forall s :: s in Apply(st, t, e).sessions ==>
      OwnerOf(Apply(st, t, e), s, Apply(st, t, e).sessions[s].owner)
  {
    forall s | s in Apply(st, t, e).sessions
      ensures OwnerOf(Apply(st, t, e), s, Apply(st, t, e).sessions[s].owner)
    {
      OwnersKept(st, t, e, s);
    }
  }

  lemma AllStreamsKept(st: State, t: Tid, e: Effect)
    requires Owned(st) && t in st.threads && e.th.role == st.threads[t].role
    requires CellLocal(st, t, st.threads[t], e) && AboutLocal(st, st.threads[t], e)
    ensures var st' := Apply(st, t, e);
      forall u, s | u in st'.threads && s in st'.sessions && st'.threads[u].role == Stream
                    && About(st'.threads[u].pc) == Some(s) :: st'.sessions[s].owner == u
  {
    var st' := Apply(st, t, e);
    forall u, s | u in st'.threads && s in st'.sessions && st'.threads[u].role == Stream
                  && About(st'.threads[u].pc) == Some(s)
      ensures st'.sessions[s].owner == u
    {
      StreamsKept(st, t, e, u, s);
    }
  }

  lemma OwnedKept(st: State, t: Tid, e: Effect)
    requires Owned(st) && t in st.threads && e.th.role == st.threads[t].role
    requires CellLocal(st, t, st.threads[t], e) && AboutLocal(st, st.threads[t], e)
    ensures Owned(Apply(st, t, e))
  {
    ExistKept(st, t, e);
    AllOwnersKept(st, t, e);
    AllStreamsKept(st, t, e);
  }

  lemma GlobalLocksKept(st: State, t: Tid, e: Effect)
    requires GlobalLocks(st) && t in st.threads
    requires SessLockLocal(st, t, st.threads[t], e) && DispLockLocal(st, t, st.threads[t], e)
    ensures GlobalLocks(Apply(st, t, e))
  {}

  lemma HoldsWriteIsAbout(pc: Pc)
    ensures HoldsWrite(pc).Some? ==> About(pc) == HoldsWrite(pc)
  {}

  lemma WriteLocksKept(st: State, t: Tid, e: Effect)
    requires Exist(st) && WriteLocks(st) && t in st.threads && WriteLockLocal(st, t, st.threads[t], e)
    requires CellLocal(st, t, st.threads[t], e)
    ensures WriteLocks(Apply(st, t, e))
  {
    var st' := Apply(st, t, e);
    forall s, u | s in st'.sessions
      ensures st'.sessions[s].lock == Some(u) <==> u in st'.threads && HoldsWrite(st'.threads[u].pc) == Some(s)
    {
      if s in st.sessions {
        assert st.sessions[s].lock == Some(u) <==> u in st.threads && HoldsWrite(st.threads[u].pc) == Some(s);
        assert st.sessions[s].lock == Some(t) <==> HoldsWrite(st.threads[t].pc) == Some(s);
      } else if u in st.threads {
        HoldsWriteIsAbout(st.threads[u].pc);
      }
    }
  }

  // ----- reference counts -----

  predicate CountLocal(st: State, th: Thread, e: Effect) {
    if e.cell.None? then Counted(e.th.pc) == Counted(th.pc)
    else
      var Cell(s, se) := e.cell.value;
      if s !in st.sessions then se.refcount == 1 && Counted(th.pc) == None && Counted(e.th.pc) == Some(s)
      else
        var was := st.sessions[s].refcount;
        || (se.refcount == was && Counted(e.th.pc) == Counted(th.pc))
        || (se.refcount == was + 1 && Counted(th.pc) == None && Counted(e.th.pc) == Some(s))
        || (se.refcount == was - 1 && Counted(th.pc) == Some(s) && Counted(e.th.pc) == None)
  }

  lemma CountersOf(st: State, t: Tid, e: Effect, s: Sid)
    requires t in st.threads
    ensures Counters(Apply(st, t, e), s)
      == Counters(st, s) - {t} + if Counted(e.th.pc) == Some(s) then {t} else {}
  {}

  lemma CountsKept(st: State, t: Tid, e: Effect)
    requires Exist(st) && Counts(st) && t in st.threads && CountLocal(st, st.threads[t], e)
    ensures Counts(Apply(st, t, e))
  {
    var st' := Apply(st, t, e);
    forall s | s in st'.sessions ensures st'.sessions[s].refcount == |Counters(st', s)| {
      CountersOf(st, t, e, s);
      var was := Counters(st, s);
      if s !in st.sessions {
        NobodyCounts(st, s);
      }
      assert t in was <==> Counted(st.threads[t].pc) == Some(s);
      if t in was && Counted(e.th.pc) == Some(s) { assert was - {t} + {t} == was; }
    }
  }

  lemma NobodyCounts(st: State, s: Sid)
    requires Exist(st) && s !in st.sessions
    ensures Counters(st, s) == {}
  {
    forall u | u in st.threads ensures Counted(st.threads[u].pc) != Some(s) {
      CountedIsAbout(st.threads[u].pc);
    }
  }

  lemma CountedIsAbout(pc: Pc)
    ensures Counted(pc).Some? ==> About(pc) == Counted(pc)
  {}

  /** A counted reference keeps the count positive. */
  lemma CountedPositive(st: State, t: Tid, s: Sid)
    requires Exist(st) && Counts(st) && t in st.threads && Counted(st.threads[t].pc) == Some(s)
    ensures s in st.sessions && st.sessions[s].refcount >= 1
  {
    CountedIsAbout(st.threads[t].pc);
    assert t in Counters(st, s);
  }

  // ----- the way to free -----

  ghost predicate ReapedSession(st: State, s: Sid, se: Session) {
    && (se.refcount == 0 <==> se.reaper.Some?)
    && se.frees <= 1
    && (se.frees == 1 ==> se.reaper.Some? && se.destroyed)
    && (se.destroyed ==> se.reaper.Some?)
    && (se.reaper.Some? && se.frees == 0 ==> Reaping(PcOf(st, se.reaper.value), s))
  }

  ghost predicate ReapingThread(st: State, t: Tid, s: Sid, se: Session) {
    Reaping(PcOf(st, t), s) ==>
      se.reaper == Some(t) && se.frees == 0 && (se.destroyed <==> PcOf(st, t) == Free(s))
  }

  predicate NotReaping(pc: Pc) { !pc.Destroy? && !pc.Free? }

  predicate ReapLocal(st: State, t: Tid, th: Thread, e: Effect) {
    if e.cell.None? then NotReaping(th.pc) && NotReaping(e.th.pc)
    else
      var Cell(s, se) := e.cell.value;
      if s !in st.sessions then
        NotReaping(th.pc) && NotReaping(e.th.pc) && se == NewSession(se.id, t)
      else
        var was := st.sessions[s];
        || (&& NotReaping(th.pc) && NotReaping(e.th.pc)
            && (se.refcount == 0 <==> was.refcount == 0)
            && se.reaper == was.reaper && se.destroyed == was.destroyed && se.frees == was.frees)
        || (&& NotReaping(th.pc) && e.th.pc == Destroy(s) && was.refcount == 1 && se.refcount == 0
            && se.reaper == Some(t) && se.destroyed == was.destroyed && se.frees == was.frees)
        || (&& th.pc == Destroy(s) && e.th.pc == Free(s) && se == was.(destroyed := true))
        || (&& th.pc == Free(s) && NotReaping(e.th.pc) && se == was.(frees := was.frees + 1))
  }

  lemma ReapedSessionKept(st: State, t: Tid, e: Effect, s: Sid)
    requires t in st.threads && ReapLocal(st, t, st.threads[t], e)
    requires s in Apply(st, t, e).sessions
    requires s in st.sessions ==>
      ReapedSession(st, s, st.sessions[s]) && ReapingThread(st, t, s, st.sessions[s])
    ensures ReapedSession(Apply(st, t, e), s, Apply(st, t, e).sessions[s])
  {}

  lemma ReapingIsAbout(pc: Pc, s: Sid)
    ensures Reaping(pc, s) ==> About(pc) == Some(s)
  {}

  lemma ReapingThreadKept(st: State, t: Tid, e: Effect, u: Tid, s: Sid)
    requires Exist(st) && t in st.threads && ReapLocal(st, t, st.threads[t], e)
    requires u in Apply(st, t, e).threads && s in Apply(st, t, e).sessions
    requires s in st.sessions ==>
      && ReapedSession(st, s, st.sessions[s])
      && ReapingThread(st, t, s, st.sessions[s]) && ReapingThread(st, u, s, st.sessions[s])
    ensures ReapingThread(Apply(st, t, e), u, s, Apply(st, t, e).sessions[s])
  {
    if s !in st.sessions { ReapingIsAbout(PcOf(st, u), s); }
  }

  lemma ReapedKept(st: State, t: Tid, e: Effect)
    requires Exist(st) && Reaped(st) && t in st.threads && ReapLocal(st, t, st.threads[t], e)
    ensures Reaped(Apply(st, t, e))
  {
    var st' := Apply(st, t, e);
    forall s | s in st'.sessions ensures ReapedSession(st', s, st'.sessions[s]) {
      ReapedSessionKept(st, t, e, s);
    }
    forall u, s | u in st'.threads && s in st'.sessions ensures ReapingThread(st', u, s, st'.sessions[s]) {
      ReapingThreadKept(st, t, e, u, s);
    }
  }

  // ----- the list -----

  ghost predicate ListLocal(st: State, th: Thread, e: Effect) {
    if th.pc.Insert? then
      th.role == Stream && e.th.pc == InsertUnlock(th.pc.s) && e.sh.list == [th.pc.s] + st.sh.list
    else if th.pc.Unlink? && e.th.pc.UnlinkUnlock? then
      var k := |st.sh.list| - |th.pc.rest|;
      && th.role == Stream && e.th.pc == UnlinkUnlock(th.pc.s)
      && 0 <= k < |st.sh.list| && st.sh.list[k] == th.pc.s && e.sh.list == Drop(st.sh.list, k)
    else
      && e.sh.list == st.sh.list
      && (th.role == Stream ==> forall s :: Listed(e.th.pc, s) <==> Listed(th.pc, s))
  }

  lemma DropMembers(list: seq<Sid>, k: nat)
    requires k < |list| && Distinct(list)
    ensures Distinct(Drop(list, k))
    ensures forall s :: s in Drop(list, k) <==> s in list && s != list[k]
  {
    forall s | s in list && s != list[k] ensures s in Drop(list, k) {
      var i :| 0 <= i < |list| && list[i] == s;
      assert Drop(list, k)[if i < k then i else i - 1] == s;
    }
  }

  /** List membership of one session, across a step. */
  lemma ListedKept(st: State, t: Tid, e: Effect, s: Sid)
    requires t in st.threads && e.th.role == st.threads[t].role && s in st.sessions
    requires OwnerOf(st, s, st.sessions[s].owner) && ListLocal(st, st.threads[t], e)
    requires s in st.sh.list <==> Listed(PcOf(st, st.sessions[s].owner), s)
    requires Distinct(st.sh.list)
    requires st.threads[t].pc.Insert? || st.threads[t].pc.Unlink? ==>
      (s == st.threads[t].pc.s <==> st.sessions[s].owner == t)
    ensures s in e.sh.list <==> Listed(PcOf(Apply(st, t, e), st.sessions[s].owner), s)
  {
    var th := st.threads[t];
    if th.pc.Unlink? && e.th.pc.UnlinkUnlock? {
      DropMembers(st.sh.list, |st.sh.list| - |th.pc.rest|);
    }
  }

  lemma InsertedList(st: State, t: Tid, e: Effect)
    requires Owned(st) && Listing(st) && t in st.threads && ListLocal(st, st.threads[t], e)
    ensures Distinct(e.sh.list)
    ensures forall s :: s in e.sh.list ==> s in st.sessions
  {
    var pc := st.threads[t].pc;
    if pc.Insert? {
      assert About(pc) == Some(pc.s);
      assert st.sessions[pc.s].owner == t;
    } else if pc.Unlink? && e.th.pc.UnlinkUnlock? {
      DropMembers(st.sh.list, |st.sh.list| - |pc.rest|);
    }
  }

  lemma ListedSession(st: State, t: Tid, e: Effect, s: Sid)
    requires t in st.threads && WellTyped(st.threads[t].role, st.threads[t].pc) && e.th.role == st.threads[t].role
    requires Owned(st) && Listing(st) && ListLocal(st, st.threads[t], e) && s in st.sessions
    ensures s in e.sh.list <==> Listed(PcOf(Apply(st, t, e), st.sessions[s].owner), s)
  {
    var pc := st.threads[t].pc;
    assert OwnerOf(st, s, st.sessions[s].owner);
    if pc.Insert? || pc.Unlink? {
      assert About(pc) == Some(pc.s);
      assert st.sessions[pc.s].owner == t;
    }
    ListedKept(st, t, e, s);
  }

  lemma ListingKept(st: State, t: Tid, e: Effect)
    requires t in st.threads && WellTyped(st.threads[t].role, st.threads[t].pc) && e.th.role == st.threads[t].role
    requires Owned(st) && Listing(st)
    requires CellLocal(st, t, st.threads[t], e) && ListLocal(st, st.threads[t], e)
    ensures Listing(Apply(st, t, e))
  {
    var st' := Apply(st, t, e);
    InsertedList(st, t, e);
    forall s | s in st'.sessions
      ensures s in st'.sh.list <==> Listed(PcOf(st', st'.sessions[s].owner), s)
    {
      if s in st.sessions { ListedSession(st, t, e, s); }
    }
  }

  /** A thread that changes the list holds g_sessions_lock, so no other thread
      has a cursor into it. */
  lemma CursorsKept(st: State, t: Tid, e: Effect)
    requires GlobalLocks(st) && Cursors(st) && t in st.threads
    requires e.sh.list != st.sh.list ==> HoldsSessions(st.threads[t].pc)
    requires CursorOk(e.th.pc, e.sh.list)
    ensures Cursors(Apply(st, t, e))
  {
    var st' := Apply(st, t, e);
    forall u | u in st'.threads ensures CursorOk(st'.threads[u].pc, st'.sh.list) {
      if u != t && e.sh.list != st.sh.list {
        assert st.sh.sessLock == Some(t);
        assert !HoldsSessions(st.threads[u].pc);
      }
    }
  }

  // ----- the local facts behind these -----

  ghost predicate MemoryLocal(st: State, t: Tid, th: Thread, e: Effect) {
    && CountLocal(st, th, e) && ReapLocal(st, t, th, e) && ListLocal(st, th, e)
    && (e.sh.list != st.sh.list ==> HoldsSessions(th.pc))
    && CursorOk(e.th.pc, e.sh.list)
  }

  /** What the facts about the whole state say about one thread. */
  ghost predicate Premises(st: State, th: Thread) {
    && WellTyped(th.role, th.pc)
    && CursorOk(th.pc, st.sh.list)
    && (th.pc.UnlinkWant? ==> th.pc.s in st.sh.list)
    && (Counted(th.pc).Some? ==>
          Counted(th.pc).value in st.sessions && st.sessions[Counted(th.pc).value].refcount >= 1)
    && (forall s :: s in st.sh.list ==> s in st.sessions && st.sessions[s].refcount >= 1)
    && Distinct(st.sh.list)
  }

  lemma ListedPositive(st: State, s: Sid)
    requires Owned(st) && Counts(st) && Listing(st) && s in st.sh.list
    ensures s in st.sessions && st.sessions[s].refcount >= 1
  {
    var o := st.sessions[s].owner;
    assert OwnerOf(st, s, o);
    assert Listed(PcOf(st, o), s);
    CountedPositive(st, o, s);
  }

  lemma UnlinkFindsItself(st: State, t: Tid)
    requires Typed(st) && Owned(st) && Listing(st) && t in st.threads && st.threads[t].pc.UnlinkWant?
    ensures st.threads[t].pc.s in st.sh.list
  {
    var pc := st.threads[t].pc;
    assert WellTyped(st.threads[t].role, pc);
    assert About(pc) == Some(pc.s);
    assert st.sessions[pc.s].owner == t;
    assert Listed(pc, pc.s);
  }

  lemma PremisesHold(st: State, t: Tid)
    requires Inv(st) && t in st.threads
    ensures Premises(st, st.threads[t])
  {
    var pc := st.threads[t].pc;
    if Counted(pc).Some? { CountedPositive(st, t, Counted(pc).value); }
    forall s | s in st.sh.list ensures s in st.sessions && st.sessions[s].refcount >= 1 {
      ListedPositive(st, s);
    }
    if pc.UnlinkWant? { UnlinkFindsItself(st, t); }
  }

  lemma MainCounts(st: State, t: Tid, e: Effect)
    requires t in st.threads && Premises(st, st.threads[t])
    requires st.threads[t].role == Main && MainStep(st, t) == Some(e)
    ensures CountLocal(st, st.threads[t], e)
  {}

  lemma MainReaps(st: State, t: Tid, e: Effect)
    requires t in st.threads && Premises(st, st.threads[t])
    requires st.threads[t].role == Main && MainStep(st, t) == Some(e)
    ensures ReapLocal(st, t, st.threads[t], e)
  {}

  lemma MainLists(st: State, t: Tid, e: Effect)
    requires t in st.threads && Premises(st, st.threads[t])
    requires st.threads[t].role == Main && MainStep(st, t) == Some(e)
    ensures ListLocal(st, st.threads[t], e) && (e.sh.list != st.sh.list ==> HoldsSessions(st.threads[t].pc))
  {}

  lemma MainCursor(st: State, t: Tid, e: Effect)
    requires t in st.threads && Premises(st, st.threads[t])
    requires st.threads[t].role == Main && MainStep(st, t) == Some(e)
    ensures CursorOk(e.th.pc, e.sh.list)
  {}

  lemma MainMemoryLocal(st: State, t: Tid, e: Effect)
    requires t in st.threads && Premises(st, st.threads[t])
    requires st.threads[t].role == Main && MainStep(st, t) == Some(e)
    ensures MemoryLocal(st, t, st.threads[t], e)
  {
    MainCounts(st, t, e);
    MainReaps(st, t, e);
    MainLists(st, t, e);
    MainCursor(st, t, e);
  }

  lemma StreamCounts(st: State, t: Tid, ch: Choice, e: Effect)
    requires t in st.threads && Premises(st, st.threads[t])
    requires st.threads[t].role == Stream && StreamStep(st, t, ch) == Some(e)
    ensures CountLocal(st, st.threads[t], e)
  {}

  lemma StreamReaps(st: State, t: Tid, ch: Choice, e: Effect)
    requires t in st.threads && Premises(st, st.threads[t])
    requires st.threads[t].role == Stream && StreamStep(st, t, ch) == Some(e)
    ensures ReapLocal(st, t, st.threads[t], e)
  {}

  lemma StreamLists(st: State, t: Tid, ch: Choice, e: Effect)
    requires t in st.threads && Premises(st, st.threads[t])
    requires st.threads[t].role == Stream && StreamStep(st, t, ch) == Some(e)
    ensures ListLocal(st, st.threads[t], e) && (e.sh.list != st.sh.list ==> HoldsSessions(st.threads[t].pc))
  {}

  lemma StreamCursor(st: State, t: Tid, ch: Choice, e: Effect)
    requires t in st.threads && Premises(st, st.threads[t])
    requires st.threads[t].role == Stream && StreamStep(st, t, ch) == Some(e)
    ensures CursorOk(e.th.pc, e.sh.list)
  {}

  lemma StreamMemoryLocal(st: State, t: Tid, ch: Choice, e: Effect)
    requires t in st.threads && Premises(st, st.threads[t])
    requires st.threads[t].role == Stream && StreamStep(st, t, ch) == Some(e)
    ensures MemoryLocal(st, t, st.threads[t], e)
  {
    StreamCounts(st, t, ch, e);
    StreamReaps(st, t, ch, e);
    StreamLists(st, t, ch, e);
    StreamCursor(st, t, ch, e);
  }

  lemma PostCounts(c: Config, st: State, t: Tid, sid: string, body: Option<Json>, ch: Choice, e: Effect)
    requires t in st.threads && Premises(st, st.threads[t])
    requires st.threads[t].role.Post? && PostStep(c, st, t, sid, body, ch) == Some(e)
    ensures CountLocal(st, st.threads[t], e)
  {}

  lemma PostReaps(c: Config, st: State, t: Tid, sid: string, body: Option<Json>, ch: Choice, e: Effect)
    requires t in st.threads && Premises(st, st.threads[t])
    requires st.threads[t].role.Post? && PostStep(c, st, t, sid, body, ch) == Some(e)
    ensures ReapLocal(st, t, st.threads[t], e)
  {}

  lemma PostLists(c: Config, st: State, t: Tid, sid: string, body: Option<Json>, ch: Choice, e: Effect)
    requires t in st.threads && Premises(st, st.threads[t])
    requires st.threads[t].role.Post? && PostStep(c, st, t, sid, body, ch) == Some(e)
    ensures ListLocal(st, st.threads[t], e) && (e.sh.list != st.sh.list ==> HoldsSessions(st.threads[t].pc))
  {}

  lemma PostCursor(c: Config, st: State, t: Tid, sid: string, body: Option<Json>, ch: Choice, e: Effect)
    requires t in st.threads && Premises(st, st.threads[t])
    requires st.threads[t].role.Post? && PostStep(c, st, t, sid, body, ch) == Some(e)
    ensures CursorOk(e.th.pc, e.sh.list)
  {}

  lemma PostMemoryLocal(c: Config, st: State, t: Tid, sid: string, body: Option<Json>, ch: Choice, e: Effect)
    requires t in st.threads && Premises(st, st.threads[t])
    requires st.threads[t].role.Post? && PostStep(c, st, t, sid, body, ch) == Some(e)
    ensures MemoryLocal(st, t, st.threads[t], e)
  {
    PostCounts(c, st, t, sid, body, ch, e);
    PostReaps(c, st, t, sid, body, ch, e);
    PostLists(c, st, t, sid, body, ch, e);
    PostCursor(c, st, t, sid, body, ch, e);
  }

  lemma DispatchCounts(c: Config, st: State, t: Tid, msg: Json, e: Effect)
    requires t in st.threads && Premises(st, st.threads[t])
    requires (st.threads[t].role.Post? || st.threads[t].role.Mcp?) && DispatchStep(c, st, t, msg) == Some(e)
    ensures CountLocal(st, st.threads[t], e)
  {}

  lemma DispatchReaps(c: Config, st: State, t: Tid, msg: Json, e: Effect)
    requires t in st.threads && Premises(st, st.threads[t])
    requires (st.threads[t].role.Post? || st.threads[t].role.Mcp?) && DispatchStep(c, st, t, msg) == Some(e)
    ensures ReapLocal(st, t, st.threads[t], e)
  {}

  lemma DispatchLists(c: Config, st: State, t: Tid, msg: Json, e: Effect)
    requires t in st.threads && Premises(st, st.threads[t])
    requires (st.threads[t].role.Post? || st.threads[t].role.Mcp?) && DispatchStep(c, st, t, msg) == Some(e)
    ensures ListLocal(st, st.threads[t], e) && (e.sh.list != st.sh.list ==> HoldsSessions(st.threads[t].pc))
  {}

  lemma DispatchCursor(c: Config, st: State, t: Tid, msg: Json, e: Effect)
    requires t in st.threads && Premises(st, st.threads[t])
    requires (st.threads[t].role.Post? || st.threads[t].role.Mcp?) && DispatchStep(c, st, t, msg) == Some(e)
    ensures CursorOk(e.th.pc, e.sh.list)
  {}

  lemma DispatchMemoryLocal(c: Config, st: State, t: Tid, msg: Json, e: Effect)
    requires t in st.threads && Premises(st, st.threads[t])
    requires (st.threads[t].role.Post? || st.threads[t].role.Mcp?) && DispatchStep(c, st, t, msg) == Some(e)
    ensures MemoryLocal(st, t, st.threads[t], e)
  {
    DispatchCounts(c, st, t, msg, e);
    DispatchReaps(c, st, t, msg, e);
    DispatchLists(c, st, t, msg, e);
    DispatchCursor(c, st, t, msg, e);
  }

  lemma WritingCounts(st: State, t: Tid, ch: Choice, e: Effect)
    requires t in st.threads && st.threads[t].pc.Writing? && WriteStep(st, t, ch) == Some(e)
    ensures CountLocal(st, st.threads[t], e)
  {}

  lemma WriteCounts(st: State, t: Tid, ch: Choice, e: Effect)
    requires t in st.threads && Premises(st, st.threads[t])
    requires Writes(st.threads[t].pc) && WriteStep(st, t, ch) == Some(e)
    ensures CountLocal(st, st.threads[t], e)
  {
    if st.threads[t].pc.Writing? { WritingCounts(st, t, ch, e); }
  }

  lemma WriteReaps(st: State, t: Tid, ch: Choice, e: Effect)
    requires t in st.threads && Premises(st, st.threads[t])
    requires Writes(st.threads[t].pc) && WriteStep(st, t, ch) == Some(e)
    ensures ReapLocal(st, t, st.threads[t], e)
  {}

  lemma WriteLists(st: State, t: Tid, ch: Choice, e: Effect)
    requires t in st.threads && Premises(st, st.threads[t])
    requires Writes(st.threads[t].pc) && WriteStep(st, t, ch) == Some(e)
    ensures ListLocal(st, st.threads[t], e) && (e.sh.list != st.sh.list ==> HoldsSessions(st.threads[t].pc))
  {}

  lemma WriteCursor(st: State, t: Tid, ch: Choice, e: Effect)
    requires t in st.threads && Premises(st, st.threads[t])
    requires Writes(st.threads[t].pc) && WriteStep(st, t, ch) == Some(e)
    ensures CursorOk(e.th.pc, e.sh.list)
  {}

  lemma WriteMemoryLocal(st: State, t: Tid, ch: Choice, e: Effect)
    requires t in st.threads && Premises(st, st.threads[t])
    requires Writes(st.threads[t].pc) && WriteStep(st, t, ch) == Some(e)
    ensures MemoryLocal(st, t, st.threads[t], e)
  {
    WriteCounts(st, t, ch, e);
    WriteReaps(st, t, ch, e);
    WriteLists(st, t, ch, e);
    WriteCursor(st, t, ch, e);
  }

  lemma ReleaseCounts(st: State, t: Tid, e: Effect)
    requires t in st.threads && Premises(st, st.threads[t])
    requires Releases(st.threads[t].pc) && ReleaseStep(st, t) == Some(e)
    ensures CountLocal(st, st.threads[t], e)
  {}

  lemma ReleaseReaps(st: State, t: Tid, e: Effect)
    requires t in st.threads && Premises(st, st.threads[t])
    requires Releases(st.threads[t].pc) && ReleaseStep(st, t) == Some(e)
    ensures ReapLocal(st, t, st.threads[t], e)
  {}

  lemma ReleaseLists(st: State, t: Tid, e: Effect)
    requires t in st.threads && Premises(st, st.threads[t])
    requires Releases(st.threads[t].pc) && ReleaseStep(st, t) == Some(e)
    ensures ListLocal(st, st.threads[t], e) && (e.sh.list != st.sh.list ==> HoldsSessions(st.threads[t].pc))
  {}

  lemma ReleaseCursor(st: State, t: Tid, e: Effect)
    requires t in st.threads && Premises(st, st.threads[t])
    requires Releases(st.threads[t].pc) && ReleaseStep(st, t) == Some(e)
    ensures CursorOk(e.th.pc, e.sh.list)
  {}

  lemma ReleaseMemoryLocal(st: State, t: Tid, e: Effect)
    requires t in st.threads && Premises(st, st.threads[t])
    requires Releases(st.threads[t].pc) && ReleaseStep(st, t) == Some(e)
    ensures MemoryLocal(st, t, st.threads[t], e)
  {
    ReleaseCounts(st, t, e);
    ReleaseReaps(st, t, e);
    ReleaseLists(st, t, e);
    ReleaseCursor(st, t, e);
  }

  lemma StepMemoryLocal(c: Config, st: State, t: Tid, ch: Choice, e: Effect)
    requires t in st.threads && ThreadStep(c, st, t, ch) == Some(e)
    requires Premises(st, st.threads[t])
    ensures MemoryLocal(st, t, st.threads[t], e)
  {
    var th := st.threads[t];
    if Releases(th.pc) { ReleaseMemoryLocal(st, t, e); }
    else if Writes(th.pc) { WriteMemoryLocal(st, t, ch, e); }
    else {
      match th.role
      case Main => MainMemoryLocal(st, t, e);
      case Stream => StreamMemoryLocal(st, t, ch, e);
      case Post(sid, body) =>
        if Dispatches(th.pc) && body.Some? { DispatchMemoryLocal(c, st, t, body.value, e); }
        else { PostMemoryLocal(c, st, t, sid, body, ch, e); }
      case Mcp(body) => DispatchMemoryLocal(c, st, t, body.value, e);
    }
  }

  // ----- every step keeps the invariant -----

  lemma ThreadStepKeepsInv(c: Config, st: State, t: Tid, ch: Choice, e: Effect)
    requires Inv(st) && t in st.threads && ThreadStep(c, st, t, ch) == Some(e)
    ensures Inv(Apply(st, t, e))
  {
    PremisesHold(st, t);
    StepLocal(c, st, t, ch, e);
    StepMemoryLocal(c, st, t, ch, e);
    TypedKept(st, t, e);
    OwnedKept(st, t, e);
    GlobalLocksKept(st, t, e);
    WriteLocksKept(st, t, e);
    CountsKept(st, t, e);
    ReapedKept(st, t, e);
    ListingKept(st, t, e);
    CursorsKept(st, t, e);
  }

  /** A fresh thread holds nothing and is about nothing. */
  lemma StartHoldsNothing(role: Role, now: nat)
    requires role != Main
    ensures var pc := Start(role, now).pc;
      && WellTyped(role, pc) && About(pc) == None && Counted(pc) == None && HoldsWrite(pc) == None
      && !HoldsSessions(pc) && !HoldsDispatch(pc) && NotReaping(pc)
  {}

  function Spawned(st: State, t: Tid, role: Role): State {
    st.(threads := st.threads[t := Start(role, st.sh.now)])
  }

  lemma SpawnKeepsOwned(st: State, t: Tid, role: Role)
    requires Typed(st) && Owned(st) && t !in st.threads && role != Main
    ensures Typed(Spawned(st, t, role)) && Owned(Spawned(st, t, role))
  {
    StartHoldsNothing(role, st.sh.now);
    var st' := Spawned(st, t, role);
    forall s | s in st'.sessions ensures OwnerOf(st', s, st'.sessions[s].owner) {
      assert OwnerOf(st, s, st.sessions[s].owner);
    }
  }

  lemma SpawnKeepsLocks(st: State, t: Tid, role: Role)
    requires GlobalLocks(st) && WriteLocks(st) && t !in st.threads && role != Main
    ensures GlobalLocks(Spawned(st, t, role)) && WriteLocks(Spawned(st, t, role))
  {
    StartHoldsNothing(role, st.sh.now);
  }

  lemma SpawnKeepsCounts(st: State, t: Tid, role: Role)
    requires Counts(st) && t !in st.threads && role != Main
    ensures Counts(Spawned(st, t, role))
  {
    StartHoldsNothing(role, st.sh.now);
    var st' := Spawned(st, t, role);
    forall s | s in st'.sessions ensures Counters(st', s) == Counters(st, s) {}
  }

  lemma SpawnKeepsReaped(st: State, t: Tid, role: Role)
    requires Reaped(st) && t !in st.threads && role != Main
    ensures Reaped(Spawned(st, t, role))
  {
    StartHoldsNothing(role, st.sh.now);
    var st' := Spawned(st, t, role);
    forall s | s in st'.sessions ensures ReapedSession(st', s, st'.sessions[s]) {
      assert ReapedSession(st, s, st.sessions[s]);
    }
    forall u, s | u in st'.threads && s in st'.sessions ensures ReapingThread(st', u, s, st'.sessions[s]) {
      if u != t { assert ReapingThread(st, u, s, st.sessions[s]); }
    }
  }

  lemma SpawnKeepsListing(st: State, t: Tid, role: Role)
    requires Owned(st) && Listing(st) && t !in st.threads && role != Main
    ensures Listing(Spawned(st, t, role))
  {
    var st' := Spawned(st, t, role);
    forall s | s in st'.sessions ensures s in st'.sh.list <==> Listed(PcOf(st', st'.sessions[s].owner), s) {
      assert OwnerOf(st, s, st.sessions[s].owner);
    }
  }

  lemma SpawnKeepsInv(st: State, t: Tid, role: Role)
    requires Inv(st) && t !in st.threads && role != Main
    ensures Inv(Spawned(st, t, role))
  {
    SpawnKeepsOwned(st, t, role);
    SpawnKeepsLocks(st, t, role);
    SpawnKeepsCounts(st, t, role);
    SpawnKeepsReaped(st, t, role);
    SpawnKeepsListing(st, t, role);
    StartHoldsNothing(role, st.sh.now);
    assert Cursors(Spawned(st, t, role));
  }

  /** The invariant does not look at the flags, the server or the clock. */
  ghost predicate SameTable(st: State, st': State) {
    && st'.threads == st.threads && st'.sessions == st.sessions
    && st'.sh.list == st.sh.list && st'.sh.sessLock == st.sh.sessLock && st'.sh.dispLock == st.sh.dispLock
  }

  lemma CountsIrrelevant(st: State, st': State)
    requires Counts(st) && SameTable(st, st')
    ensures Counts(st')
  {
    forall s | s in st'.sessions ensures Counters(st', s) == Counters(st, s) {}
  }

  lemma ReapedIrrelevant(st: State, st': State)
    requires Reaped(st) && SameTable(st, st')
    ensures Reaped(st')
  {
    forall s | s in st'.sessions ensures ReapedSession(st', s, st'.sessions[s]) {
      assert ReapedSession(st, s, st.sessions[s]);
    }
    forall u, s | u in st'.threads && s in st'.sessions ensures ReapingThread(st', u, s, st'.sessions[s]) {
      assert ReapingThread(st, u, s, st.sessions[s]);
    }
  }

  lemma OwnedIrrelevant(st: State, st': State)
    requires Owned(st) && SameTable(st, st')
    ensures Owned(st')
  {
    forall s | s in st'.sessions ensures OwnerOf(st', s, st'.sessions[s].owner) {
      assert OwnerOf(st, s, st.sessions[s].owner);
    }
  }

  lemma ListingIrrelevant(st: State, st': State)
    requires Typed(st) && Listing(st) && SameTable(st, st')
    ensures Typed(st') && Listing(st')
  {}

  lemma LocksIrrelevant(st: State, st': State)
    requires GlobalLocks(st) && WriteLocks(st) && Cursors(st) && SameTable(st, st')
    ensures GlobalLocks(st') && WriteLocks(st') && Cursors(st')
  {}

  lemma SharedIrrelevant(st: State, st': State)
    requires Inv(st) && SameTable(st, st')
    ensures Inv(st')
  {
    CountsIrrelevant(st, st');
    ReapedIrrelevant(st, st');
    OwnedIrrelevant(st, st');
    ListingIrrelevant(st, st');
    LocksIrrelevant(st, st');
  }

  lemma StepKeepsInv(c: Config, st: State, a: Action, st': State)
    requires Inv(st) && Step(c, st, a) == Some(st')
    ensures Inv(st')
  {
    match a
    case Signal => SharedIrrelevant(st, st');
    case Spawn(t, role) =>
      SpawnKeepsInv(st, t, role);
      SharedIrrelevant(Spawned(st, t, role), st');
    case Go(t, ch) =>
      var e := ThreadStep(c, st, t, ch).value;
      ThreadStepKeepsInv(c, st, t, ch, e);
      SharedIrrelevant(Apply(st, t, e), st');
  }

  lemma InitInv(c: Config)
    ensures Inv(Init(c))
  {
    assert forall s: Sid :: s !in Init(c).sessions;
  }

  lemma NextInv(c: Config, states: seq<State>, actions: seq<Action>, i: nat)
    requires |states| == |actions| + 1 && i < |actions| && StepAt(c, states, actions, i)
    requires Inv(states[i])
    ensures Inv(states[i + 1])
  {
    StepKeepsInv(c, states[i], actions[i], states[i + 1]);
  }

  /** Every state of every run satisfies the invariant. */
  lemma {:induction false} RunInv(c: Config, states: seq<State>, actions: seq<Action>, i: nat)
    requires IsRun(c, states, actions) && i < |states|
    ensures Inv(states[i])
  {
    if i == 0 { InitInv(c); }
    else {
      RunInv(c, states, actions, i - 1);
      NextInv(c, states, actions, i - 1);
    }
  }
}
