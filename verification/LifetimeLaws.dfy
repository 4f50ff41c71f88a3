/** What the lifetime invariant means for every run: no use after free, exact
    reference counts, everything freed once at the end, no deadlock. */
module LifetimeLaws {
  import opened Json
  import opened Machine
  import opened Lifetime

  ghost predicate Alive(st: State, s: Sid) {
    s in st.sessions && st.sessions[s].frees == 0
  }

  lemma CountedAlive(st: State, t: Tid, s: Sid)
    requires Exist(st) && Counts(st) && Reaped(st) && t in st.threads && Counted(st.threads[t].pc) == Some(s)
    ensures Alive(st, s) && !st.sessions[s].destroyed
  {
    CountedPositive(st, t, s);
    assert ReapedSession(st, s, st.sessions[s]);
  }

  lemma ListedAlive(st: State, s: Sid)
    requires Owned(st) && Counts(st) && Reaped(st) && Listing(st) && s in st.sh.list
    ensures Alive(st, s) && !st.sessions[s].destroyed
  {
    var o := st.sessions[s].owner;
    assert OwnerOf(st, s, o);
    CountedAlive(st, o, s);
  }

  lemma SuffixMember(rest: seq<Sid>, list: seq<Sid>, s: Sid)
    requires Suffix(rest, list) && s in rest
    ensures s in list
  {
    var i :| 0 <= i < |rest| && rest[i] == s;
    assert list[|list| - |rest| + i] == s;
  }

  /** How a thread may reach a session: by its own reference, through the list,
      or because it is the one freeing it. */
  lemma TouchKinds(pc: Pc, list: seq<Sid>, s: Sid)
    requires CursorOk(pc, list) && s in Touches(pc, list)
    ensures Counted(pc) == Some(s) || s in list || Reaping(pc, s)
  {
    if pc.WalkMark? { SuffixMember(pc.rest, list, s); }
    else if pc.WalkShut? { SuffixMember(pc.rest, list, s); }
    else if pc.Find? { SuffixMember(pc.rest, list, s); }
    else if pc.Unlink? && s !in InFrontOf(pc.rest, list) { SuffixMember(pc.rest, list, s); }
  }

  lemma TouchedAlive(st: State, t: Tid, s: Sid)
    requires Exist(st) && Owned(st) && Counts(st) && Reaped(st) && Listing(st) && Cursors(st)
    requires t in st.threads && s in Touches(st.threads[t].pc, st.sh.list)
    ensures Alive(st, s)
    ensures st.sessions[s].destroyed ==> st.threads[t].pc == Free(s)
  {
    var pc := st.threads[t].pc;
    TouchKinds(pc, st.sh.list, s);
    if Counted(pc) == Some(s) { CountedAlive(st, t, s); }
    else if s in st.sh.list { ListedAlive(st, s); }
    else {
      ReapingIsAbout(pc, s);
      assert ReapingThread(st, t, s, st.sessions[s]);
    }
  }

  // ----- the table of touched sessions is what the steps do -----

  /** The thread is past its session and deals with the socket, whose number it
      keeps outside the session. */
  predicate AtSocket(pc: Pc, s: Sid) { pc == SockShutdown(s) || pc == SockClose(s) }

  /** A step writes no existing session that it does not touch, apart from the
      state of the thread's own socket. */
  lemma WritesOnlyTouched(c: Config, st: State, t: Tid, ch: Choice, e: Effect)
    requires t in st.threads && ThreadStep(c, st, t, ch) == Some(e)
    requires e.cell.Some? && e.cell.value.s in st.sessions
    ensures var Cell(s, se) := e.cell.value;
      || s in Touches(st.threads[t].pc, st.sh.list)
      || (AtSocket(st.threads[t].pc, s) && se == st.sessions[s].(sock := se.sock))
  {}

  /** The sessions that the thread's next step touches are the same in both. */
  ghost predicate SameTouched(st: State, sessions: map<Sid, Session>, t: Tid)
    requires t in st.threads
  {
    var pc := st.threads[t].pc;
    && sessions.Keys == st.sessions.Keys
    && forall s :: s in sessions && (s in Touches(pc, st.sh.list) || AtSocket(pc, s)) ==> sessions[s] == st.sessions[s]
  }

  /** And it does nothing that depends on the contents of another session. */
  lemma ReadsOnlyTouched(c: Config, st: State, sessions: map<Sid, Session>, t: Tid, ch: Choice)
    requires t in st.threads && SameTouched(st, sessions, t)
    ensures ThreadStep(c, st.(sessions := sessions), t, ch) == ThreadStep(c, st, t, ch)
  {
    var th := st.threads[t];
    if Releases(th.pc) { ReleaseReads(st, sessions, t); }
    else if Writes(th.pc) { WriteReads(st, sessions, t, ch); }
    else {
      match th.role
      case Main =>
      case Stream => StreamReads(st, sessions, t, ch);
      case Post(sid, body) => PostReads(c, st, sessions, t, sid, body, ch);
      case Mcp(_) =>
    }
  }

  lemma ReleaseReads(st: State, sessions: map<Sid, Session>, t: Tid)
    requires t in st.threads && Releases(st.threads[t].pc) && SameTouched(st, sessions, t)
    ensures ReleaseStep(st.(sessions := sessions), t) == ReleaseStep(st, t)
  {}

  lemma WriteReads(st: State, sessions: map<Sid, Session>, t: Tid, ch: Choice)
    requires t in st.threads && Writes(st.threads[t].pc) && SameTouched(st, sessions, t)
    ensures WriteStep(st.(sessions := sessions), t, ch) == WriteStep(st, t, ch)
  {}

  lemma StreamReads(st: State, sessions: map<Sid, Session>, t: Tid, ch: Choice)
    requires t in st.threads && SameTouched(st, sessions, t)
    ensures StreamStep(st.(sessions := sessions), t, ch) == StreamStep(st, t, ch)
  {}

  lemma PostReads(c: Config, st: State, sessions: map<Sid, Session>, t: Tid, sid: string, body: Option<Json>,
                  ch: Choice)
    requires t in st.threads && SameTouched(st, sessions, t)
    ensures PostStep(c, st.(sessions := sessions), t, sid, body, ch) == PostStep(c, st, t, sid, body, ch)
  {}

  /** In every run, no step touches a freed session, and none but the freeing
      thread's last one touches a session whose lock has been destroyed. */
  lemma NoUseAfterFree(c: Config, states: seq<State>, actions: seq<Action>, i: nat, t: Tid, s: Sid)
    requires IsRun(c, states, actions) && i < |states|
    requires t in states[i].threads && s in Touches(states[i].threads[t].pc, states[i].sh.list)
    ensures Alive(states[i], s)
    ensures states[i].sessions[s].destroyed ==> states[i].threads[t].pc == Free(s)
  {
    RunInv(c, states, actions, i);
    TouchedAlive(states[i], t, s);
  }

  // ----- exact counts -----

  /** The posters between session_acquire and session_release of s. */
  function Posters(st: State, s: Sid): set<Tid> {
    set t | t in st.threads && st.threads[t].role.Post? && Counted(st.threads[t].pc) == Some(s)
  }

  /** 1 as long as the owner of s has not released it. */
  function OwnerShare(st: State, s: Sid): nat
    requires s in st.sessions
  {
    if Counted(PcOf(st, st.sessions[s].owner)) == Some(s) then 1 else 0
  }

  lemma OnlyStreamsAndPostsCount(role: Role, pc: Pc)
    requires WellTyped(role, pc) && Counted(pc).Some?
    ensures role == Stream || role.Post?
  {}

  lemma CounterIsPosterOrOwner(st: State, s: Sid, t: Tid)
    requires Typed(st) && Owned(st) && s in st.sessions && t in Counters(st, s)
    ensures t in Posters(st, s) || t == st.sessions[s].owner
  {
    assert WellTyped(st.threads[t].role, st.threads[t].pc);
    OnlyStreamsAndPostsCount(st.threads[t].role, st.threads[t].pc);
    CountedIsAbout(st.threads[t].pc);
  }

  lemma CountersSplit(st: State, s: Sid)
    requires Typed(st) && Owned(st) && s in st.sessions
    ensures var o := st.sessions[s].owner;
      Counters(st, s) == Posters(st, s) + (if OwnerShare(st, s) == 1 then {o} else {}) && o !in Posters(st, s)
  {
    hide About, Counted, WellTyped;
    var o := st.sessions[s].owner;
    assert OwnerOf(st, s, o);
    forall t | t in Counters(st, s) ensures t in Posters(st, s) || t == o {
      CounterIsPosterOrOwner(st, s, t);
    }
  }

  lemma RefcountSplit(st: State, s: Sid)
    requires Typed(st) && Owned(st) && Counts(st) && s in st.sessions
    ensures st.sessions[s].refcount == OwnerShare(st, s) + |Posters(st, s)|
  {
    CountersSplit(st, s);
  }

  /** In every run the reference count of a session is exactly one for its owner,
      until that releases it, plus one for each poster that has acquired it and
      not released it. */
  lemma ExactRefcount(c: Config, states: seq<State>, actions: seq<Action>, i: nat, s: Sid)
    requires IsRun(c, states, actions) && i < |states| && s in states[i].sessions
    ensures states[i].sessions[s].refcount == OwnerShare(states[i], s) + |Posters(states[i], s)|
  {
    RunInv(c, states, actions, i);
    RefcountSplit(states[i], s);
  }

  /** In every run a session is freed at most once. When all connection threads
      have finished, the list is empty and every session ever created has been
      freed exactly once, with its lock destroyed. */
  lemma EverythingFreedOnce(c: Config, states: seq<State>, actions: seq<Action>, i: nat)
    requires IsRun(c, states, actions) && i < |states|
    ensures forall s :: s in states[i].sessions ==> states[i].sessions[s].frees <= 1
    ensures (forall t :: t in states[i].threads && t != MAIN ==> states[i].threads[t].pc == Finished) ==>
      && states[i].sh.list == []
      && forall s :: s in states[i].sessions ==> states[i].sessions[s].frees == 1 && states[i].sessions[s].destroyed
  {
    RunInv(c, states, actions, i);
    var st := states[i];
    forall s | s in st.sessions ensures st.sessions[s].frees <= 1 {
      assert ReapedSession(st, s, st.sessions[s]);
    }
    if forall t :: t in st.threads && t != MAIN ==> st.threads[t].pc == Finished {
      AllDone(st);
    }
  }

  lemma DoneCountsNothing(st: State, t: Tid)
    requires t in st.threads && WellTyped(st.threads[t].role, st.threads[t].pc)
    requires st.threads[t].role == Main || st.threads[t].pc == Finished
    ensures Counted(st.threads[t].pc) == None && NotReaping(st.threads[t].pc)
  {}

  lemma AllDone(st: State)
    requires Typed(st) && Counts(st) && Reaped(st) && Listing(st)
    requires forall t :: t in st.threads && t != MAIN ==> st.threads[t].pc == Finished
    ensures st.sh.list == []
    ensures forall s :: s in st.sessions ==> st.sessions[s].frees == 1 && st.sessions[s].destroyed
  {
    assert |st.sh.list| > 0 ==> st.sh.list[0] in st.sessions && st.sh.list[0] in st.sh.list;
    forall t | t in st.threads ensures Counted(st.threads[t].pc) == None && NotReaping(st.threads[t].pc) {
      DoneCountsNothing(st, t);
    }
    forall s | s in st.sessions
      ensures s !in st.sh.list && st.sessions[s].frees == 1 && st.sessions[s].destroyed
    {
      NothingLeft(st, s);
    }
  }

  lemma NothingLeft(st: State, s: Sid)
    requires Counts(st) && Reaped(st) && Listing(st) && s in st.sessions
    requires forall t :: t in st.threads ==> Counted(st.threads[t].pc) == None && NotReaping(st.threads[t].pc)
    ensures s !in st.sh.list && st.sessions[s].frees == 1 && st.sessions[s].destroyed
  {
    assert Counters(st, s) == {};
    assert ReapedSession(st, s, st.sessions[s]);
  }

  // ----- locks -----

  datatype Lock = SessionsLock | DispatchLock | WriteLock(s: Sid)

  function Holder(st: State, lock: Lock): Option<Tid> {
    match lock
    case SessionsLock => st.sh.sessLock
    case DispatchLock => st.sh.dispLock
    case WriteLock(s) => if s in st.sessions then st.sessions[s].lock else None
  }

  /** The lock the thread is about to take. */
  function Wants(pc: Pc): Option<Lock> {
    match pc
    case WalkWant => Some(SessionsLock)
    case InsertWant(_) => Some(SessionsLock)
    case UnlinkWant(_) => Some(SessionsLock)
    case FindWant => Some(SessionsLock)
    case DispatchWant(_) => Some(DispatchLock)
    case WriteWant(s, _) => Some(WriteLock(s))
    case _ => None
  }

  ghost predicate Holds(st: State, t: Tid, lock: Lock) { Holder(st, lock) == Some(t) }

  lemma HeldBy(st: State, t: Tid, lock: Lock)
    requires GlobalLocks(st) && WriteLocks(st) && Holds(st, t, lock)
    ensures t in st.threads
    ensures match lock
      case SessionsLock => HoldsSessions(st.threads[t].pc)
      case DispatchLock => HoldsDispatch(st.threads[t].pc)
      case WriteLock(s) => HoldsWrite(st.threads[t].pc) == Some(s)
  {}

  lemma OneLock(st: State, t: Tid, l1: Lock, l2: Lock)
    requires GlobalLocks(st) && WriteLocks(st) && Holds(st, t, l1)
    ensures t in st.threads && Wants(st.threads[t].pc) == None
    ensures Holds(st, t, l2) ==> l2 == l1
  {
    HeldBy(st, t, l1);
    if Holds(st, t, l2) { HeldBy(st, t, l2); }
  }

  /** In every run a thread holds at most one lock of the three kinds, and a
      thread about to take a lock holds none: waiting can never form a cycle. */
  lemma OneLockAtATime(c: Config, states: seq<State>, actions: seq<Action>, i: nat, t: Tid, l1: Lock, l2: Lock)
    requires IsRun(c, states, actions) && i < |states| && Holds(states[i], t, l1)
    ensures t in states[i].threads && Wants(states[i].threads[t].pc) == None
    ensures Holds(states[i], t, l2) ==> l2 == l1
  {
    RunInv(c, states, actions, i);
    OneLock(states[i], t, l1, l2);
  }

  lemma HolderMainSteps(st: State, t: Tid)
    requires t in st.threads && Premises(st, st.threads[t]) && st.threads[t].role == Main
    requires HoldsSessions(st.threads[t].pc)
    ensures MainStep(st, t).Some?
  {
    var pc := st.threads[t].pc;
    if (pc.WalkMark? || pc.WalkShut?) && pc.rest != [] { SuffixMember(pc.rest, st.sh.list, pc.rest[0]); }
  }

  lemma HolderStreamSteps(st: State, t: Tid, ch: Choice)
    requires t in st.threads && Premises(st, st.threads[t]) && st.threads[t].role == Stream
    requires HoldsSessions(st.threads[t].pc)
    ensures StreamStep(st, t, ch).Some?
  {}

  lemma HolderPostSteps(c: Config, st: State, t: Tid, sid: string, body: Option<Json>, ch: Choice)
    requires t in st.threads && Premises(st, st.threads[t]) && st.threads[t].role.Post?
    requires HoldsSessions(st.threads[t].pc)
    ensures PostStep(c, st, t, sid, body, ch).Some?
  {
    var pc := st.threads[t].pc;
    if pc.Find? && pc.rest != [] { SuffixMember(pc.rest, st.sh.list, pc.rest[0]); }
  }

  lemma HolderWriteSteps(st: State, t: Tid, ch: Choice)
    requires t in st.threads && Premises(st, st.threads[t])
    requires HoldsWrite(st.threads[t].pc).Some?
    ensures WriteStep(st, t, ch).Some?
  {}

  /** A dispatching thread has a message to dispatch. */
  ghost predicate HasMessage(st: State) {
    forall t :: t in st.threads && Dispatches(st.threads[t].pc) ==> MessageOf(st.threads[t].role).Some?
  }

  lemma HasMessageKept(c: Config, st: State, a: Action, st': State)
    requires Typed(st) && HasMessage(st) && Step(c, st, a) == Some(st')
    ensures HasMessage(st')
  {
    match a
    case Signal =>
    case Spawn(t, role) => assert Dispatches(Start(role, st.sh.now).pc) ==> MessageOf(role).Some?;
    case Go(t, ch) => EffectKeepsMessage(c, st, t, ch, ThreadStep(c, st, t, ch).value);
  }

  lemma EffectKeepsMessage(c: Config, st: State, t: Tid, ch: Choice, e: Effect)
    requires Typed(st) && HasMessage(st) && t in st.threads && ThreadStep(c, st, t, ch) == Some(e)
    ensures HasMessage(Apply(st, t, e))
  {
    EffectHasMessage(c, st, t, ch, e);
  }

  lemma EffectHasMessage(c: Config, st: State, t: Tid, ch: Choice, e: Effect)
    requires t in st.threads && WellTyped(st.threads[t].role, st.threads[t].pc)
    requires Dispatches(st.threads[t].pc) ==> MessageOf(st.threads[t].role).Some?
    requires ThreadStep(c, st, t, ch) == Some(e)
    ensures Dispatches(e.th.pc) ==> MessageOf(e.th.role).Some?
  {}

  lemma {:induction false} RunHasMessage(c: Config, states: seq<State>, actions: seq<Action>, i: nat)
    requires IsRun(c, states, actions) && i < |states|
    ensures HasMessage(states[i])
  {
    if i > 0 {
      RunHasMessage(c, states, actions, i - 1);
      RunInv(c, states, actions, i - 1);
      NextHasMessage(c, states, actions, i - 1);
    }
  }

  lemma NextHasMessage(c: Config, states: seq<State>, actions: seq<Action>, i: nat)
    requires |states| == |actions| + 1 && i < |actions| && StepAt(c, states, actions, i)
    requires Inv(states[i]) && HasMessage(states[i])
    ensures HasMessage(states[i + 1])
  {
    HasMessageKept(c, states[i], actions[i], states[i + 1]);
  }

  lemma HolderDispatchSteps(c: Config, st: State, t: Tid, msg: Json)
    requires t in st.threads && HoldsDispatch(st.threads[t].pc)
    ensures DispatchStep(c, st, t, msg).Some?
  {}

  lemma HolderSteps(c: Config, st: State, t: Tid, ch: Choice)
    requires t in st.threads && Premises(st, st.threads[t])
    requires Dispatches(st.threads[t].pc) ==> MessageOf(st.threads[t].role).Some?
    requires HoldsSessions(st.threads[t].pc) || HoldsDispatch(st.threads[t].pc) || HoldsWrite(st.threads[t].pc).Some?
    ensures ThreadStep(c, st, t, ch).Some?
  {
    var th := st.threads[t];
    if HoldsWrite(th.pc).Some? { HolderWriteSteps(st, t, ch); }
    else if HoldsDispatch(th.pc) { HolderDispatchSteps(c, st, t, MessageOf(th.role).value); }
    else {
      match th.role
      case Main => HolderMainSteps(st, t);
      case Stream => HolderStreamSteps(st, t, ch);
      case Post(sid, body) => HolderPostSteps(c, st, t, sid, body, ch);
      case Mcp(_) =>
    }
  }

  /** In every run whoever holds a lock can take its next step, whatever the
      environment does: nobody ever waits for a lock in vain. */
  lemma LockHoldersNeverBlock(c: Config, states: seq<State>, actions: seq<Action>, i: nat,
                              t: Tid, lock: Lock, ch: Choice)
    requires IsRun(c, states, actions) && i < |states| && Holds(states[i], t, lock)
    ensures t in states[i].threads && ThreadStep(c, states[i], t, ch).Some?
  {
    RunInv(c, states, actions, i);
    RunHasMessage(c, states, actions, i);
    HeldBy(states[i], t, lock);
    PremisesHold(states[i], t);
    HolderSteps(c, states[i], t, ch);
  }

  /** A write_lock is about to be destroyed only when nobody holds it, no other
      thread touches the session, and none holds a reference with which it
      could still ask for the lock. */
  lemma DestroyedWhenUnreachable(c: Config, states: seq<State>, actions: seq<Action>, i: nat, t: Tid, s: Sid)
    requires IsRun(c, states, actions) && i < |states|
    requires t in states[i].threads && states[i].threads[t].pc == Destroy(s)
    ensures s in states[i].sessions && states[i].sessions[s].lock == None && s !in states[i].sh.list
    ensures forall u :: u in states[i].threads && u != t ==>
      s !in Touches(states[i].threads[u].pc, states[i].sh.list) && Counted(states[i].threads[u].pc) != Some(s)
  {
    RunInv(c, states, actions, i);
    Unreachable(states[i], t, s);
  }

  lemma Unreachable(st: State, t: Tid, s: Sid)
    requires Inv(st) && t in st.threads && st.threads[t].pc == Destroy(s)
    ensures s in st.sessions && st.sessions[s].lock == None && s !in st.sh.list
    ensures forall u :: u in st.threads && u != t ==>
      s !in Touches(st.threads[u].pc, st.sh.list) && Counted(st.threads[u].pc) != Some(s)
  {
    ReapingIsAbout(st.threads[t].pc, s);
    assert ReapingThread(st, t, s, st.sessions[s]);
    assert ReapedSession(st, s, st.sessions[s]);
    if s in st.sh.list { ListedPositive(st, s); }
    forall u | u in st.threads && u != t
      ensures s !in Touches(st.threads[u].pc, st.sh.list) && Counted(st.threads[u].pc) != Some(s)
    {
      if Counted(st.threads[u].pc) == Some(s) { CountedPositive(st, u, s); }
      assert ReapingThread(st, u, s, st.sessions[s]);
      if s in Touches(st.threads[u].pc, st.sh.list) { TouchKinds(st.threads[u].pc, st.sh.list, s); }
    }
    if st.sessions[s].lock.Some? { LockHolderCounts(st, s); }
  }

  lemma LockHolderCounts(st: State, s: Sid)
    requires WriteLocks(st) && Exist(st) && Counts(st) && s in st.sessions && st.sessions[s].lock.Some?
    ensures st.sessions[s].refcount >= 1
  {
    var u := st.sessions[s].lock.value;
    assert HoldsWrite(st.threads[u].pc) == Some(s);
    assert Counted(st.threads[u].pc) == Some(s);
    CountedPositive(st, u, s);
  }
}
