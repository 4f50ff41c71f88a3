/** The units on a stream stand in the order in which their writers held its
    write_lock. */
module WriteOrder {
  import opened Json
  import opened Machine
  import opened Lifetime
  import opened Streams
  import opened Openings

  /** Unit number i of the log is the one that hold number at[i] was taken for. */
  ghost predicate Places(at: seq<nat>, log: seq<Entry>, holds: seq<Entry>) {
    && |at| == |log|
    && (forall i, j :: 0 <= i < j < |at| ==> at[i] < at[j])
    && (forall i :: 0 <= i < |at| ==> at[i] < |holds| && holds[at[i]] == log[i])
  }

  /** The log is what is left of the holds when some that completed no unit are
      taken out. */
  ghost predicate InHoldOrder(log: seq<Entry>, holds: seq<Entry>) {
    exists at: seq<nat> :: Places(at, log, holds)
  }

  predicate BeforeCompletion(pc: Pc) { pc.WriteCheck? || pc.WriteBegin? || pc.Writing? }

  /** The last hold is that of the thread that has the lock, and until its unit
      is complete the log is made of the holds before it. */
  ghost predicate HoldsOk(st: State, s: Sid, se: Session) {
    match se.lock
    case None => InHoldOrder(se.log, se.holds)
    case Some(t) =>
      var pc := PcOf(st, t);
      && Writes(pc) && se.holds != [] && se.holds[|se.holds| - 1] == Entry(t, UnitOf(pc.job, se.id))
      && InHoldOrder(se.log, if BeforeCompletion(pc) then se.holds[..|se.holds| - 1] else se.holds)
  }

  ghost predicate AllHoldsOk(st: State) {
    forall s :: s in st.sessions ==> HoldsOk(st, s, st.sessions[s])
  }

  // ----- sequences of units -----

  lemma LaterHold(log: seq<Entry>, holds: seq<Entry>, h: Entry)
    requires InHoldOrder(log, holds)
    ensures InHoldOrder(log, holds + [h])
  {
    var at: seq<nat> :| Places(at, log, holds);
    assert Places(at, log, holds + [h]);
  }

  lemma HoldCompletes(log: seq<Entry>, holds: seq<Entry>)
    requires holds != [] && InHoldOrder(log, holds[..|holds| - 1])
    ensures InHoldOrder(log + [holds[|holds| - 1]], holds) && InHoldOrder(log, holds)
  {
    var last: nat := |holds| - 1;
    var at: seq<nat> :| Places(at, log, holds[..last]);
    var longer: seq<nat> := at + [last];
    assert Places(longer, log + [holds[last]], holds);
    assert Places(at, log, holds);
  }

  // ----- one step -----

  lemma AloofKeepsHolds(st: State, t: Tid, e: Effect, s: Sid)
    requires t in st.threads && Aloof(st, st.threads[t], e) && WriteLocks(st)
    requires s in Apply(st, t, e).sessions && (s in st.sessions ==> HoldsOk(st, s, st.sessions[s]))
    ensures HoldsOk(Apply(st, t, e), s, Apply(st, t, e).sessions[s])
  {
    hide InHoldOrder, UnitOf;
    if s in st.sessions { assert st.sessions[s].lock != Some(t); } else { NothingHeld(); }
  }

  lemma NothingHeld()
    ensures InHoldOrder([], [])
  {
    assert Places([], [], []);
  }

  lemma WriteKeepsOtherHolds(st: State, t: Tid, ch: Choice, e: Effect, s: Sid)
    requires t in st.threads && Writes(st.threads[t].pc) && WriteStep(st, t, ch) == Some(e) && WriteLocks(st)
    requires s in st.sessions && s != st.threads[t].pc.s && HoldsOk(st, s, st.sessions[s])
    ensures s in Apply(st, t, e).sessions && HoldsOk(Apply(st, t, e), s, Apply(st, t, e).sessions[s])
  {
    hide InHoldOrder, UnitOf, Pieces;
    assert st.sessions[s].lock != Some(t);
  }

  lemma TakeKeepsHolds(st: State, t: Tid, ch: Choice, e: Effect)
    requires t in st.threads && st.threads[t].pc.WriteWant? && WriteStep(st, t, ch) == Some(e)
    requires st.threads[t].pc.s in st.sessions && HoldsOk(st, st.threads[t].pc.s, st.sessions[st.threads[t].pc.s])
    ensures var s := st.threads[t].pc.s; HoldsOk(Apply(st, t, e), s, Apply(st, t, e).sessions[s])
  {
    hide InHoldOrder, UnitOf;
    var se := Apply(st, t, e).sessions[st.threads[t].pc.s];
    var was := st.sessions[st.threads[t].pc.s];
    assert se.holds[..|se.holds| - 1] == was.holds;
  }

  lemma HeldStepKeepsHolds(st: State, t: Tid, ch: Choice, e: Effect)
    requires t in st.threads && Writes(st.threads[t].pc) && WriteStep(st, t, ch) == Some(e) && WriteLocks(st)
    requires !st.threads[t].pc.WriteWant? && st.threads[t].pc.s in st.sessions
    requires st.threads[t].pc.Writing? ==> st.threads[t].pc.todo != []
    requires HoldsOk(st, st.threads[t].pc.s, st.sessions[st.threads[t].pc.s])
    ensures var s := st.threads[t].pc.s; HoldsOk(Apply(st, t, e), s, Apply(st, t, e).sessions[s])
  {
    hide InHoldOrder, UnitOf, Pieces;
    var was := st.sessions[st.threads[t].pc.s];
    assert was.lock == Some(t);
    if BeforeCompletion(st.threads[t].pc) { HoldCompletes(was.log, was.holds); }
  }

  lemma EffectKeepsHolds(c: Config, st: State, t: Tid, ch: Choice, e: Effect)
    requires Typed(st) && Exist(st) && WriteLocks(st) && WritersOk(st) && AllHoldsOk(st)
    requires t in st.threads && ThreadStep(c, st, t, ch) == Some(e)
    ensures AllHoldsOk(Apply(st, t, e))
  {
    hide MainStep, StreamStep, PostStep, DispatchStep, WriteStep, ReleaseStep, HoldsOk, WriterOk;
    var st' := Apply(st, t, e);
    var pc := st.threads[t].pc;
    if !Writes(pc) {
      StepAloof(c, st, t, ch, e);
      hide Aloof;
      forall s | s in st'.sessions ensures HoldsOk(st', s, st'.sessions[s]) { AloofKeepsHolds(st, t, e, s); }
    } else {
      TodoLeft(st, t, ch);
      WriteAddsNone(st, t, ch, e);
      forall s | s in st'.sessions ensures HoldsOk(st', s, st'.sessions[s]) {
        if s != pc.s { WriteKeepsOtherHolds(st, t, ch, e, s); }
        else if pc.WriteWant? { TakeKeepsHolds(st, t, ch, e); }
        else { HeldStepKeepsHolds(st, t, ch, e); }
      }
    }
  }

  lemma TodoLeft(st: State, t: Tid, ch: Choice)
    requires t in st.threads && WritersOk(st) && Writes(st.threads[t].pc) && WriteStep(st, t, ch).Some?
    ensures st.threads[t].pc.s in st.sessions
    ensures st.threads[t].pc.Writing? ==> st.threads[t].pc.todo != []
  {
    assert WriterOk(st.threads[t].pc, st.sessions);
  }

  lemma HoldsIrrelevant(st: State, st': State)
    requires AllHoldsOk(st) && st'.threads == st.threads && st'.sessions == st.sessions
    ensures AllHoldsOk(st')
  {
    hide InHoldOrder;
    forall s | s in st'.sessions ensures HoldsOk(st', s, st'.sessions[s]) {
      assert HoldsOk(st, s, st.sessions[s]);
      var lock := st.sessions[s].lock;
      if lock.Some? { assert PcOf(st', lock.value) == PcOf(st, lock.value); }
    }
  }

  lemma SpawnKeepsHolds(st: State, t: Tid, role: Role)
    requires AllHoldsOk(st) && WriteLocks(st) && t !in st.threads
    ensures AllHoldsOk(Spawned(st, t, role))
  {
    hide InHoldOrder;
    var st' := Spawned(st, t, role);
    forall s | s in st'.sessions ensures HoldsOk(st', s, st'.sessions[s]) {
      assert HoldsOk(st, s, st.sessions[s]) && st.sessions[s].lock != Some(t);
      var lock := st.sessions[s].lock;
      if lock.Some? { assert PcOf(st', lock.value) == PcOf(st, lock.value); }
    }
  }

  lemma StepKeepsHolds(c: Config, st: State, a: Action, st': State)
    requires Typed(st) && Exist(st) && WriteLocks(st) && WritersOk(st) && AllHoldsOk(st)
    requires Step(c, st, a) == Some(st')
    ensures AllHoldsOk(st')
  {
    hide AllHoldsOk, ThreadStep;
    match a
    case Signal => HoldsIrrelevant(st, st');
    case Spawn(t, role) =>
      SpawnKeepsHolds(st, t, role);
      HoldsIrrelevant(Spawned(st, t, role), st');
    case Go(t, ch) =>
      var e := ThreadStep(c, st, t, ch).value;
      EffectKeepsHolds(c, st, t, ch, e);
      HoldsIrrelevant(Apply(st, t, e), st');
  }

  lemma NextHolds(c: Config, states: seq<State>, actions: seq<Action>, i: nat)
    requires |states| == |actions| + 1 && i < |actions| && StepAt(c, states, actions, i)
    requires Inv(states[i]) && WritersOk(states[i]) && AllHoldsOk(states[i])
    ensures AllHoldsOk(states[i + 1])
  {
    StepKeepsHolds(c, states[i], actions[i], states[i + 1]);
  }

  lemma {:induction false} RunHolds(c: Config, states: seq<State>, actions: seq<Action>, i: nat)
    requires PrintsOneLine(c) && IsRun(c, states, actions) && i < |states|
    ensures AllHoldsOk(states[i])
  {
    hide Inv, WritersOk, StreamsOk, HoldsOk;
    if i > 0 {
      RunHolds(c, states, actions, i - 1);
      RunInv(c, states, actions, i - 1);
      RunStreams(c, states, actions, i - 1);
      NextHolds(c, states, actions, i - 1);
    }
  }

  /** In every run the completed units of a stream are, in the order in which
      they stand on it, the units of some of the holds of its write_lock, each of
      another hold and in the order in which the lock was taken; and the last hold
      is the one that lasts, if any does. */
  lemma LogFollowsLock(c: Config, states: seq<State>, actions: seq<Action>, i: nat, s: Sid)
    requires PrintsOneLine(c) && IsRun(c, states, actions) && i < |states| && s in states[i].sessions
    ensures var se := states[i].sessions[s];
      && InHoldOrder(se.log, se.holds)
      && (se.lock.Some? ==> se.holds != [] && se.holds[|se.holds| - 1].who == se.lock.value)
  {
    hide IsRun;
    RunHolds(c, states, actions, i);
    Between(states[i], s);
  }

  lemma Between(st: State, s: Sid)
    requires AllHoldsOk(st) && s in st.sessions
    ensures var se := st.sessions[s];
      && InHoldOrder(se.log, se.holds)
      && (se.lock.Some? ==> se.holds != [] && se.holds[|se.holds| - 1].who == se.lock.value)
  {
    var se := st.sessions[s];
    assert HoldsOk(st, s, se);
    if se.lock.Some? && BeforeCompletion(PcOf(st, se.lock.value)) { HoldCompletes(se.log, se.holds); }
  }
}
