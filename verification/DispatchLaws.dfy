/** What the sequential run behind concurrent dispatch is: the dispatcher's own
    run while memory lasts, and one whose every reply conforms when it may not. */
module DispatchLaws {
  import opened Json
  import opened Machine
  import opened Lifetime
  import opened DispatchOrder
  import Dispatcher
  import Protocol
  import ProtocolLaws

  function Messages(order: seq<Turn>): seq<Json> {
    seq(|order|, i requires 0 <= i < |order| => order[i].msg)
  }

  // ----- while memory lasts -----

  ghost predicate MemoryLasts(c: Config) {
    forall srv, msg, k: nat :: c.handle(srv, msg, k) == Protocol.Handle(srv, msg)
  }

  lemma {:induction false} AfterIsFinal(c: Config, order: seq<Turn>, k: nat)
    requires MemoryLasts(c) && k <= |order|
    ensures After(c, order, k) == ProtocolLaws.Final(c.server, Messages(order[..k]))
  {
    hide Protocol.Handle;
    if k > 0 {
      AfterIsFinal(c, order, k - 1);
      assert Messages(order[..k]) == Messages(order[..k - 1]) + [order[k - 1].msg];
      ProtocolLaws.FinalSnoc(c.server, Messages(order[..k - 1]), order[k - 1].msg);
    } else {
      assert Messages(order[..k]) == [];
    }
  }

  lemma OutcomeIsRun(c: Config, order: seq<Turn>, k: nat)
    requires MemoryLasts(c) && k < |order|
    ensures OutcomeAt(c, order, k) == ProtocolLaws.Run(c.server, Messages(order))[k]
  {
    hide Protocol.Handle;
    AfterIsFinal(c, order, k);
    ProtocolLaws.RunAt(c.server, Messages(order), k);
    assert Messages(order)[..k] == Messages(order[..k]);
  }

  /** While memory lasts every completed call has the reply that one dispatcher,
      fed with all messages one after the other in lock order, gives at its place,
      and the server is the one that dispatcher ends with. */
  lemma DispatchIsProtocolRun(c: Config, states: seq<State>, actions: seq<Action>, i: nat, t: Tid)
    requires MemoryLasts(c) && IsRun(c, states, actions) && i < |states|
    ensures states[i].sh.dispLock == None ==>
      states[i].sh.server == ProtocolLaws.Final(c.server, Messages(states[i].sh.order))
    ensures t in states[i].threads && states[i].threads[t].returned.Some? ==>
      var th, order := states[i].threads[t], states[i].sh.order;
      && th.slot.Some? && th.slot.value < |order| && order[th.slot.value].tid == t
      && th.reply == ProtocolLaws.Run(c.server, Messages(order))[th.slot.value].reply
  {
    hide IsRun, MemoryLasts, ProtocolLaws.Run;
    var order := states[i].sh.order;
    DispatchIsSequential(c, states, actions, i, t);
    AfterIsFinal(c, order, |order|);
    assert order[..|order|] == order;
    if t in states[i].threads && states[i].threads[t].returned.Some? {
      OutcomeIsRun(c, order, states[i].threads[t].slot.value);
    }
  }

  // ----- when allocations may fail -----

  /** Each dispatch does what the dispatcher may do under some failures. */
  ghost predicate MemoryMayFail(c: Config) {
    forall srv, msg, k: nat :: Dispatcher.MayHandle(srv, msg, c.handle(srv, msg, k))
  }

  /** The registry does not change, and initialized is set by an initialize
      request only. */
  lemma {:induction false} ServerAfter(c: Config, order: seq<Turn>, k: nat)
    requires MemoryMayFail(c) && k <= |order|
    ensures After(c, order, k) == c.server.(initialized := After(c, order, k).initialized)
    ensures c.server.initialized ==> After(c, order, k).initialized
    ensures After(c, order, k).initialized && !c.server.initialized ==>
      exists j :: 0 <= j < k && ProtocolLaws.IsInitializeRequest(order[j].msg)
  {
    if k > 0 {
      ServerAfter(c, order, k - 1);
      assert Dispatcher.MayHandle(After(c, order, k - 1), order[k - 1].msg, OutcomeAt(c, order, k - 1));
    }
  }

  /** In every run, with any failing allocations, the reply of every completed
      call is a response object for its own message's id, and a notification has
      none; and a call whose handler ran had an initialize request before it. */
  lemma ConcurrentRepliesConform(c: Config, states: seq<State>, actions: seq<Action>, i: nat, t: Tid)
    requires MemoryMayFail(c) && IsRun(c, states, actions) && i < |states|
    requires t in states[i].threads && states[i].threads[t].returned.Some?
    ensures var th, order := states[i].threads[t], states[i].sh.order;
      && th.slot.Some? && th.slot.value < |order| && MessageOf(th.role) == Some(order[th.slot.value].msg)
      && var k, msg := th.slot.value, order[th.slot.value].msg;
      && (th.reply.Some? ==>
            ProtocolLaws.Conforms(th.reply.value, ProtocolLaws.RequestId(msg)) && !ProtocolLaws.IsNotification(msg))
      && (OutcomeAt(c, order, k).ran.Some? && !c.server.initialized ==>
            exists j :: 0 <= j < k && ProtocolLaws.IsInitializeRequest(order[j].msg))
  {
    hide IsRun, MemoryMayFail, ProtocolLaws.Conforms, ProtocolLaws.IsNotification;
    var th, order := states[i].threads[t], states[i].sh.order;
    DispatchIsSequential(c, states, actions, i, t);
    TurnConforms(c, order, th.slot.value);
  }

  lemma TurnConforms(c: Config, order: seq<Turn>, k: nat)
    requires MemoryMayFail(c) && k < |order|
    ensures var msg, out := order[k].msg, OutcomeAt(c, order, k);
      && (out.reply.Some? ==>
            ProtocolLaws.Conforms(out.reply.value, ProtocolLaws.RequestId(msg)) && !ProtocolLaws.IsNotification(msg))
      && (out.ran.Some? && !c.server.initialized ==>
            exists j :: 0 <= j < k && ProtocolLaws.IsInitializeRequest(order[j].msg))
  {
    hide Protocol.Handle, ProtocolLaws.Conforms, ProtocolLaws.IsNotification, Dispatcher.MayReply;
    var srv, msg := After(c, order, k), order[k].msg;
    assert Dispatcher.MayHandle(srv, msg, OutcomeAt(c, order, k));
    ServerAfter(c, order, k);
    ProtocolLaws.HandleFrame(srv, msg);
    if OutcomeAt(c, order, k).reply.Some? {
      Dispatcher.EveryReplyConforms(srv, msg, OutcomeAt(c, order, k).reply.value);
    }
  }
}
