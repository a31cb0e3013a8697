/** How many equivalent transactions can pile up: the point of superseding them. */
module AsyncBound {
  import opened Base
  import opened BinderTypes
  import opened AsyncSystem
  import opened AsyncInvariant
  import opened AsyncSteps
  import opened AsyncTheorems

  /** The messages on one node that the probe regards as equal to one another: under BY_CODE those
      of the same call, under BY_DATA those of the same call with the same bytes. */
  datatype Class = Class(like: Msg, strategy: int)

  predicate InClass(m: Msg, c: Class) {
    SameKey(m, c.like) && m.node == c.like.node && (c.strategy == BY_DATA ==> m.data == c.like.data)
  }

  function Queued(s: Sys, c: Class): set<TxnId> {
    set t | t in s.h.place && s.h.place[t] == Waiting(c.like.node) && t in s.h.msg && InClass(s.h.msg[t], c)
  }

  /** Class members being sent, and those of them that have been through the probe. */
  function Sending(s: Sys, c: Class): set<TxnId> {
    set t | t in s.k.senders && t in s.h.msg && InClass(s.h.msg[t], c)
  }

  function Probed(s: Sys, c: Class): set<TxnId> {
    set t | t in s.k.senders && t in s.h.msg && InClass(s.h.msg[t], c) && s.k.senders[t] != Entered
  }

  function Load(s: Sys, c: Class): nat {
    |Queued(s, c)| + |Probed(s, c)|
  }

  /** Every probe by a class member runs under the strategy of the class, on a frozen task whose
      process is neither dead nor frozen by the binder driver itself, and finds memory for its work
      item. */
  predicate Superseding(s: Sys, c: Class, step: Step) {
    step.Probe? && step.t in Sending(s, c) ==>
      && step.strategy == c.strategy && (c.strategy == BY_CODE || c.strategy == BY_DATA)
      && step.frozen && step.allocOk && !s.k.isDead && !s.k.isFrozen
  }

  lemma SameKeyCanUpdate(s: Sys, d: TxnId, t: TxnId, strategy: int)
    requires d in s.h.msg && d in s.h.buf && Attached(s.k.txns, s.k.bufs, s.k.ids, s.h.msg[d], s.h.buf[d], d)
    requires t in s.h.msg && t in s.h.buf && Attached(s.k.txns, s.k.bufs, s.k.ids, s.h.msg[t], s.h.buf[t], t)
    requires Linked(s.k, d) && Linked(s.k, t) && SameKey(s.h.msg[d], s.h.msg[t])
    requires strategy == BY_CODE || (strategy == BY_DATA && s.h.msg[d].data == s.h.msg[t].data)
    ensures CanUpdate(s.k, d, t, strategy)
  {
  }

  /** A probing class member unlinks a class member whenever one is queued. */
  lemma ProbeFinds(s: Sys, c: Class, step: Step)
    requires Inv(s) && step.Probe? && Check(s, step) == Fine && step.t in Sending(s, c) && Superseding(s, c, step)
    requires Queued(s, c) != {}
    ensures var v := Victim(s.k, step.t, step.strategy, step.frozen, step.allocOk);
            v.Some? && NodeOf(s.k, step.t).asyncTodo[v.value].t in Queued(s, c)
  {
    var k, t := s.k, step.t;
    var n, todo := BufferOf(k, t).node, NodeOf(k, t).asyncTodo;
    SenderFacts(s, t);
    var d :| d in Queued(s, c);
    assert Holds(NodeLists, s) && Holds(Nodes, s);
    assert TxnWork(d) in todo;
    var i :| 0 <= i < |todo| && todo[i] == TxnWork(d);
    WaitingFacts(s, n, i);
    SameKeyCanUpdate(s, d, t, c.strategy);
    assert Supersedes(k, todo, t, c.strategy, i);
    var v := Victim(k, t, step.strategy, step.frozen, step.allocOk);
    WaitingFacts(s, n, v.value);
    CanUpdateSameKey(s, todo[v.value].t, t, c.strategy);
  }

  // ----- How each step changes the two sets.

  /** A probe moves its sender on, and at most one transaction out of those queued. */
  predicate ProbeMoves(s: Sys, s': Sys, t: TxnId, victim: Option<TxnId>) {
    && t in s.k.senders && t in s'.k.senders && s'.k.senders == s.k.senders[t := s'.k.senders[t]]
    && s'.k.senders[t] != Entered
    && s.k.senders[t] == Entered && s'.h.msg == s.h.msg
    && s'.h.place == if victim.None? then s.h.place else s.h.place[victim.value := Dropping]
  }

  function VictimTxn(s: Sys, step: Step): Option<TxnId>
    requires step.Probe? && Check(s, step) == Fine
  {
    var v := Victim(s.k, step.t, step.strategy, step.frozen, step.allocOk);
    if v.None? then None else Some(NodeOf(s.k, step.t).asyncTodo[v.value].t)
  }

  lemma ProbeMovesOne(s: Sys, step: Step)
    requires Inv(s) && step.Probe? && Check(s, step) == Fine
    ensures ProbeMoves(s, Apply(s, step), step.t, VictimTxn(s, step))
  {
    SenderFacts(s, step.t);
  }

  lemma MovedLoad(s: Sys, s': Sys, c: Class, t: TxnId, victim: Option<TxnId>)
    requires ProbeMoves(s, s', t, victim)
    requires t in Sending(s, c) && Queued(s, c) != {} ==> victim.Some? && victim.value in Queued(s, c)
    ensures Load(s', c) <= Max(Load(s, c), |Sending(s', c)|)
  {
    SubsetSize(Queued(s', c), Queued(s, c));
    if t !in Sending(s, c) {
      assert Probed(s', c) == Probed(s, c);
    } else if Queued(s, c) == {} {
      SubsetSize(Probed(s', c), Sending(s', c));
    } else {
      assert Queued(s', c) == Queued(s, c) - {victim.value};
      assert Probed(s', c) == Probed(s, c) + {t};
    }
  }

  lemma ProbeLoad(s: Sys, c: Class, step: Step)
    requires Inv(s) && step.Probe? && Check(s, step) == Fine && Superseding(s, c, step)
    ensures Load(Apply(s, step), c) <= Max(Load(s, c), |Sending(Apply(s, step), c)|)
  {
    ProbeMovesOne(s, step);
    if step.t in Sending(s, c) && Queued(s, c) != {} { ProbeFinds(s, c, step); }
    MovedLoad(s, Apply(s, step), c, step.t, VictimTxn(s, step));
  }

  lemma SentLoad(s: Sys, s': Sys, c: Class, t: TxnId, p: Place)
    requires t in s.k.senders && s.k.senders[t] == Ready && t in s.h.msg
             && (p.Waiting? ==> p.n == s.h.msg[t].node && OneWay(s.h.msg[t].flags))
    requires s'.k.senders == s.k.senders - {t} && s'.h.msg == s.h.msg && s'.h.place == s.h.place[t := p]
    ensures Load(s', c) <= Load(s, c)
  {
    if t in Probed(s, c) {
      assert Probed(s', c) == Probed(s, c) - {t};
      SubsetSize(Queued(s', c), Queued(s, c) + {t});
    } else {
      assert Probed(s', c) == Probed(s, c);
      SubsetSize(Queued(s', c), Queued(s, c));
    }
  }

  lemma EnqueueLoad(s: Sys, c: Class, t: TxnId)
    requires Inv(s) && Check(s, Enqueue(t)) == Fine
    ensures Load(Apply(s, Enqueue(t)), c) <= Load(s, c)
  {
    var s', flags := Apply(s, Enqueue(t)), s.k.txns[t].flags;
    SenderFacts(s, t);
    if Refused(s.k, flags) { SentLoad(s, s', c, t, Failed); }
    else if OneWay(flags) && NodeOf(s.k, t).hasAsync { SentLoad(s, s', c, t, Waiting(BufferOf(s.k, t).node)); }
    else { SentLoad(s, s', c, t, Handed); }
  }

  lemma OtherQueued(s: Sys, c: Class, step: Step)
    requires Inv(s) && Check(s, step) == Fine && !step.Probe? && !step.Enqueue?
    ensures Queued(Apply(s, step), c) <= Queued(s, c)
  {
  }

  predicate MovesSender(step: Step) {
    step.Probe? || step.Enqueue? || step.Start? || step.Clear? || step.Queue?
  }

  lemma SendersSame(k: Kernel, step: Step, k': Kernel)
    requires Safe(k, step) && !MovesSender(step) && k' == ApplyK(k, step)
    ensures k'.senders == k.senders
  {
    if step.Deliver? || step.DrainTodo? || step.DrainNode? {
      FreeingKeepsSenders(k, step, k');
    }
  }

  lemma FreeingKeepsSenders(k: Kernel, step: Step, k': Kernel)
    requires (step.Deliver? || step.DrainTodo? || step.DrainNode?) && Safe(k, step) && k' == ApplyK(k, step)
    ensures k'.senders == k.senders
  {
  }

  /** Only starting adds a sender, and only tails change one. */
  lemma OtherSenders(s: Sys, step: Step)
    requires Check(s, step) == Fine && !step.Probe? && !step.Enqueue?
    ensures var senders := ApplyK(s.k, step).senders;
            forall t :: t in senders && senders[t] != Entered ==> t in s.k.senders && s.k.senders[t] != Entered
  {
    if !MovesSender(step) { SendersSame(s.k, step, ApplyK(s.k, step)); }
  }

  lemma OtherMsgs(s: Sys, step: Step, t: TxnId)
    requires Inv(s) && Check(s, step) == Fine && !step.Probe? && !step.Enqueue? && t in s.k.senders
    ensures t in s.h.msg && t in ApplyH(s, step).msg && ApplyH(s, step).msg[t] == s.h.msg[t]
  {
    SenderFacts(s, t);
  }

  lemma OtherProbed(s: Sys, c: Class, step: Step)
    requires Inv(s) && Check(s, step) == Fine && !step.Probe? && !step.Enqueue?
    ensures Probed(Apply(s, step), c) <= Probed(s, c)
  {
    var s' := Sys(ApplyK(s.k, step), ApplyH(s, step));
    OtherSenders(s, step);
    forall t | t in Probed(s', c) ensures t in Probed(s, c) {
      OtherMsgs(s, step, t);
    }
  }

  lemma OtherLoad(s: Sys, c: Class, step: Step)
    requires Inv(s) && Check(s, step) == Fine && !step.Probe? && !step.Enqueue?
    ensures Load(Apply(s, step), c) <= Load(s, c)
  {
    OtherQueued(s, c, step);
    OtherProbed(s, c, step);
    SubsetSize(Queued(Apply(s, step), c), Queued(s, c));
    SubsetSize(Probed(Apply(s, step), c), Probed(s, c));
  }

  lemma StepLoad(s: Sys, c: Class, step: Step)
    requires Inv(s) && Check(s, step) == Fine && Superseding(s, c, step)
    ensures Load(Apply(s, step), c) <= Max(Load(s, c), |Sending(Apply(s, step), c)|)
  {
    if step.Probe? {
      ProbeLoad(s, c, step);
    } else if step.Enqueue? {
      EnqueueLoad(s, c, step.t);
    } else {
      OtherLoad(s, c, step);
    }
  }

  /** Every probe of the class supersedes, and never more than `bound` members are being sent. */
  predicate Peak(states: seq<Sys>, steps: seq<Step>, c: Class, bound: nat) {
    && |states| == |steps| + 1 && |Sending(states[0], c)| <= bound
    && forall j :: 0 <= j < |steps| ==> PeakAt(states, steps, c, bound, j)
  }

  predicate PeakAt(states: seq<Sys>, steps: seq<Step>, c: Class, bound: nat, j: nat)
    requires j < |steps| && |states| == |steps| + 1
  {
    Superseding(states[j], c, steps[j]) && |Sending(states[j + 1], c)| <= bound
  }

  lemma NextLoad(s: Sys, c: Class, step: Step, s': Sys, bound: nat)
    requires Inv(s) && Next(s, step, s') && Superseding(s, c, step) && Load(s, c) <= bound
             && |Sending(s', c)| <= bound
    ensures Inv(s') && Load(s', c) <= bound
  {
    StepKeeps(s, step);
    StepLoad(s, c, step);
  }

  /** The bound and the invariant go from one state of the run to the next. */
  lemma LoadAt(states: seq<Sys>, steps: seq<Step>, c: Class, bound: nat, j: nat)
    requires IsRun(states, steps) && Peak(states, steps, c, bound) && j < |steps|
    requires Inv(states[j]) && Load(states[j], c) <= bound
    ensures Inv(states[j + 1]) && Load(states[j + 1], c) <= bound
  {
    assert StepAt(states, steps, j) && PeakAt(states, steps, c, bound, j);
    NextLoad(states[j], c, steps[j], states[j + 1], bound);
  }

  /** Queued class members plus class senders between probe and enqueue never exceed the larger of
      the starting total and the peak number of concurrent class senders. Senders of other classes
      may do anything. */
  lemma {:induction false} LoadBounded(states: seq<Sys>, steps: seq<Step>, c: Class, bound: nat, i: nat)
    requires IsRun(states, steps) && Inv(states[0]) && i < |states|
    requires Peak(states, steps, c, bound) && Load(states[0], c) <= bound
    ensures Inv(states[i]) && Load(states[i], c) <= bound
  {
    if i > 0 {
      LoadBounded(states, steps, c, bound, i - 1);
      LoadAt(states, steps, c, bound, i - 1);
    }
  }

  /** Senders that take turns leave at most one of their kind queued. */
  lemma SerialisedSendersQueueOne(states: seq<Sys>, steps: seq<Step>, c: Class, i: nat)
    requires IsRunFromStart(states, steps) && i < |states|
    requires Peak(states, steps, c, 1)
    ensures |Queued(states[i], c)| <= 1
  {
    InitInv(states[0]);
    LoadBounded(states, steps, c, 1, i);
  }
}
