/** What holds of every run of the free-async protocol, in every interleaving. */
module AsyncTheorems {
  import opened Base
  import opened BinderTypes
  import opened AsyncSystem
  import opened AsyncInvariant
  import opened AsyncSteps

  predicate IsRunFromStart(states: seq<Sys>, steps: seq<Step>) {
    IsRun(states, steps) && Init(states[0])
  }

  lemma {:induction false} RunInv(states: seq<Sys>, steps: seq<Step>, i: nat)
    requires IsRunFromStart(states, steps) && i < |states|
    ensures Inv(states[i])
  {
    if i == 0 {
      InitInv(states[0]);
    } else {
      RunInv(states, steps, i - 1);
      assert StepAt(states, steps, i - 1);
      StepKeeps(states[i - 1], steps[i - 1]);
    }
  }

  /** Memory safety: at no point of any run can any actor follow a dangling pointer, meet a null
      buffer while scanning, or touch the process after it was freed. */
  lemma RunSafe(states: seq<Sys>, steps: seq<Step>, i: nat, step: Step)
    requires IsRunFromStart(states, steps) && i < |states|
    ensures Check(states[i], step) != Faulty
  {
    RunInv(states, steps, i);
    StepSafe(states[i], step);
  }

  // ----- Every unlinked transaction is freed exactly once and stays gone.

  predicate InTodo(k: Kernel, t: TxnId) {
    exists n :: 0 <= n < |k.nodes| && TxnWork(t) in k.nodes[n].asyncTodo
  }

  lemma EnqueueUnlinksNone(s: Sys, t: TxnId)
    requires Check(s, Enqueue(t)) == Fine
    ensures ApplyH(s, Enqueue(t)).heir == s.h.heir
  {
    var flags := s.k.txns[t].flags;
    if Refused(s.k, flags) {} else if OneWay(flags) && NodeOf(s.k, t).hasAsync {} else {}
  }

  lemma DropUnlinksNone(s: Sys, step: Step)
    requires Check(s, step) == Fine && (step.Finish? || step.DropRef? || step.ReleaserDone?)
    ensures ApplyH(s, step).heir == s.h.heir
  {
    assert DecTmprefH(s.k, ApplyK(s.k, step), s.h).heir == s.h.heir;
  }

  lemma OnlyProbesUnlink(s: Sys, step: Step)
    requires Check(s, step) == Fine && !step.Probe?
    ensures ApplyH(s, step).heir == s.h.heir
  {
    if step.Enqueue? {
      EnqueueUnlinksNone(s, step.t);
    } else if step.Finish? || step.DropRef? || step.ReleaserDone? {
      DropUnlinksNone(s, step);
    }
  }

  /** Only probes unlink, and what is unlinked stays so. */
  lemma HeirGrows(s: Sys, step: Step)
    requires Check(s, step) == Fine
    ensures s.h.heir.Keys <= Apply(s, step).h.heir.Keys
  {
    if !step.Probe? { OnlyProbesUnlink(s, step); }
  }

  lemma NextHeirGrows(s: Sys, step: Step, s': Sys)
    requires Next(s, step, s')
    ensures s.h.heir.Keys <= s'.h.heir.Keys
  {
    HeirGrows(s, step);
  }

  lemma {:induction false} UnlinkedForever(states: seq<Sys>, steps: seq<Step>, i: nat, j: nat)
    requires IsRun(states, steps) && i <= j < |states|
    ensures states[i].h.heir.Keys <= states[j].h.heir.Keys
  {
    if i < j {
      UnlinkedForever(states, steps, i, j - 1);
      assert StepAt(states, steps, j - 1);
      NextHeirGrows(states[j - 1], steps[j - 1], states[j]);
    }
  }

  lemma UnlinkedOffLists(s: Sys, d: TxnId)
    requires Inv(s) && d in s.h.heir
    ensures !InTodo(s.k, d) && d !in s.k.procTodo && d in s.h.place
    ensures s.h.place[d] == Dropping <==> d in s.k.jobs
    ensures s.h.place[d] == Dropped <==> d !in s.k.jobs
  {
    assert Holds(Heirs, s) && Holds(NodeLists, s) && Holds(ProcList, s) && Holds(Actors, s);
  }

  lemma UnlinkedFreedOnce(s: Sys, d: TxnId)
    requires Inv(s) && d in s.h.heir
    ensures d in s.h.buf && s.h.released[s.h.buf[d]] <= 1 && s.h.txnFreed[d] <= 1
    ensures d !in s.k.jobs ==> s.h.released[s.h.buf[d]] == 1 && s.h.txnFreed[d] == 1
  {
    UnlinkedOffLists(s, d);
    assert Holds(Heap, s) && Holds(Buffers, s) && Holds(Records, s);
    assert TxnOk(s.k.txns, s.k.bufs, s.k.jobs, s.k.ids, s.h.msg[d], s.h.buf[d], s.h.place[d], d);
  }

  /** From the moment a probe has unlinked d, d is on no node's list again; its buffer and its
      record are each freed at most once, and exactly once when its worker is done; until then
      the process stays allocated. */
  lemma FreedExactlyOnce(states: seq<Sys>, steps: seq<Step>, i: nat, j: nat, d: TxnId)
    requires IsRunFromStart(states, steps) && i <= j < |states| && d in states[i].h.heir
    ensures !InTodo(states[j].k, d) && d !in states[j].k.procTodo && d in states[j].h.buf
    ensures states[j].h.released[states[j].h.buf[d]] <= 1 && states[j].h.txnFreed[d] <= 1
    ensures d in states[j].k.jobs ==> states[j].k.freed == 0
    ensures d !in states[j].k.jobs ==> states[j].h.released[states[j].h.buf[d]] == 1 && states[j].h.txnFreed[d] == 1
  {
    UnlinkedForever(states, steps, i, j);
    RunInv(states, steps, j);
    UnlinkedOffLists(states[j], d);
    UnlinkedFreedOnce(states[j], d);
    if states[j].k.freed > 0 { FreedIsDeserted(states[j]); }
  }

  /** Every buffer of a run is released at most once, by the worker, the receiver, a failing sender
      or the end of the process, and the process itself is freed at most once. */
  lemma NothingFreedTwice(states: seq<Sys>, steps: seq<Step>, i: nat)
    requires IsRunFromStart(states, steps) && i < |states|
    ensures forall b: BufId :: states[i].h.released[b] <= 1
    ensures forall t: TxnId :: states[i].h.txnFreed[t] <= 1
    ensures states[i].k.freed <= 1
  {
    RunInv(states, steps, i);
    assert Holds(Buffers, states[i]) && Holds(Records, states[i]) && Holds(Refs, states[i]);
  }

  /** tmp_ref covers every pending free and every other holder, so the process outlives them all. */
  lemma ProcessOutlivesFrees(states: seq<Sys>, steps: seq<Step>, i: nat)
    requires IsRunFromStart(states, steps) && i < |states|
    ensures var k := states[i].k;
            && k.tmpRef == |k.senders| + |k.jobs| + k.holders + ReleaserRef(k)
            && (k.freed > 0 ==> k.isDead && k.threads == 0 && k.jobs == map[] && k.senders == map[] && k.holders == 0
                                && k.bufs == map[] && Drain(k.nodes, k.procTodo))
  {
    RunInv(states, steps, i);
    assert Holds(Refs, states[i]);
    if states[i].k.freed > 0 { FreedIsDeserted(states[i]); }
  }

  /** A dead process that nothing refers to any more has been freed. */
  predicate NotForgotten(k: Kernel) {
    k.isDead && k.threads == 0 && k.tmpRef == 0 ==> k.freed > 0
  }

  /** Only these steps move the references, the threads or the death of the process. */
  predicate MovesRefs(step: Step) {
    || step.Start? || step.Probe? || step.Enqueue? || step.Finish? || step.TakeRef? || step.DropRef?
    || step.ThreadStart? || step.ThreadExit? || step.Die? || step.ReleaserDone?
  }

  lemma RefsSame(k: Kernel, step: Step, k': Kernel)
    requires Safe(k, step) && !MovesRefs(step) && k' == ApplyK(k, step)
    ensures k'.isDead == k.isDead && k'.threads == k.threads && k'.tmpRef == k.tmpRef && k'.freed == k.freed
  {
    if step.Deliver? || step.DrainTodo? || step.DrainNode? { FreeingKeepsRefs(k, step, k'); }
  }

  lemma FreeingKeepsRefs(k: Kernel, step: Step, k': Kernel)
    requires (step.Deliver? || step.DrainTodo? || step.DrainNode?) && Safe(k, step) && k' == ApplyK(k, step)
    ensures k'.isDead == k.isDead && k'.threads == k.threads && k'.tmpRef == k.tmpRef && k'.freed == k.freed
  {
  }

  lemma RefsMove(s: Sys, step: Step)
    requires Inv(s) && Check(s, step) == Fine && NotForgotten(s.k) && MovesRefs(step)
    ensures NotForgotten(ApplyK(s.k, step))
  {
    assert Holds(Refs, s);
  }

  lemma StepForgetsNot(s: Sys, step: Step)
    requires Inv(s) && Check(s, step) == Fine && NotForgotten(s.k)
    ensures NotForgotten(ApplyK(s.k, step))
  {
    if MovesRefs(step) {
      RefsMove(s, step);
    } else {
      RefsSame(s.k, step, ApplyK(s.k, step));
    }
  }

  lemma ForgetsNotAt(states: seq<Sys>, steps: seq<Step>, i: nat)
    requires IsRunFromStart(states, steps) && i < |steps| && NotForgotten(states[i].k)
    ensures NotForgotten(states[i + 1].k) == true
  {
    RunInv(states, steps, i);
    assert StepAt(states, steps, i);
    StepForgetsNot(states[i], steps[i]);
  }

  lemma {:induction false} RunForgetsNot(states: seq<Sys>, steps: seq<Step>, i: nat)
    requires IsRunFromStart(states, steps) && i < |states|
    ensures NotForgotten(states[i].k) == true
  {
    if i == 0 {
      assert !states[0].k.isDead;
    } else {
      RunForgetsNot(states, steps, i - 1);
      ForgetsNotAt(states, steps, i - 1);
    }
  }

  /** The process is freed exactly when it is dead, its threads are gone and no sender, pending free,
      holder or releaser is left: not before, and not never. */
  lemma FreedExactlyWhenDeserted(states: seq<Sys>, steps: seq<Step>, i: nat)
    requires IsRunFromStart(states, steps) && i < |states|
    ensures var k := states[i].k;
            k.freed == 1 <==>
              && k.isDead && k.threads == 0 && k.senders == map[] && k.jobs == map[] && k.holders == 0
              && k.releaser == Done
  {
    RunInv(states, steps, i);
    RunForgetsNot(states, steps, i);
    assert Holds(Refs, states[i]) && Holds(Death, states[i]);
    if states[i].k.freed > 0 { FreedIsDeserted(states[i]); }
  }

  /** Conservation: every transaction ever enqueued is waiting, handed over, delivered, being
      freed, freed or drained, and outstanding_txns counts exactly the undelivered ones. */
  lemma Conservation(states: seq<Sys>, steps: seq<Step>, i: nat)
    requires IsRunFromStart(states, steps) && i < |states|
    ensures var k, h := states[i].k, states[i].h;
            && k.outstanding == CountWaiting(k.nodes) + |k.procTodo|
            && h.enqueued == k.outstanding + h.delivered + |k.jobs| + h.dropped + h.drained
  {
    RunInv(states, steps, i);
    assert Holds(Counts, states[i]);
  }

  // ----- A pending free is never stuck.

  function Rank(stage: Stage): nat {
    match stage
    case Unlinked => 5
    case Cleared(_) => 4
    case Queued(_) => 3
    case BufferReleased(_) => 2
    case TxnFreed(_) => 1
  }

  function NextOf(s: Sys, d: TxnId): Step
    requires d in s.k.jobs && (EarlyStage(s.k.jobs[d]) ==> d in s.h.heir)
  {
    match s.k.jobs[d]
    case Unlinked => Clear(s.h.heir[d])
    case Cleared(_) => Queue(s.h.heir[d])
    case Queued(_) => ReleaseBuffer(d)
    case BufferReleased(_) => FreeTxn(d)
    case TxnFreed(_) => Finish(d)
  }

  lemma RankFalls(s: Sys, d: TxnId, step: Step)
    requires Inv(s) && d in s.k.jobs && (EarlyStage(s.k.jobs[d]) ==> d in s.h.heir) && step == NextOf(s, d)
             && Check(s, step) == Fine
    ensures var k' := ApplyK(s.k, step);
            if d in k'.jobs then Rank(k'.jobs[d]) < Rank(s.k.jobs[d]) else s.k.jobs[d].TxnFreed?
  {
    assert Holds(Tails, s);
  }

  lemma FreeProgresses(s: Sys, d: TxnId)
    requires Inv(s) && d in s.k.jobs
    ensures EarlyStage(s.k.jobs[d]) ==> d in s.h.heir
    ensures var step := NextOf(s, d);
            && Check(s, step) == Fine
            && var k' := Apply(s, step).k;
               if d in k'.jobs then Rank(k'.jobs[d]) < Rank(s.k.jobs[d]) else s.k.jobs[d].TxnFreed?
  {
    assert Holds(Tails, s);
    StepSafe(s, NextOf(s, d));
    RankFalls(s, d, NextOf(s, d));
  }

  /** A probe unlinks a waiting transaction, never one that is being freed. */
  lemma ProbeLeavesJobs(s: Sys, step: Step, d: TxnId)
    requires Inv(s) && d in s.k.jobs && step.Probe? && Check(s, step) == Fine
    ensures d in ApplyK(s.k, step).jobs && ApplyK(s.k, step).jobs[d] == s.k.jobs[d]
  {
    var v := Victim(s.k, step.t, step.strategy, step.frozen, step.allocOk);
    if v.Some? { WaitingFacts(s, BufferOf(s.k, step.t).node, v.value); }
  }

  /** The probe's tail works on the transaction its sender has unlinked. */
  lemma TailLeavesJobs(s: Sys, step: Step, d: TxnId)
    requires Inv(s) && d in s.k.jobs && (step.Clear? || step.Queue?) && Check(s, step) == Fine
    requires EarlyStage(s.k.jobs[d]) ==> d in s.h.heir
    requires step != NextOf(s, d)
    ensures d in ApplyK(s.k, step).jobs && ApplyK(s.k, step).jobs[d] == s.k.jobs[d]
  {
    assert Holds(Tails, s);
  }

  /** Nobody else moves a pending free on or takes it away: only its own next step touches it. */
  lemma FreeUndisturbed(s: Sys, step: Step, d: TxnId)
    requires Inv(s) && d in s.k.jobs && Check(s, step) == Fine
    requires EarlyStage(s.k.jobs[d]) ==> d in s.h.heir
    requires step != NextOf(s, d)
    ensures d in ApplyK(s.k, step).jobs && ApplyK(s.k, step).jobs[d] == s.k.jobs[d]
  {
    if step.Probe? {
      ProbeLeavesJobs(s, step, d);
    } else if step.Clear? || step.Queue? {
      TailLeavesJobs(s, step, d);
    }
  }

  // ----- Latest wins.

  predicate SameKind(m1: Msg, m2: Msg) {
    SameKey(m1, m2) && m1.node == m2.node
  }

  /** Every transaction of d's kind that was dropped was compared by its data. */
  predicate ClassRead(s: Sys, d: TxnId) {
    && d in s.h.msg
    && forall x :: x in s.h.heir && x in s.h.msg && SameKind(s.h.msg[x], s.h.msg[d]) ==> x !in s.h.unread
  }

  /** Follows the chain of superseding senders from a dropped transaction to one that was not dropped. */
  lemma {:induction false} Survivor(s: Sys, d: TxnId) returns (t: TxnId)
    requires Inv(s) && d in s.h.heir
    ensures t in s.h.place && t !in s.h.heir && d in s.h.msg && t in s.h.msg
    ensures SameKey(s.h.msg[d], s.h.msg[t]) && s.h.msg[t].node == s.h.msg[d].node
    ensures d in s.h.ticket && t in s.h.ticket && s.h.ticket[d] < s.h.ticket[t]
    ensures ClassRead(s, d) ==> s.h.msg[d].data == s.h.msg[t].data
    decreases if d in s.h.ticket then s.h.probes - s.h.ticket[d] else 0
  {
    assert Holds(Heirs, s) && Holds(Tickets, s);
    t := s.h.heir[d];
    assert HeirOk(s.h.msg, s.h.ticket, s.h.unread, d, t);
    if t in s.h.heir {
      t := Survivor(s, t);
    }
  }

  /** In every state of every run, each transaction the probe ever dropped has a later-probed one
      with the same task, code, flags, pid, node pointer and cookie that was not dropped, with the
      same data if those of its kind were dropped only after their data had been compared. Once all
      senders are through and as long as the process lives, that one is waiting, on its way or
      delivered. */
  lemma LatestWins(states: seq<Sys>, steps: seq<Step>, i: nat, d: TxnId)
    requires IsRunFromStart(states, steps) && i < |states| && d in states[i].h.heir
    ensures var s := states[i];
            exists t :: t in s.h.place && t !in s.h.heir && d in s.h.msg && t in s.h.msg
              && SameKey(s.h.msg[d], s.h.msg[t]) && s.h.msg[t].node == s.h.msg[d].node
              && d in s.h.ticket && t in s.h.ticket && s.h.ticket[d] < s.h.ticket[t]
              && (ClassRead(s, d) ==> s.h.msg[d].data == s.h.msg[t].data)
              && (s.k.senders == map[] && !s.k.isDead ==>
                    s.h.place[t].Waiting? || s.h.place[t] == Handed || s.h.place[t] == Delivered)
  {
    RunInv(states, steps, i);
    var s := states[i];
    var t := Survivor(s, d);
    assert Holds(Heirs, s) && Holds(Actors, s) && Holds(Death, s);
  }
}
