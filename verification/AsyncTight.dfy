/** The bound on queued transactions is reached: n senders that overlap leave n of their kind queued. */
module AsyncTight {
  import opened Base
  import opened BinderTypes
  import opened AsyncSystem
  import opened AsyncInvariant
  import opened AsyncSteps
  import opened AsyncTheorems
  import B = AsyncBound

  /** A kind of message that probes may supersede. */
  predicate Supersedable(c: B.Class) {
    SameKey(c.like, c.like) && (c.strategy == BY_CODE || c.strategy == BY_DATA)
  }

  /** A new process whose nodes are all as the message says. */
  function Fresh(m0: Msg): Sys {
    var nodes := seq(m0.node + 1, _ => Node(false, []));
    var ids := seq(m0.node + 1, _ => Ident(m0.ptr, m0.cookie));
    Sys(Kernel(0, 0, false, false, 1, 0, nodes, ids, map[], map[], [], map[], map[], 0, Idle),
        History(map[], map[], map[], map[], multiset{}, multiset{}, 0, 0, 0, 0, map[], 0, map[], {}))
  }

  function Range(lo: nat, hi: nat): (r: set<nat>)
    ensures forall t :: t in r <==> lo <= t < hi
    ensures |r| == if lo < hi then hi - lo else 0
    decreases hi - lo
  {
    if lo < hi then Range(lo, hi - 1) + {hi - 1} else {}
  }

  /** Transactions are numbered as they are made. Those in [lo, mid) are past their probe, those in
      [mid, hi) before it, and of those below lo the first was handed over and the others are queued. */
  ghost predicate View(s: Sys, c: B.Class, lo: nat, mid: nat, hi: nat) {
    && Inv(s) && !s.k.isDead && !s.k.isFrozen && s.k.freed == 0 && lo <= mid <= hi
    && c.like.node < |s.k.nodes| == |s.k.ids| && s.k.ids[c.like.node] == Ident(c.like.ptr, c.like.cookie)
    && s.k.nodes[c.like.node].hasAsync == (lo > 0) && (lo <= 1 ==> s.k.nodes[c.like.node].asyncTodo == [])
    && (forall t :: t in s.h.place ==> t < hi) && (forall b :: b in s.h.owner ==> b < hi)
    && (forall t :: t in s.k.senders <==> lo <= t < hi) && (forall t :: t in B.Queued(s, c) <==> 1 <= t < lo)
    && forall t :: t in s.k.senders ==>
         t in s.h.msg && B.InClass(s.h.msg[t], c) && s.k.senders[t] == if t < mid then Ready else Entered
  }

  lemma FreshView(c: B.Class)
    ensures Init(Fresh(c.like)) && View(Fresh(c.like), c, 0, 0, 0)
  {
    InitInv(Fresh(c.like));
  }

  lemma ViewSending(s: Sys, c: B.Class, lo: nat, mid: nat, hi: nat)
    requires View(s, c, lo, mid, hi)
    ensures |B.Sending(s, c)| == hi - lo
  {
    assert B.Sending(s, c) == Range(lo, hi);
  }

  // ----- The three kinds of step.

  function StartOf(m0: Msg, t: TxnId): Step {
    Start(t, Txn(m0.flags, m0.code, m0.toProc, Some(t)), t, Buffer(m0.pid, m0.node, 0, m0.data, Some(t)))
  }

  /** A new sender, with a new transaction and a new buffer, changes nothing else. */
  lemma StartChanges(s: Sys, c: B.Class, lo: nat, mid: nat, t: TxnId)
    requires Supersedable(c) && View(s, c, lo, mid, t)
    ensures Check(s, StartOf(c.like, t)) == Fine
    ensures var s' := Apply(s, StartOf(c.like, t));
            && s'.k.nodes == s.k.nodes && s'.k.ids == s.k.ids && s'.k.freed == s.k.freed
            && s'.k.isDead == s.k.isDead && s'.k.isFrozen == s.k.isFrozen
            && s'.k.senders == s.k.senders[t := Entered] && s'.h.place == s.h.place[t := Sending]
            && t in s'.h.msg && B.InClass(s'.h.msg[t], c) && s'.h.msg == s.h.msg[t := s'.h.msg[t]]
            && s'.h.owner == s.h.owner[t := t]
  {
    assert t !in s.h.place && t !in s.h.owner;
  }

  lemma StartMoved(s: Sys, s': Sys, c: B.Class, lo: nat, mid: nat, t: TxnId)
    requires View(s, c, lo, mid, t) && Inv(s') && s'.k.nodes == s.k.nodes && s'.k.ids == s.k.ids
    requires s'.k.freed == s.k.freed && s'.k.isDead == s.k.isDead && s'.k.isFrozen == s.k.isFrozen
    requires s'.k.senders == s.k.senders[t := Entered] && s'.h.place == s.h.place[t := Sending]
    requires t in s'.h.msg && B.InClass(s'.h.msg[t], c) && s'.h.msg == s.h.msg[t := s'.h.msg[t]]
    requires s'.h.owner == s.h.owner[t := t]
    ensures View(s', c, lo, mid, t + 1)
  {
    assert t !in s.h.place;
    assert B.Queued(s', c) == B.Queued(s, c);
  }

  lemma StartView(s: Sys, c: B.Class, lo: nat, mid: nat, hi: nat)
    requires Supersedable(c) && View(s, c, lo, mid, hi)
    ensures Check(s, StartOf(c.like, hi)) == Fine && View(Apply(s, StartOf(c.like, hi)), c, lo, mid, hi + 1)
  {
    StartChanges(s, c, lo, mid, hi);
    StepKeeps(s, StartOf(c.like, hi));
    StartMoved(s, Apply(s, StartOf(c.like, hi)), c, lo, mid, hi);
  }

  function ProbeOf(t: TxnId, strategy: int): Step {
    Probe(t, strategy, true, true)
  }

  /** With nothing queued a probe only moves its sender on. */
  lemma ProbeChanges(s: Sys, t: TxnId, strategy: int)
    requires Inv(s) && t in s.k.senders && s.k.senders[t] == Entered
    requires Linked(s.k, t) && NodeOf(s.k, t).asyncTodo == []
    ensures Check(s, ProbeOf(t, strategy)) == Fine
    ensures Apply(s, ProbeOf(t, strategy)).k == s.k.(senders := s.k.senders[t := Ready])
    ensures var h := Apply(s, ProbeOf(t, strategy)).h; h.place == s.h.place && h.msg == s.h.msg && h.owner == s.h.owner
  {
    StepSafe(s, ProbeOf(t, strategy));
  }

  lemma ProbeMoved(s: Sys, s': Sys, c: B.Class, lo: nat, mid: nat, hi: nat)
    requires View(s, c, lo, mid, hi) && mid < hi && Inv(s')
    requires s'.k == s.k.(senders := s.k.senders[mid := Ready])
    requires s'.h.place == s.h.place && s'.h.msg == s.h.msg && s'.h.owner == s.h.owner
    ensures View(s', c, lo, mid + 1, hi)
  {
    assert B.Queued(s', c) == B.Queued(s, c);
  }

  lemma ProbeView(s: Sys, c: B.Class, lo: nat, mid: nat, hi: nat)
    requires View(s, c, lo, mid, hi) && lo <= 1 && mid < hi
    ensures Check(s, ProbeOf(mid, c.strategy)) == Fine && View(Apply(s, ProbeOf(mid, c.strategy)), c, lo, mid + 1, hi)
  {
    SenderFacts(s, mid);
    ProbeChanges(s, mid, c.strategy);
    StepKeeps(s, ProbeOf(mid, c.strategy));
    ProbeMoved(s, Apply(s, ProbeOf(mid, c.strategy)), c, lo, mid, hi);
  }

  /** The first sender finds the node idle and is handed over; the next ones wait. */
  lemma EnqueueChanges(s: Sys, c: B.Class, t: TxnId)
    requires Inv(s) && t in s.k.senders && s.k.senders[t] == Ready && !s.k.isDead
    requires t in s.h.msg && B.InClass(s.h.msg[t], c) && c.like.node < |s.k.nodes|
    ensures Check(s, Enqueue(t)) == Fine
    ensures var s', node := Apply(s, Enqueue(t)), s.k.nodes[c.like.node];
            var waits := node.(asyncTodo := node.asyncTodo + [TxnWork(t)]);
            var node' := if node.hasAsync then waits else node.(hasAsync := true);
            && s'.k.nodes == s.k.nodes[c.like.node := node'] && s'.k.senders == s.k.senders - {t}
            && s'.k.ids == s.k.ids && s'.k.freed == s.k.freed && !s'.k.isDead && s'.k.isFrozen == s.k.isFrozen
            && s'.h.place == s.h.place[t := if node.hasAsync then Waiting(c.like.node) else Handed]
            && s'.h.msg == s.h.msg && s'.h.owner == s.h.owner
  {
    StepSafe(s, Enqueue(t));
    SenderFacts(s, t);
  }

  lemma EnqueueView(s: Sys, c: B.Class, lo: nat, mid: nat, hi: nat)
    requires Supersedable(c) && View(s, c, lo, mid, hi) && lo < mid
    ensures Check(s, Enqueue(lo)) == Fine && View(Apply(s, Enqueue(lo)), c, lo + 1, mid, hi)
  {
    SenderFacts(s, lo);
    EnqueueChanges(s, c, lo);
    StepKeeps(s, Enqueue(lo));
    EnqueueMoved(s, Apply(s, Enqueue(lo)), c, lo, mid, hi);
  }

  lemma EnqueueMoved(s: Sys, s': Sys, c: B.Class, lo: nat, mid: nat, hi: nat)
    requires View(s, c, lo, mid, hi) && lo < mid && Inv(s') && lo in s.h.place && s.h.place[lo] == Sending
    requires s'.k.senders == s.k.senders - {lo} && |s'.k.nodes| == |s.k.nodes| && s'.k.nodes[c.like.node].hasAsync
    requires lo == 0 ==> s'.k.nodes[c.like.node].asyncTodo == []
    requires s'.k.ids == s.k.ids && s'.k.freed == 0 && !s'.k.isDead && !s'.k.isFrozen
    requires s'.h.place == s.h.place[lo := if lo > 0 then Waiting(c.like.node) else Handed]
    requires s'.h.msg == s.h.msg && s'.h.owner == s.h.owner
    ensures View(s', c, lo + 1, mid, hi)
  {
    QueuedMoved(s, s', c, lo);
  }

  lemma QueuedMoved(s: Sys, s': Sys, c: B.Class, t: TxnId)
    requires t in s.h.place && t in s.h.msg && B.InClass(s.h.msg[t], c) && !s.h.place[t].Waiting?
    requires s'.h.place == s.h.place[t := if t > 0 then Waiting(c.like.node) else Handed] && s'.h.msg == s.h.msg
    ensures B.Queued(s', c) == if t > 0 then B.Queued(s, c) + {t} else B.Queued(s, c)
  {
  }

  // ----- The run.

  /** A run so far, on which the probes supersede and at most n members are sent at once. */
  ghost predicate RunTo(states: seq<Sys>, steps: seq<Step>, c: B.Class, n: nat, lo: nat, mid: nat, hi: nat) {
    && IsRunFromStart(states, steps) && B.Peak(states, steps, c, n)
    && View(states[|states| - 1], c, lo, mid, hi)
  }

  lemma {:induction false} RunExtended(states: seq<Sys>, steps: seq<Step>, step: Step, s': Sys)
    requires IsRunFromStart(states, steps) && Next(states[|states| - 1], step, s')
    ensures IsRunFromStart(states + [s'], steps + [step])
  {
    var states', steps' := states + [s'], steps + [step];
    forall i | 0 <= i < |steps'| ensures StepAt(states', steps', i) == true {
      if i < |steps| { assert StepAt(states, steps, i); }
    }
  }

  lemma Extended(states: seq<Sys>, steps: seq<Step>, c: B.Class, n: nat, step: Step, s': Sys, lo: nat,
                 mid: nat, hi: nat)
    requires IsRunFromStart(states, steps) && B.Peak(states, steps, c, n)
    requires Next(states[|states| - 1], step, s') && B.Superseding(states[|states| - 1], c, step)
    requires View(s', c, lo, mid, hi) && hi - lo <= n
    ensures RunTo(states + [s'], steps + [step], c, n, lo, mid, hi)
  {
    RunExtended(states, steps, step, s');
    ViewSending(s', c, lo, mid, hi);
    PeakExtended(states, steps, c, n, step, s');
  }

  lemma PeakExtended(states: seq<Sys>, steps: seq<Step>, c: B.Class, n: nat, step: Step, s': Sys)
    requires B.Peak(states, steps, c, n) && B.Superseding(states[|states| - 1], c, step)
    requires |B.Sending(s', c)| <= n
    ensures B.Peak(states + [s'], steps + [step], c, n)
  {
    var states', steps' := states + [s'], steps + [step];
    forall j | 0 <= j < |steps'| ensures B.PeakAt(states', steps', c, n, j) == true {
      if j < |steps| { assert B.PeakAt(states, steps, c, n, j); }
    }
  }

  lemma {:induction false} StartsTo(states: seq<Sys>, steps: seq<Step>, c: B.Class, n: nat, lo: nat, hi: nat, goal: nat)
    returns (states': seq<Sys>, steps': seq<Step>)
    requires Supersedable(c) && RunTo(states, steps, c, n, lo, lo, hi) && hi <= goal <= lo + n
    ensures RunTo(states', steps', c, n, lo, lo, goal)
    decreases goal - hi
  {
    if hi < goal {
      var s, step := states[|states| - 1], StartOf(c.like, hi);
      StartView(s, c, lo, lo, hi);
      var s' := Apply(s, step);
      Extended(states, steps, c, n, step, s', lo, lo, hi + 1);
      states', steps' := StartsTo(states + [s'], steps + [step], c, n, lo, hi + 1, goal);
    } else {
      states', steps' := states, steps;
    }
  }

  lemma ProbeOnce(states: seq<Sys>, steps: seq<Step>, c: B.Class, n: nat, lo: nat, mid: nat, hi: nat)
    returns (states': seq<Sys>, steps': seq<Step>)
    requires Supersedable(c) && RunTo(states, steps, c, n, lo, mid, hi) && lo <= 1 && mid < hi && hi - lo <= n
    ensures RunTo(states', steps', c, n, lo, mid + 1, hi)
  {
    var s, step := states[|states| - 1], ProbeOf(mid, c.strategy);
    ProbeView(s, c, lo, mid, hi);
    Extended(states, steps, c, n, step, Apply(s, step), lo, mid + 1, hi);
    states', steps' := states + [Apply(s, step)], steps + [step];
  }

  lemma {:induction false} ProbesTo(states: seq<Sys>, steps: seq<Step>, c: B.Class, n: nat, lo: nat, mid: nat, hi: nat)
    returns (states': seq<Sys>, steps': seq<Step>)
    requires Supersedable(c) && RunTo(states, steps, c, n, lo, mid, hi) && lo <= 1 && mid <= hi && hi - lo <= n
    ensures RunTo(states', steps', c, n, lo, hi, hi)
    decreases hi - mid
  {
    states', steps' := states, steps;
    if mid < hi {
      states', steps' := ProbeOnce(states, steps, c, n, lo, mid, hi);
      states', steps' := ProbesTo(states', steps', c, n, lo, mid + 1, hi);
    }
  }

  lemma {:induction false} EnqueuesTo(states: seq<Sys>, steps: seq<Step>, c: B.Class, n: nat, lo: nat, hi: nat)
    returns (states': seq<Sys>, steps': seq<Step>)
    requires Supersedable(c) && RunTo(states, steps, c, n, lo, hi, hi) && hi - lo <= n
    ensures RunTo(states', steps', c, n, hi, hi, hi)
    decreases hi - lo
  {
    if lo < hi {
      var s, step := states[|states| - 1], Enqueue(lo);
      EnqueueView(s, c, lo, hi, hi);
      var s' := Apply(s, step);
      Extended(states, steps, c, n, step, s', lo + 1, hi, hi);
      states', steps' := EnqueuesTo(states + [s'], steps + [step], c, n, lo + 1, hi);
    } else {
      states', steps' := states, steps;
    }
  }

  lemma FreshRun(c: B.Class, n: nat)
    ensures RunTo([Fresh(c.like)], [], c, n, 0, 0, 0)
  {
    FreshView(c);
    ViewSending(Fresh(c.like), c, 0, 0, 0);
  }

  lemma QueuedInView(s: Sys, c: B.Class, lo: nat, mid: nat, hi: nat)
    requires View(s, c, lo, mid, hi) && lo > 0
    ensures |B.Queued(s, c)| == lo - 1
  {
    assert B.Queued(s, c) == Range(1, lo);
  }

  /** For every kind of message and every n there is a run from the start on which every probe of the
      kind supersedes and at most n members are ever sent at once, and which leaves n of them queued. */
  lemma BoundIsReached(c: B.Class, n: nat) returns (states: seq<Sys>, steps: seq<Step>)
    requires Supersedable(c) && n > 0
    ensures IsRunFromStart(states, steps) && B.Peak(states, steps, c, n)
    ensures |B.Queued(states[|states| - 1], c)| == n
  {
    FreshRun(c, n);
    states, steps := StartsTo([Fresh(c.like)], [], c, n, 0, 0, 1);
    states, steps := ProbesTo(states, steps, c, n, 0, 0, 1);
    states, steps := EnqueuesTo(states, steps, c, n, 0, 1);
    states, steps := StartsTo(states, steps, c, n, 1, 1, 1 + n);
    states, steps := ProbesTo(states, steps, c, n, 1, 1, 1 + n);
    states, steps := EnqueuesTo(states, steps, c, n, 1, 1 + n);
    QueuedInView(states[|states| - 1], c, 1 + n, 1 + n, 1 + n);
  }
}
