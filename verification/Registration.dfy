/** Registering and unregistering the probe and its work queue, while probe handlers queue frees and
    the queue's worker runs them. A step is one call into the kernel or one move of a handler or of
    the worker. */
module Registration {
  import opened Base

  /** Where rkx_register_binder_kp or rkx_unregister_binder_kp is. */
  datatype Phase =
    | Resting
    | AllocQueue | ProbeKallsyms | ResolveSymbols | RegisterProbe | SetFlag
    | TestFlag | WaitHandlers | ClearFlag | TestQueue | DestroyQueue | ClearQueue

  type Job = nat

  /** `pointer` and `flag` are rkx_free_wq and rkx_kp_registered; `queue` and `probe` are what exists
      in the kernel; `handlers` run in the probe; `queued` and `ran` are all jobs so far. */
  datatype Sys = Sys(phase: Phase, pointer: bool, flag: bool, queue: bool, probe: bool,
                     handlers: nat, pending: seq<Job>, queued: seq<Job>, ran: seq<Job>)

  datatype Step = Register | Unregister | Go | Fail
    | Hit | QueueFree(job: Job) | Leave | Work

  predicate Enabled(s: Sys, step: Step) {
    match step
    // registering is for a module that is not registered; unregistering is allowed at any time
    case Register => s.phase.Resting? && !s.pointer && !s.flag
    case Unregister => s.phase.Resting?
    // unregister_kprobe returns when no handler runs, flush_workqueue when nothing is pending
    case Go =>
      && !s.phase.Resting? && (s.phase.WaitHandlers? ==> s.handlers == 0)
      && (s.phase.TestQueue? && s.pointer ==> s.pending == [])
    case Fail => s.phase.AllocQueue? || s.phase.ProbeKallsyms? || s.phase.ResolveSymbols? || s.phase.RegisterProbe?
    case Hit => s.probe
    case QueueFree(_) => s.handlers > 0
    case Leave => s.handlers > 0
    case Work => s.pending != []
  }

  function Advance(s: Sys): Sys {
    match s.phase
    case Resting => s
    case AllocQueue => s.(phase := ProbeKallsyms, pointer := true, queue := true)
    case ProbeKallsyms => s.(phase := ResolveSymbols)
    case ResolveSymbols => s.(phase := RegisterProbe)
    case RegisterProbe => s.(phase := SetFlag, probe := true)
    case SetFlag => s.(phase := Resting, flag := true)
    case TestFlag => if s.flag then s.(phase := WaitHandlers, probe := false) else s.(phase := TestQueue)
    case WaitHandlers => s.(phase := ClearFlag)
    case ClearFlag => s.(phase := TestQueue, flag := false)
    case TestQueue => if s.pointer then s.(phase := DestroyQueue) else s.(phase := Resting)
    case DestroyQueue => s.(phase := ClearQueue, queue := false)
    case ClearQueue => s.(phase := Resting, pointer := false)
  }

  function Apply(s: Sys, step: Step): Sys
    requires Enabled(s, step)
  {
    match step
    case Register => s.(phase := AllocQueue)
    case Unregister => s.(phase := TestFlag)
    case Go => Advance(s)
    case Fail => s.(phase := TestFlag)
    case Hit => s.(handlers := s.handlers + 1)
    case QueueFree(job) => s.(pending := s.pending + [job], queued := s.queued + [job])
    case Leave => s.(handlers := s.handlers - 1)
    case Work => s.(pending := s.pending[1..], ran := s.ran + [s.pending[0]])
  }

  const START := Sys(Resting, false, false, false, false, 0, [], [], [])

  predicate StepAt(states: seq<Sys>, steps: seq<Step>, i: nat)
    requires i < |steps| && |states| == |steps| + 1
  {
    Enabled(states[i], steps[i]) && states[i + 1] == Apply(states[i], steps[i])
  }

  ghost predicate IsRun(states: seq<Sys>, steps: seq<Step>) {
    |states| == |steps| + 1 && states[0] == START && forall i :: 0 <= i < |steps| ==> StepAt(states, steps, i)
  }

  /** Work is queued only on a queue that exists, and a queue is destroyed only when it is empty,
      and no handler is left that could queue more. */
  predicate Safe(s: Sys, step: Step) {
    && (step.QueueFree? || step.Work? ==> s.queue && s.pointer)
    && (step == Go && s.phase.DestroyQueue? ==> s.queue && s.pending == [] && s.handlers == 0 && !s.probe)
  }

  /** Nothing is registered, pending or running, and everything that was queued has run once, in order. */
  predicate Quiet(s: Sys) {
    !s.pointer && !s.flag && !s.queue && !s.probe && s.handlers == 0 && s.pending == [] && s.ran == s.queued
  }

  // ----- The invariant.

  /** The probe is registered from its registration to its unregistration; the flag says so except
      in between. */
  predicate ProbeOk(s: Sys) {
    match s.phase
    case Resting => s.probe == s.flag
    case TestFlag => s.probe == s.flag
    case SetFlag => s.probe && !s.flag
    case WaitHandlers => !s.probe && s.flag
    case ClearFlag => !s.probe && s.flag
    case _ => !s.probe && !s.flag
  }

  predicate QueueOk(s: Sys) {
    match s.phase
    case AllocQueue => !s.queue && !s.pointer
    case ProbeKallsyms => s.queue && s.pointer
    case ResolveSymbols => s.queue && s.pointer
    case RegisterProbe => s.queue && s.pointer
    case SetFlag => s.queue && s.pointer
    case WaitHandlers => s.queue && s.pointer
    case ClearFlag => s.queue && s.pointer
    case DestroyQueue => s.queue && s.pointer && s.pending == []
    case ClearQueue => !s.queue && s.pointer
    case _ => s.queue == s.pointer && (s.flag ==> s.queue)
  }

  predicate Inv(s: Sys) {
    && ProbeOk(s) && QueueOk(s)
    && (s.handlers > 0 ==> s.probe || s.phase.WaitHandlers?)
    && (s.pending != [] ==> s.queue)
    && s.queued == s.ran + s.pending
  }

  lemma StepKeeps(s: Sys, step: Step)
    requires Inv(s) && Enabled(s, step)
    ensures Inv(Apply(s, step))
  {
    if step.Work? {
      assert s.ran + s.pending == (s.ran + [s.pending[0]]) + s.pending[1..];
    }
  }

  lemma {:induction false} RunInv(states: seq<Sys>, steps: seq<Step>, i: nat)
    requires IsRun(states, steps) && i < |states|
    ensures Inv(states[i])
  {
    if i > 0 {
      RunInv(states, steps, i - 1);
      assert StepAt(states, steps, i - 1);
      StepKeeps(states[i - 1], steps[i - 1]);
    }
  }

  lemma RunSafe(states: seq<Sys>, steps: seq<Step>, i: nat)
    requires IsRun(states, steps) && i < |steps|
    ensures Safe(states[i], steps[i])
  {
    assert StepAt(states, steps, i);
    RunInv(states, steps, i);
  }

  /** Whenever the probe is registered, or a handler still runs in it, the work queue exists. */
  lemma QueueOutlivesProbe(states: seq<Sys>, steps: seq<Step>, i: nat)
    requires IsRun(states, steps) && i < |states| && (states[i].probe || states[i].handlers > 0)
    ensures states[i].queue && states[i].pointer
  {
    RunInv(states, steps, i);
  }

  predicate Unregistering(s: Sys) {
    || s.phase.TestFlag? || s.phase.WaitHandlers? || s.phase.ClearFlag?
    || s.phase.TestQueue? || s.phase.DestroyQueue? || s.phase.ClearQueue?
  }

  /** However registration went, and whatever was queued: when unregistering returns, all is quiet. */
  lemma UnregisterLeavesQuiet(states: seq<Sys>, steps: seq<Step>, i: nat)
    requires IsRun(states, steps) && i < |steps| && Unregistering(states[i]) && states[i + 1].phase.Resting?
    ensures Quiet(states[i + 1])
  {
    assert StepAt(states, steps, i);
    RunInv(states, steps, i);
    RunInv(states, steps, i + 1);
  }

  predicate Registering(s: Sys) {
    || s.phase.AllocQueue? || s.phase.ProbeKallsyms? || s.phase.ResolveSymbols?
    || s.phase.RegisterProbe? || s.phase.SetFlag?
  }

  /** Everything is there: the queue and its pointer, the probe and its flag. */
  predicate Registered(s: Sys) {
    s.queue && s.pointer && s.probe && s.flag
  }

  /** A registration goes on until it is done or something fails. */
  lemma {:induction false} RegistersOn(states: seq<Sys>, steps: seq<Step>, i: nat, j: nat)
    requires IsRun(states, steps) && i < j < |states| && steps[i] == Register
    requires forall n :: i < n < j ==> !states[n].phase.Resting? && steps[n] != Fail
    ensures Registering(states[j]) || (states[j].phase.Resting? && Registered(states[j]))
  {
    assert StepAt(states, steps, j - 1);
    RunInv(states, steps, j - 1);
    if i + 1 < j { RegistersOn(states, steps, i, j - 1); }
  }

  lemma {:induction false} UnregistersOn(states: seq<Sys>, steps: seq<Step>, i: nat, j: nat)
    requires IsRun(states, steps) && i < j < |states| && steps[i] == Fail
    requires forall n :: i < n < j ==> !states[n].phase.Resting?
    ensures Unregistering(states[j]) || (states[j].phase.Resting? && Quiet(states[j]))
  {
    assert StepAt(states, steps, j - 1);
    if i + 1 < j {
      UnregistersOn(states, steps, i, j - 1);
      if states[j].phase.Resting? { UnregisterLeavesQuiet(states, steps, j - 1); }
    }
  }

  /** When a registration returns, everything is registered if no step of it failed, and nothing is
      registered, pending or running if one did. */
  lemma RegisterAllOrNothing(states: seq<Sys>, steps: seq<Step>, i: nat, j: nat)
    requires IsRun(states, steps) && i < j < |states| && steps[i] == Register && states[j].phase.Resting?
    requires forall n :: i < n < j ==> !states[n].phase.Resting?
    ensures if Fail in steps[i..j] then Quiet(states[j]) else Registered(states[j])
  {
    if f :| i < f < j && steps[f] == Fail {
      assert steps[i..j][f - i] == Fail;
      UnregistersOn(states, steps, f, j);
    } else {
      assert forall n :: 0 <= n < j - i ==> steps[i..j][n] == steps[i + n];
      RegistersOn(states, steps, i, j);
    }
  }

  /** Quiet, and no further in a call than a repeated unregistering gets. */
  predicate Dormant(s: Sys) {
    Quiet(s) && (s.phase.Resting? || s.phase.TestFlag? || s.phase.TestQueue?)
  }

  lemma DormantStep(s: Sys, step: Step)
    requires Dormant(s) && Enabled(s, step) && step != Register
    ensures Dormant(Apply(s, step)) && (step == Unregister || step == Go)
  {
  }

  lemma {:induction false} StaysDormant(states: seq<Sys>, steps: seq<Step>, i: nat, j: nat)
    requires IsRun(states, steps) && i <= j < |states| && Dormant(states[i])
    requires forall n :: i <= n < j ==> steps[n] != Register
    ensures Dormant(states[j]) && forall n :: i <= n < j ==> steps[n] == Unregister || steps[n] == Go
  {
    if i < j {
      assert StepAt(states, steps, j - 1);
      StaysDormant(states, steps, i, j - 1);
      DormantStep(states[j - 1], steps[j - 1]);
    }
  }

  /** And so it stays, however often unregistering is called again: until the next registration no
      step of any run hits the probe or queues or runs work, and none of these can happen. */
  lemma QuietStays(states: seq<Sys>, steps: seq<Step>, i: nat, j: nat, step: Step)
    requires IsRun(states, steps) && i <= j < |states| && Quiet(states[i]) && states[i].phase.Resting?
    requires forall n :: i <= n < j ==> steps[n] != Register
    ensures Quiet(states[j]) && forall n :: i <= n < j ==> steps[n] == Unregister || steps[n] == Go
    ensures Enabled(states[j], step) ==> step == Register || step == Unregister || step == Go
  {
    StaysDormant(states, steps, i, j);
    if Enabled(states[j], step) && step != Register { DormantStep(states[j], step); }
  }

  /** A measure of what unregistering still waits for. */
  function Left(s: Sys): (nat, nat, nat) {
    (match s.phase
     case TestFlag => 6
     case WaitHandlers => 5
     case ClearFlag => 4
     case TestQueue => 3
     case DestroyQueue => 2
     case ClearQueue => 1
     case _ => 0, s.handlers, |s.pending|)
  }

  /** Unregistering never gets stuck: some step brings it nearer its end. */
  lemma UnregisterProgresses(states: seq<Sys>, steps: seq<Step>, i: nat) returns (step: Step)
    requires IsRun(states, steps) && i < |states| && Unregistering(states[i])
    ensures Enabled(states[i], step)
    ensures var a, b := Left(states[i]), Left(Apply(states[i], step));
            b.0 < a.0 || (b.0 == a.0 && b.1 < a.1) || (b.0 == a.0 && b.1 == a.1 && b.2 < a.2)
  {
    var s := states[i];
    RunInv(states, steps, i);
    step := if s.phase.WaitHandlers? && s.handlers > 0 then Leave
            else if s.phase.TestQueue? && s.pending != [] then Work
            else Go;
  }
}
