/** What holds of the connection over every interleaving. */
module ConnectionProof {
  import opened Base
  import opened Connection

  /** The mover holds the mutex after its step exactly when it is then between lock and unlock. */
  lemma MoverLocks(s: Sys, step: Step)
    requires Locks(s) && Enabled(s, step)
    ensures var pc, l := NextPc(s, step), Effect(s, step).lock;
            && (Critical(pc) <==> l == Some(step.t)) && (l != Some(step.t) ==> l == s.lock || l.None?)
            && (s.lock.Some? && s.lock.value != step.t ==> l == s.lock)
  {
  }

  lemma KeepsLocks(s: Sys, step: Step)
    requires Locks(s) && Enabled(s, step)
    ensures Locks(Apply(s, step))
  {
    MoverLocks(s, step);
  }

  predicate SameShared(s: Sys, s': Sys) {
    && s'.fd == s.fd && s'.efd == s.efd && s'.family == s.family
    && s'.conns == s.conns && s'.open == s.open && s'.next == s.next
  }

  lemma SameKeeps(s: Sys, s': Sys)
    requires Atomics(s) && Descs(s) && SameShared(s, s') && Holder(s') == Holder(s)
    ensures Atomics(s') && Descs(s')
  {
  }

  /** The holder stays where it is, and so do atomics and descriptors, when another thread moves. */
  lemma OutsiderKeeps(s: Sys, step: Step)
    requires Inv(s) && Enabled(s, step) && !Critical(At(s, step.t)) && !WantsLock(At(s, step.t))
    ensures Atomics(Apply(s, step)) && Descs(Apply(s, step))
  {
    SameKeeps(s, Apply(s, step));
  }

  lemma LockerKeeps(s: Sys, step: Step)
    requires Inv(s) && Enabled(s, step) && WantsLock(At(s, step.t))
    ensures Atomics(Apply(s, step)) && Descs(Apply(s, step))
  {
  }

  /** The holder is opening the connection. */
  predicate Opening(pc: Pc) {
    pc.ConnectTest? || pc.OpenSocket? || pc.OpenEvent? || pc.Setup?
  }

  /** The holder is publishing it. */
  predicate Storing(pc: Pc) {
    pc.StoreFamily? || pc.StoreEvent? || pc.StoreSocket?
  }

  /** The place of the holder after its step. */
  lemma HolderNext(s: Sys, step: Step)
    requires Locks(s) && Enabled(s, step) && Critical(At(s, step.t))
    ensures Holder(s) == At(s, step.t)
    ensures Holder(Apply(s, step)) == if At(s, step.t).Unlock? then Idle else NextPc(s, step)
  {
  }

  lemma OpeningKeeps(s: Sys, step: Step)
    requires Inv(s) && Enabled(s, step) && Critical(At(s, step.t)) && Opening(At(s, step.t))
    ensures Atomics(Apply(s, step)) && Descs(Apply(s, step))
  {
    HolderNext(s, step);
  }

  lemma StoringKeeps(s: Sys, step: Step)
    requires Inv(s) && Enabled(s, step) && Critical(At(s, step.t)) && Storing(At(s, step.t))
    ensures Atomics(Apply(s, step)) && Descs(Apply(s, step))
  {
    HolderNext(s, step);
  }

  lemma ClosingAtomics(s: Sys, step: Step)
    requires Inv(s) && Enabled(s, step) && Critical(At(s, step.t))
    requires !Opening(At(s, step.t)) && !Storing(At(s, step.t))
    ensures Atomics(Apply(s, step))
  {
    HolderNext(s, step);
  }

  lemma ClosingDescs(s: Sys, step: Step)
    requires Inv(s) && Enabled(s, step) && Critical(At(s, step.t))
    requires !Opening(At(s, step.t)) && !Storing(At(s, step.t))
    ensures Descs(Apply(s, step))
  {
    HolderNext(s, step);
  }

  lemma StepKeeps(s: Sys, step: Step)
    requires Inv(s) && Enabled(s, step)
    ensures Inv(Apply(s, step))
  {
    KeepsLocks(s, step);
    if WantsLock(At(s, step.t)) {
      LockerKeeps(s, step);
    } else if Critical(At(s, step.t)) {
      if Opening(At(s, step.t)) {
        OpeningKeeps(s, step);
      } else if Storing(At(s, step.t)) {
        StoringKeeps(s, step);
      } else {
        ClosingAtomics(s, step);
        ClosingDescs(s, step);
      }
    } else {
      OutsiderKeeps(s, step);
    }
  }

  lemma StepSound(s: Sys, step: Step)
    requires Inv(s) && Enabled(s, step)
    ensures Sound(s, step)
  {
  }

  // ----- Runs.

  lemma {:induction false} RunInv(states: seq<Sys>, steps: seq<Step>, i: nat)
    requires IsRun(states, steps) && i < |states|
    ensures Inv(states[i])
  {
    if i > 0 {
      RunInv(states, steps, i - 1);
      assert StepAt(states, steps, i - 1);
      StepKeeps(states[i - 1], steps[i - 1]);
    }
  }

  /** Over every interleaving, only open descriptors are closed or written to. */
  lemma RunSound(states: seq<Sys>, steps: seq<Step>, i: nat)
    requires IsRun(states, steps) && i < |steps|
    ensures Sound(states[i], steps[i])
  {
    RunInv(states, steps, i);
    assert StepAt(states, steps, i);
    StepSound(states[i], steps[i]);
  }

  /** Whenever the mutex is free, the atomics hold one whole connection or nothing, and nothing else
      is open: no descriptor leaks on any path, failed or not. */
  lemma AtRest(states: seq<Sys>, steps: seq<Step>, i: nat)
    requires IsRun(states, steps) && i < |states| && states[i].lock.None?
    ensures Whole(states[i]) && states[i].open == Published(states[i])
  {
    RunInv(states, steps, i);
  }

  /** The step closes d. */
  predicate Closes(s: Sys, step: Step, d: Desc) {
    var pc := At(s, step.t);
    step.c == Go && pc.Closing? && pc.todo != [] && pc.todo[0] == d
  }

  predicate Gone(s: Sys, d: Desc) {
    d < s.next && d !in s.open
  }

  lemma StaysGone(s: Sys, step: Step, d: Desc)
    requires Enabled(s, step) && Gone(s, d)
    ensures Gone(Apply(s, step), d)
  {
  }

  lemma {:induction false} GoneForever(states: seq<Sys>, steps: seq<Step>, i: nat, j: nat, d: Desc)
    requires IsRun(states, steps) && i <= j < |states| && Gone(states[i], d)
    ensures Gone(states[j], d)
  {
    if i < j {
      GoneForever(states, steps, i, j - 1, d);
      assert StepAt(states, steps, j - 1);
      StaysGone(states[j - 1], steps[j - 1], d);
    }
  }

  /** No descriptor is closed twice. */
  lemma ClosedOnce(states: seq<Sys>, steps: seq<Step>, i: nat, j: nat, d: Desc)
    requires IsRun(states, steps) && i < |steps| && j < |steps|
    requires Closes(states[i], steps[i], d) && Closes(states[j], steps[j], d)
    ensures i == j
  {
    if i != j {
      var a, b := if i < j then i else j, if i < j then j else i;
      RunInv(states, steps, a);
      RunSound(states, steps, a);
      RunSound(states, steps, b);
      assert StepAt(states, steps, a);
      assert Gone(states[a + 1], d);
      GoneForever(states, steps, a + 1, b, d);
      assert false;
    }
  }

  // ----- One poller.

  /** pollEvent is not called while another call of it is still going on. */
  predicate Alone(s: Sys, step: Step) {
    step.c == Poll ==> forall t :: t in s.threads ==> !InPoll(s.threads[t])
  }

  ghost predicate OnePollerRun(states: seq<Sys>, steps: seq<Step>) {
    IsRun(states, steps) && forall i :: 0 <= i < |steps| ==> Alone(states[i], steps[i])
  }

  /** While the atomics name a connection, only a poller in its last part takes it out. */
  lemma PublishedStays(s: Sys, step: Step)
    requires Inv(s) && Enabled(s, step) && s.fd.Some? && !At(s, step.t).TakeSocket?
    ensures var s' := Apply(s, step); s'.fd == s.fd && s'.efd == s.efd
  {
  }

  /** A thread is in pollEvent after a step only if it was before or the step is the call. */
  lemma EntersPoll(s: Sys, step: Step)
    requires Enabled(s, step) && InPoll(At(Apply(s, step), step.t))
    ensures InPoll(At(s, step.t)) || step.c == Poll
  {
  }

  lemma OthersStay(s: Sys, step: Step)
    requires Enabled(s, step)
    ensures Apply(s, step).threads.Keys <= s.threads.Keys + {step.t}
    ensures forall t :: t in s.threads && t != step.t ==>
              t in Apply(s, step).threads && Apply(s, step).threads[t] == s.threads[t]
  {
  }

  lemma MoverLoaded(s: Sys, step: Step)
    requires Inv(s) && Loaded(s, At(s, step.t)) && Enabled(s, step)
    ensures Loaded(Apply(s, step), At(Apply(s, step), step.t))
  {
  }

  /** What another thread has loaded stays published, unless the mover is itself a poller. */
  lemma OtherLoaded(s: Sys, step: Step, pc: Pc)
    requires Inv(s) && Enabled(s, step) && Loaded(s, pc) && !At(s, step.t).TakeSocket?
    ensures Loaded(Apply(s, step), pc)
  {
    if s.fd.Some? { PublishedStays(s, step); }
  }

  /** Only the mover's place has changed. */
  predicate OnlyMoved(s: Sys, s': Sys, mover: nat) {
    && s'.threads.Keys <= s.threads.Keys + {mover}
    && forall t :: t in s.threads && t != mover ==> t in s'.threads && s'.threads[t] == s.threads[t]
  }

  lemma AtMostOneKept(s: Sys, s': Sys, mover: nat)
    requires AtMostOne(s) && OnlyMoved(s, s', mover)
    requires InPoll(At(s', mover)) && !InPoll(At(s, mover)) ==> forall t :: t in s.threads ==> !InPoll(s.threads[t])
    ensures AtMostOne(s')
  {
  }

  lemma OnePollerKept(s: Sys, s': Sys, mover: nat)
    requires OnePoller(s) && OnlyMoved(s, s', mover)
    requires InPoll(At(s', mover)) && !InPoll(At(s, mover)) ==> forall t :: t in s.threads ==> !InPoll(s.threads[t])
    requires Loaded(s', At(s', mover))
    requires At(s, mover).TakeSocket? || forall t :: t in s.threads ==> Loaded(s', s.threads[t])
    ensures OnePoller(s')
  {
    AtMostOneKept(s, s', mover);
    forall t | t in s'.threads ensures Loaded(s', s'.threads[t]) {
      if At(s, mover).TakeSocket? && t != mover { assert !InPoll(s.threads[t]); }
    }
  }

  lemma StepOnePoller(s: Sys, step: Step)
    requires Inv(s) && OnePoller(s) && Enabled(s, step) && Alone(s, step)
    ensures OnePoller(Apply(s, step))
  {
    OthersStay(s, step);
    if InPoll(At(Apply(s, step), step.t)) { EntersPoll(s, step); }
    MoverLoaded(s, step);
    if !At(s, step.t).TakeSocket? {
      forall t | t in s.threads ensures Loaded(Apply(s, step), s.threads[t]) {
        OtherLoaded(s, step, s.threads[t]);
      }
    }
    OnePollerKept(s, Apply(s, step), step.t);
  }

  lemma {:induction false} RunOnePoller(states: seq<Sys>, steps: seq<Step>, i: nat)
    requires OnePollerRun(states, steps) && i < |states|
    ensures OnePoller(states[i])
  {
    if i > 0 {
      RunOnePoller(states, steps, i - 1);
      RunInv(states, steps, i - 1);
      assert StepAt(states, steps, i - 1);
      StepOnePoller(states[i - 1], steps[i - 1]);
    }
  }

  /** One poller always polls, reads and receives on two open descriptors of the same connection,
      whatever connect and disconnect do meanwhile. */
  lemma RunPollSound(states: seq<Sys>, steps: seq<Step>, i: nat)
    requires OnePollerRun(states, steps) && i < |steps|
    ensures PollSound(states[i], steps[i])
  {
    RunInv(states, steps, i);
    RunOnePoller(states, steps, i);
  }

  // ----- Two pollers.

  /** The steps lead from one state to the other. */
  ghost predicate Leads(s: Sys, steps: seq<Step>, s': Sys)
    decreases |steps|
  {
    if steps == [] then s' == s else Enabled(s, steps[0]) && Leads(Apply(s, steps[0]), steps[1..], s')
  }

  lemma LeadsCons(s: Sys, step: Step, steps: seq<Step>, s': Sys)
    requires Enabled(s, step) && Leads(Apply(s, step), steps, s')
    ensures Leads(s, [step] + steps, s')
  {
    assert ([step] + steps)[1..] == steps;
  }

  /** Once the closing part has started, it goes through: the socket is closed while the other
      descriptor is not yet. */
  lemma PollerCloses(s: Sys, t: nat, fd: Desc, efd: Desc) returns (steps: seq<Step>, s': Sys)
    requires At(s, t) == TakeSocket && s.fd == Some(fd) && s.efd == Some(efd)
    ensures Leads(s, steps, s') && fd !in s'.open && s'.signalled <= s.signalled
    ensures forall u :: u != t ==> At(s', u) == At(s, u)
  {
    var go := Step(t, Go);
    var s1 := Apply(s, go);
    var s2 := Apply(s1, go);
    var s3 := Apply(s2, go);
    assert At(s3, t) == Closing([fd, efd]);
    s' := Apply(s3, go);
    LeadsCons(s3, go, [], s');
    LeadsCons(s2, go, [go], s');
    LeadsCons(s1, go, [go, go], s');
    LeadsCons(s, go, [go, go, go], s');
    steps := [go, go, go, go];
  }

  lemma OneCloses(s: Sys, t: nat, u: nat, fd: Desc, efd: Desc) returns (steps: seq<Step>, s': Sys)
    requires t != u && s.lock.None? && s.fd == Some(fd) && s.efd == Some(efd)
    requires At(s, t) == Polling(fd, efd) && At(s, u) == Polling(fd, efd) && efd in s.signalled
    ensures Leads(s, steps, s') && At(s', u) == At(s, u) && Enabled(s', Step(u, Go)) && !PollSound(s', Step(u, Go))
  {
    var go := Step(t, Go);
    var s1 := Apply(s, Step(t, Woken));
    var s2 := Apply(s1, go);
    var s3 := Apply(s2, go);
    var rest;
    rest, s' := PollerCloses(s3, t, fd, efd);
    LeadsCons(s2, go, rest, s');
    LeadsCons(s1, go, [go] + rest, s');
    LeadsCons(s, Step(t, Woken), [go] + ([go] + rest), s');
    steps := [Step(t, Woken)] + ([go] + ([go] + rest));
    assert At(s', u) == At(s, u);
  }

  /** The thread that holds the mutex in disconnect signals the event descriptor and lets go. */
  lemma Signals(s: Sys, t: nat, efd: Desc) returns (steps: seq<Step>, s': Sys)
    requires At(s, t) == DisconnectLoad && s.efd == Some(efd)
    ensures Leads(s, steps, s') && s'.lock.None? && s'.fd == s.fd && s'.efd == s.efd && efd in s'.signalled
    ensures forall u :: u != t ==> At(s', u) == At(s, u)
  {
    var go := Step(t, Go);
    var s1 := Apply(s, go);
    var s2 := Apply(s1, go);
    s' := Apply(s2, go);
    LeadsCons(s2, go, [], s');
    LeadsCons(s1, go, [go], s');
    LeadsCons(s, go, [go, go], s');
    steps := [go, go, go];
  }

  /** A thread that calls disconnect on a published connection signals its event descriptor. */
  lemma Disconnects(s: Sys, t: nat, efd: Desc) returns (steps: seq<Step>, s': Sys)
    requires At(s, t) == Idle && s.lock.None? && s.efd == Some(efd)
    ensures Leads(s, steps, s') && s'.lock.None? && s'.fd == s.fd && s'.efd == s.efd && efd in s'.signalled
    ensures forall u :: u != t ==> At(s', u) == At(s, u)
  {
    var go := Step(t, Go);
    var s1 := Apply(s, Step(t, Disconnect));
    var s2 := Apply(s1, go);
    var rest;
    rest, s' := Signals(s2, t, efd);
    LeadsCons(s1, go, rest, s');
    LeadsCons(s, Step(t, Disconnect), [go] + rest, s');
    steps := [Step(t, Disconnect)] + ([go] + rest);
    assert forall u :: u != t ==> At(s1, u) == At(s, u) && At(s2, u) == At(s, u);
  }

  /** A thread that calls pollEvent on a published connection comes to poll it. */
  lemma ComesToPoll(s: Sys, t: nat, fd: Desc, efd: Desc) returns (steps: seq<Step>, s': Sys)
    requires At(s, t) == Idle && s.fd == Some(fd) && s.efd == Some(efd)
    ensures Leads(s, steps, s') && s' == To(s, t, Polling(fd, efd))
  {
    var s1 := Apply(s, Step(t, Poll));
    var s2 := Apply(s1, Step(t, Go));
    s' := Apply(s2, Step(t, Go));
    LeadsCons(s2, Step(t, Go), [], s');
    LeadsCons(s1, Step(t, Go), [Step(t, Go)], s');
    LeadsCons(s, Step(t, Poll), [Step(t, Go), Step(t, Go)], s');
    steps := [Step(t, Poll), Step(t, Go), Step(t, Go)];
    assert s'.threads == s.threads[t := Polling(fd, efd)];
  }

  /** The first part of connect, up to the two open descriptors. */
  lemma Opens(t: nat) returns (steps: seq<Step>, s': Sys)
    ensures Leads(START, steps, s') && s' == Sys(Some(t), None, None, 0, {}, map[t := Setup(0, 1)], {0, 1}, 2, map[])
  {
    var go := Step(t, Go);
    var s1 := Apply(START, Step(t, Connect));
    var s2 := Apply(s1, go);
    var s3 := Apply(s2, go);
    var s4 := Apply(s3, go);
    s' := Apply(s4, go);
    LeadsCons(s4, go, [], s');
    LeadsCons(s3, go, [go], s');
    LeadsCons(s2, go, [go, go], s');
    LeadsCons(s1, go, [go, go, go], s');
    LeadsCons(START, Step(t, Connect), [go, go, go, go], s');
    steps := [Step(t, Connect), go, go, go, go];
    assert s'.open == {0, 1};
  }

  /** The second part: the connection is published and the mutex released. */
  lemma Publishes(s: Sys, t: nat) returns (steps: seq<Step>, s': Sys)
    requires s == Sys(Some(t), None, None, 0, {}, map[t := Setup(0, 1)], {0, 1}, 2, map[])
    ensures Leads(s, steps, s') && s'.lock.None? && s'.fd == Some(0) && s'.efd == Some(1)
            && s'.threads == map[t := Idle]
  {
    var go := Step(t, Go);
    var s1 := Apply(s, Step(t, Resolved(1)));
    var s2 := Apply(s1, go);
    var s3 := Apply(s2, go);
    var s4 := Apply(s3, go);
    s' := Apply(s4, go);
    LeadsCons(s4, go, [], s');
    LeadsCons(s3, go, [go], s');
    LeadsCons(s2, go, [go, go], s');
    LeadsCons(s1, go, [go, go, go], s');
    LeadsCons(s, Step(t, Resolved(1)), [go, go, go, go], s');
    steps := [Step(t, Resolved(1)), go, go, go, go];
  }

  lemma {:induction false} LeadsOn(s: Sys, a: seq<Step>, s1: Sys, b: seq<Step>, s2: Sys)
    requires Leads(s, a, s1) && Leads(s1, b, s2)
    ensures Leads(s, a + b, s2)
    decreases |a|
  {
    if a == [] {
      assert a + b == b;
    } else {
      LeadsOn(Apply(s, a[0]), a[1..], s1, b, s2);
      assert (a + b)[1..] == a[1..] + b;
    }
  }

  /** The states that a sequence of steps goes through. */
  lemma {:induction false} StatesOf(s: Sys, steps: seq<Step>, s': Sys) returns (states: seq<Sys>)
    requires Leads(s, steps, s')
    ensures |states| == |steps| + 1 && states[0] == s && states[|steps|] == s'
    ensures forall i :: 0 <= i < |steps| ==> StepAt(states, steps, i)
    decreases |steps|
  {
    if steps == [] {
      states := [s];
    } else {
      var rest := StatesOf(Apply(s, steps[0]), steps[1..], s');
      states := [s] + rest;
      forall i | 0 <= i < |steps| ensures StepAt(states, steps, i) == true {
        if i > 0 { assert StepAt(rest, steps[1..], i - 1) && steps[i] == steps[1..][i - 1]; }
      }
    }
  }

  /** That there is only one poller is needed: there is a run from the start, of one thread that
      connects and disconnects and two that poll, at whose end a thread is about to poll closed descriptors. */
  lemma TwoPollersClash() returns (states: seq<Sys>, steps: seq<Step>, u: nat)
    ensures IsRun(states, steps)
    ensures var s := states[|states| - 1]; Enabled(s, Step(u, Go)) && At(s, u).Polling? && !PollSound(s, Step(u, Go))
  {
    var a, s1 := Opens(0);
    var b, s2 := Publishes(s1, 0);
    var c, s3 := ComesToPoll(s2, 1, 0, 1);
    var d, s4 := ComesToPoll(s3, 2, 0, 1);
    var e, s5 := Disconnects(s4, 0, 1);
    var f, s6 := OneCloses(s5, 1, 2, 0, 1);
    LeadsOn(s4, e, s5, f, s6);
    LeadsOn(s3, d, s4, e + f, s6);
    LeadsOn(s2, c, s3, d + (e + f), s6);
    LeadsOn(s1, b, s2, c + (d + (e + f)), s6);
    LeadsOn(START, a, s1, b + (c + (d + (e + f))), s6);
    steps, u := a + (b + (c + (d + (e + f)))), 2;
    states := StatesOf(START, steps, s6);
  }
}
