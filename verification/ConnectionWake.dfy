/** What disconnect is for: it wakes the poller, which closes the connection. */
module ConnectionWake {
  import opened Base
  import opened Connection
  import opened ConnectionProof

  /** A poller on its way to take the connection out of the atomics. */
  predicate Closer(pc: Pc) {
    pc.CloseLock? || pc.TakeSocket?
  }

  predicate HasCloser(s: Sys) {
    exists t :: t in s.threads && Closer(s.threads[t])
  }

  /** The connection is still published, and its poller has been or will be woken. */
  predicate Called(s: Sys, efd: Desc) {
    s.fd.Some? && s.efd == Some(efd) && (efd in s.signalled || HasCloser(s))
  }

  /** The holder of the mutex has begun to take the connection out and close it. */
  predicate TakenOut(s: Sys, efd: Desc) {
    match Holder(s)
    case TakeEvent(_) => s.efd == Some(efd)
    case ClearFamily(_, takenEvent) => takenEvent == Some(efd)
    case Closing(todo) => efd in todo
    case _ => false
  }

  /** The connection of this event descriptor comes to its end. */
  predicate Ending(s: Sys, efd: Desc) {
    efd < s.next && (efd !in s.open || Called(s, efd) || TakenOut(s, efd))
  }

  lemma CloserStays(s: Sys, step: Step)
    requires Enabled(s, step) && HasCloser(s) && !At(s, step.t).TakeSocket?
    ensures HasCloser(Apply(s, step))
  {
    var t :| t in s.threads && Closer(s.threads[t]);
    var s' := Apply(s, step);
    assert t in s'.threads && Closer(s'.threads[t]);
  }

  lemma CalledKept(s: Sys, step: Step, efd: Desc)
    requires Inv(s) && Loaded(s, At(s, step.t)) && Enabled(s, step) && Called(s, efd)
    ensures Called(Apply(s, step), efd) || TakenOut(Apply(s, step), efd)
  {
    var pc, s' := At(s, step.t), Apply(s, step);
    if pc.TakeSocket? {
      HolderNext(s, step);
    } else {
      PublishedStays(s, step);
      if HasCloser(s) {
        CloserStays(s, step);
      } else if pc.Draining? {
        assert step.t in s'.threads && Closer(s'.threads[step.t]);
      }
    }
  }

  lemma TakenOutKept(s: Sys, step: Step, efd: Desc)
    requires Inv(s) && Enabled(s, step) && TakenOut(s, efd)
    ensures TakenOut(Apply(s, step), efd) || efd !in Apply(s, step).open
  {
    if Critical(At(s, step.t)) { HolderNext(s, step); }
  }

  lemma EndingKept(s: Sys, step: Step, efd: Desc)
    requires Inv(s) && Loaded(s, At(s, step.t)) && Enabled(s, step) && Ending(s, efd)
    ensures Ending(Apply(s, step), efd)
  {
    if efd !in s.open {
      StaysGone(s, step, efd);
    } else if Called(s, efd) {
      CalledKept(s, step, efd);
    } else {
      TakenOutKept(s, step, efd);
    }
  }

  /** The step is the write of disconnect. */
  predicate Signals(s: Sys, step: Step, efd: Desc) {
    step.c == Go && At(s, step.t) == Writing(efd)
  }

  lemma WriteCalls(s: Sys, step: Step, efd: Desc)
    requires Inv(s) && Enabled(s, step) && Signals(s, step, efd)
    ensures Ending(Apply(s, step), efd) == true
  {
    PublishedStays(s, step);
    assert Called(Apply(s, step), efd);
  }

  lemma HeardFirst(states: seq<Sys>, steps: seq<Step>, i: nat, efd: Desc)
    requires IsRun(states, steps) && i < |steps| && Signals(states[i], steps[i], efd)
    ensures Ending(states[i + 1], efd) == true
  {
    RunInv(states, steps, i);
    assert StepAt(states, steps, i);
    WriteCalls(states[i], steps[i], efd);
  }

  lemma HeardNext(states: seq<Sys>, steps: seq<Step>, i: nat, efd: Desc)
    requires OnePollerRun(states, steps) && i < |steps| && Ending(states[i], efd)
    ensures Ending(states[i + 1], efd) == true
  {
    RunInv(states, steps, i);
    RunOnePoller(states, steps, i);
    assert StepAt(states, steps, i);
    EndingKept(states[i], steps[i], efd);
  }

  /** With one poller at a time: from the write of a disconnect on, its connection is always coming
      to its end, whatever the other threads do. */
  lemma {:induction false} DisconnectHeard(states: seq<Sys>, steps: seq<Step>, i: nat, j: nat, efd: Desc)
    requires OnePollerRun(states, steps) && i < j < |states| && Signals(states[i], steps[i], efd)
    ensures Ending(states[j], efd) == true
  {
    if i + 1 == j {
      HeardFirst(states, steps, i, efd);
    } else {
      DisconnectHeard(states, steps, i, j - 1, efd);
      HeardNext(states, steps, j - 1, efd);
    }
  }

  /** A call of disconnect that has come to its load: it will write to the event descriptor it finds,
      or has done so. */
  predicate Disconnecting(s: Sys, t: nat, efd: Desc) {
    || (At(s, t) == DisconnectLoad && s.efd == Some(efd))
    || At(s, t) == Writing(efd) || Ending(s, efd)
  }

  lemma DisconnectingKept(s: Sys, step: Step, t: nat, efd: Desc)
    requires Inv(s) && Loaded(s, At(s, step.t)) && Enabled(s, step) && Disconnecting(s, t, efd)
    ensures Disconnecting(Apply(s, step), t, efd)
  {
    if Ending(s, efd) {
      EndingKept(s, step, efd);
    } else if At(s, t) == Writing(efd) {
      if step.t == t { WriteCalls(s, step, efd); }
    } else if step.t != t {
      PublishedStays(s, step);
    }
  }

  /** When a disconnect returns that found a connection, the connection is coming to its end. */
  lemma {:induction false} DisconnectDone(states: seq<Sys>, steps: seq<Step>, i: nat, j: nat, t: nat, efd: Desc)
    requires OnePollerRun(states, steps) && i <= j < |states|
    requires At(states[i], t) == DisconnectLoad && states[i].efd == Some(efd)
    ensures Disconnecting(states[j], t, efd)
    ensures At(states[j], t) == Idle ==> Ending(states[j], efd)
  {
    if i < j {
      DisconnectDone(states, steps, i, j - 1, t, efd);
      DisconnectingNext(states, steps, j - 1, t, efd);
    }
  }

  lemma DisconnectingNext(states: seq<Sys>, steps: seq<Step>, i: nat, t: nat, efd: Desc)
    requires OnePollerRun(states, steps) && i < |steps| && Disconnecting(states[i], t, efd)
    ensures Disconnecting(states[i + 1], t, efd) == true
  {
    RunInv(states, steps, i);
    RunOnePoller(states, steps, i);
    assert StepAt(states, steps, i);
    DisconnectingKept(states[i], steps[i], t, efd);
  }

  // ----- It gets there.

  /** How far the poller has to go to the closing part. */
  function PollRank(pc: Pc): nat {
    match pc
    case Receiving(_, _) => 9
    case LoadSocket => 8
    case LoadEvent(_) => 7
    case Polling(_, _) => 6
    case Draining(_) => 5
    case CloseLock => 4
    case TakeSocket => 3
    case TakeEvent(_) => 2
    case ClearFamily(_, _) => 1
    case _ => 0
  }

  /** How far the holder of the mutex has to go to its release. */
  function HoldRank(pc: Pc): nat {
    match pc
    case ConnectTest => 9
    case OpenSocket => 8
    case OpenEvent(_) => 7
    case Setup(_, _) => 6
    case StoreFamily(_, _, _) => 5
    case StoreEvent(_, _) => 4
    case StoreSocket(_) => 3
    case DisconnectLoad => 4
    case Writing(_) => 3
    case TakeSocket => 6
    case TakeEvent(_) => 5
    case ClearFamily(_, _) => 4
    case Closing(todo) => 1 + |todo|
    case Unlock => 1
    case _ => 0
  }

  /** The step brings the end nearer: the poller of thread t, or else the holder of the mutex. */
  predicate Nearer(s: Sys, step: Step, t: nat)
    requires Enabled(s, step)
  {
    var s' := Apply(s, step);
    || PollRank(At(s', t)) < PollRank(At(s, t))
    || (PollRank(At(s', t)) == PollRank(At(s, t)) && HoldRank(Holder(s')) < HoldRank(Holder(s)))
  }

  lemma HolderNearer(s: Sys, t: nat) returns (step: Step)
    requires Inv(s) && s.lock.Some? && (s.lock.value == t ==> PollRank(At(s, t)) == 0)
    ensures Enabled(s, step) && Nearer(s, step, t)
  {
    var u := s.lock.value;
    step := Step(u, if At(s, u).Setup? then Fail else Go);
    HolderNext(s, step);
  }

  lemma NoCloser(s: Sys, t: nat)
    requires AtMostOne(s) && t in s.threads && InPoll(s.threads[t]) && !Closer(s.threads[t])
    ensures !HasCloser(s)
  {
    forall u | u in s.threads ensures !Closer(s.threads[u]) {
      assert InPoll(s.threads[u]) ==> u == t;
    }
  }

  /** A poller of an ended connection is not left waiting. */
  lemma StillSignalled(s: Sys, efd: Desc, t: nat)
    requires Inv(s) && OnePoller(s) && Ending(s, efd) && efd in s.open && s.lock.None?
    requires At(s, t).Polling? || At(s, t).Draining?
    ensures At(s, t).efd == efd && efd in s.signalled
  {
    NoCloser(s, t);
    assert Loaded(s, s.threads[t]);
  }

  lemma PollerNearer(s: Sys, efd: Desc, t: nat) returns (step: Step)
    requires Inv(s) && OnePoller(s) && Ending(s, efd) && efd in s.open && InPoll(At(s, t))
    requires s.lock.None? || s.lock == Some(t)
    ensures Enabled(s, step) && Nearer(s, step, t)
  {
    var pc := At(s, t);
    if (pc.Polling? || pc.Draining?) && s.lock.None? { StillSignalled(s, efd, t); }
    step := Step(t, if pc.Polling? then Woken else Go);
  }

  /** As long as the connection is not closed and there is a poller or a holder of the mutex, some
      step of one of them is possible that brings the close nearer; the poller waits for nothing but
      the mutex. */
  lemma DisconnectProgresses(states: seq<Sys>, steps: seq<Step>, i: nat, j: nat, efd: Desc, t: nat)
    returns (step: Step)
    requires OnePollerRun(states, steps) && i < j < |states| && Signals(states[i], steps[i], efd)
    requires efd in states[j].open && (InPoll(At(states[j], t)) || states[j].lock.Some?)
    ensures Enabled(states[j], step) && Nearer(states[j], step, t)
  {
    DisconnectHeard(states, steps, i, j, efd);
    RunInv(states, steps, j);
    RunOnePoller(states, steps, j);
    var s := states[j];
    if InPoll(At(s, t)) && (s.lock.None? || s.lock == Some(t)) {
      step := PollerNearer(s, efd, t);
    } else {
      step := HolderNearer(s, t);
    }
  }
}
