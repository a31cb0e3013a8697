/** The client's connection: any number of threads in connect, disconnect and pollEvent, over a
    mutex and three atomics. A step is one atomic operation or system call of one thread. */
module Connection {
  import opened Base

  type Desc = nat

  /** Where a thread is, with the values it has loaded. */
  datatype Pc =
    | Idle
    // connect
    | ConnectLock | ConnectTest | OpenSocket | OpenEvent(fd: Desc) | Setup(fd: Desc, efd: Desc)
    | StoreFamily(fd: Desc, efd: Desc, family: nat) | StoreEvent(fd: Desc, efd: Desc) | StoreSocket(fd: Desc)
    // pollEvent
    | LoadSocket | LoadEvent(seen: Option<Desc>) | Polling(fd: Desc, efd: Desc) | Draining(efd: Desc)
    | Receiving(fd: Desc, efd: Desc) | CloseLock | TakeSocket | TakeEvent(taken: Option<Desc>)
    | ClearFamily(taken: Option<Desc>, takenEvent: Option<Desc>)
    // disconnect
    | DisconnectLock | DisconnectLoad | Writing(efd: Desc)
    // the ends: descriptors still to close, and the release of the mutex
    | Closing(todo: seq<Desc>) | Unlock

  /** The event descriptor and the family that belong to a socket. */
  datatype Conn = Conn(efd: Desc, family: nat)

  /** `signalled` are the event descriptors whose counter is not zero. `next`, `open` and `conns` are
      history: descriptors are numbered as they are opened. */
  datatype Sys = Sys(lock: Option<nat>, fd: Option<Desc>, efd: Option<Desc>, family: nat,
                     signalled: set<Desc>, threads: map<nat, Pc>, open: set<Desc>, next: Desc,
                     conns: map<Desc, Conn>)

  /** What a step does where the code or the kernel has a choice. */
  datatype Choice = Connect | Poll | Disconnect | Go | Fail | Woken | Resolved(family: nat)

  datatype Step = Step(t: nat, c: Choice)

  function At(s: Sys, t: nat): Pc {
    if t in s.threads then s.threads[t] else Idle
  }

  function To(s: Sys, t: nat, pc: Pc): Sys {
    s.(threads := s.threads[t := pc])
  }

  predicate InPoll(pc: Pc) {
    || pc.LoadSocket? || pc.LoadEvent? || pc.Polling? || pc.Draining? || pc.Receiving?
    || pc.CloseLock? || pc.TakeSocket? || pc.TakeEvent? || pc.ClearFamily?
  }

  /** The pc of a thread that holds the mutex. */
  predicate Critical(pc: Pc) {
    && !pc.Idle? && !pc.ConnectLock? && !pc.DisconnectLock?
    && (InPoll(pc) ==> pc.TakeSocket? || pc.TakeEvent? || pc.ClearFamily?)
  }

  predicate WantsLock(pc: Pc) {
    pc.ConnectLock? || pc.CloseLock? || pc.DisconnectLock?
  }

  predicate Enabled(s: Sys, step: Step) {
    var pc := At(s, step.t);
    match step.c
    case Connect => pc.Idle?
    case Poll => pc.Idle?
    case Disconnect => pc.Idle?
    // poll reports both descriptors at once, and a signalled event descriptor is looked at first;
    // the read of an event descriptor blocks until it is signalled
    case Go =>
      && !pc.Idle? && !pc.Setup? && (WantsLock(pc) ==> s.lock.None?) && (pc.Closing? ==> pc.todo != [])
      && (pc.Polling? ==> pc.efd !in s.signalled)
      && (pc.Draining? ==> pc.efd in s.signalled || pc.efd !in s.open)
    case Fail => pc.OpenSocket? || pc.OpenEvent? || pc.Setup? || pc.Polling?
    case Woken => pc.Polling? && pc.efd in s.signalled
    case Resolved(family) => pc.Setup? && 0 < family < 0x1_0000
  }

  function Some2(a: Option<Desc>, b: Option<Desc>): seq<Desc> {
    (if a.Some? then [a.value] else []) + (if b.Some? then [b.value] else [])
  }

  /** After the last close comes the release of the mutex. */
  function AfterClose(todo: seq<Desc>): Pc {
    if todo == [] then Unlock else Closing(todo)
  }

  /** Where the thread goes. */
  function NextPc(s: Sys, step: Step): Pc
    requires Enabled(s, step)
  {
    var pc := At(s, step.t);
    match step.c
    case Connect => ConnectLock
    case Poll => LoadSocket
    case Disconnect => DisconnectLock
    case Fail => (match pc
                  case OpenEvent(fd) => Closing([fd])
                  case Setup(fd, efd) => Closing([fd, efd])
                  case Polling(_, _) => LoadSocket
                  case _ => Unlock)
    case Woken => Draining(pc.efd)
    case Resolved(family) => StoreFamily(pc.fd, pc.efd, family)
    case Go => GoPc(s, pc)
  }

  /** Where a thread goes that has no choice. */
  function GoPc(s: Sys, pc: Pc): Pc
    requires pc.Closing? ==> pc.todo != []
  {
    match pc
    case Idle => Idle
    case ConnectLock => ConnectTest
    case ConnectTest => if s.fd.Some? then Unlock else OpenSocket
    case OpenSocket => OpenEvent(s.next)
    case OpenEvent(fd) => Setup(fd, s.next)
    case Setup(fd, efd) => Setup(fd, efd)
    case StoreFamily(fd, efd, _) => StoreEvent(fd, efd)
    case StoreEvent(fd, _) => StoreSocket(fd)
    case StoreSocket(_) => Unlock
    case LoadSocket => LoadEvent(s.fd)
    case LoadEvent(seen) => if seen.None? || s.efd.None? then CloseLock else Polling(seen.value, s.efd.value)
    case Polling(fd, efd) => Receiving(fd, efd)
    case Draining(_) => CloseLock
    case Receiving(_, _) => LoadSocket
    case CloseLock => TakeSocket
    case TakeSocket => TakeEvent(s.fd)
    case TakeEvent(fd) => ClearFamily(fd, s.efd)
    case ClearFamily(fd, efd) => AfterClose(Some2(fd, efd))
    case DisconnectLock => DisconnectLoad
    case DisconnectLoad => if s.efd.Some? then Writing(s.efd.value) else Unlock
    case Writing(_) => Unlock
    case Closing(todo) => AfterClose(todo[1..])
    case Unlock => Idle
  }

  /** What the step does to all that threads share. */
  function Effect(s: Sys, step: Step): (s': Sys)
    requires Enabled(s, step)
    ensures s'.threads == s.threads
  {
    var pc := At(s, step.t);
    match step.c
    case Resolved(family) => s.(conns := s.conns[pc.fd := Conn(pc.efd, family)])
    case Go => GoEffect(s, step.t, pc)
    case _ => s
  }

  function GoEffect(s: Sys, t: nat, pc: Pc): (s': Sys)
    requires pc.Closing? ==> pc.todo != []
    ensures s'.threads == s.threads
  {
    match pc
    case ConnectLock => s.(lock := Some(t))
    case OpenSocket => s.(next := s.next + 1, open := s.open + {s.next})
    case OpenEvent(_) => s.(next := s.next + 1, open := s.open + {s.next})
    case StoreFamily(_, _, family) => s.(family := family)
    case StoreEvent(_, efd) => s.(efd := Some(efd))
    case StoreSocket(fd) => s.(fd := Some(fd))
    case Draining(efd) => s.(signalled := s.signalled - {efd})
    case Writing(efd) => s.(signalled := s.signalled + {efd})
    case CloseLock => s.(lock := Some(t))
    case TakeSocket => s.(fd := None)
    case TakeEvent(_) => s.(efd := None)
    case ClearFamily(_, _) => s.(family := 0)
    case DisconnectLock => s.(lock := Some(t))
    case Closing(todo) => s.(open := s.open - {todo[0]}, signalled := s.signalled - {todo[0]})
    case Unlock => s.(lock := None)
    case _ => s
  }

  function Apply(s: Sys, step: Step): Sys
    requires Enabled(s, step)
  {
    To(Effect(s, step), step.t, NextPc(s, step))
  }

  const START := Sys(None, None, None, 0, {}, map[], {}, 0, map[])

  predicate StepAt(states: seq<Sys>, steps: seq<Step>, i: nat)
    requires i < |steps| && |states| == |steps| + 1
  {
    Enabled(states[i], steps[i]) && states[i + 1] == Apply(states[i], steps[i])
  }

  ghost predicate IsRun(states: seq<Sys>, steps: seq<Step>) {
    |states| == |steps| + 1 && states[0] == START && forall i :: 0 <= i < |steps| ==> StepAt(states, steps, i)
  }

  // ----- What is wanted of every step.

  /** A close is of an open descriptor, so none is closed twice; a disconnect writes to an open one. */
  predicate Sound(s: Sys, step: Step) {
    var pc := At(s, step.t);
    && (pc.Closing? && pc.todo != [] ==> pc.todo[0] in s.open)
    && (pc.Writing? ==> pc.efd in s.open)
  }

  /** The poller polls, reads and receives on open descriptors of one and the same connection. */
  predicate PollSound(s: Sys, step: Step) {
    var pc := At(s, step.t);
    && (pc.Polling? || pc.Receiving? ==>
          pc.fd in s.open && pc.efd in s.open && pc.fd in s.conns && s.conns[pc.fd].efd == pc.efd)
    && (pc.Draining? ==> pc.efd in s.open)
  }

  /** Socket, event descriptor and family are all of one connection, or all clear. */
  predicate Whole(s: Sys) {
    if s.fd.Some? then
      s.efd.Some? && s.fd.value in s.conns && s.conns[s.fd.value] == Conn(s.efd.value, s.family) && s.family != 0
    else s.efd.None? && s.family == 0
  }

  function Published(s: Sys): set<Desc> {
    (if s.fd.Some? then {s.fd.value} else {}) + (if s.efd.Some? then {s.efd.value} else {})
  }

  // ----- The invariant.

  /** The holder's place, or Idle when the mutex is free. */
  function Holder(s: Sys): Pc {
    if s.lock.None? then Idle else At(s, s.lock.value)
  }

  predicate Clear(s: Sys) {
    s.fd.None? && s.efd.None? && s.family == 0
  }

  predicate Settled(s: Sys) {
    Whole(s) && (s.fd.Some? ==> s.fd != s.efd)
  }

  predicate IsConn(s: Sys, fd: Desc, efd: Desc, family: nat) {
    fd in s.conns && s.conns[fd] == Conn(efd, family) && family != 0 && fd != efd
  }

  predicate Distinct(todo: seq<Desc>) {
    forall i, j :: 0 <= i < j < |todo| ==> todo[i] != todo[j]
  }

  /** A socket taken out of the atomics and what is left of its connection. */
  predicate Taken(s: Sys, fd: Option<Desc>, efd: Option<Desc>) {
    s.fd.None? && if fd.Some? then efd.Some? && IsConn(s, fd.value, efd.value, s.family) else efd.None? && s.family == 0
  }

  /** The atomics, by the place of the holder. */
  predicate Atomics(s: Sys) {
    match Holder(s)
    case OpenSocket => Clear(s)
    case OpenEvent(_) => Clear(s)
    case Setup(fd, efd) => Clear(s) && fd != efd
    case StoreFamily(fd, efd, family) => Clear(s) && IsConn(s, fd, efd, family)
    case StoreEvent(fd, efd) => s.fd.None? && s.efd.None? && IsConn(s, fd, efd, s.family)
    case StoreSocket(fd) => s.fd.None? && s.efd.Some? && IsConn(s, fd, s.efd.value, s.family)
    case TakeEvent(fd) => Taken(s, fd, s.efd)
    case ClearFamily(fd, efd) => s.efd.None? && Taken(s, fd, efd)
    case Closing(todo) => Clear(s) && todo != [] && Distinct(todo)
    case Writing(efd) => Settled(s) && s.efd == Some(efd)
    case _ => Settled(s)
  }

  /** The descriptors that only the holder knows. */
  function Private(pc: Pc): set<Desc> {
    match pc
    case OpenEvent(fd) => {fd}
    case Setup(fd, efd) => {fd, efd}
    case StoreFamily(fd, efd, _) => {fd, efd}
    case StoreEvent(fd, efd) => {fd, efd}
    case StoreSocket(fd) => {fd}
    case TakeEvent(fd) => set d | d in Some2(fd, None)
    case ClearFamily(fd, efd) => set d | d in Some2(fd, efd)
    case Closing(todo) => set d | d in todo
    case _ => {}
  }

  /** The mutex: a thread is past its lock and before its unlock exactly when it is the holder. */
  predicate Locks(s: Sys) {
    && (forall t :: t in s.threads && Critical(s.threads[t]) ==> s.lock == Some(t))
    && (s.lock.Some? ==> Critical(At(s, s.lock.value)))
  }

  /** Open are exactly the published descriptors and those that only the holder knows. */
  predicate Descs(s: Sys) {
    && s.open == Published(s) + Private(Holder(s))
    && (forall d :: d in s.open ==> d < s.next)
    && (forall d :: d in s.conns ==> d < s.next)
  }

  predicate Inv(s: Sys) {
    Locks(s) && Atomics(s) && Descs(s)
  }

  predicate AtMostOne(s: Sys) {
    forall t, u :: t in s.threads && u in s.threads && InPoll(s.threads[t]) && InPoll(s.threads[u]) ==> t == u
  }

  /** With one poller, what it has loaded is still what is published. */
  predicate OnePoller(s: Sys) {
    AtMostOne(s) && forall t :: t in s.threads ==> Loaded(s, s.threads[t])
  }

  predicate Loaded(s: Sys, pc: Pc) {
    match pc
    case LoadEvent(seen) => seen.Some? ==> s.fd == seen
    case Polling(fd, efd) => s.fd == Some(fd) && s.efd == Some(efd)
    case Receiving(fd, efd) => s.fd == Some(fd) && s.efd == Some(efd)
    case Draining(efd) => s.efd == Some(efd) && s.fd.Some?
    case _ => true
  }
}
