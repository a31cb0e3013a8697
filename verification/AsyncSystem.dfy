/** The step system: the probe's critical section, its unlocked tail, the worker, the
    senders' own enqueue, delivery, and the life and death of the target process, in
    every interleaving. Each step is one locked section (or one unlocked action) of the code. */
module AsyncSystem {
  import opened Base
  import opened BinderTypes

  /** What a transaction carries; fixed when it is created. */
  datatype Msg = Msg(flags: nat, code: int, toProc: Option<nat>, pid: int, node: NodeId,
                     ptr: nat, cookie: nat, offsetsSize: nat, data: seq<byte>)

  datatype Place = Sending | Waiting(n: NodeId) | Handed | Delivered | Dropping | Dropped | Failed | Drained

  /** History variables: nothing in the kernel state depends on them. */
  datatype History = History(
    msg: map<TxnId, Msg>,
    buf: map<TxnId, BufId>,        // the buffer each transaction was created with
    owner: map<BufId, TxnId>,
    place: map<TxnId, Place>,
    released: multiset<BufId>,     // one entry per release of a buffer, by whomever
    txnFreed: multiset<TxnId>,     // one entry per kfree of a transaction
    enqueued: nat, delivered: nat, dropped: nat, drained: nat,
    ticket: map<TxnId, nat>,       // the order in which senders ran the probe
    probes: nat,
    heir: map<TxnId, TxnId>,       // which sender superseded a transaction
    unread: set<TxnId>)            // transactions dropped without a comparison of data

  datatype Sys = Sys(k: Kernel, h: History)

  datatype Step =
    | Start(t: TxnId, txn: Txn, b: BufId, buf: Buffer)
    | Probe(t: TxnId, strategy: int, frozen: bool, allocOk: bool)
    | Clear(t: TxnId)
    | Queue(t: TxnId)
    | ReleaseBuffer(d: TxnId)
    | FreeTxn(d: TxnId)
    | Finish(d: TxnId)
    | Enqueue(t: TxnId)
    | Advance(n: NodeId)
    | AddOther(n: NodeId, kind: nat)
    | Deliver(i: nat)
    | UserFree(b: BufId)
    | SetFrozen(on: bool)
    | TakeRef
    | DropRef
    | ThreadStart
    | ThreadExit
    | Die
    | DrainNode(n: NodeId)
    | DrainTodo
    | ReleaserDone

  // ----- Control: when a step can happen at all. Nothing here looks through a pointer.

  predicate Enabled(s: Sys, step: Step) {
    var k := s.k;
    match step
    case Start(t, txn, b, buf) =>
      // a sender takes its tmp_ref on a process that has not been freed
      && k.freed == 0 && t !in s.h.place && b !in s.h.owner
      && txn.buffer == Some(b) && txn.toProc.Some? && buf.transaction == Some(t) && buf.node < |k.ids|
    case Probe(t, _, _, _) => t in k.senders && k.senders[t] == Entered
    case Clear(t) =>
      t in k.senders && k.senders[t].Busy? && k.senders[t].d in k.jobs && k.jobs[k.senders[t].d].Unlinked?
    case Queue(t) => t in k.senders && k.senders[t].Busy? && k.senders[t].d in k.jobs && k.jobs[k.senders[t].d].Cleared?
    case ReleaseBuffer(d) => d in k.jobs && k.jobs[d].Queued?
    case FreeTxn(d) => d in k.jobs && k.jobs[d].BufferReleased?
    case Finish(d) => d in k.jobs && k.jobs[d].TxnFreed?
    case Enqueue(t) => t in k.senders && k.senders[t] == Ready
    case Advance(n) => k.threads > 0 && n < |k.nodes| && k.nodes[n].hasAsync
    case AddOther(n, _) => n < |k.nodes| && k.nodes[n].hasAsync && !k.isDead
    case Deliver(i) => i < |k.procTodo|
    case UserFree(b) =>
      b in k.bufs && b in s.h.owner && s.h.owner[b] in s.h.place && s.h.place[s.h.owner[b]] == Delivered
    case SetFrozen(_) => !k.isDead
    case TakeRef => k.freed == 0
    case DropRef => k.holders > 0
    case ThreadStart => !k.isDead
    case ThreadExit => k.threads > 0
    case Die => !k.isDead
    case DrainNode(n) => k.releaser == Releasing && n < |k.nodes| && k.nodes[n].asyncTodo != []
    case DrainTodo => k.releaser == Releasing && k.procTodo != []
    case ReleaserDone =>
      k.releaser == Releasing && k.procTodo == [] && forall n :: 0 <= n < |k.nodes| ==> k.nodes[n].asyncTodo == []
  }

  // ----- Pointers: the objects a step dereferences are still allocated.

  predicate HeadLinked(k: Kernel, todo: seq<Work>) {
    todo != [] && todo[0].TxnWork? ==> Linked(k, todo[0].t)
  }

  predicate Safe(k: Kernel, step: Step) {
    match step
    case Start(_, _, _, buf) => buf.node < |k.ids|
    case Probe(t, _, _, _) => k.freed == 0 && Linked(k, t) && Scannable(k, NodeOf(k, t).asyncTodo)
    case Clear(t) => k.freed == 0 && t in k.senders && k.senders[t].Busy? && Linked(k, k.senders[t].d)
    case Queue(t) =>
      && k.freed == 0 && t in k.senders && k.senders[t].Busy?
      && k.senders[t].d in k.jobs && k.jobs[k.senders[t].d].Cleared?
    case ReleaseBuffer(d) => k.freed == 0 && d in k.jobs && k.jobs[d].Queued? && k.jobs[d].b in k.bufs
    case FreeTxn(d) => k.freed == 0 && d in k.jobs && k.jobs[d].BufferReleased? && d in k.txns
    case Finish(d) => k.freed == 0 && d in k.jobs
    case Enqueue(t) => k.freed == 0 && Linked(k, t)
    case Advance(n) => n < |k.nodes| && k.freed == 0
    case AddOther(n, _) => n < |k.nodes| && k.freed == 0
    case Deliver(i) => k.freed == 0 && i < |k.procTodo| && Linked(k, k.procTodo[i])
    case UserFree(b) => k.freed == 0 && b in k.bufs
    case DropRef => k.freed == 0 && k.holders > 0
    case ThreadExit => k.freed == 0 && k.threads > 0
    case DrainNode(n) =>
      k.freed == 0 && n < |k.nodes| && k.nodes[n].asyncTodo != [] && HeadLinked(k, k.nodes[n].asyncTodo)
    case DrainTodo => k.freed == 0 && k.procTodo != [] && Linked(k, k.procTodo[0])
    case SetFrozen(_) => k.freed == 0
    case TakeRef => k.freed == 0
    case ThreadStart => k.freed == 0
    case Die => k.freed == 0
    case ReleaserDone => k.freed == 0
  }

  /** Blocked: the step cannot happen now. Faulty: it can, and would follow a dangling pointer. */
  datatype Verdict = Blocked | Faulty | Fine

  function Check(s: Sys, step: Step): Verdict {
    if !Enabled(s, step) then Blocked else if !Safe(s.k, step) then Faulty else Fine
  }

  // ----- The kernel state after each step.

  /** The decision of the probe's locked section: which item of the node's list it unlinks. */
  function Victim(k: Kernel, t: TxnId, strategy: int, frozen: bool, allocOk: bool): Option<nat>
    requires Linked(k, t) && Scannable(k, NodeOf(k, t).asyncTodo)
  {
    if !OneWay(k.txns[t].flags) || !frozen || strategy == SKIP then None
    else if !NodeOf(k, t).hasAsync || k.isDead || k.isFrozen then None
    else
      var i := FirstOutdated(k, NodeOf(k, t).asyncTodo, t, strategy, 0);
      if i.Some? && allocOk then i else None
  }

  /** rkx_binder_proc_transaction_pre up to the release of the two locks. */
  function ProbeK(k: Kernel, t: TxnId, strategy: int, frozen: bool, allocOk: bool): Kernel
    requires Linked(k, t) && Scannable(k, NodeOf(k, t).asyncTodo)
  {
    match Victim(k, t, strategy, frozen, allocOk)
    case None => k.(senders := k.senders[t := Ready])
    case Some(i) =>
      var n, node := BufferOf(k, t).node, NodeOf(k, t);
      var d := node.asyncTodo[i].t;
      k.(tmpRef := k.tmpRef + 1,
         outstanding := k.outstanding - 1,
         nodes := k.nodes[n := node.(asyncTodo := Without(node.asyncTodo, i))],
         senders := k.senders[t := Busy(d)],
         jobs := k.jobs[d := Unlinked])
  }

  /** After the locks: the two pointers between the transaction and its buffer are cut. */
  function ClearK(k: Kernel, t: TxnId): Kernel
    requires t in k.senders && k.senders[t].Busy? && Linked(k, k.senders[t].d)
  {
    var d := k.senders[t].d;
    var b := k.txns[d].buffer.value;
    k.(txns := k.txns[d := k.txns[d].(buffer := None)],
       bufs := k.bufs[b := k.bufs[b].(transaction := None)],
       jobs := k.jobs[d := Cleared(b)])
  }

  /** rkx_queue_free_txn. */
  function QueueK(k: Kernel, t: TxnId): Kernel
    requires t in k.senders && k.senders[t].Busy? && k.senders[t].d in k.jobs && k.jobs[k.senders[t].d].Cleared?
  {
    var d := k.senders[t].d;
    k.(senders := k.senders[t := Ready], jobs := k.jobs[d := Queued(k.jobs[d].b)])
  }

  /** rk_binder_proc_dec_tmpref; freeing the process frees every buffer still mapped. */
  function DecTmprefK(k: Kernel): Kernel {
    var k1 := k.(tmpRef := k.tmpRef - 1);
    if k1.isDead && k1.threads == 0 && k1.tmpRef == 0 then k1.(freed := k1.freed + 1, bufs := map[]) else k1
  }

  /** binder_proc_transaction itself refuses a dead process, and a synchronous call to a frozen one. */
  predicate Refused(k: Kernel, flags: nat) {
    k.isDead || (k.isFrozen && !OneWay(flags))
  }

  /** binder_proc_transaction itself, after the probe returned. */
  function EnqueueK(k: Kernel, t: TxnId): Kernel
    requires Linked(k, t)
  {
    var n, node := BufferOf(k, t).node, NodeOf(k, t);
    var k1 := k.(senders := k.senders - {t}, holders := k.holders + 1);
    if Refused(k, k.txns[t].flags) then
      k1.(txns := k.txns - {t}, bufs := k.bufs - {k.txns[t].buffer.value})
    else if OneWay(k.txns[t].flags) && node.hasAsync then
      k1.(outstanding := k.outstanding + 1, nodes := k.nodes[n := node.(asyncTodo := node.asyncTodo + [TxnWork(t)])])
    else
      k1.(outstanding := k.outstanding + 1, procTodo := k.procTodo + [t],
          nodes := k.nodes[n := node.(hasAsync := node.hasAsync || OneWay(k.txns[t].flags))])
  }

  /** A user freed the previous async buffer: the node's next item moves to the process. */
  function AdvanceK(k: Kernel, n: NodeId): Kernel
    requires n < |k.nodes|
  {
    var node := k.nodes[n];
    if node.asyncTodo == [] then k.(nodes := k.nodes[n := node.(hasAsync := false)])
    else
      var w := node.asyncTodo[0];
      k.(nodes := k.nodes[n := node.(asyncTodo := Without(node.asyncTodo, 0))],
         procTodo := if w.TxnWork? then k.procTodo + [w.t] else k.procTodo)
  }

  /** binder_free_transaction: the record goes, the buffer stays without an owner. */
  function FreeTransactionK(k: Kernel, t: TxnId): Kernel
    requires Linked(k, t)
  {
    var b := k.txns[t].buffer.value;
    k.(outstanding := k.outstanding - 1, txns := k.txns - {t}, bufs := k.bufs[b := k.bufs[b].(transaction := None)])
  }

  function DrainNodeK(k: Kernel, n: NodeId): Kernel
    requires n < |k.nodes| && k.nodes[n].asyncTodo != [] && HeadLinked(k, k.nodes[n].asyncTodo)
  {
    var node := k.nodes[n];
    var k1 := k.(nodes := k.nodes[n := node.(asyncTodo := Without(node.asyncTodo, 0))]);
    if node.asyncTodo[0].TxnWork? then FreeTransactionK(k1, node.asyncTodo[0].t) else k1
  }

  function ApplyK(k: Kernel, step: Step): Kernel
    requires Safe(k, step)
  {
    match step
    case Start(t, txn, b, buf) =>
      k.(tmpRef := k.tmpRef + 1, txns := k.txns[t := txn], bufs := k.bufs[b := buf], senders := k.senders[t := Entered])
    case Probe(t, strategy, frozen, allocOk) => ProbeK(k, t, strategy, frozen, allocOk)
    case Clear(t) => ClearK(k, t)
    case Queue(t) => QueueK(k, t)
    case ReleaseBuffer(d) => k.(bufs := k.bufs - {k.jobs[d].b}, jobs := k.jobs[d := BufferReleased(k.jobs[d].b)])
    case FreeTxn(d) => k.(txns := k.txns - {d}, jobs := k.jobs[d := TxnFreed(k.jobs[d].b)])
    case Finish(d) => DecTmprefK(k.(jobs := k.jobs - {d}))
    case Enqueue(t) => EnqueueK(k, t)
    case Advance(n) => AdvanceK(k, n)
    case AddOther(n, kind) =>
      k.(nodes := k.nodes[n := k.nodes[n].(asyncTodo := k.nodes[n].asyncTodo + [OtherWork(kind)])])
    case Deliver(i) => FreeTransactionK(k, k.procTodo[i]).(procTodo := Without(k.procTodo, i))
    case UserFree(b) => k.(bufs := k.bufs - {b})
    case SetFrozen(on) => k.(isFrozen := on)
    case TakeRef => k.(tmpRef := k.tmpRef + 1, holders := k.holders + 1)
    case DropRef => DecTmprefK(k.(holders := k.holders - 1))
    case ThreadStart => k.(threads := k.threads + 1)
    case ThreadExit => k.(threads := k.threads - 1, tmpRef := k.tmpRef + 1, holders := k.holders + 1)
    case Die => k.(isDead := true, isFrozen := false, tmpRef := k.tmpRef + 1, releaser := Releasing)
    case DrainNode(n) => DrainNodeK(k, n)
    case DrainTodo => FreeTransactionK(k, k.procTodo[0]).(procTodo := Without(k.procTodo, 0))
    case ReleaserDone => DecTmprefK(k.(releaser := Done))
  }

  // ----- What history records.

  function MsgOf(ids: seq<Ident>, txn: Txn, buf: Buffer): Msg
    requires buf.node < |ids|
  {
    Msg(txn.flags, txn.code, txn.toProc, buf.pid, buf.node, ids[buf.node].ptr, ids[buf.node].cookie, buf.offsetsSize,
        buf.data)
  }

  /** When the process is freed by this step, all its remaining buffers are released. */
  function DecTmprefH(k: Kernel, k': Kernel, h: History): History {
    if k'.freed > k.freed then h.(released := h.released + multiset(k.bufs.Keys)) else h
  }

  function Moved(h: History, t: TxnId, p: Place): History {
    h.(place := h.place[t := p])
  }

  function Ended(h: History, t: TxnId, p: Place): History {
    h.(place := h.place[t := p], txnFreed := h.txnFreed + multiset{t})
  }

  function ApplyH(s: Sys, step: Step): History
    requires Check(s, step) == Fine
  {
    var k, h := s.k, s.h;
    match step
    case Start(t, txn, b, buf) =>
      h.(msg := h.msg[t := MsgOf(k.ids, txn, buf)], buf := h.buf[t := b], owner := h.owner[b := t],
         place := h.place[t := Sending])
    case Probe(t, strategy, frozen, allocOk) =>
      var h1 := h.(ticket := h.ticket[t := h.probes], probes := h.probes + 1);
      (match Victim(k, t, strategy, frozen, allocOk)
       case None => h1
       case Some(i) =>
         var d := NodeOf(k, t).asyncTodo[i].t;
         h1.(place := h.place[d := Dropping], heir := h.heir[d := t],
             unread := if strategy == BY_DATA then h.unread else h.unread + {d}))
    case ReleaseBuffer(d) => h.(released := h.released + multiset{k.jobs[d].b})
    case FreeTxn(d) => h.(txnFreed := h.txnFreed + multiset{d})
    case Finish(d) => DecTmprefH(k, ApplyK(k, step), h).(place := h.place[d := Dropped], dropped := h.dropped + 1)
    case Enqueue(t) =>
      if Refused(k, k.txns[t].flags) then
        Ended(h, t, Failed).(released := h.released + multiset{k.txns[t].buffer.value})
      else if OneWay(k.txns[t].flags) && NodeOf(k, t).hasAsync then
        Moved(h, t, Waiting(BufferOf(k, t).node)).(enqueued := h.enqueued + 1)
      else Moved(h, t, Handed).(enqueued := h.enqueued + 1)
    case Advance(n) =>
      var todo := k.nodes[n].asyncTodo;
      if todo != [] && todo[0].TxnWork? then Moved(h, todo[0].t, Handed) else h
    case Deliver(i) => Ended(h, k.procTodo[i], Delivered).(delivered := h.delivered + 1)
    case UserFree(b) => h.(released := h.released + multiset{b})
    case DropRef => DecTmprefH(k, ApplyK(k, step), h)
    case ReleaserDone => DecTmprefH(k, ApplyK(k, step), h)
    case DrainNode(n) =>
      var todo := k.nodes[n].asyncTodo;
      if todo[0].TxnWork? then Ended(h, todo[0].t, Drained).(drained := h.drained + 1) else h
    case DrainTodo => Ended(h, k.procTodo[0], Drained).(drained := h.drained + 1)
    case _ => h
  }

  function Apply(s: Sys, step: Step): Sys
    requires Check(s, step) == Fine
  {
    Sys(ApplyK(s.k, step), ApplyH(s, step))
  }

  predicate Next(s: Sys, step: Step, s': Sys) {
    Check(s, step) == Fine && s' == Apply(s, step)
  }

  /** Step i leads from state i to the next. */
  predicate StepAt(states: seq<Sys>, steps: seq<Step>, i: nat)
    requires i < |steps| && |states| == |steps| + 1
  {
    Next(states[i], steps[i], states[i + 1])
  }

  /** A run: its states, and the step between each two. */
  predicate IsRun(states: seq<Sys>, steps: seq<Step>) {
    && |states| == |steps| + 1
    && forall i :: 0 <= i < |steps| ==> StepAt(states, steps, i)
  }

  /** A freshly opened process with idle nodes. */
  predicate Init(s: Sys) {
    && s.k.tmpRef == s.k.holders && s.k.outstanding == 0 && |s.k.ids| == |s.k.nodes| && !s.k.isDead && s.k.freed == 0
    && (forall n :: 0 <= n < |s.k.nodes| ==> !s.k.nodes[n].hasAsync && s.k.nodes[n].asyncTodo == [])
    && s.k.txns == map[] && s.k.bufs == map[] && s.k.procTodo == [] && s.k.senders == map[] && s.k.jobs == map[]
    && s.k.releaser == Idle
    && s.h == History(map[], map[], map[], map[], multiset{}, multiset{}, 0, 0, 0, 0, map[], 0, map[], {})
  }
}
