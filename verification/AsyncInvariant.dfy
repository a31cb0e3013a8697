/** What every step of the free-async protocol keeps. Each part of the invariant names
    only the fields it is about. */
module AsyncInvariant {
  import opened Base
  import opened BinderTypes
  import opened AsyncSystem

  type Txns = map<TxnId, Txn>
  type Bufs = map<BufId, Buffer>
  type Jobs = map<TxnId, Stage>
  type Senders = map<TxnId, Phase>
  type Places = map<TxnId, Place>
  type Msgs = map<TxnId, Msg>
  type Ids = seq<Ident>

  predicate Live(p: Place) {
    p.Sending? || p.Waiting? || p.Handed?
  }

  // ----- The heap.

  /** t and its buffer b are allocated, point at each other and still say what t was created with. */
  predicate Attached(txns: Txns, bufs: Bufs, ids: Ids, m: Msg, b: BufId, t: TxnId) {
    && t in txns && txns[t].buffer == Some(b) && txns[t].toProc.Some?
    && b in bufs && bufs[b].transaction == Some(t)
    && bufs[b].node < |ids| && m == MsgOf(ids, txns[t], bufs[b])
  }

  /** b is allocated and has no transaction. */
  predicate Loose(bufs: Bufs, b: BufId) {
    b in bufs && bufs[b].transaction.None?
  }

  predicate JobOk(txns: Txns, bufs: Bufs, stage: Stage, b: BufId, t: TxnId)
    requires !stage.Unlinked?
  {
    match stage
    case Cleared(b1) => b1 == b && t in txns && txns[t].buffer.None? && Loose(bufs, b)
    case Queued(b1) => b1 == b && t in txns && txns[t].buffer.None? && Loose(bufs, b)
    case BufferReleased(b1) => b1 == b && t in txns && b !in bufs
    case TxnFreed(b1) => b1 == b && t !in txns && b !in bufs
  }

  /** Which of t's two objects exist, by where t is. */
  predicate TxnOk(txns: Txns, bufs: Bufs, jobs: Jobs, ids: Ids, m: Msg, b: BufId, p: Place, t: TxnId) {
    if Live(p) then Attached(txns, bufs, ids, m, b, t) && (p.Waiting? ==> p.n == m.node)
    else if p == Dropping then
      t in jobs && if jobs[t].Unlinked? then Attached(txns, bufs, ids, m, b, t) else JobOk(txns, bufs, jobs[t], b, t)
    else t !in txns && if p == Dropped || p == Failed then b !in bufs else b in bufs ==> Loose(bufs, b)
  }

  /** Each transaction was created with a buffer of its own. */
  predicate OwnerInv(place: Places, msg: Msgs, buf: map<TxnId, BufId>, owner: map<BufId, TxnId>) {
    && (forall t :: t in place ==> t in msg && t in buf && buf[t] in owner && owner[buf[t]] == t)
    && (forall b :: b in owner ==> owner[b] in place && owner[b] in buf && buf[owner[b]] == b)
  }

  predicate TxnsOk(txns: Txns, bufs: Bufs, jobs: Jobs, ids: Ids, place: Places, msg: Msgs, buf: map<TxnId, BufId>) {
    forall t :: t in place ==> t in msg && t in buf && TxnOk(txns, bufs, jobs, ids, msg[t], buf[t], place[t], t)
  }

  predicate HeapInv(k: Kernel, h: History) {
    && OwnerInv(h.place, h.msg, h.buf, h.owner)
    && TxnsOk(k.txns, k.bufs, k.jobs, k.ids, h.place, h.msg, h.buf)
    && k.txns.Keys <= h.place.Keys && k.bufs.Keys <= h.owner.Keys
  }

  /** Every object ever allocated is still there or has been freed exactly once. */
  ghost predicate OnceInv(bufs: Bufs, owner: map<BufId, TxnId>, released: multiset<BufId>) {
    forall b: BufId :: released[b] == if b in owner && b !in bufs then 1 else 0
  }

  ghost predicate OnceTxnInv(txns: Txns, place: Places, freed: multiset<TxnId>) {
    forall t: TxnId :: freed[t] == if t in place && t !in txns then 1 else 0
  }

  // ----- The lists.

  predicate ListInv(nodes: seq<Node>, place: Places) {
    && (forall n, i :: 0 <= n < |nodes| && 0 <= i < |nodes[n].asyncTodo| && nodes[n].asyncTodo[i].TxnWork? ==>
          nodes[n].asyncTodo[i].t in place && place[nodes[n].asyncTodo[i].t] == Waiting(n))
    && (forall n, i, j :: 0 <= n < |nodes| && 0 <= i < j < |nodes[n].asyncTodo| && nodes[n].asyncTodo[i].TxnWork? ==>
          nodes[n].asyncTodo[i] != nodes[n].asyncTodo[j])
    && (forall t :: t in place && place[t].Waiting? ==>
          place[t].n < |nodes| && TxnWork(t) in nodes[place[t].n].asyncTodo)
  }

  predicate TodoInv(todo: seq<TxnId>, place: Places) {
    && (forall i :: 0 <= i < |todo| ==> todo[i] in place && place[todo[i]] == Handed)
    && (forall i, j :: 0 <= i < j < |todo| ==> todo[i] != todo[j])
    && (forall t :: t in place && place[t] == Handed ==> t in todo)
  }

  predicate NodeInv(nodes: seq<Node>, ids: Ids) {
    |ids| == |nodes| && forall n :: 0 <= n < |nodes| && !nodes[n].hasAsync ==> nodes[n].asyncTodo == []
  }

  // ----- Who is at work, and the references they hold.

  predicate EarlyStage(stage: Stage) {
    stage.Unlinked? || stage.Cleared?
  }

  ghost predicate ActorInv(senders: Senders, jobs: Jobs, place: Places) {
    && (forall t :: t in senders <==> t in place && place[t] == Sending)
    && (forall t :: t in jobs <==> t in place && place[t] == Dropping)
  }

  /** A sender in the probe's tail owns exactly one unfinished free, and no other sender owns it. */
  predicate TailInv(senders: Senders, jobs: Jobs, heir: map<TxnId, TxnId>) {
    && (forall t :: t in senders && senders[t].Busy? ==>
          senders[t].d in jobs && EarlyStage(jobs[senders[t].d]) && senders[t].d in heir && heir[senders[t].d] == t)
    && (forall d :: d in jobs && EarlyStage(jobs[d]) ==> d in heir && heir[d] in senders && senders[heir[d]] == Busy(d))
  }

  function ReleaserRef(k: Kernel): nat {
    if k.releaser == Releasing then 1 else 0
  }

  /** tmp_ref is exactly the senders, the unfinished frees, the dying process's own reference and the rest. */
  predicate RefInv(k: Kernel) {
    && k.tmpRef == |k.senders| + |k.jobs| + k.holders + ReleaserRef(k)
    && k.freed <= 1
    && (k.freed == 1 ==> k.isDead && k.threads == 0 && k.tmpRef == 0)
  }

  predicate CountInv(k: Kernel, h: History) {
    && k.outstanding == CountWaiting(k.nodes) + |k.procTodo|
    && h.enqueued == CountWaiting(k.nodes) + |k.procTodo| + h.delivered + |k.jobs| + h.dropped + h.drained
  }

  predicate Drain(nodes: seq<Node>, todo: seq<TxnId>) {
    todo == [] && forall n :: 0 <= n < |nodes| ==> nodes[n].asyncTodo == []
  }

  predicate DeathInv(k: Kernel, place: Places, msg: Msgs) {
    && (k.isDead <==> k.releaser != Idle)
    && (k.releaser == Done ==> Drain(k.nodes, k.procTodo))
    && (k.freed > 0 ==> k.bufs == map[])
    && (forall t :: t in place && t in msg && OneWay(msg[t].flags) && (place[t] == Failed || place[t] == Drained) ==>
          k.isDead)
  }

  // ----- Who superseded whom.

  /** The two messages agree on everything the probe compares, short of the data. */
  predicate SameKey(m1: Msg, m2: Msg) {
    && OneWay(m1.flags) && m1.toProc.Some? && m1.toProc == m2.toProc && m1.code == m2.code && m1.flags == m2.flags
    && m1.pid == m2.pid && m1.ptr == m2.ptr && m1.cookie == m2.cookie && m1.offsetsSize == 0 && m2.offsetsSize == 0
  }

  predicate TicketInv(senders: Senders, place: Places, ticket: map<TxnId, nat>, probes: nat) {
    && (forall t :: t in ticket ==> t in place && ticket[t] < probes)
    && (forall t :: t in place && t !in ticket ==> t in senders && senders[t] == Entered)
    && (forall t :: t in senders && senders[t] == Entered ==> t !in ticket)
  }

  predicate HeirOk(msg: Msgs, ticket: map<TxnId, nat>, unread: set<TxnId>, d: TxnId, t: TxnId) {
    && d in msg && t in msg && SameKey(msg[d], msg[t]) && msg[d].node == msg[t].node
    && d in ticket && t in ticket && ticket[d] < ticket[t]
    && (d !in unread ==> msg[d].data == msg[t].data)
  }

  ghost predicate HeirInv(place: Places, msg: Msgs, ticket: map<TxnId, nat>, heir: map<TxnId, TxnId>,
                          unread: set<TxnId>) {
    && (forall d :: d in heir <==> d in place && (place[d] == Dropping || place[d] == Dropped))
    && (forall d :: d in heir ==> HeirOk(msg, ticket, unread, d, heir[d]))
  }

  // ----- The invariant is all of these parts.

  datatype Part =
    | Heap | Buffers | Records | NodeLists | ProcList | Nodes
    | Actors | Tails | Refs | Counts | Death | Tickets | Heirs

  ghost predicate Holds(part: Part, s: Sys) {
    match part
    case Heap => HeapInv(s.k, s.h)
    case Buffers => OnceInv(s.k.bufs, s.h.owner, s.h.released)
    case Records => OnceTxnInv(s.k.txns, s.h.place, s.h.txnFreed)
    case NodeLists => ListInv(s.k.nodes, s.h.place)
    case ProcList => TodoInv(s.k.procTodo, s.h.place)
    case Nodes => NodeInv(s.k.nodes, s.k.ids)
    case Actors => ActorInv(s.k.senders, s.k.jobs, s.h.place)
    case Tails => TailInv(s.k.senders, s.k.jobs, s.h.heir)
    case Refs => RefInv(s.k)
    case Counts => CountInv(s.k, s.h)
    case Death => DeathInv(s.k, s.h.place, s.h.msg)
    case Tickets => TicketInv(s.k.senders, s.h.place, s.h.ticket, s.h.probes)
    case Heirs => HeirInv(s.h.place, s.h.msg, s.h.ticket, s.h.heir, s.h.unread)
  }

  ghost predicate Inv(s: Sys) {
    forall part :: Holds(part, s)
  }

  lemma InitInv(s: Sys)
    requires Init(s)
    ensures Inv(s)
  {
    EmptyCount(s.k.nodes);
    forall part ensures Holds(part, s) {}
  }

  lemma {:induction false} EmptyCount(nodes: seq<Node>)
    requires forall n :: 0 <= n < |nodes| ==> nodes[n].asyncTodo == []
    ensures CountWaiting(nodes) == 0
  {
    if nodes != [] {
      EmptyCount(nodes[..|nodes| - 1]);
    }
  }

  // ----- No step of a reachable state follows a dangling pointer.

  /** Where each transaction is determines what can be followed from it. */
  lemma LiveLinked(s: Sys, t: TxnId)
    requires Inv(s) && t in s.h.place
    requires Live(s.h.place[t]) || (t in s.k.jobs && s.h.place[t] == Dropping && s.k.jobs[t].Unlinked?)
    ensures t in s.h.msg && t in s.h.buf && Linked(s.k, t)
    ensures Attached(s.k.txns, s.k.bufs, s.k.ids, s.h.msg[t], s.h.buf[t], t)
    ensures s.h.place[t].Waiting? ==> s.h.place[t].n == s.h.msg[t].node
  {
    assert Holds(Heap, s) && Holds(Nodes, s);
    assert TxnOk(s.k.txns, s.k.bufs, s.k.jobs, s.k.ids, s.h.msg[t], s.h.buf[t], s.h.place[t], t);
  }

  lemma JobFacts(s: Sys, d: TxnId)
    requires Inv(s) && d in s.k.jobs
    ensures d in s.h.place && s.h.place[d] == Dropping && d in s.h.msg && d in s.h.buf
    ensures s.k.jobs[d].Unlinked? ==> Linked(s.k, d) && Attached(s.k.txns, s.k.bufs, s.k.ids, s.h.msg[d], s.h.buf[d], d)
    ensures !s.k.jobs[d].Unlinked? ==> JobOk(s.k.txns, s.k.bufs, s.k.jobs[d], s.h.buf[d], d)
  {
    assert Holds(Actors, s) && Holds(Heap, s) && Holds(Nodes, s);
    assert TxnOk(s.k.txns, s.k.bufs, s.k.jobs, s.k.ids, s.h.msg[d], s.h.buf[d], s.h.place[d], d);
  }

  lemma SenderFacts(s: Sys, t: TxnId)
    requires Inv(s) && t in s.k.senders
    ensures t in s.h.place && s.h.place[t] == Sending && t !in s.k.jobs && t in s.h.msg && t in s.h.buf
    ensures Linked(s.k, t) && Attached(s.k.txns, s.k.bufs, s.k.ids, s.h.msg[t], s.h.buf[t], t)
  {
    assert Holds(Actors, s);
    LiveLinked(s, t);
  }

  lemma WaitingFacts(s: Sys, n: NodeId, i: nat)
    requires Inv(s) && n < |s.k.nodes| && i < |s.k.nodes[n].asyncTodo| && s.k.nodes[n].asyncTodo[i].TxnWork?
    ensures var t := s.k.nodes[n].asyncTodo[i].t;
            && t in s.h.place && s.h.place[t] == Waiting(n) && t !in s.k.jobs && t !in s.k.senders && t in s.h.msg
            && t in s.h.buf
            && s.h.msg[t].node == n
            && Linked(s.k, t) && Attached(s.k.txns, s.k.bufs, s.k.ids, s.h.msg[t], s.h.buf[t], t)
  {
    assert Holds(Actors, s) && Holds(NodeLists, s);
    LiveLinked(s, s.k.nodes[n].asyncTodo[i].t);
  }

  lemma HandedFacts(s: Sys, i: nat)
    requires Inv(s) && i < |s.k.procTodo|
    ensures var t := s.k.procTodo[i];
            && t in s.h.place && s.h.place[t] == Handed && t !in s.k.jobs && t !in s.k.senders && t in s.h.msg
            && t in s.h.buf
            && Linked(s.k, t) && Attached(s.k.txns, s.k.bufs, s.k.ids, s.h.msg[t], s.h.buf[t], t)
  {
    assert Holds(Actors, s) && Holds(ProcList, s);
    LiveLinked(s, s.k.procTodo[i]);
  }

  /** A probe that scans a node's list meets no null buffer. */
  lemma ListScannable(s: Sys, n: NodeId)
    requires Inv(s) && n < |s.k.nodes|
    ensures Scannable(s.k, s.k.nodes[n].asyncTodo)
  {
    var todo := s.k.nodes[n].asyncTodo;
    forall i | 0 <= i < |todo| && todo[i].TxnWork? ensures Linked(s.k, todo[i].t) {
      WaitingFacts(s, n, i);
    }
  }

  /** Once the process is freed nothing refers to it any more. */
  lemma FreedIsDeserted(s: Sys)
    requires Inv(s) && s.k.freed > 0
    ensures s.k.senders == map[] && s.k.jobs == map[] && s.k.holders == 0 && s.k.threads == 0 && s.k.bufs == map[]
    ensures s.k.isDead && s.k.releaser == Done && Drain(s.k.nodes, s.k.procTodo)
  {
    assert Holds(Refs, s) && Holds(Death, s);
    assert |s.k.senders| == 0 && |s.k.jobs| == 0;
  }

  lemma NotFreed(s: Sys, step: Step)
    requires Inv(s) && Enabled(s, step)
    ensures s.k.freed == 0
  {
    if s.k.freed > 0 {
      FreedIsDeserted(s);
    }
  }

  /** No step that can happen follows a dangling pointer or touches a freed process. */
  lemma StepSafe(s: Sys, step: Step)
    requires Inv(s)
    ensures Check(s, step) != Faulty
  {
    if Enabled(s, step) {
      NotFreed(s, step);
      match step
      case Probe(t, _, _, _) =>
        SenderFacts(s, t);
        ListScannable(s, BufferOf(s.k, t).node);
      case Clear(t) => JobFacts(s, s.k.senders[t].d);
      case ReleaseBuffer(d) => JobFacts(s, d);
      case FreeTxn(d) => JobFacts(s, d);
      case Enqueue(t) => SenderFacts(s, t);
      case Deliver(i) => HandedFacts(s, i);
      case DrainNode(n) =>
        if s.k.nodes[n].asyncTodo[0].TxnWork? { WaitingFacts(s, n, 0); }
      case DrainTodo => HandedFacts(s, 0);
      case Start(_, _, _, _) => assert Holds(Nodes, s);
      case _ =>
    }
  }
}
