/** Each step of the protocol keeps every part of the invariant. */
module AsyncSteps {
  import opened Base
  import opened BinderTypes
  import opened AsyncSystem
  import opened AsyncInvariant
  import opened AsyncLists
  import opened AsyncMoves

  // ----- The probe and its worker.

  lemma ClearKeeps(s: Sys, t: TxnId)
    requires Inv(s) && Check(s, Clear(t)) == Fine
    ensures Inv(Apply(s, Clear(t)))
  {
    var k, h, d := s.k, s.h, s.k.senders[t].d;
    JobFacts(s, d);
    var s' := Apply(s, Clear(t));
    forall part ensures Holds(part, s') {
      assert Holds(part, s);
      match part
      case Buffers => OnceUpdate(k.bufs, h.owner, h.released, h.buf[d], s'.k.bufs[h.buf[d]]);
      case Tails => TailStage(k.senders, k.jobs, h.heir, d, s'.k.jobs[d]);
      case Heap => HeapMove(k, h, s'.k, h, d);
      case _ =>
    }
  }

  lemma QueueKeeps(s: Sys, t: TxnId)
    requires Inv(s) && Check(s, Queue(t)) == Fine
    ensures Inv(Apply(s, Queue(t)))
  {
    var k, h, d := s.k, s.h, s.k.senders[t].d;
    JobFacts(s, d);
    SenderFacts(s, t);
    var s' := Apply(s, Queue(t));
    forall part ensures Holds(part, s') {
      assert Holds(part, s);
      match part
      case Tails => TailQueued(k.senders, k.jobs, h.heir, t, s'.k.jobs[d]);
      case Heap => HeapMove(k, h, s'.k, h, d);
      case Tickets => TicketPhase(k.senders, h.place, h.ticket, h.probes, t, Ready);
      case _ =>
    }
  }

  lemma ReleaseBufferKeeps(s: Sys, d: TxnId)
    requires Inv(s) && Check(s, ReleaseBuffer(d)) == Fine
    ensures Inv(Apply(s, ReleaseBuffer(d)))
  {
    var k, h := s.k, s.h;
    JobFacts(s, d);
    var s' := Apply(s, ReleaseBuffer(d));
    assert Holds(Heap, s);
    forall part ensures Holds(part, s') {
      assert Holds(part, s);
      match part
      case Buffers => OnceRelease(k.bufs, h.owner, h.released, h.buf[d]);
      case Tails => TailStage(k.senders, k.jobs, h.heir, d, s'.k.jobs[d]);
      case Heap => HeapMove(k, h, s'.k, s'.h, d);
      case _ =>
    }
  }

  lemma FreeTxnKeeps(s: Sys, d: TxnId)
    requires Inv(s) && Check(s, FreeTxn(d)) == Fine
    ensures Inv(Apply(s, FreeTxn(d)))
  {
    var k, h := s.k, s.h;
    JobFacts(s, d);
    var s' := Apply(s, FreeTxn(d));
    forall part ensures Holds(part, s') {
      assert Holds(part, s);
      match part
      case Records =>
        OnceFree(k.txns, h.place, h.txnFreed, d, Dropping);
        assert h.place == h.place[d := Dropping];
      case Tails => TailStage(k.senders, k.jobs, h.heir, d, s'.k.jobs[d]);
      case Heap => HeapMove(k, h, s'.k, s'.h, d);
      case _ =>
    }
  }

  lemma Settled(s: Sys, t: TxnId)
    requires Inv(s) && s.k.senders == map[] && s.k.jobs == map[] && Drain(s.k.nodes, s.k.procTodo) && t in s.h.place
    ensures !Live(s.h.place[t]) && s.h.place[t] != Dropping
  {
    assert Holds(Actors, s) && Holds(NodeLists, s) && Holds(ProcList, s);
  }

  /** With nobody left at work, no transaction needs a buffer any more. */
  lemma UnmapHeap(s: Sys)
    requires Inv(s) && s.k.senders == map[] && s.k.jobs == map[] && Drain(s.k.nodes, s.k.procTodo)
    ensures HeapInv(s.k.(freed := 1, bufs := map[]), s.h)
  {
    var k, h := s.k, s.h;
    assert Holds(Heap, s);
    forall t | t in h.place
      ensures TxnOk(k.txns, map[], k.jobs, k.ids, h.msg[t], h.buf[t], h.place[t], t)
    {
      assert TxnOk(k.txns, k.bufs, k.jobs, k.ids, h.msg[t], h.buf[t], h.place[t], t);
      Settled(s, t);
    }
  }

  /** The last reference to a dead process goes: the process and its buffers are freed. */
  lemma FreeProcKeeps(s: Sys)
    requires Inv(s) && s.k.isDead && s.k.threads == 0 && s.k.tmpRef == 0 && s.k.freed == 0
    ensures Inv(Sys(s.k.(freed := 1, bufs := map[]), s.h.(released := s.h.released + multiset(s.k.bufs.Keys))))
  {
    var k, h := s.k, s.h;
    var s' := Sys(k.(freed := 1, bufs := map[]), h.(released := h.released + multiset(k.bufs.Keys)));
    assert Holds(Refs, s) && Holds(Death, s) && Holds(Heap, s);
    assert |k.senders| == 0 && |k.jobs| == 0;
    UnmapHeap(s);
    forall part ensures Holds(part, s') {
      assert Holds(part, s);
    }
  }

  lemma DecTmprefKeeps(s: Sys, s': Sys, k0: Kernel)
    requires Inv(s) && s.k.freed == 0 && k0.bufs == s.k.bufs && k0.freed == 0
    requires s'.k == DecTmprefK(s.k.(tmpRef := s.k.tmpRef + 1)) && s'.h == DecTmprefH(k0, s'.k, s.h)
    ensures Inv(s')
  {
    if s.k.isDead && s.k.threads == 0 && s.k.tmpRef == 0 {
      FreeProcKeeps(s);
    } else {
      assert s' == s;
    }
  }

  lemma DropJobHeap(s: Sys, d: TxnId, mid: Sys)
    requires Inv(s) && d in s.k.jobs && s.k.jobs[d].TxnFreed?
    requires mid.k == s.k.(jobs := s.k.jobs - {d}, tmpRef := s.k.tmpRef - 1)
    requires mid.h == s.h.(place := s.h.place[d := Dropped], dropped := s.h.dropped + 1)
    ensures Holds(Heap, mid)
  {
    JobFacts(s, d);
    assert Holds(Heap, s);
    HeapMove(s.k, s.h, mid.k, mid.h, d);
  }

  /** The worker's last act, before the reference it drops is looked at. */
  lemma DropJobKeeps(s: Sys, d: TxnId, mid: Sys)
    requires Inv(s) && d in s.k.jobs && s.k.jobs[d].TxnFreed? && s.k.freed == 0
    requires mid.k == s.k.(jobs := s.k.jobs - {d}, tmpRef := s.k.tmpRef - 1)
    requires mid.h == s.h.(place := s.h.place[d := Dropped], dropped := s.h.dropped + 1)
    ensures Inv(mid)
  {
    var k, h := s.k, s.h;
    JobFacts(s, d);
    forall part ensures Holds(part, mid) {
      assert Holds(part, s);
      match part
      case Heap => DropJobHeap(s, d, mid);
      case Records => OnceMove(k.txns, h.place, h.txnFreed, d, Dropped);
      case NodeLists => ListMove(k.nodes, h.place, d, Dropped);
      case ProcList => TodoMove(k.procTodo, h.place, d, Dropped);
      case Actors => ActorFinished(k.senders, k.jobs, h.place, d);
      case Tails => TailFinished(k.senders, k.jobs, h.heir, d);
      case Refs => RemoveKey(k.jobs, d);
      case Counts => RemoveKey(k.jobs, d);
      case Tickets => TicketMove(k.senders, h.place, h.ticket, h.probes, d, Dropped);
      case Heirs => HeirMove(h.place, h.msg, h.ticket, h.heir, h.unread, d, Dropped);
      case _ =>
    }
  }

  /** The worker's last step is this and the drop of a reference. */
  lemma FinishIs(s: Sys, d: TxnId, mid: Sys)
    requires Check(s, Finish(d)) == Fine
    requires mid.k == s.k.(jobs := s.k.jobs - {d}, tmpRef := s.k.tmpRef - 1)
    requires mid.h == s.h.(place := s.h.place[d := Dropped], dropped := s.h.dropped + 1)
    ensures d in s.k.jobs && s.k.jobs[d].TxnFreed? && s.k.freed == 0
    ensures var s' := Apply(s, Finish(d));
            && s'.k == DecTmprefK(mid.k.(tmpRef := mid.k.tmpRef + 1))
            && s'.h == DecTmprefH(s.k, s'.k, mid.h)
  {
    assert ApplyK(s.k, Finish(d)) == DecTmprefK(s.k.(jobs := s.k.jobs - {d}));
    DecMoves(s.k, ApplyK(s.k, Finish(d)), s.h, mid.h, d);
  }

  lemma DecMoves(k: Kernel, k': Kernel, h: History, h1: History, d: TxnId)
    requires h1 == h.(place := h.place[d := Dropped], dropped := h.dropped + 1)
    ensures DecTmprefH(k, k', h).(place := h.place[d := Dropped], dropped := h.dropped + 1) == DecTmprefH(k, k', h1)
  {
    if k'.freed > k.freed {
      assert DecTmprefH(k, k', h1) == h1.(released := h.released + multiset(k.bufs.Keys));
    } else {
      assert DecTmprefH(k, k', h1) == h1;
    }
  }

  lemma FinishKeeps(s: Sys, d: TxnId)
    requires Inv(s) && Check(s, Finish(d)) == Fine
    ensures Inv(Apply(s, Finish(d)))
  {
    var mid := Sys(s.k.(jobs := s.k.jobs - {d}, tmpRef := s.k.tmpRef - 1),
                   s.h.(place := s.h.place[d := Dropped], dropped := s.h.dropped + 1));
    FinishIs(s, d, mid);
    DropJobKeeps(s, d, mid);
    DecTmprefKeeps(mid, Apply(s, Finish(d)), s.k);
  }

  /** A probe that unlinks nothing only notes that it ran. */
  lemma ProbePassKeeps(s: Sys, step: Step)
    requires Inv(s) && step.Probe? && Check(s, step) == Fine
    requires Victim(s.k, step.t, step.strategy, step.frozen, step.allocOk).None?
    ensures Inv(Apply(s, step))
  {
    var k, h, t := s.k, s.h, step.t;
    var s' := Apply(s, step);
    SenderFacts(s, t);
    forall part ensures Holds(part, s') {
      assert Holds(part, s);
      match part
      case Tails => TailSender(k.senders, k.jobs, h.heir, t, Ready);
      case Tickets => TicketTaken(k.senders, h.place, h.ticket, h.probes, t, Ready);
      case Heirs => assert Holds(Tickets, s);
      case _ =>
    }
  }

  /** The state change of a probe that unlinks d, the i-th item of node n. */
  predicate Unlinking(s: Sys, s': Sys, t: TxnId, n: NodeId, i: nat) {
    && n < |s.k.nodes| && i < |s.k.nodes[n].asyncTodo| && s.k.nodes[n].asyncTodo[i].TxnWork?
    && var k, h, d := s.k, s.h, s.k.nodes[n].asyncTodo[i].t;
    && s'.k == k.(tmpRef := k.tmpRef + 1, outstanding := k.outstanding - 1,
                     nodes := k.nodes[n := k.nodes[n].(asyncTodo := Without(k.nodes[n].asyncTodo, i))],
                     senders := k.senders[t := Busy(d)], jobs := k.jobs[d := Unlinked])
       && s'.h == h.(ticket := h.ticket[t := h.probes], probes := h.probes + 1, unread := s'.h.unread,
                     place := h.place[d := Dropping], heir := h.heir[d := t])
       && h.unread <= s'.h.unread
  }

  lemma UnlinkingKeeps(s: Sys, s': Sys, t: TxnId, n: NodeId, i: nat)
    requires Inv(s) && t in s.k.senders && s.k.senders[t] == Entered && s.k.freed == 0
    requires Unlinking(s, s', t, n, i) && s.k.nodes[n].hasAsync
    requires HeirInv(s'.h.place, s'.h.msg, s'.h.ticket, s'.h.heir, s'.h.unread)
    ensures Inv(s')
  {
    forall part ensures Holds(part, s') {
      if ListPart(part) { UnlinkingLists(s, s', t, n, i, part); } else { UnlinkingRest(s, s', t, n, i, part); }
    }
  }

  lemma UnlinkingLists(s: Sys, s': Sys, t: TxnId, n: NodeId, i: nat, part: Part)
    requires Inv(s) && Unlinking(s, s', t, n, i) && s.k.nodes[n].hasAsync && ListPart(part)
    ensures Holds(part, s') == true
  {
    var k, h, d := s.k, s.h, s.k.nodes[n].asyncTodo[i].t;
    WaitingFacts(s, n, i);
    assert Holds(part, s);
    match part
    case NodeLists => ListRemove(k.nodes, h.place, n, i, s'.k.nodes[n], Dropping);
    case ProcList => TodoMove(k.procTodo, h.place, d, Dropping);
    case Counts =>
      CountTxnsWithout(k.nodes[n].asyncTodo, i);
      CountWaitingUpdate(k.nodes, n, s'.k.nodes[n]);
    case _ =>
  }

  lemma UnlinkingHeap(s: Sys, s': Sys, t: TxnId, n: NodeId, i: nat)
    requires Inv(s) && Unlinking(s, s', t, n, i)
    ensures HeapInv(s'.k, s'.h) == true
  {
    WaitingFacts(s, n, i);
    assert Holds(Heap, s);
    HeapMove(s.k, s.h, s'.k, s'.h, s.k.nodes[n].asyncTodo[i].t);
  }

  lemma UnlinkingRest(s: Sys, s': Sys, t: TxnId, n: NodeId, i: nat, part: Part)
    requires Inv(s) && t in s.k.senders && s.k.senders[t] == Entered && s.k.freed == 0
    requires Unlinking(s, s', t, n, i) && !ListPart(part)
    requires HeirInv(s'.h.place, s'.h.msg, s'.h.ticket, s'.h.heir, s'.h.unread)
    ensures Holds(part, s') == true
  {
    var k, h, d := s.k, s.h, s.k.nodes[n].asyncTodo[i].t;
    WaitingFacts(s, n, i);
    SenderFacts(s, t);
    assert Holds(part, s);
    match part
    case Heap => UnlinkingHeap(s, s', t, n, i);
    case Records => OnceMove(k.txns, h.place, h.txnFreed, d, Dropping);
    case Actors => ActorUnlinked(k.senders, k.jobs, h.place, d, t);
    case Tails => TailUnlinked(k.senders, k.jobs, h.heir, t, d);
    case Tickets =>
      TicketTaken(k.senders, h.place, h.ticket, h.probes, t, Busy(d));
      TicketMove(s'.k.senders, h.place, s'.h.ticket, s'.h.probes, d, Dropping);
    case _ =>
  }

  lemma CanUpdateSameKey(s: Sys, d: TxnId, t: TxnId, strategy: int)
    requires d in s.h.msg && d in s.h.buf && Attached(s.k.txns, s.k.bufs, s.k.ids, s.h.msg[d], s.h.buf[d], d)
    requires t in s.h.msg && t in s.h.buf && Attached(s.k.txns, s.k.bufs, s.k.ids, s.h.msg[t], s.h.buf[t], t)
    requires Linked(s.k, d) && Linked(s.k, t) && CanUpdate(s.k, d, t, strategy)
    ensures SameKey(s.h.msg[d], s.h.msg[t]) && (strategy == BY_DATA ==> s.h.msg[d].data == s.h.msg[t].data)
  {
  }

  lemma HeirAdded(place: Places, msg: Msgs, ticket: map<TxnId, nat>, heir: map<TxnId, TxnId>, unread: set<TxnId>,
                  d: TxnId, t: TxnId, probes: nat, unread': set<TxnId>)
    requires HeirInv(place, msg, ticket, heir, unread) && d in place && unread <= unread'
    requires t !in ticket && d in ticket && ticket[d] < probes && d in msg && t in msg && d != t
    requires SameKey(msg[d], msg[t]) && msg[d].node == msg[t].node && (d !in unread' ==> msg[d].data == msg[t].data)
    ensures HeirInv(place[d := Dropping], msg, ticket[t := probes], heir[d := t], unread')
  {
  }

  /** A victim is the i-th item of the sender's node, which it can update. */
  lemma ProbeUnlinking(s: Sys, step: Step)
    requires Inv(s) && step.Probe? && Check(s, step) == Fine
    requires Victim(s.k, step.t, step.strategy, step.frozen, step.allocOk).Some?
    ensures Linked(s.k, step.t) && s.k.freed == 0 && step.t in s.k.senders && s.k.senders[step.t] == Entered
    ensures var n, i := BufferOf(s.k, step.t).node, Victim(s.k, step.t, step.strategy, step.frozen, step.allocOk).value;
            && Unlinking(s, Apply(s, step), step.t, n, i) && s.k.nodes[n].hasAsync
            && Linked(s.k, s.k.nodes[n].asyncTodo[i].t)
            && CanUpdate(s.k, s.k.nodes[n].asyncTodo[i].t, step.t, step.strategy)
            && (s.k.nodes[n].asyncTodo[i].t !in Apply(s, step).h.unread ==> step.strategy == BY_DATA)
  {
  }

  lemma ProbeUnlinkKeeps(s: Sys, step: Step)
    requires Inv(s) && step.Probe? && Check(s, step) == Fine
    requires Victim(s.k, step.t, step.strategy, step.frozen, step.allocOk).Some?
    ensures Inv(Apply(s, step))
  {
    ProbeUnlinking(s, step);
    UnlinkedInv(s, Apply(s, step), step.t, BufferOf(s.k, step.t).node,
                Victim(s.k, step.t, step.strategy, step.frozen, step.allocOk).value, step.strategy);
  }

  lemma UnlinkedInv(s: Sys, s': Sys, t: TxnId, n: NodeId, i: nat, strategy: int)
    requires Inv(s) && t in s.k.senders && s.k.senders[t] == Entered && s.k.freed == 0 && Linked(s.k, t)
             && BufferOf(s.k, t).node == n
    requires Unlinking(s, s', t, n, i) && s.k.nodes[n].hasAsync && Linked(s.k, s.k.nodes[n].asyncTodo[i].t)
    requires CanUpdate(s.k, s.k.nodes[n].asyncTodo[i].t, t, strategy)
    requires s.k.nodes[n].asyncTodo[i].t !in s'.h.unread ==> strategy == BY_DATA
    ensures Inv(s')
  {
    var h, d := s.h, s.k.nodes[n].asyncTodo[i].t;
    SenderFacts(s, t);
    WaitingFacts(s, n, i);
    assert Holds(Tickets, s) && Holds(Heirs, s);
    CanUpdateSameKey(s, d, t, strategy);
    HeirAdded(h.place, h.msg, h.ticket, h.heir, h.unread, d, t, h.probes, s'.h.unread);
    UnlinkingKeeps(s, s', t, n, i);
  }

  lemma ProbeKeeps(s: Sys, step: Step)
    requires Inv(s) && step.Probe? && Check(s, step) == Fine
    ensures Inv(Apply(s, step))
  {
    if Victim(s.k, step.t, step.strategy, step.frozen, step.allocOk).None? {
      ProbePassKeeps(s, step);
    } else {
      ProbeUnlinkKeeps(s, step);
    }
  }

  // ----- The rest of the binder driver.

  /** A sender appears with a transaction and a buffer of its own. */
  predicate Starting(s: Sys, s': Sys, t: TxnId, b: BufId) {
    && t !in s.h.place && b !in s.h.owner && t in s'.k.txns && b in s'.k.bufs && t in s'.h.msg
    && s'.k == s.k.(tmpRef := s.k.tmpRef + 1, txns := s.k.txns[t := s'.k.txns[t]], bufs := s.k.bufs[b := s'.k.bufs[b]],
                    senders := s.k.senders[t := Entered])
    && s'.h == s.h.(msg := s.h.msg[t := s'.h.msg[t]], buf := s.h.buf[t := b], owner := s.h.owner[b := t],
                    place := s.h.place[t := Sending])
    && Attached(s'.k.txns, s'.k.bufs, s.k.ids, s'.h.msg[t], b, t)
  }

  lemma StartingFresh(s: Sys, t: TxnId, b: BufId)
    requires Inv(s) && t !in s.h.place && b !in s.h.owner
    ensures t !in s.k.senders && t !in s.k.jobs && t !in s.k.txns && b !in s.k.bufs && t !in s.h.ticket
  {
    assert Holds(Heap, s) && Holds(Actors, s) && Holds(Tickets, s);
  }

  lemma StartingKeeps(s: Sys, s': Sys, t: TxnId, b: BufId, part: Part)
    requires Inv(s) && Starting(s, s', t, b) && s.k.freed == 0
    ensures Holds(part, s')
  {
    var k, h := s.k, s.h;
    StartingFresh(s, t, b);
    assert Holds(part, s);
    match part
    case Heap => HeapStart(s, s', t, b);
    case NodeLists => ListMove(k.nodes, h.place, t, Sending);
    case ProcList => TodoMove(k.procTodo, h.place, t, Sending);
    case Tails => TailSender(k.senders, k.jobs, h.heir, t, Entered);
    case Heirs => HeirStart(h.place, h.msg, h.ticket, h.heir, h.unread, t, s'.h.msg[t]);
    case _ =>
  }

  lemma HeapStart(s: Sys, s': Sys, t: TxnId, b: BufId)
    requires HeapInv(s.k, s.h) && Starting(s, s', t, b)
    ensures HeapInv(s'.k, s'.h)
  {
    var k, h := s.k, s.h;
    forall x | x in h.place
      ensures TxnOk(s'.k.txns, s'.k.bufs, k.jobs, k.ids, s'.h.msg[x], s'.h.buf[x], s'.h.place[x], x)
    {
      assert TxnOk(k.txns, k.bufs, k.jobs, k.ids, h.msg[x], h.buf[x], h.place[x], x);
    }
  }

  lemma StartKeeps(s: Sys, t: TxnId, txn: Txn, b: BufId, buf: Buffer)
    requires Inv(s) && Check(s, Start(t, txn, b, buf)) == Fine
    ensures Inv(Apply(s, Start(t, txn, b, buf)))
  {
    var s' := Apply(s, Start(t, txn, b, buf));
    assert Starting(s, s', t, b);
    forall part ensures Holds(part, s') { StartingKeeps(s, s', t, b, part); }
  }

  lemma HeirStart(place: Places, msg: Msgs, ticket: map<TxnId, nat>, heir: map<TxnId, TxnId>, unread: set<TxnId>,
                  t: TxnId, m: Msg)
    requires HeirInv(place, msg, ticket, heir, unread) && t !in place && t !in ticket
    ensures HeirInv(place[t := Sending], msg[t := m], ticket, heir, unread)
  {
    forall d | d in heir ensures HeirOk(msg[t := m], ticket, unread, d, heir[d]) {
      assert HeirOk(msg, ticket, unread, d, heir[d]);
    }
  }

  /** What binder_free_transaction changes when t, on some work list, ends at p. */
  predicate Ending(s: Sys, s': Sys, t: TxnId, p: Place) {
    && t in s.k.txns && s.k.txns[t].buffer.Some? && s.k.txns[t].buffer.value in s.k.bufs
    && t in s.h.place && (s.h.place[t] == Handed || s.h.place[t].Waiting?) && (p == Delivered || p == Drained)
    && var k, h, b := s.k, s.h, s.k.txns[t].buffer.value;
    && s'.k == k.(outstanding := k.outstanding - 1, txns := k.txns - {t},
                     bufs := k.bufs[b := k.bufs[b].(transaction := None)],
                     nodes := s'.k.nodes, procTodo := s'.k.procTodo)
       && s'.h == h.(place := h.place[t := p], txnFreed := h.txnFreed + multiset{t},
                     delivered := h.delivered + (if p == Delivered then 1 else 0),
                     drained := h.drained + (if p == Drained then 1 else 0))
  }

  predicate ListPart(part: Part) {
    part.NodeLists? || part.ProcList? || part.Nodes? || part.Counts? || part.Death?
  }

  lemma EndingKeeps(s: Sys, s': Sys, t: TxnId, p: Place, part: Part)
    requires Inv(s) && Ending(s, s', t, p) && !ListPart(part)
    ensures Holds(part, s')
  {
    var k, h := s.k, s.h;
    LiveLinked(s, t);
    assert Holds(part, s);
    match part
    case Heap => HeapMove(k, h, s'.k, s'.h, t);
    case Buffers => OnceUpdate(k.bufs, h.owner, h.released, h.buf[t], s'.k.bufs[h.buf[t]]);
    case Records => OnceFree(k.txns, h.place, h.txnFreed, t, p);
    case Actors => ActorMove(k.senders, k.jobs, h.place, t, p);
    case Tickets => TicketMove(k.senders, h.place, h.ticket, h.probes, t, p);
    case Heirs => HeirMove(h.place, h.msg, h.ticket, h.heir, h.unread, t, p);
    case _ =>
  }

  /** The i-th transaction of the process's list ends. */
  lemma HandedEnds(s: Sys, s': Sys, i: nat, p: Place, part: Part)
    requires Inv(s) && i < |s.k.procTodo| && Ending(s, s', s.k.procTodo[i], p) && (p == Drained ==> s.k.isDead)
    requires s'.k.nodes == s.k.nodes && s'.k.procTodo == Without(s.k.procTodo, i) && ListPart(part)
    ensures Holds(part, s')
  {
    var k, h, t := s.k, s.h, s.k.procTodo[i];
    assert Holds(part, s);
    match part
    case NodeLists =>
      HandedFacts(s, i);
      ListMove(k.nodes, h.place, t, p);
    case ProcList => TodoRemove(k.procTodo, h.place, i, p);
    case _ =>
  }

  /** The first transaction waiting on node n ends. */
  lemma WaitingEnds(s: Sys, s': Sys, n: NodeId, part: Part)
    requires Inv(s) && n < |s.k.nodes| && s.k.nodes[n].asyncTodo != [] && s.k.nodes[n].asyncTodo[0].TxnWork?
             && s.k.isDead
    requires Ending(s, s', s.k.nodes[n].asyncTodo[0].t, Drained) && s'.k.procTodo == s.k.procTodo
    requires s'.k.nodes == s.k.nodes[n := s.k.nodes[n].(asyncTodo := Without(s.k.nodes[n].asyncTodo, 0))]
    requires ListPart(part)
    ensures Holds(part, s')
  {
    var k, h, t := s.k, s.h, s.k.nodes[n].asyncTodo[0].t;
    assert Holds(part, s);
    match part
    case NodeLists => ListRemove(k.nodes, h.place, n, 0, s'.k.nodes[n], Drained);
    case ProcList =>
      WaitingFacts(s, n, 0);
      TodoMove(k.procTodo, h.place, t, Drained);
    case Counts =>
      CountTxnsWithout(k.nodes[n].asyncTodo, 0);
      CountWaitingUpdate(k.nodes, n, s'.k.nodes[n]);
    case _ =>
  }

  lemma HandedEnded(s: Sys, s': Sys, i: nat, p: Place)
    requires Inv(s) && i < |s.k.procTodo| && Ending(s, s', s.k.procTodo[i], p) && (p == Drained ==> s.k.isDead)
    requires s'.k.nodes == s.k.nodes && s'.k.procTodo == Without(s.k.procTodo, i)
    ensures Inv(s')
  {
    forall part ensures Holds(part, s') {
      if ListPart(part) { HandedEnds(s, s', i, p, part); } else { EndingKeeps(s, s', s.k.procTodo[i], p, part); }
    }
  }

  lemma DeliverKeeps(s: Sys, i: nat)
    requires Inv(s) && Check(s, Deliver(i)) == Fine
    ensures Inv(Apply(s, Deliver(i)))
  {
    HandedFacts(s, i);
    HandedEnded(s, Apply(s, Deliver(i)), i, Delivered);
  }

  lemma DrainTodoKeeps(s: Sys)
    requires Inv(s) && Check(s, DrainTodo) == Fine
    ensures Inv(Apply(s, DrainTodo))
  {
    HandedFacts(s, 0);
    assert Holds(Death, s);
    HandedEnded(s, Apply(s, DrainTodo), 0, Drained);
  }

  lemma DrainNodeKeeps(s: Sys, n: NodeId)
    requires Inv(s) && Check(s, DrainNode(n)) == Fine
    ensures Inv(Apply(s, DrainNode(n)))
  {
    var s', todo := Apply(s, DrainNode(n)), s.k.nodes[n].asyncTodo;
    assert Holds(Death, s);
    if todo[0].TxnWork? {
      WaitingFacts(s, n, 0);
      forall part ensures Holds(part, s') {
        if ListPart(part) { WaitingEnds(s, s', n, part); } else { EndingKeeps(s, s', todo[0].t, Drained, part); }
      }
    } else {
      OtherRemoved(s, s', n);
    }
  }

  /** A work item that is no transaction leaves a node's list. */
  lemma OtherRemoved(s: Sys, s': Sys, n: NodeId)
    requires Inv(s) && n < |s.k.nodes| && s.k.nodes[n].asyncTodo != [] && !s.k.nodes[n].asyncTodo[0].TxnWork?
    requires var node := s.k.nodes[n];
             s' == s.(k := s.k.(nodes := s.k.nodes[n := node.(asyncTodo := Without(node.asyncTodo, 0))]))
    ensures Inv(s')
  {
    CountTxnsWithout(s.k.nodes[n].asyncTodo, 0);
    CountWaitingUpdate(s.k.nodes, n, s'.k.nodes[n]);
    forall part ensures Holds(part, s') {
      assert Holds(part, s);
      if part == NodeLists { ListRemove(s.k.nodes, s.h.place, n, 0, s'.k.nodes[n], Drained); }
    }
  }

  /** The first item of a node's list, a transaction, moves to the process's list. */
  predicate HandingOver(s: Sys, s': Sys, n: NodeId) {
    && n < |s.k.nodes| && s.k.nodes[n].asyncTodo != [] && s.k.nodes[n].asyncTodo[0].TxnWork?
    && var node, t := s.k.nodes[n], s.k.nodes[n].asyncTodo[0].t;
       && s'.k == s.k.(nodes := s.k.nodes[n := node.(asyncTodo := Without(node.asyncTodo, 0))],
                       procTodo := s.k.procTodo + [t])
       && s'.h == s.h.(place := s.h.place[t := Handed])
  }

  lemma HandedOver(s: Sys, s': Sys, n: NodeId, part: Part)
    requires Inv(s) && HandingOver(s, s', n)
    ensures Holds(part, s') == true
  {
    if ListPart(part) { HandedOverLists(s, s', n, part); } else { HandedOverRest(s, s', n, part); }
  }

  lemma HandedOverLists(s: Sys, s': Sys, n: NodeId, part: Part)
    requires Inv(s) && HandingOver(s, s', n) && ListPart(part)
    ensures Holds(part, s') == true
  {
    var k, h, t := s.k, s.h, s.k.nodes[n].asyncTodo[0].t;
    assert Holds(part, s);
    WaitingFacts(s, n, 0);
    match part
    case NodeLists => ListRemove(k.nodes, h.place, n, 0, s'.k.nodes[n], Handed);
    case ProcList => TodoAppend(k.procTodo, h.place, t);
    case Counts =>
      CountTxnsWithout(k.nodes[n].asyncTodo, 0);
      CountWaitingUpdate(k.nodes, n, s'.k.nodes[n]);
    case _ =>
  }

  lemma HandedOverRest(s: Sys, s': Sys, n: NodeId, part: Part)
    requires Inv(s) && HandingOver(s, s', n) && !ListPart(part)
    ensures Holds(part, s') == true
  {
    var k, h, t := s.k, s.h, s.k.nodes[n].asyncTodo[0].t;
    assert Holds(part, s);
    WaitingFacts(s, n, 0);
    match part
    case Heap => HeapMove(k, h, s'.k, s'.h, t);
    case Records => OnceMove(k.txns, h.place, h.txnFreed, t, Handed);
    case Actors => ActorMove(k.senders, k.jobs, h.place, t, Handed);
    case Tickets => TicketMove(k.senders, h.place, h.ticket, h.probes, t, Handed);
    case Heirs => HeirMove(h.place, h.msg, h.ticket, h.heir, h.unread, t, Handed);
    case _ =>
  }

  lemma AdvanceKeeps(s: Sys, n: NodeId)
    requires Inv(s) && Check(s, Advance(n)) == Fine
    ensures Inv(Apply(s, Advance(n)))
  {
    var s', todo := Apply(s, Advance(n)), s.k.nodes[n].asyncTodo;
    if todo == [] {
      CountWaitingUpdate(s.k.nodes, n, s'.k.nodes[n]);
      forall part ensures Holds(part, s') {
        assert Holds(part, s);
        if part == NodeLists { ListSame(s.k.nodes, s.h.place, n, s'.k.nodes[n]); }
      }
    } else if todo[0].TxnWork? {
      forall part ensures Holds(part, s') { HandedOver(s, s', n, part); }
    } else {
      OtherRemoved(s, s', n);
    }
  }

  lemma OtherAdded(s: Sys, s': Sys, n: NodeId, kind: nat)
    requires Inv(s) && n < |s.k.nodes|
    requires var node := s.k.nodes[n];
             s' == s.(k := s.k.(nodes := s.k.nodes[n := node.(asyncTodo := node.asyncTodo + [OtherWork(kind)])]))
    requires s.k.nodes[n].hasAsync && !s.k.isDead
    ensures Inv(s')
  {
    CountWaitingUpdate(s.k.nodes, n, s'.k.nodes[n]);
    assert s'.k.nodes[n].asyncTodo[..|s.k.nodes[n].asyncTodo|] == s.k.nodes[n].asyncTodo;
    forall part ensures Holds(part, s') {
      assert Holds(part, s);
      if part == NodeLists { ListAppendOther(s.k.nodes, s.h.place, n, kind, s'.k.nodes[n]); }
    }
  }

  lemma AddOtherKeeps(s: Sys, n: NodeId, kind: nat)
    requires Inv(s) && Check(s, AddOther(n, kind)) == Fine
    ensures Inv(Apply(s, AddOther(n, kind)))
  {
    OtherAdded(s, Apply(s, AddOther(n, kind)), n, kind);
  }

  lemma UserFreeKeeps(s: Sys, b: BufId)
    requires Inv(s) && Check(s, UserFree(b)) == Fine
    ensures Inv(Apply(s, UserFree(b)))
  {
    var s' := Apply(s, UserFree(b));
    assert Holds(Heap, s);
    forall part ensures Holds(part, s') {
      assert Holds(part, s);
      match part
      case Heap => UserFreeHeap(s, s', b);
      case Buffers => OnceRelease(s.k.bufs, s.h.owner, s.h.released, b);
      case _ =>
    }
  }

  lemma UserFreeHeap(s: Sys, s': Sys, b: BufId)
    requires HeapInv(s.k, s.h) && b in s.h.owner && s.h.owner[b] in s.h.place && s.h.place[s.h.owner[b]] == Delivered
    requires s'.k == s.k.(bufs := s.k.bufs - {b}) && s'.h == s.h.(released := s'.h.released)
    ensures HeapInv(s'.k, s'.h)
  {
    var k, h, t := s.k, s.h, s.h.owner[b];
    assert TxnOk(k.txns, k.bufs, k.jobs, k.ids, h.msg[t], h.buf[t], h.place[t], t);
    HeapMove(k, h, s'.k, s'.h, t);
  }

  lemma HolderGone(s: Sys)
    requires Inv(s) && s.k.holders > 0 && s.k.freed == 0
    ensures Inv(s.(k := s.k.(holders := s.k.holders - 1, tmpRef := s.k.tmpRef - 1)))
  {
    var mid := s.(k := s.k.(holders := s.k.holders - 1, tmpRef := s.k.tmpRef - 1));
    forall part ensures Holds(part, mid) { assert Holds(part, s); }
  }

  lemma DropRefKeeps(s: Sys)
    requires Inv(s) && Check(s, DropRef) == Fine
    ensures Inv(Apply(s, DropRef))
  {
    HolderGone(s);
    DecTmprefKeeps(s.(k := s.k.(holders := s.k.holders - 1, tmpRef := s.k.tmpRef - 1)), Apply(s, DropRef), s.k);
  }

  lemma ReleaserDoneKeeps(s: Sys)
    requires Inv(s) && Check(s, ReleaserDone) == Fine
    ensures Inv(Apply(s, ReleaserDone))
  {
    var mid := s.(k := s.k.(releaser := Done, tmpRef := s.k.tmpRef - 1));
    forall part ensures Holds(part, mid) { assert Holds(part, s); }
    DecTmprefKeeps(mid, Apply(s, ReleaserDone), s.k);
  }

  /** Steps that touch no transaction, buffer or list. */
  predicate Quiet(step: Step) {
    step.SetFrozen? || step.TakeRef? || step.ThreadStart? || step.ThreadExit? || step.Die?
  }

  /** Only references, threads and the state of the process as a whole are different. */
  predicate SameObjects(s: Sys, s': Sys) {
    && s'.h == s.h
    && s'.k == s.k.(tmpRef := s'.k.tmpRef, holders := s'.k.holders, threads := s'.k.threads, isDead := s'.k.isDead,
                    isFrozen := s'.k.isFrozen, releaser := s'.k.releaser)
  }

  lemma QuietSame(s: Sys, step: Step)
    requires Check(s, step) == Fine && Quiet(step)
    ensures SameObjects(s, Apply(s, step))
  {
  }

  lemma QuietPart(s: Sys, s': Sys, part: Part)
    requires Holds(part, s) && SameObjects(s, s') && part != Refs && part != Death
    ensures Holds(part, s')
  {
  }

  lemma QuietRefs(s: Sys, step: Step)
    requires Inv(s) && Check(s, step) == Fine && Quiet(step)
    ensures Holds(Refs, Apply(s, step)) && Holds(Death, Apply(s, step))
  {
    assert Holds(Refs, s) && Holds(Death, s);
  }

  lemma QuietKeeps(s: Sys, step: Step)
    requires Inv(s) && Check(s, step) == Fine && Quiet(step)
    ensures Inv(Apply(s, step))
  {
    QuietRefs(s, step);
    QuietSame(s, step);
    forall part ensures Holds(part, Apply(s, step)) == true {
      if part != Refs && part != Death { QuietPart(s, Apply(s, step), part); }
    }
  }

  /** What every outcome of the sender's own enqueue changes. */
  predicate Sent(s: Sys, s': Sys, t: TxnId, p: Place) {
    && t in s.k.senders && s.k.senders[t] == Ready
    && var k, h := s.k, s.h;
    && s'.k == k.(senders := k.senders - {t}, holders := k.holders + 1, outstanding := s'.k.outstanding,
                     txns := s'.k.txns,
                     bufs := s'.k.bufs, nodes := s'.k.nodes, procTodo := s'.k.procTodo)
       && s'.h == h.(place := h.place[t := p], txnFreed := s'.h.txnFreed, released := s'.h.released,
                     enqueued := s'.h.enqueued)
       && p != Sending && p != Dropping && p != Dropped
  }

  predicate SentPart(part: Part) {
    part.Actors? || part.Tails? || part.Refs? || part.Tickets? || part.Heirs?
  }

  lemma SentKeeps(s: Sys, s': Sys, t: TxnId, p: Place, part: Part)
    requires Inv(s) && Sent(s, s', t, p) && SentPart(part) && s.k.freed == 0
    ensures Holds(part, s')
  {
    var k, h := s.k, s.h;
    SenderFacts(s, t);
    assert Holds(part, s);
    match part
    case Actors => ActorSent(k.senders, k.jobs, h.place, t, p);
    case Tails => TailSender(k.senders, k.jobs, h.heir, t, Ready);
    case Refs => RemoveKey(k.senders, t);
    case Tickets =>
      TicketPhase(k.senders, h.place, h.ticket, h.probes, t, Ready);
      TicketMove(s'.k.senders, h.place, h.ticket, h.probes, t, p);
    case Heirs => HeirMove(h.place, h.msg, h.ticket, h.heir, h.unread, t, p);
  }

  lemma SentHeap(s: Sys, s': Sys, t: TxnId, p: Place)
    requires Inv(s) && Sent(s, s', t, p) && Live(p) && s'.k.txns == s.k.txns && s'.k.bufs == s.k.bufs
    requires p.Waiting? ==> t in s.h.msg && p.n == s.h.msg[t].node
    ensures HeapInv(s'.k, s'.h)
  {
    SenderFacts(s, t);
    assert Holds(Heap, s);
    HeapMove(s.k, s.h, s'.k, s'.h, t);
  }

  /** The process is dead or refuses: the sender frees what it made. */
  predicate SendFails(s: Sys, s': Sys, t: TxnId) {
    && Sent(s, s', t, Failed) && t in s.h.buf && t in s.k.txns
    && s'.k.txns == s.k.txns - {t} && s'.k.bufs == s.k.bufs - {s.h.buf[t]}
    && s'.k.outstanding == s.k.outstanding && s'.k.nodes == s.k.nodes && s'.k.procTodo == s.k.procTodo
    && s'.h.txnFreed == s.h.txnFreed + multiset{t} && s'.h.released == s.h.released + multiset{s.h.buf[t]}
    && s'.h.enqueued == s.h.enqueued && (t in s.h.msg && OneWay(s.h.msg[t].flags) ==> s.k.isDead)
  }

  lemma SendFailsHeap(s: Sys, s': Sys, t: TxnId)
    requires Inv(s) && SendFails(s, s', t)
    ensures HeapInv(s'.k, s'.h)
  {
    SenderFacts(s, t);
    assert Holds(Heap, s);
    HeapMove(s.k, s.h, s'.k, s'.h, t);
  }

  lemma SendFailsKeeps(s: Sys, s': Sys, t: TxnId, part: Part)
    requires Inv(s) && SendFails(s, s', t) && !SentPart(part)
    ensures Holds(part, s')
  {
    var k, h := s.k, s.h;
    SenderFacts(s, t);
    assert Holds(part, s) && Holds(Heap, s);
    match part
    case Heap => SendFailsHeap(s, s', t);
    case Buffers => OnceRelease(k.bufs, h.owner, h.released, h.buf[t]);
    case Records => OnceFree(k.txns, h.place, h.txnFreed, t, Failed);
    case NodeLists => ListMove(k.nodes, h.place, t, Failed);
    case ProcList => TodoMove(k.procTodo, h.place, t, Failed);
    case _ =>
  }

  /** The transaction joins those waiting on its node. */
  predicate SendWaits(s: Sys, s': Sys, t: TxnId, n: NodeId) {
    && Sent(s, s', t, Waiting(n)) && n < |s.k.nodes| && s.k.nodes[n].hasAsync && !s.k.isDead
    && s'.k.txns == s.k.txns && s'.k.bufs == s.k.bufs && t in s.h.msg && s.h.msg[t].node == n
    && s'.k.outstanding == s.k.outstanding + 1 && s'.k.procTodo == s.k.procTodo
    && s'.k.nodes == s.k.nodes[n := s.k.nodes[n].(asyncTodo := s.k.nodes[n].asyncTodo + [TxnWork(t)])]
    && s'.h.txnFreed == s.h.txnFreed && s'.h.released == s.h.released && s'.h.enqueued == s.h.enqueued + 1
  }

  lemma SendWaitsKeeps(s: Sys, s': Sys, t: TxnId, n: NodeId, part: Part)
    requires Inv(s) && SendWaits(s, s', t, n) && !SentPart(part) && s.k.freed == 0
    ensures Holds(part, s')
  {
    var k, h := s.k, s.h;
    SenderFacts(s, t);
    assert Holds(part, s);
    match part
    case Heap => SentHeap(s, s', t, Waiting(n));
    case Records => OnceMove(k.txns, h.place, h.txnFreed, t, Waiting(n));
    case NodeLists => ListAppend(k.nodes, h.place, n, t, s'.k.nodes[n]);
    case ProcList => TodoMove(k.procTodo, h.place, t, Waiting(n));
    case Counts =>
      assert s'.k.nodes[n].asyncTodo[..|k.nodes[n].asyncTodo|] == k.nodes[n].asyncTodo;
      CountWaitingUpdate(k.nodes, n, s'.k.nodes[n]);
    case _ =>
  }

  /** The transaction goes straight to the process. */
  predicate SendHands(s: Sys, s': Sys, t: TxnId, n: NodeId, async: bool) {
    && Sent(s, s', t, Handed) && n < |s.k.nodes| && !s.k.isDead
    && s'.k.txns == s.k.txns && s'.k.bufs == s.k.bufs
    && s'.k.outstanding == s.k.outstanding + 1 && s'.k.procTodo == s.k.procTodo + [t]
    && s'.k.nodes == s.k.nodes[n := s.k.nodes[n].(hasAsync := s.k.nodes[n].hasAsync || async)]
    && s'.h.txnFreed == s.h.txnFreed && s'.h.released == s.h.released && s'.h.enqueued == s.h.enqueued + 1
  }

  lemma SendHandsKeeps(s: Sys, s': Sys, t: TxnId, n: NodeId, async: bool, part: Part)
    requires Inv(s) && SendHands(s, s', t, n, async) && !SentPart(part) && s.k.freed == 0
    ensures Holds(part, s')
  {
    var k, h := s.k, s.h;
    SenderFacts(s, t);
    assert Holds(part, s);
    match part
    case Heap => SentHeap(s, s', t, Handed);
    case Records => OnceMove(k.txns, h.place, h.txnFreed, t, Handed);
    case NodeLists =>
      ListMove(k.nodes, h.place, t, Handed);
      ListSame(k.nodes, s'.h.place, n, s'.k.nodes[n]);
    case ProcList => TodoAppend(k.procTodo, h.place, t);
    case Counts => CountWaitingUpdate(k.nodes, n, s'.k.nodes[n]);
    case _ =>
  }

  lemma RefusedFails(s: Sys, t: TxnId)
    requires Inv(s) && Check(s, Enqueue(t)) == Fine && Refused(s.k, s.k.txns[t].flags)
    ensures SendFails(s, Apply(s, Enqueue(t)), t) && s.k.freed == 0
  {
    SenderFacts(s, t);
  }

  lemma SendFailsInv(s: Sys, s': Sys, t: TxnId)
    requires Inv(s) && SendFails(s, s', t) && s.k.freed == 0
    ensures Inv(s')
  {
    forall part ensures Holds(part, s') {
      if SentPart(part) { SentKeeps(s, s', t, Failed, part); } else { SendFailsKeeps(s, s', t, part); }
    }
  }

  lemma EnqueueFails(s: Sys, t: TxnId)
    requires Inv(s) && Check(s, Enqueue(t)) == Fine && Refused(s.k, s.k.txns[t].flags)
    ensures Inv(Apply(s, Enqueue(t)))
  {
    RefusedFails(s, t);
    SendFailsInv(s, Apply(s, Enqueue(t)), t);
  }

  lemma EnqueueWaits(s: Sys, t: TxnId)
    requires Inv(s) && Check(s, Enqueue(t)) == Fine && !Refused(s.k, s.k.txns[t].flags)
    requires OneWay(s.k.txns[t].flags) && NodeOf(s.k, t).hasAsync
    ensures Inv(Apply(s, Enqueue(t)))
  {
    var s', n := Apply(s, Enqueue(t)), BufferOf(s.k, t).node;
    SenderFacts(s, t);
    forall part ensures Holds(part, s') {
      if SentPart(part) { SentKeeps(s, s', t, Waiting(n), part); } else { SendWaitsKeeps(s, s', t, n, part); }
    }
  }

  lemma EnqueueHands(s: Sys, t: TxnId)
    requires Inv(s) && Check(s, Enqueue(t)) == Fine && !Refused(s.k, s.k.txns[t].flags)
    requires !(OneWay(s.k.txns[t].flags) && NodeOf(s.k, t).hasAsync)
    ensures Inv(Apply(s, Enqueue(t)))
  {
    var s', n, async := Apply(s, Enqueue(t)), BufferOf(s.k, t).node, OneWay(s.k.txns[t].flags);
    SenderFacts(s, t);
    forall part ensures Holds(part, s') {
      if SentPart(part) { SentKeeps(s, s', t, Handed, part); } else { SendHandsKeeps(s, s', t, n, async, part); }
    }
  }

  lemma EnqueueKeeps(s: Sys, t: TxnId)
    requires Inv(s) && Check(s, Enqueue(t)) == Fine
    ensures Inv(Apply(s, Enqueue(t)))
  {
    if Refused(s.k, s.k.txns[t].flags) { EnqueueFails(s, t); }
    else if OneWay(s.k.txns[t].flags) && NodeOf(s.k, t).hasAsync { EnqueueWaits(s, t); }
    else { EnqueueHands(s, t); }
  }

  /** Every step keeps the invariant. */
  lemma StepKeeps(s: Sys, step: Step)
    requires Inv(s) && Check(s, step) == Fine
    ensures Inv(Apply(s, step))
  {
    match step
    case Start(t, txn, b, buf) => StartKeeps(s, t, txn, b, buf);
    case Probe(_, _, _, _) => ProbeKeeps(s, step);
    case Clear(t) => ClearKeeps(s, t);
    case Queue(t) => QueueKeeps(s, t);
    case ReleaseBuffer(d) => ReleaseBufferKeeps(s, d);
    case FreeTxn(d) => FreeTxnKeeps(s, d);
    case Finish(d) => FinishKeeps(s, d);
    case Enqueue(t) => EnqueueKeeps(s, t);
    case Advance(n) => AdvanceKeeps(s, n);
    case AddOther(n, kind) => AddOtherKeeps(s, n, kind);
    case Deliver(i) => DeliverKeeps(s, i);
    case UserFree(b) => UserFreeKeeps(s, b);
    case DropRef => DropRefKeeps(s);
    case DrainNode(n) => DrainNodeKeeps(s, n);
    case DrainTodo => DrainTodoKeeps(s);
    case ReleaserDone => ReleaserDoneKeeps(s);
    case _ => QuietKeeps(s, step);
  }
}
