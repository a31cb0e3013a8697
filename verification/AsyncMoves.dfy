/** How each part of the invariant follows one transaction from place to place. */
module AsyncMoves {
  import opened Base
  import opened BinderTypes
  import opened AsyncSystem
  import opened AsyncInvariant

  ghost predicate SameExcept<V>(m: map<nat, V>, m': map<nat, V>, k: nat) {
    forall x: nat :: x != k ==> (x in m <==> x in m') && (x in m ==> m[x] == m'[x])
  }

  /** A step that touches one transaction and its buffer only needs to be checked for that one. */
  lemma HeapMove(k: Kernel, h: History, k': Kernel, h': History, t: TxnId)
    requires HeapInv(k, h) && t in h.place && k'.ids == k.ids
    requires h'.msg == h.msg && h'.buf == h.buf && h'.owner == h.owner && t in h'.place
             && h'.place == h.place[t := h'.place[t]]
    requires SameExcept(k.txns, k'.txns, t) && SameExcept(k.bufs, k'.bufs, h.buf[t]) && SameExcept(k.jobs, k'.jobs, t)
    requires TxnOk(k'.txns, k'.bufs, k'.jobs, k.ids, h.msg[t], h.buf[t], h'.place[t], t)
    ensures HeapInv(k', h')
  {
    forall x | x in h'.place && x != t
      ensures TxnOk(k'.txns, k'.bufs, k'.jobs, k.ids, h.msg[x], h.buf[x], h'.place[x], x)
    {
      assert TxnOk(k.txns, k.bufs, k.jobs, k.ids, h.msg[x], h.buf[x], h.place[x], x);
      assert h.buf[x] != h.buf[t];
    }
  }

  lemma OnceRelease(bufs: Bufs, owner: map<BufId, TxnId>, released: multiset<BufId>, b: BufId)
    requires OnceInv(bufs, owner, released) && b in bufs && b in owner
    ensures OnceInv(bufs - {b}, owner, released + multiset{b})
  {
  }

  lemma OnceUpdate(bufs: Bufs, owner: map<BufId, TxnId>, released: multiset<BufId>, b: BufId, buf: Buffer)
    requires OnceInv(bufs, owner, released) && b in bufs
    ensures OnceInv(bufs[b := buf], owner, released)
  {
  }

  lemma OnceFree(txns: Txns, place: Places, freed: multiset<TxnId>, t: TxnId, p: Place)
    requires OnceTxnInv(txns, place, freed) && t in txns && t in place
    ensures OnceTxnInv(txns - {t}, place[t := p], freed + multiset{t})
  {
  }

  lemma OnceMove(txns: Txns, place: Places, freed: multiset<TxnId>, t: TxnId, p: Place)
    requires OnceTxnInv(txns, place, freed) && t in place
    ensures OnceTxnInv(txns, place[t := p], freed)
  {
  }

  /** A transaction that is neither being sent nor being freed moves between other places. */
  lemma ActorMove(senders: Senders, jobs: Jobs, place: Places, t: TxnId, p: Place)
    requires ActorInv(senders, jobs, place) && t in place && place[t] != Sending && place[t] != Dropping
    requires p != Sending && p != Dropping
    ensures ActorInv(senders, jobs, place[t := p])
  {
  }

  lemma ActorSent(senders: Senders, jobs: Jobs, place: Places, t: TxnId, p: Place)
    requires ActorInv(senders, jobs, place) && t in senders && p != Sending && p != Dropping
    ensures ActorInv(senders - {t}, jobs, place[t := p])
  {
  }

  lemma ActorFinished(senders: Senders, jobs: Jobs, place: Places, d: TxnId)
    requires ActorInv(senders, jobs, place) && d in jobs
    ensures ActorInv(senders, jobs - {d}, place[d := Dropped])
  {
  }

  lemma ActorUnlinked(senders: Senders, jobs: Jobs, place: Places, d: TxnId, t: TxnId)
    requires ActorInv(senders, jobs, place) && t in senders && d in place && d !in senders && d !in jobs
    ensures ActorInv(senders[t := Busy(d)], jobs[d := Unlinked], place[d := Dropping])
  {
  }

  /** A stage change that stays before, or stays after, the queueing of the work item. */
  lemma TailStage(senders: Senders, jobs: Jobs, heir: map<TxnId, TxnId>, d: TxnId, stage: Stage)
    requires TailInv(senders, jobs, heir) && d in jobs && EarlyStage(jobs[d]) == EarlyStage(stage)
    ensures TailInv(senders, jobs[d := stage], heir)
  {
  }

  lemma TailQueued(senders: Senders, jobs: Jobs, heir: map<TxnId, TxnId>, t: TxnId, stage: Stage)
    requires TailInv(senders, jobs, heir) && t in senders && senders[t].Busy? && !EarlyStage(stage)
    ensures TailInv(senders[t := Ready], jobs[senders[t].d := stage], heir)
  {
  }

  lemma TailFinished(senders: Senders, jobs: Jobs, heir: map<TxnId, TxnId>, d: TxnId)
    requires TailInv(senders, jobs, heir) && d in jobs && !EarlyStage(jobs[d])
    ensures TailInv(senders, jobs - {d}, heir)
  {
  }

  lemma TailUnlinked(senders: Senders, jobs: Jobs, heir: map<TxnId, TxnId>, t: TxnId, d: TxnId)
    requires TailInv(senders, jobs, heir) && t in senders && !senders[t].Busy? && d !in jobs
    ensures TailInv(senders[t := Busy(d)], jobs[d := Unlinked], heir[d := t])
  {
  }

  /** Senders outside the probe's tail come and go freely. */
  lemma TailSender(senders: Senders, jobs: Jobs, heir: map<TxnId, TxnId>, t: TxnId, phase: Phase)
    requires TailInv(senders, jobs, heir) && (t in senders ==> !senders[t].Busy?) && !phase.Busy?
    ensures TailInv(senders[t := phase], jobs, heir) && TailInv(senders - {t}, jobs, heir)
  {
  }

  lemma TicketMove(senders: Senders, place: Places, ticket: map<TxnId, nat>, probes: nat, t: TxnId, p: Place)
    requires TicketInv(senders, place, ticket, probes) && t in place
    ensures TicketInv(senders, place[t := p], ticket, probes)
  {
  }

  lemma TicketPhase(senders: Senders, place: Places, ticket: map<TxnId, nat>, probes: nat, t: TxnId, phase: Phase)
    requires TicketInv(senders, place, ticket, probes) && t in senders && senders[t] != Entered && phase != Entered
    requires t in place
    ensures TicketInv(senders[t := phase], place, ticket, probes) && TicketInv(senders - {t}, place, ticket, probes)
  {
  }

  lemma TicketTaken(senders: Senders, place: Places, ticket: map<TxnId, nat>, probes: nat, t: TxnId, phase: Phase)
    requires TicketInv(senders, place, ticket, probes) && t in senders && t in place && phase != Entered
    ensures TicketInv(senders[t := phase], place, ticket[t := probes], probes + 1)
  {
  }

  lemma HeirMove(place: Places, msg: Msgs, ticket: map<TxnId, nat>, heir: map<TxnId, TxnId>, unread: set<TxnId>,
                 t: TxnId, p: Place)
    requires HeirInv(place, msg, ticket, heir, unread) && t in place
    requires (place[t] == Dropping || place[t] == Dropped) == (p == Dropping || p == Dropped)
    ensures HeirInv(place[t := p], msg, ticket, heir, unread)
  {
  }
}
