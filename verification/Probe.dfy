/** The probe as code: the choice of the strategy, the scan of the node's list and the update of
    the binder objects, composed from the rule table, the token parser and the paged comparison,
    and proved to be the probe step of the protocol. */
module Probe {
  import opened Base
  import opened BinderTypes
  import opened AsyncSystem
  import opened AsyncInvariant
  import opened AsyncSteps
  import H = AsyncTheorems
  import B = AsyncBound
  import A = BinderAlloc
  import R = RuleTable
  import T = InterfaceToken

  /** What the probe's choice means: the exact rule, else the any-code rule, else BY_CODE. */
  function Strategy(rules: R.Rules, token: string, code: int): int {
    var r := R.Select(rules, token, AsS32(code));
    if r.Some? then r.value else BY_CODE
  }

  /** The rules decide on this strategy for a name and a code: the exact rule if there is one, else
      the any-code rule, and without either only BY_CODE. */
  predicate Grants(rules: R.Rules, token: string, code: int, strategy: int) {
    if R.Key(token, code) in rules then rules[R.Key(token, code)] == strategy
    else if R.Key(token, R.ANY_CODE) in rules then rules[R.Key(token, R.ANY_CODE)] == strategy
    else strategy == BY_CODE
  }

  /** A rule for the name in a parcel decides, if the name has at most 62 characters; of a longer
      one, a rule for its first 62 characters does. */
  lemma ParcelStrategy(rules: R.Rules, a: A.Alloc, i: nat, header: seq<byte>, name: string, rest: seq<byte>, code: int)
    requires A.Valid(a) && i < |a.buffers| && T.HoldsParcel(a, i, header, name, rest)
    ensures var token, strategy := name[..Min(|name|, T.MAX_TOKEN)], Strategy(rules, T.TokenOf(a, i), code);
            var exact, any := R.Key(token, AsS32(code)), R.Key(token, R.ANY_CODE);
            && (exact in rules ==> strategy == rules[exact])
            && (exact !in rules && any in rules ==> strategy == rules[any])
            && (exact !in rules && any !in rules ==> strategy == BY_CODE)
            && (|name| <= T.MAX_TOKEN ==> token == name)
  {
    T.TokenOfParcel(a, i, header, name, rest);
  }

  /** Buffer b stands in the allocator's list. */
  predicate Placed(a: A.Alloc, slot: map<BufId, nat>, b: BufId) {
    b in slot && slot[b] < |a.buffers|
  }

  /** The allocator holds, live and complete, the data of binder buffer b. */
  predicate Shows(k: Kernel, a: A.Alloc, slot: map<BufId, nat>, b: BufId)
    requires A.Valid(a)
  {
    && Placed(a, slot, b) && b in k.bufs && A.Live(a.buffers[slot[b]])
    && a.buffers[slot[b]].dataSize <= A.BufferSize(a, slot[b]) && A.Data(a, slot[b]) == k.bufs[b].data
  }

  lemma {:induction false} EmptyNameHasNoRule(hash: string -> nat, chains: seq<R.Chain>, first: nat, code: int)
    requires R.TableOk(hash, chains, first)
    ensures R.Key("", code) !in R.TableRules(chains)
  {
    if chains != [] {
      assert R.ChainOk(hash, chains[0], first);
      R.NoKey(chains[0], R.Key("", code));
      EmptyNameHasNoRule(hash, chains[1..], first + 1, code);
    }
  }

  /** The choice of the strategy at the head of the probe. Neither the count test nor a parcel
      without a name makes a difference to the rule. */
  method ChooseStrategy(table: R.FreeAsyncTable, a: A.Alloc, i: nat, code: int) returns (strategy: int)
    requires table.Valid() && A.Valid(a) && i < |a.buffers|
    ensures var rules, exact := table.Contents(), R.Key(T.TokenOf(a, i), AsS32(code));
            var any := R.Key(T.TokenOf(a, i), R.ANY_CODE);
            && (exact in rules ==> strategy == rules[exact])
            && (exact !in rules && any in rules ==> strategy == rules[any])
            && (exact !in rules && any !in rules ==> strategy == BY_CODE)
  {
    strategy := BY_CODE;
    var rpcName := new char[NAME_BUF](_ => '\0');
    var any := table.HasEntries();
    if any {
      var named := T.ParseInterfaceToken(a, i, rpcName);
      if named {
        var found := table.Lookup(Some(T.CString(rpcName[..])), AsS32(code));
        if found.Some? {
          strategy := found.value;
        }
      } else {
        EmptyNameHasNoRule(table.hash, table.buckets[..], 0, AsS32(code));
        EmptyNameHasNoRule(table.hash, table.buckets[..], 0, R.ANY_CODE);
      }
    }
  }

  /** The pairwise test as the code has it, with the data compared in the allocator's pages. */
  predicate Updates(k: Kernel, a: A.Alloc, slot: map<BufId, nat>, t1: TxnId, t2: TxnId, strategy: int)
    requires Linked(k, t1) && Linked(k, t2) && A.Valid(a)
    requires Placed(a, slot, k.txns[t1].buffer.value) && Placed(a, slot, k.txns[t2].buffer.value)
  {
    && SameCall(k, t1, t2)
    && (strategy == BY_CODE
        || (strategy == BY_DATA && A.DataEqual(a, slot[k.txns[t1].buffer.value], slot[k.txns[t2].buffer.value])))
  }

  /** On buffers that are live and complete it is the test on the buffers' data. */
  lemma UpdatesIs(k: Kernel, a: A.Alloc, slot: map<BufId, nat>, t1: TxnId, t2: TxnId, strategy: int)
    requires Linked(k, t1) && Linked(k, t2) && A.Valid(a)
    requires Shows(k, a, slot, k.txns[t1].buffer.value) && Shows(k, a, slot, k.txns[t2].buffer.value)
    ensures Updates(k, a, slot, t1, t2, strategy) <==> CanUpdate(k, t1, t2, strategy)
  {
  }

  /** rk_binder_can_update_transaction, comparing the data chunk by chunk out of the pages. A buffer
      that the copy refuses compares as different. */
  method CanUpdateTransaction(k: Kernel, a: A.Alloc, slot: map<BufId, nat>, t1: TxnId, t2: TxnId, strategy: int)
    returns (r: bool)
    requires Linked(k, t1) && Linked(k, t2) && A.Valid(a)
    requires Placed(a, slot, k.txns[t1].buffer.value) && Placed(a, slot, k.txns[t2].buffer.value)
    ensures r <==> Updates(k, a, slot, t1, t2, strategy)
    ensures var x1, x2, b1, b2 := k.txns[t1], k.txns[t2], BufferOf(k, t1), BufferOf(k, t2);
            var agree := x1.flags == x2.flags && OneWay(x1.flags) && x1.code == x2.code && x1.toProc == x2.toProc
                         && x1.toProc.Some? && b1.pid == b2.pid && k.ids[b1.node] == k.ids[b2.node]
                         && b1.offsetsSize == b2.offsetsSize == 0;
            && (strategy == BY_CODE ==> (r <==> agree))
            && (strategy == BY_DATA ==> (r <==> agree && A.DataEqual(a, slot[x1.buffer.value], slot[x2.buffer.value])))
    ensures strategy != BY_CODE && strategy != BY_DATA ==> !r
  {
    var x1, x2 := k.txns[t1], k.txns[t2];
    if !(OneWay(x1.flags) && OneWay(x2.flags)) || x1.toProc.None? || x2.toProc.None? {
      return false;
    }
    var b1, b2 := BufferOf(k, t1), BufferOf(k, t2);
    if x1.toProc == x2.toProc && x1.code == x2.code && x1.flags == x2.flags && b1.pid == b2.pid
       && k.ids[b1.node].ptr == k.ids[b2.node].ptr && k.ids[b1.node].cookie == k.ids[b2.node].cookie {
      if b1.offsetsSize != 0 || b2.offsetsSize != 0 {
        return false;
      }
      if strategy == BY_CODE {
        return true;
      }
      if strategy == BY_DATA {
        r := A.BufferDataEqual(a, slot[x1.buffer.value], slot[x2.buffer.value]);
        return;
      }
    }
    return false;
  }

  /** The buffers that a scan of the list for t touches stand in the allocator's list. */
  predicate ListPlaced(k: Kernel, a: A.Alloc, slot: map<BufId, nat>, t: TxnId, todo: seq<Work>)
    requires Scannable(k, todo) && Linked(k, t)
  {
    && Placed(a, slot, k.txns[t].buffer.value)
    && forall i :: 0 <= i < |todo| && todo[i].TxnWork? ==> Placed(a, slot, k.txns[todo[i].t].buffer.value)
  }

  /** They are live and complete, as those of undelivered transactions are. */
  predicate ListShown(k: Kernel, a: A.Alloc, slot: map<BufId, nat>, t: TxnId, todo: seq<Work>)
    requires Scannable(k, todo) && Linked(k, t) && A.Valid(a)
  {
    && Shows(k, a, slot, k.txns[t].buffer.value)
    && forall i :: 0 <= i < |todo| && todo[i].TxnWork? ==> Shows(k, a, slot, k.txns[todo[i].t].buffer.value)
  }

  /** The allocator's record of buffer b is as the driver keeps it: not free, with all its data, and
      user space may free it only when its transaction has been delivered. */
  predicate Kept(s: Sys, a: A.Alloc, slot: map<BufId, nat>, b: BufId)
    requires A.Valid(a) && b in s.k.bufs
  {
    && Placed(a, slot, b)
    && var rec, txn := a.buffers[slot[b]], s.k.bufs[b].transaction;
       && !rec.free && rec.dataSize <= A.BufferSize(a, slot[b]) && A.Data(a, slot[b]) == s.k.bufs[b].data
       && rec.transaction == txn.Some?
       && (rec.allowUserFree && txn.Some? ==> txn.value in s.h.place && s.h.place[txn.value] == Delivered)
  }

  /** So the buffers of the sender and of all waiting transactions are live and complete. */
  lemma UndeliveredShown(s: Sys, a: A.Alloc, slot: map<BufId, nat>, t: TxnId)
    requires Inv(s) && t in s.k.senders && A.Valid(a) && forall b :: b in s.k.bufs ==> Kept(s, a, slot, b)
    ensures Linked(s.k, t) && Scannable(s.k, NodeOf(s.k, t).asyncTodo)
    ensures ListShown(s.k, a, slot, t, NodeOf(s.k, t).asyncTodo)
  {
    SenderFacts(s, t);
    assert Kept(s, a, slot, s.h.buf[t]);
    var n, todo := BufferOf(s.k, t).node, NodeOf(s.k, t).asyncTodo;
    forall i | 0 <= i < |todo| && todo[i].TxnWork?
      ensures Linked(s.k, todo[i].t) && Shows(s.k, a, slot, s.k.txns[todo[i].t].buffer.value)
    {
      WaitingFacts(s, n, i);
      assert Kept(s, a, slot, s.h.buf[todo[i].t]);
    }
  }

  /** The item at index i is one that t supersedes, as the code sees it. */
  predicate Outdated(k: Kernel, a: A.Alloc, slot: map<BufId, nat>, t: TxnId, todo: seq<Work>, strategy: int, i: nat)
    requires Scannable(k, todo) && Linked(k, t) && A.Valid(a) && ListPlaced(k, a, slot, t, todo) && i < |todo|
  {
    todo[i].TxnWork? && Updates(k, a, slot, todo[i].t, t, strategy)
  }

  /** rk_binder_find_outdated_transaction_ilocked: the first superseded item of the list. */
  method FindOutdated(k: Kernel, a: A.Alloc, slot: map<BufId, nat>, t: TxnId, todo: seq<Work>, strategy: int)
    returns (r: Option<nat>)
    requires Scannable(k, todo) && Linked(k, t) && A.Valid(a) && ListPlaced(k, a, slot, t, todo)
    ensures r.Some? ==> r.value < |todo| && Outdated(k, a, slot, t, todo, strategy, r.value)
    ensures forall j :: 0 <= j < (if r.Some? then r.value else |todo|) ==> !Outdated(k, a, slot, t, todo, strategy, j)
  {
    var i := 0;
    while i < |todo|
      invariant 0 <= i <= |todo| && forall j :: 0 <= j < i ==> !Outdated(k, a, slot, t, todo, strategy, j)
    {
      if todo[i].TxnWork? {
        var found := CanUpdateTransaction(k, a, slot, todo[i].t, t, strategy);
        if found {
          return Some(i);
        }
      }
      i := i + 1;
    }
    return None;
  }

  lemma OutdatedIs(k: Kernel, a: A.Alloc, slot: map<BufId, nat>, t: TxnId, todo: seq<Work>, strategy: int, i: nat)
    requires Scannable(k, todo) && Linked(k, t) && A.Valid(a) && ListShown(k, a, slot, t, todo) && i < |todo|
    ensures Outdated(k, a, slot, t, todo, strategy, i) <==> Supersedes(k, todo, t, strategy, i)
  {
    if todo[i].TxnWork? { UpdatesIs(k, a, slot, todo[i].t, t, strategy); }
  }

  /** What the probe leaves of the node's list: it is unchanged, or exactly its first superseded
      transaction is gone and the rest keeps its order. */
  lemma ProbeQueueSpec(k: Kernel, t: TxnId, strategy: int, frozen: bool, allocOk: bool)
    requires Linked(k, t) && Scannable(k, NodeOf(k, t).asyncTodo)
    ensures var n, todo := BufferOf(k, t).node, NodeOf(k, t).asyncTodo;
            var todo' := ProbeK(k, t, strategy, frozen, allocOk).nodes[n].asyncTodo;
            var looks := OneWay(k.txns[t].flags) && frozen && strategy != SKIP && NodeOf(k, t).hasAsync && !k.isDead
                         && !k.isFrozen && allocOk;
            || (todo' == todo && (looks ==> forall i :: 0 <= i < |todo| ==> !Supersedes(k, todo, t, strategy, i)))
            || (looks && exists i :: 0 <= i < |todo| && Supersedes(k, todo, t, strategy, i)
                          && (forall j :: 0 <= j < i ==> !Supersedes(k, todo, t, strategy, j))
                          && todo' == Without(todo, i))
    ensures forall m :: 0 <= m < |k.nodes| && m != BufferOf(k, t).node ==>
              ProbeK(k, t, strategy, frozen, allocOk).nodes[m] == k.nodes[m]
  {
    var todo := NodeOf(k, t).asyncTodo;
    match Victim(k, t, strategy, frozen, allocOk)
    case None =>
    case Some(i) =>
      assert Supersedes(k, todo, t, strategy, i);
  }

  /** The kernel after the handler of a probe that unlinks has run to its end, uninterrupted. */
  function Handled(k: Kernel, t: TxnId, strategy: int, frozen: bool, allocOk: bool): Option<Kernel>
    requires Linked(k, t) && Scannable(k, NodeOf(k, t).asyncTodo)
  {
    var k1 := ProbeK(k, t, strategy, frozen, allocOk);
    if !Safe(k1, Clear(t)) then None
    else if !Safe(ClearK(k1, t), Queue(t)) then None else Some(QueueK(ClearK(k1, t), t))
  }

  /** The kernel after a worker has run to its end, uninterrupted. */
  function Worked(k: Kernel, d: TxnId): Option<Kernel> {
    if !Safe(k, ReleaseBuffer(d)) then None
    else
      var k1 := ApplyK(k, ReleaseBuffer(d));
      if !Safe(k1, FreeTxn(d)) then None
      else
        var k2 := ApplyK(k1, FreeTxn(d));
        if !Safe(k2, Finish(d)) then None else Some(ApplyK(k2, Finish(d)))
  }

  lemma HandledIs(k: Kernel, t: TxnId, i: nat, strategy: int, frozen: bool, allocOk: bool)
    requires k.freed == 0 && Linked(k, t) && Scannable(k, NodeOf(k, t).asyncTodo)
    requires Victim(k, t, strategy, frozen, allocOk) == Some(i)
    ensures var n, d := BufferOf(k, t).node, NodeOf(k, t).asyncTodo[i].t;
            var b := k.txns[d].buffer.value;
            Handled(k, t, strategy, frozen, allocOk) ==
            Some(k.(tmpRef := k.tmpRef + 1, outstanding := k.outstanding - 1,
                    nodes := k.nodes[n := k.nodes[n].(asyncTodo := Without(k.nodes[n].asyncTodo, i))],
                    txns := k.txns[d := k.txns[d].(buffer := None)],
                    bufs := k.bufs[b := k.bufs[b].(transaction := None)],
                    senders := k.senders[t := Ready], jobs := k.jobs[d := Queued(b)]))
  {
    var d := NodeOf(k, t).asyncTodo[i].t;
    var b := k.txns[d].buffer.value;
    assert Linked(k, d);
    assert k.senders[t := Busy(d)][t := Ready] == k.senders[t := Ready];
    assert k.jobs[d := Unlinked][d := Cleared(b)][d := Queued(b)] == k.jobs[d := Queued(b)];
  }

  lemma WorkedIs(k: Kernel, d: TxnId, b: BufId)
    requires k.freed == 0 && !k.isDead && d in k.jobs && k.jobs[d] == Queued(b) && b in k.bufs && d in k.txns
    ensures Worked(k, d) == Some(k.(txns := k.txns - {d}, bufs := k.bufs - {b}, jobs := k.jobs - {d},
                                    tmpRef := k.tmpRef - 1))
  {
    assert k.jobs[d := BufferReleased(b)][d := TxnFreed(b)] - {d} == k.jobs - {d};
  }

  /** What a whole free amounts to: the victim, its buffer and its place in the list are gone, one
      transaction less is outstanding, the sender goes on, and nothing else has changed, tmp_ref
      included. */
  lemma WholeFree(k: Kernel, t: TxnId, i: nat, strategy: int, frozen: bool, allocOk: bool)
    requires k.freed == 0 && Linked(k, t) && Scannable(k, NodeOf(k, t).asyncTodo)
    requires Victim(k, t, strategy, frozen, allocOk) == Some(i) && NodeOf(k, t).asyncTodo[i].t !in k.jobs
    ensures var n, d := BufferOf(k, t).node, NodeOf(k, t).asyncTodo[i].t;
            var k' := Handled(k, t, strategy, frozen, allocOk);
            k'.Some? && Worked(k'.value, d) ==
            Some(k.(txns := k.txns - {d}, bufs := k.bufs - {k.txns[d].buffer.value}, outstanding := k.outstanding - 1,
                    nodes := k.nodes[n := k.nodes[n].(asyncTodo := Without(k.nodes[n].asyncTodo, i))],
                    senders := k.senders[t := Ready]))
  {
    HandledIs(k, t, i, strategy, frozen, allocOk);
    var d := NodeOf(k, t).asyncTodo[i].t;
    var b := k.txns[d].buffer.value;
    WorkedIs(Handled(k, t, strategy, frozen, allocOk).value, d, b);
    assert k.jobs[d := Queued(b)] - {d} == k.jobs;
    assert k.bufs[b := k.bufs[b].(transaction := None)] - {b} == k.bufs - {b};
    assert k.txns[d := k.txns[d].(buffer := None)] - {d} == k.txns - {d};
  }

  /** The scan decides as the protocol's probe does. */
  lemma FoundIsVictim(k: Kernel, a: A.Alloc, slot: map<BufId, nat>, t: TxnId, strategy: int, r: Option<nat>)
    requires Linked(k, t) && Scannable(k, NodeOf(k, t).asyncTodo) && A.Valid(a)
    requires var todo := NodeOf(k, t).asyncTodo;
             && ListShown(k, a, slot, t, todo)
             && (r.Some? ==> r.value < |todo| && Outdated(k, a, slot, t, todo, strategy, r.value))
             && forall j :: 0 <= j < (if r.Some? then r.value else |todo|) ==>
                  !Outdated(k, a, slot, t, todo, strategy, j)
    ensures r == FirstOutdated(k, NodeOf(k, t).asyncTodo, t, strategy, 0)
  {
    var todo := NodeOf(k, t).asyncTodo;
    forall j | 0 <= j < |todo|
      ensures Outdated(k, a, slot, t, todo, strategy, j) <==> Supersedes(k, todo, t, strategy, j)
    {
      OutdatedIs(k, a, slot, t, todo, strategy, j);
    }
  }

  /** What the worker has done when only its reference on the process is left: the state is in order
      but for that reference. */
  function Freed(s: Sys, d: TxnId, b: BufId): Sys {
    Sys(s.k.(txns := s.k.txns - {d}, bufs := s.k.bufs - {b}, jobs := s.k.jobs - {d}, tmpRef := s.k.tmpRef - 1),
        s.h.(released := s.h.released + multiset{b}, txnFreed := s.h.txnFreed + multiset{d},
             place := s.h.place[d := Dropped], dropped := s.h.dropped + 1))
  }

  lemma FreedKeeps(s: Sys, d: TxnId, b: BufId)
    requires Inv(s) && d in s.k.jobs && s.k.jobs[d] == Queued(b)
    ensures s.k.freed == 0 && b in s.k.bufs && d in s.k.txns && d in s.h.buf && s.h.buf[d] == b
    ensures Inv(Freed(s, d, b))
  {
    JobFacts(s, d);
    StepSafe(s, ReleaseBuffer(d));
    var s1 := Apply(s, ReleaseBuffer(d));
    StepKeeps(s, ReleaseBuffer(d));
    StepSafe(s1, FreeTxn(d));
    var s2 := Apply(s1, FreeTxn(d));
    StepKeeps(s1, FreeTxn(d));
    assert s2.k.jobs - {d} == s.k.jobs - {d};
    DropJobKeeps(s2, d, Freed(s, d, b));
  }

  /** The probe step that the handler makes, under the rules and with the parcel it meets. */
  function HandlerStep(k: Kernel, t: TxnId, rules: R.Rules, a: A.Alloc, slot: map<BufId, nat>, frozen: bool,
                       allocOk: bool): Step
    requires Linked(k, t) && A.Valid(a) && Placed(a, slot, k.txns[t].buffer.value)
  {
    var token := T.TokenOf(a, slot[k.txns[t].buffer.value]);
    AsyncSystem.Probe(t, Strategy(rules, token, k.txns[t].code), frozen, allocOk)
  }

  /** A class member's probe is the handler's, on a frozen task of a live process that binder itself
      has not frozen, with memory, and under rules that grant its parcel the strategy of the class. */
  predicate Granted(s: Sys, c: B.Class, step: Step, rules: R.Rules, a: A.Alloc, slot: map<BufId, nat>) {
    step.Probe? && step.t in B.Sending(s, c) ==>
      && !s.k.isDead && !s.k.isFrozen && A.Valid(a) && Linked(s.k, step.t)
      && Placed(a, slot, s.k.txns[step.t].buffer.value)
      && step == HandlerStep(s.k, step.t, rules, a, slot, true, true)
      && Grants(rules, T.TokenOf(a, slot[s.k.txns[step.t].buffer.value]), AsS32(s.k.txns[step.t].code), c.strategy)
  }

  lemma GrantedSupersedes(s: Sys, c: B.Class, step: Step, rules: R.Rules, a: A.Alloc, slot: map<BufId, nat>)
    requires Granted(s, c, step, rules, a, slot) && (c.strategy == BY_CODE || c.strategy == BY_DATA)
    ensures B.Superseding(s, c, step)
  {
  }

  /** Without a rule of the name in the parcel, the handler's probe supersedes by code. */
  lemma UnruledSupersedes(s: Sys, c: B.Class, t: TxnId, rules: R.Rules, a: A.Alloc, slot: map<BufId, nat>)
    requires Linked(s.k, t) && A.Valid(a) && Placed(a, slot, s.k.txns[t].buffer.value) && c.strategy == BY_CODE
    requires forall k :: k in rules ==> k.name != T.TokenOf(a, slot[s.k.txns[t].buffer.value])
    requires !s.k.isDead && !s.k.isFrozen
    ensures B.Superseding(s, c, HandlerStep(s.k, t, rules, a, slot, true, true))
  {
  }

  /** Of a class whose members' parcels the rules grant its strategy, BY_CODE also when there is no
      rule for their name, no more are ever queued or past their probe than are sent at once. */
  lemma HandlerBound(states: seq<Sys>, steps: seq<Step>, c: B.Class, bound: nat, rules: seq<R.Rules>,
                     allocs: seq<A.Alloc>, slots: seq<map<BufId, nat>>, i: nat)
    requires IsRun(states, steps) && Inv(states[0]) && i < |states| && B.Load(states[0], c) <= bound
    requires (c.strategy == BY_CODE || c.strategy == BY_DATA) && |rules| == |allocs| == |slots| == |steps|
    requires forall j :: 0 <= j < |steps| ==> Granted(states[j], c, steps[j], rules[j], allocs[j], slots[j])
    requires forall j :: 0 <= j < |states| ==> |B.Sending(states[j], c)| <= bound
    ensures B.Load(states[i], c) <= bound
  {
    forall j | 0 <= j < |steps| ensures B.PeakAt(states, steps, c, bound, j) == true {
      GrantedSupersedes(states[j], c, steps[j], rules[j], allocs[j], slots[j]);
    }
    B.LoadBounded(states, steps, c, bound, i);
  }

  /** The binder objects of one process, updated in place by the probe and its worker, with the
      history that the protocol keeps of them. */
  class Driver {
    var k: Kernel
    ghost var h: History

    constructor (k: Kernel, ghost h: History)
      ensures this.k == k && this.h == h
    {
      this.k := k;
      this.h := h;
    }

    ghost function State(): Sys
      reads this
    {
      Sys(k, h)
    }

    ghost predicate Valid()
      reads this
    {
      Inv(State())
    }

    /** The decision of the handler: which item of the node's list it unlinks. */
    method Decide(t: TxnId, table: R.FreeAsyncTable, a: A.Alloc, slot: map<BufId, nat>, frozen: bool, allocOk: bool)
      returns (victim: Option<nat>)
      requires Linked(k, t) && Scannable(k, NodeOf(k, t).asyncTodo) && table.Valid() && A.Valid(a)
      requires ListShown(k, a, slot, t, NodeOf(k, t).asyncTodo)
      ensures var b, code := k.txns[t].buffer.value, k.txns[t].code;
              victim == Victim(k, t, Strategy(table.Contents(), T.TokenOf(a, slot[b]), code), frozen, allocOk)
    {
      var node := NodeOf(k, t);
      if !OneWay(k.txns[t].flags) || !frozen {
        return None;
      }
      var strategy := ChooseStrategy(table, a, slot[k.txns[t].buffer.value], k.txns[t].code);
      if strategy == SKIP || !node.hasAsync || k.isDead || k.isFrozen {
        return None;
      }
      victim := FindOutdated(k, a, slot, t, node.asyncTodo, strategy);
      FoundIsVictim(k, a, slot, t, strategy, victim);
      if !allocOk {
        return None;
      }
    }

    /** rkx_binder_proc_transaction_pre up to the release of the locks: one probe step of the protocol. */
    method Pre(t: TxnId, table: R.FreeAsyncTable, a: A.Alloc, slot: map<BufId, nat>, frozen: bool, allocOk: bool)
      requires Valid() && t in k.senders && k.senders[t] == Entered && table.Valid() && A.Valid(a)
      requires Linked(k, t) && Scannable(k, NodeOf(k, t).asyncTodo) && ListShown(k, a, slot, t, NodeOf(k, t).asyncTodo)
      modifies this
      ensures Valid()
      ensures Next(old(State()), HandlerStep(old(k), t, table.Contents(), a, slot, frozen, allocOk), State()) == true
    {
      ghost var meant := Strategy(table.Contents(), T.TokenOf(a, slot[k.txns[t].buffer.value]), k.txns[t].code);
      ghost var s := State();
      var node, n := NodeOf(k, t), BufferOf(k, t).node;
      var victim := Decide(t, table, a, slot, frozen, allocOk);
      if victim.Some? {
        var d := node.asyncTodo[victim.value].t;
        k := k.(tmpRef := k.tmpRef + 1,
                nodes := k.nodes[n := node.(asyncTodo := Without(node.asyncTodo, victim.value))],
                outstanding := k.outstanding - 1,
                senders := k.senders[t := Busy(d)],
                jobs := k.jobs[d := Unlinked]);
      } else {
        k := k.(senders := k.senders[t := Ready]);
      }
      h := ProbeKeepsWith(s, k, t, meant, frozen, allocOk);
    }

    /** The rest of the handler when it has unlinked d, with rkx_queue_free_txn: the record of d and
        its buffer no longer lead to each other, and yet every list can still be scanned, because d
        is on none of them. */
    method Tail(t: TxnId)
      requires Valid() && t in k.senders && k.senders[t].Busy? && k.senders[t].d in k.jobs
      requires k.jobs[k.senders[t].d].Unlinked?
      modifies this
      ensures Valid() && h == old(h)
      ensures var d := old(k).senders[t].d;
              && k.senders == old(k).senders[t := Ready]
              && d in h.buf && k.jobs == old(k).jobs[d := Queued(h.buf[d])]
              && d in k.txns && k.txns[d].buffer.None? && k.txns - {d} == old(k).txns - {d}
              && h.buf[d] in k.bufs && k.bufs[h.buf[d]].transaction.None?
              && k.bufs - {h.buf[d]} == old(k).bufs - {h.buf[d]}
              && !H.InTodo(k, d) && forall n :: 0 <= n < |k.nodes| ==> Scannable(k, k.nodes[n].asyncTodo)
      ensures k == old(k).(senders := k.senders, jobs := k.jobs, txns := k.txns, bufs := k.bufs)
    {
      ghost var s := State();
      var d := k.senders[t].d;
      JobFacts(s, d);
      var b := k.txns[d].buffer.value;
      k := k.(txns := k.txns[d := k.txns[d].(buffer := None)]);
      k := k.(bufs := k.bufs[b := k.bufs[b].(transaction := None)], jobs := k.jobs[d := Cleared(b)]);
      k := k.(senders := k.senders[t := Ready], jobs := k.jobs[d := Queued(b)]);
      TailKeeps(s, t, State());
    }

    /** rkx_free_txn_func. The transaction, its buffer and its pending free are gone, each freed this
        once. Nothing else changes but one reference, unless that was the last one of a dead process
        without threads: exactly then the process is freed, with the buffers still mapped, and
        nothing is left at work in it. */
    method FreeTxnFunc(d: TxnId)
      requires Valid() && d in k.jobs && k.jobs[d].Queued?
      modifies this
      ensures Valid() && old(k).freed == 0
      ensures k.freed == if old(k).isDead && old(k).threads == 0 && old(k).tmpRef == 1 then 1 else 0
      ensures k.txns == old(k).txns - {d} && k.jobs == old(k).jobs - {d} && k.tmpRef == old(k).tmpRef - 1
      ensures d in h.buf && h.buf[d] !in k.bufs && h.txnFreed == old(h).txnFreed + multiset{d}
      ensures k.freed == 0 ==>
                && k == old(k).(txns := k.txns, jobs := k.jobs, bufs := old(k).bufs - {h.buf[d]}, tmpRef := k.tmpRef)
                && h.released == old(h).released + multiset{h.buf[d]}
      ensures k.freed == 1 ==>
                && k.bufs == map[] && k.senders == map[] && k.jobs == map[] && k.holders == 0
                && Drain(k.nodes, k.procTodo)
                && h.released == old(h).released + multiset(old(k).bufs.Keys)
    {
      ghost var s := State();
      var b := k.jobs[d].b;
      FreedKeeps(s, d, b);
      k := k.(bufs := k.bufs - {b});
      k := k.(txns := k.txns - {d});
      k := k.(jobs := k.jobs - {d});
      h := Freed(s, d, b).h;
      DecTmpref();
      if k.freed == 1 { ReleasedAll(s.h.released, s.k.bufs, b); }
    }

    /** rk_binder_proc_dec_tmpref, in a state that is in order but for the reference to be dropped:
        it is in order afterwards, and the process is freed exactly when that was the last reference
        of a dead process without threads. Nobody is left in it then. */
    method DecTmpref()
      requires k.freed == 0 && Inv(Sys(k.(tmpRef := k.tmpRef - 1), h))
      modifies this
      ensures Valid() && k.freed == if old(k).isDead && old(k).threads == 0 && old(k).tmpRef == 1 then 1 else 0
      ensures k.freed == 0 ==> k == old(k).(tmpRef := k.tmpRef) && h == old(h)
      ensures k.freed == 1 ==>
                && k == old(k).(tmpRef := k.tmpRef, freed := 1, bufs := map[])
                && h == old(h).(released := old(h).released + multiset(old(k).bufs.Keys))
                && k.senders == map[] && k.jobs == map[] && k.holders == 0 && Drain(k.nodes, k.procTodo)
      ensures k.tmpRef == old(k).tmpRef - 1
    {
      k := k.(tmpRef := k.tmpRef - 1);
      if k.isDead && k.threads == 0 && k.tmpRef == 0 {
        FreeProcKeeps(State());
        h := h.(released := h.released + multiset(k.bufs.Keys));
        k := k.(freed := k.freed + 1, bufs := map[]);
        FreedIsDeserted(State());
      }
    }
  }

  lemma ProbeKeepsWith(s: Sys, k: Kernel, t: TxnId, strategy: int, frozen: bool, allocOk: bool) returns (h: History)
    requires Inv(s) && t in s.k.senders && s.k.senders[t] == Entered
    requires Linked(s.k, t) && Scannable(s.k, NodeOf(s.k, t).asyncTodo)
             && k == ProbeK(s.k, t, strategy, frozen, allocOk)
    ensures Next(s, AsyncSystem.Probe(t, strategy, frozen, allocOk), Sys(k, h)) && Inv(Sys(k, h))
  {
    var step := AsyncSystem.Probe(t, strategy, frozen, allocOk);
    StepSafe(s, step);
    StepKeeps(s, step);
    h := ApplyH(s, step);
  }

  lemma TailKeeps(s: Sys, t: TxnId, s': Sys)
    requires Inv(s) && t in s.k.senders && s.k.senders[t].Busy? && s.k.senders[t].d in s.k.jobs
    requires s.k.jobs[s.k.senders[t].d].Unlinked? && Linked(s.k, s.k.senders[t].d)
    requires s'.h == s.h
    requires var d := s.k.senders[t].d;
             var b := s.k.txns[d].buffer.value;
             s'.k == s.k.(txns := s.k.txns[d := s.k.txns[d].(buffer := None)],
                          bufs := s.k.bufs[b := s.k.bufs[b].(transaction := None)],
                          senders := s.k.senders[t := Ready], jobs := s.k.jobs[d := Queued(b)])
    ensures var d := s.k.senders[t].d;
            && Inv(s') && d in s.h.buf && s.h.buf[d] == s.k.txns[d].buffer.value
            && !H.InTodo(s'.k, d) && forall n :: 0 <= n < |s'.k.nodes| ==> Scannable(s'.k, s'.k.nodes[n].asyncTodo)
  {
    var d := s.k.senders[t].d;
    var b := s.k.txns[d].buffer.value;
    JobFacts(s, d);
    StepSafe(s, Clear(t));
    var s1 := Apply(s, Clear(t));
    StepKeeps(s, Clear(t));
    StepSafe(s1, Queue(t));
    StepKeeps(s1, Queue(t));
    assert s.k.jobs[d := Cleared(b)][d := Queued(b)] == s.k.jobs[d := Queued(b)];
    assert s' == Apply(s1, Queue(t));
    assert Holds(Tails, s);
    H.UnlinkedOffLists(s', d);
    forall n | 0 <= n < |s'.k.nodes| ensures Scannable(s'.k, s'.k.nodes[n].asyncTodo) {
      forall i | 0 <= i < |s'.k.nodes[n].asyncTodo| && s'.k.nodes[n].asyncTodo[i].TxnWork?
        ensures Linked(s'.k, s'.k.nodes[n].asyncTodo[i].t)
      {
        WaitingFacts(s', n, i);
      }
    }
  }

  lemma ReleasedAll(released: multiset<BufId>, bufs: map<BufId, Buffer>, b: BufId)
    requires b in bufs
    ensures (released + multiset{b}) + multiset((bufs - {b}).Keys) == released + multiset(bufs.Keys)
  {
    assert (bufs - {b}).Keys == bufs.Keys - {b};
  }
}
