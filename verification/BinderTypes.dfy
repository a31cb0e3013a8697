/** The binder objects that the free-async probe and its worker read and write,
    for one target process. Identifiers stand for kernel pointers; an identifier is
    never used for a second object. */
module BinderTypes {
  import opened Base

  type TxnId = nat
  type BufId = nat
  type NodeId = nat

  /** struct binder_transaction; `toProc` is the task of the destination process. */
  datatype Txn = Txn(flags: nat, code: int, toProc: Option<nat>, buffer: Option<BufId>)

  /** struct binder_buffer with the bytes it maps. */
  datatype Buffer = Buffer(pid: int, node: NodeId, offsetsSize: nat, data: seq<byte>, transaction: Option<TxnId>)

  datatype Work = TxnWork(t: TxnId) | OtherWork(kind: nat)

  /** The part of struct binder_node that changes, and the part that is fixed at its creation. */
  datatype Node = Node(hasAsync: bool, asyncTodo: seq<Work>)
  datatype Ident = Ident(ptr: nat, cookie: nat)

  /** A sender inside the binder driver: before the probe, in the probe with an unlinked
      transaction in hand, and after the probe but before its own enqueue. */
  datatype Phase = Entered | Busy(d: TxnId) | Ready

  /** How far the freeing of an unlinked transaction has got. */
  datatype Stage =
    | Unlinked
    | Cleared(b: BufId)
    | Queued(b: BufId)
    | BufferReleased(b: BufId)
    | TxnFreed(b: BufId)

  /** binder_deferred_release of a dead process. */
  datatype Releaser = Idle | Releasing | Done

  datatype Kernel = Kernel(
    tmpRef: int,
    outstanding: int,
    isDead: bool,
    isFrozen: bool,
    threads: nat,
    freed: nat,                    // how often binder_free_proc has run
    nodes: seq<Node>,
    ids: seq<Ident>,               // of the same nodes
    txns: map<TxnId, Txn>,         // allocated transactions
    bufs: map<BufId, Buffer>,      // allocated buffers
    procTodo: seq<TxnId>,          // transactions on the process's own work list
    senders: map<TxnId, Phase>,    // transactions being sent; each sender holds a tmp_ref
    jobs: map<TxnId, Stage>,       // unlinked transactions whose free is unfinished
    holders: nat,                  // tmp_ref taken by other code
    releaser: Releaser)

  /** TF_ONE_WAY is bit 0 of the flags. */
  predicate OneWay(flags: nat) {
    flags % 2 == 1
  }

  /** A transaction whose record and buffer can be followed without meeting a null pointer. */
  predicate Linked(k: Kernel, t: TxnId) {
    && t in k.txns
    && k.txns[t].buffer.Some?
    && k.txns[t].buffer.value in k.bufs
    && k.bufs[k.txns[t].buffer.value].node < |k.nodes| == |k.ids|
  }

  function BufferOf(k: Kernel, t: TxnId): Buffer
    requires Linked(k, t)
  {
    k.bufs[k.txns[t].buffer.value]
  }

  function NodeOf(k: Kernel, t: TxnId): Node
    requires Linked(k, t)
  {
    k.nodes[BufferOf(k, t).node]
  }

  /** Two one-way transactions that agree on all the probe compares short of the data. */
  predicate SameCall(k: Kernel, t1: TxnId, t2: TxnId)
    requires Linked(k, t1) && Linked(k, t2)
  {
    var x1, x2 := k.txns[t1], k.txns[t2];
    var b1, b2 := BufferOf(k, t1), BufferOf(k, t2);
    var n1, n2 := k.ids[b1.node], k.ids[b2.node];
    && OneWay(x1.flags) && OneWay(x2.flags) && x1.toProc.Some? && x2.toProc.Some?
    && x1.toProc == x2.toProc && x1.code == x2.code && x1.flags == x2.flags && b1.pid == b2.pid
    && n1.ptr == n2.ptr && n1.cookie == n2.cookie
    && b1.offsetsSize == 0 && b2.offsetsSize == 0
  }

  /** rk_binder_can_update_transaction. */
  predicate CanUpdate(k: Kernel, t1: TxnId, t2: TxnId, strategy: int)
    requires Linked(k, t1) && Linked(k, t2)
  {
    && SameCall(k, t1, t2)
    && (strategy == BY_CODE || (strategy == BY_DATA && BufferOf(k, t1).data == BufferOf(k, t2).data))
  }

  /** Every transaction on the list can be followed. */
  predicate Scannable(k: Kernel, todo: seq<Work>) {
    forall i :: 0 <= i < |todo| && todo[i].TxnWork? ==> Linked(k, todo[i].t)
  }

  /** Whether the work item at index i is a transaction that t supersedes. */
  predicate Supersedes(k: Kernel, todo: seq<Work>, t: TxnId, strategy: int, i: nat)
    requires Scannable(k, todo) && Linked(k, t) && i < |todo|
  {
    todo[i].TxnWork? && CanUpdate(k, todo[i].t, t, strategy)
  }

  /** rk_binder_find_outdated_transaction_ilocked, as the index of the first superseded item. */
  function FirstOutdated(k: Kernel, todo: seq<Work>, t: TxnId, strategy: int, from: nat): (r: Option<nat>)
    requires Scannable(k, todo) && Linked(k, t) && from <= |todo|
    ensures r.Some? ==>
              && from <= r.value < |todo| && Supersedes(k, todo, t, strategy, r.value)
              && forall i :: from <= i < r.value ==> !Supersedes(k, todo, t, strategy, i)
    ensures r.None? ==> forall i :: from <= i < |todo| ==> !Supersedes(k, todo, t, strategy, i)
    decreases |todo| - from
  {
    if from == |todo| then None
    else if Supersedes(k, todo, t, strategy, from) then Some(from)
    else FirstOutdated(k, todo, t, strategy, from + 1)
  }

  /** The number of transactions on a work list. */
  function CountTxns(todo: seq<Work>): nat {
    if todo == [] then 0 else (if todo[|todo| - 1].TxnWork? then 1 else 0) + CountTxns(todo[..|todo| - 1])
  }

  /** The number of transactions waiting on all nodes. */
  function CountWaiting(nodes: seq<Node>): nat {
    if nodes == [] then 0 else CountTxns(nodes[|nodes| - 1].asyncTodo) + CountWaiting(nodes[..|nodes| - 1])
  }

  lemma {:induction false} CountTxnsWithout(todo: seq<Work>, i: nat)
    requires i < |todo|
    ensures CountTxns(Without(todo, i)) == CountTxns(todo) - (if todo[i].TxnWork? then 1 else 0)
  {
    var last := |todo| - 1;
    if i == last {
      assert Without(todo, i) == todo[..last];
    } else {
      CountTxnsWithout(todo[..last], i);
      assert Without(todo, i)[..last - 1] == Without(todo[..last], i);
    }
  }

  lemma {:induction false} CountWaitingUpdate(nodes: seq<Node>, n: nat, node: Node)
    requires n < |nodes|
    ensures CountWaiting(nodes[n := node])
            == CountWaiting(nodes) - CountTxns(nodes[n].asyncTodo) + CountTxns(node.asyncTodo)
  {
    var last := |nodes| - 1;
    if n == last {
      assert nodes[n := node][..last] == nodes[..last];
    } else {
      CountWaitingUpdate(nodes[..last], n, node);
      assert nodes[n := node][..last] == nodes[..last][n := node];
    }
  }
}
