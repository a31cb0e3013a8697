/** What every interleaving of lookups and rule changes keeps, and what it gives a lookup. */
module RuleRcuProof {
  import opened Base
  import opened RuleTable
  import opened RuleRcu

  type Hash = string -> nat
  type Heap = map<Addr, Cell>

  predicate InBucket(hash: Hash, heap: Heap, a: Addr, b: nat) {
    a in heap && Bucket(hash, heap[a].key.name) == b
  }

  type Waits = map<Addr, set<ReaderId>>

  // ----- The table.

  predicate ShapeInv(s: Rcu) {
    && |s.heads| == BUCKETS
    && s.linked !! s.waits.Keys && s.heap.Keys == s.linked + s.waits.Keys
    && (forall a :: a in s.heap ==> a < s.top)
    && (forall a :: a in s.waits ==> s.waits[a] <= s.readers.Keys)
  }

  predicate KeysInv(heap: Heap, linked: set<Addr>) {
    && (forall a :: a in linked ==> a in heap)
    && (forall a, a' :: a in linked && a' in linked && a != a' && a in heap && a' in heap ==>
          heap[a].key != heap[a'].key)
    && (forall a :: a in heap ==> StrategyValid(heap[a].strategy))
  }

  /** p points at the newest entry of bucket b older than `limit`; nothing in the table is skipped. */
  predicate Nearest(hash: Hash, heap: Heap, linked: set<Addr>, b: nat, limit: Addr, p: Option<Addr>) {
    && (p.Some? ==> p.value < limit && (p.value in heap ==> InBucket(hash, heap, p.value, b)))
    && forall e :: e in linked && InBucket(hash, heap, e, b) && e < limit ==> p.Some? && e <= p.value
  }

  predicate HeadsInv(hash: Hash, heads: seq<Option<Addr>>, heap: Heap, linked: set<Addr>, top: Addr) {
    forall b :: 0 <= b < |heads| ==>
      Nearest(hash, heap, linked, b, top, heads[b]) && (heads[b].Some? ==> heads[b].value in linked)
  }

  predicate NextsInv(hash: Hash, heap: Heap, linked: set<Addr>) {
    forall a :: a in heap ==>
      && Nearest(hash, heap, linked, Bucket(hash, heap[a].key.name), a, heap[a].next)
      && (a in linked && heap[a].next.Some? ==> heap[a].next.value in linked)
  }

  predicate CountInv(s: Rcu) {
    match s.writer
    case Free => s.count == |s.linked|
    case Inc(a) => s.count == |s.linked| - 1 && a in s.linked
    case Dec => s.count == |s.linked| + 1
    case Destroying => s.count >= |s.linked|
  }

  // ----- One reader.

  /** r can rely on a not being reclaimed: it is in the table, or waits for r. */
  predicate Protected(linked: set<Addr>, waits: Waits, a: Addr, r: ReaderId) {
    a in linked || (a in waits && r in waits[a])
  }

  /** What a reader remembers and returns was a rule of that name during the lookup. */
  predicate Remembers(x: Reader, held: set<Pair>) {
    match x.phase
    case Ready => true
    case Walking(_, _, wild) => wild != 0 ==> (x.Any(), wild) in held
    case Answer(result, exact) =>
      if result.Some? then ((if exact then x.Exact() else x.Any()), result.value) in held else !exact
  }

  /** Every entry that was unlinked under the reader leads on to entries that cannot go away. */
  predicate Guarded(heap: Heap, linked: set<Addr>, waits: Waits, held: set<Pair>, r: ReaderId) {
    forall a :: a in waits && r in waits[a] && a in heap ==>
      && (heap[a].key, heap[a].strategy) in held
      && (heap[a].next.Some? ==> Protected(linked, waits, heap[a].next.value, r))
  }

  /** The walk has e behind it. */
  predicate Behind(cur: Option<Addr>, seen: bool, e: Addr) {
    cur.None? || e > cur.value || (e == cur.value && seen)
  }

  /** Among the entries behind it, of those in the table since it began, none was the one it wants. */
  predicate PassedOver(hash: Hash, heap: Heap, linked: set<Addr>, x: Reader)
    requires x.phase.Walking?
  {
    forall e :: && e in linked && e < x.born && InBucket(hash, heap, e, Bucket(hash, x.name))
                && Behind(x.phase.cur, x.phase.seen, e) ==>
      heap[e].key != x.Exact() && (heap[e].key == x.Any() ==> x.phase.wild != 0)
  }

  predicate WalkOk(hash: Hash, heap: Heap, linked: set<Addr>, waits: Waits, top: Addr, x: Reader, held: set<Pair>,
                   r: ReaderId)
    requires x.phase.Walking?
  {
    && x.born <= top
    && (x.phase.cur.Some? ==>
          && Protected(linked, waits, x.phase.cur.value, r)
          && InBucket(hash, heap, x.phase.cur.value, Bucket(hash, x.name)))
    && PassedOver(hash, heap, linked, x)
    && Guarded(heap, linked, waits, held, r)
  }

  predicate ReaderOk(hash: Hash, heap: Heap, linked: set<Addr>, waits: Waits, top: Addr, x: Reader, held: set<Pair>,
                     r: ReaderId) {
    && Remembers(x, held)
    && (!x.phase.Answer? ==> Pairs(linked, heap) <= held)
    && (x.phase.Walking? ==> WalkOk(hash, heap, linked, waits, top, x, held, r))
    && (x.phase.Ready? ==> forall a :: a in waits ==> r !in waits[a])
  }

  predicate ReadersInv(hash: Hash, s: Rcu) {
    && s.held.Keys == s.readers.Keys
    && forall r :: r in s.readers ==>
         r in s.held && ReaderOk(hash, s.heap, s.linked, s.waits, s.top, s.readers[r], s.held[r], r)
  }

  datatype Part = Shape | Keys | Heads | Nexts | Count | Readers

  ghost predicate Holds(hash: Hash, part: Part, s: Rcu) {
    match part
    case Shape => ShapeInv(s)
    case Keys => KeysInv(s.heap, s.linked)
    case Heads => HeadsInv(hash, s.heads, s.heap, s.linked, s.top)
    case Nexts => NextsInv(hash, s.heap, s.linked)
    case Count => CountInv(s)
    case Readers => ReadersInv(hash, s)
  }

  ghost predicate Inv(hash: Hash, s: Rcu) {
    forall part :: Holds(hash, part, s)
  }

  lemma InitInv(hash: Hash, s: Rcu)
    requires Init(s)
    ensures Inv(hash, s)
  {
    forall part ensures Holds(hash, part, s) {}
  }

  /** No lookup ever touches a reclaimed entry. */
  lemma StepSafe(hash: Hash, s: Rcu, step: Step)
    requires Inv(hash, s) && Enabled(hash, s, step)
    ensures Safe(s, step)
  {
    assert Holds(hash, Shape, s) && Holds(hash, Keys, s) && Holds(hash, Readers, s);
  }

  // ----- Steps of readers: only the reader itself changes.

  /** Only reader r changed, to x; the table did not. */
  predicate OnlyReader(s: Rcu, s': Rcu, r: ReaderId, x: Reader) {
    && s' == s.(readers := s.readers[r := x], held := s'.held)
    && s'.held.Keys == s'.readers.Keys
    && (forall q :: q in s.readers && q in s.held ==> s.held[q] <= s'.held[q])
    && (Answered(s, r) ==> x == s.readers[r])
  }

  lemma OnlyReaderKeeps(hash: Hash, s: Rcu, s': Rcu, r: ReaderId, x: Reader)
    requires Inv(hash, s) && OnlyReader(s, s', r, x)
    requires ReaderOk(hash, s.heap, s.linked, s.waits, s.top, x, s'.held[r], r)
    ensures Inv(hash, s')
  {
    forall part ensures Holds(hash, part, s') {
      assert Holds(hash, part, s);
      if part == Readers {
        forall q | q in s'.readers && q != r
          ensures ReaderOk(hash, s.heap, s.linked, s.waits, s.top, s'.readers[q], s'.held[q], q)
        {
          assert ReaderOk(hash, s.heap, s.linked, s.waits, s.top, s.readers[q], s.held[q], q);
        }
      }
    }
  }

  lemma EnterOk(hash: Hash, s: Rcu, x: Reader, held: set<Pair>, r: ReaderId)
    requires Inv(hash, s) && ReaderOk(hash, s.heap, s.linked, s.waits, s.top, x, held, r) && x.phase.Ready?
             && |s.heads| == BUCKETS
    ensures ReaderOk(hash, s.heap, s.linked, s.waits, s.top,
                     x.(phase := Walking(s.heads[Bucket(hash, x.name)], false, 0), born := s.top), held, r)
  {
    assert Holds(hash, Heads, s) && Holds(hash, Keys, s);
    assert Nearest(hash, s.heap, s.linked, Bucket(hash, x.name), s.top, s.heads[Bucket(hash, x.name)]);
  }

  /** The entry under the cursor was a rule at some moment since the lookup began. */
  lemma CursorHeld(hash: Hash, s: Rcu, x: Reader, held: set<Pair>, r: ReaderId)
    requires Inv(hash, s) && ReaderOk(hash, s.heap, s.linked, s.waits, s.top, x, held, r) && x.phase.Walking?
             && x.phase.cur.Some?
    ensures x.phase.cur.value in s.heap
    ensures var c := s.heap[x.phase.cur.value]; StrategyValid(c.strategy) && (c.key, c.strategy) in held
  {
    assert Holds(hash, Keys, s);
  }

  lemma VisitOk(hash: Hash, s: Rcu, x: Reader, held: set<Pair>, r: ReaderId)
    requires Inv(hash, s) && ReaderOk(hash, s.heap, s.linked, s.waits, s.top, x, held, r)
    requires x.phase.Walking? && x.phase.cur.Some? && !x.phase.seen && x.phase.cur.value in s.heap
    ensures ReaderOk(hash, s.heap, s.linked, s.waits, s.top, x.(phase := VisitPhase(x, s.heap[x.phase.cur.value])),
                     held, r)
  {
    CursorHeld(hash, s, x, held, r);
    var c := s.heap[x.phase.cur.value];
    assert c.key.name == x.name ==> c.key == Key(x.name, c.key.code);
  }

  lemma MoveOk(hash: Hash, s: Rcu, x: Reader, held: set<Pair>, r: ReaderId)
    requires Inv(hash, s) && ReaderOk(hash, s.heap, s.linked, s.waits, s.top, x, held, r)
    requires x.phase.Walking? && (x.phase.cur.Some? ==> x.phase.seen && x.phase.cur.value in s.heap)
    ensures ReaderOk(hash, s.heap, s.linked, s.waits, s.top, x.(phase := MovePhase(x.phase, s.heap)), held, r)
  {
    assert Holds(hash, Nexts, s) && Holds(hash, Keys, s) && Holds(hash, Shape, s);
    if x.phase.cur.Some? {
      var a := x.phase.cur.value;
      assert Nearest(hash, s.heap, s.linked, Bucket(hash, s.heap[a].key.name), a, s.heap[a].next);
    }
  }

  lemma BeginKeeps(hash: Hash, s: Rcu, step: Step)
    requires Inv(hash, s) && step.Begin? && Enabled(hash, s, step) && Safe(s, step)
    ensures Inv(hash, Apply(hash, s, step))
  {
    var s', r := Apply(hash, s, step), step.r;
    assert Holds(hash, Readers, s) && Holds(hash, Shape, s);
    OnlyReaderKeeps(hash, s, s', r, s'.readers[r]);
  }

  /** A reader inside keeps what it knows when it notes the table again. */
  lemma NotedOk(hash: Hash, s: Rcu, r: ReaderId)
    requires Inv(hash, s) && r in s.readers && !s.readers[r].phase.Answer?
    ensures r in s.held && |s.heads| == BUCKETS
    ensures ReaderOk(hash, s.heap, s.linked, s.waits, s.top, s.readers[r], s.held[r] + Pairs(s.linked, s.heap), r)
  {
    assert Holds(hash, Readers, s) && Holds(hash, Shape, s);
    assert ReaderOk(hash, s.heap, s.linked, s.waits, s.top, s.readers[r], s.held[r], r);
  }

  /** What the three steps of a reader inside do. */
  lemma WalkMoves(hash: Hash, s: Rcu, step: Step)
    requires Inv(hash, s) && (step.Enter? || step.Visit? || step.Move?) && Enabled(hash, s, step) && Safe(s, step)
    requires !s.readers[step.r].phase.Answer? && step.r in s.held
    ensures var s' := Apply(hash, s, step);
            && step.r in s'.readers && OnlyReader(s, s', step.r, s'.readers[step.r])
            && s'.held[step.r] == s.held[step.r] + Pairs(s.linked, s.heap)
  {
    assert Holds(hash, Readers, s);
  }

  lemma WalkKeeps(hash: Hash, s: Rcu, step: Step)
    requires Inv(hash, s) && (step.Enter? || step.Visit? || step.Move?) && Enabled(hash, s, step) && Safe(s, step)
    ensures Inv(hash, Apply(hash, s, step))
  {
    var s', r := Apply(hash, s, step), step.r;
    NotedOk(hash, s, r);
    WalkMoves(hash, s, step);
    WalkerOk(hash, s, step, s.held[r] + Pairs(s.linked, s.heap));
    OnlyReaderKeeps(hash, s, s', r, s'.readers[r]);
  }

  lemma WalkerOk(hash: Hash, s: Rcu, step: Step, held: set<Pair>)
    requires Inv(hash, s) && (step.Enter? || step.Visit? || step.Move?) && Enabled(hash, s, step) && Safe(s, step)
    requires ReaderOk(hash, s.heap, s.linked, s.waits, s.top, s.readers[step.r], held, step.r)
    ensures var x := Act(hash, s, step).readers[step.r];
            ReaderOk(hash, s.heap, s.linked, s.waits, s.top, x, held, step.r)
  {
    var r, x := step.r, s.readers[step.r];
    match step {
      case Enter(_) => EnterOk(hash, s, x, held, r);
      case Visit(_) => VisitOk(hash, s, x, held, r);
      case Move(_) => MoveOk(hash, s, x, held, r);
    }
  }

  // ----- Steps of writers: every reader is unharmed.

  lemma UpdateOk(hash: Hash, s: Rcu, a: Addr, v: int, x: Reader, held: set<Pair>, r: ReaderId)
    requires Inv(hash, s) && ReaderOk(hash, s.heap, s.linked, s.waits, s.top, x, held, r) && a in s.linked
             && a in s.heap
    ensures var heap' := s.heap[a := s.heap[a].(strategy := v)];
            var held' := if x.phase.Answer? then held else held + Pairs(s.linked, heap');
            ReaderOk(hash, heap', s.linked, s.waits, s.top, x, held', r)
  {
    assert Holds(hash, Shape, s);
  }

  lemma LinkOk(hash: Hash, s: Rcu, e: Entry, x: Reader, held: set<Pair>, r: ReaderId)
    requires Inv(hash, s) && ReaderOk(hash, s.heap, s.linked, s.waits, s.top, x, held, r) && |s.heads| == BUCKETS
    ensures var s1 := LinkCell(hash, s, e);
            var held' := if x.phase.Answer? then held else held + Pairs(s1.linked, s1.heap);
            ReaderOk(hash, s1.heap, s1.linked, s.waits, s1.top, x, held', r)
  {
    assert Holds(hash, Shape, s) && Holds(hash, Keys, s);
  }

  lemma VictimFacts(hash: Hash, s: Rcu, a: Addr)
    requires Inv(hash, s) && a in s.linked && a in s.heap
    ensures UnlinkCell(s, a).heap[a] == s.heap[a] && (s.heap[a].next.Some? ==> s.heap[a].next.value in s.linked - {a})
    ensures forall x :: x in s.waits && x in s.heap ==> UnlinkCell(s, a).heap[x] == s.heap[x]
    ensures a !in s.waits && (s.heap[a].key, s.heap[a].strategy) in Pairs(s.linked, s.heap)
  {
    assert Holds(hash, Shape, s) && Holds(hash, Nexts, s);
    assert Nearest(hash, s.heap, s.linked, Bucket(hash, s.heap[a].key.name), a, s.heap[a].next);
  }

  lemma UnlinkGuarded(hash: Hash, s: Rcu, a: Addr, held: set<Pair>, r: ReaderId)
    requires Inv(hash, s) && a in s.linked && a in s.heap && r in Active(s)
    requires Guarded(s.heap, s.linked, s.waits, held, r) && Pairs(s.linked, s.heap) <= held
    ensures Guarded(UnlinkCell(s, a).heap, s.linked - {a}, UnlinkCell(s, a).waits, held, r)
  {
    VictimFacts(hash, s, a);
  }

  lemma UnlinkWalk(hash: Hash, s: Rcu, a: Addr, x: Reader, held: set<Pair>, r: ReaderId)
    requires Inv(hash, s) && a in s.linked && a in s.heap && x.phase.Walking? && r in Active(s)
    requires WalkOk(hash, s.heap, s.linked, s.waits, s.top, x, held, r) && Pairs(s.linked, s.heap) <= held
    ensures WalkOk(hash, UnlinkCell(s, a).heap, s.linked - {a}, UnlinkCell(s, a).waits, s.top, x, held, r)
  {
    UnlinkGuarded(hash, s, a, held, r);
  }

  lemma UnlinkOk(hash: Hash, s: Rcu, a: Addr, x: Reader, held: set<Pair>, r: ReaderId)
    requires Inv(hash, s) && ReaderOk(hash, s.heap, s.linked, s.waits, s.top, x, held, r) && a in s.linked
             && a in s.heap
    requires r in s.readers && s.readers[r] == x
    ensures var s1 := UnlinkCell(s, a);
            ReaderOk(hash, s1.heap, s1.linked, s1.waits, s.top, x, held, r)
            && (!x.phase.Answer? ==> Pairs(s1.linked, s1.heap) <= held)
  {
    if x.phase.Walking? {
      assert r in Active(s);
      UnlinkWalk(hash, s, a, x, held, r);
    } else {
      assert r !in Active(s);
    }
  }

  lemma ReclaimOk(hash: Hash, s: Rcu, a: Addr, x: Reader, held: set<Pair>, r: ReaderId)
    requires Inv(hash, s) && ReaderOk(hash, s.heap, s.linked, s.waits, s.top, x, held, r) && a in s.waits
    requires x.phase.Walking? ==> r !in s.waits[a]
    ensures ReaderOk(hash, s.heap - {a}, s.linked, s.waits - {a}, s.top, x, held, r)
  {
    assert Holds(hash, Shape, s);
  }

  /** What reader r has noted once the table has become that of s1. */
  function HeldAfter(s: Rcu, s1: Rcu, r: ReaderId): set<Pair>
    requires r in s.readers && r in s.held
  {
    if s.readers[r].phase.Answer? then s.held[r] else s.held[r] + Pairs(s1.linked, s1.heap)
  }

  ghost predicate TableHolds(hash: Hash, s: Rcu) {
    forall part :: part != Readers ==> Holds(hash, part, s)
  }

  /** No reader is harmed by the table becoming that of s1. */
  ghost predicate Unharmed(hash: Hash, s: Rcu, s1: Rcu) {
    forall r :: r in s.readers && r in s.held ==>
      ReaderOk(hash, s1.heap, s1.linked, s1.waits, s1.top, s.readers[r], HeldAfter(s, s1, r), r)
  }

  lemma WriterKeeps(hash: Hash, s: Rcu, s1: Rcu)
    requires Inv(hash, s) && TableHolds(hash, s1) && Unharmed(hash, s, s1) && s1.readers == s.readers
    ensures Inv(hash, s1.(held := Note(s, s1)))
  {
    var s' := s1.(held := Note(s, s1));
    assert Holds(hash, Readers, s);
    forall r | r in s.readers
      ensures ReaderOk(hash, s'.heap, s'.linked, s'.waits, s'.top, s'.readers[r], s'.held[r], r) == true
    {
      assert s'.held[r] == HeldAfter(s, s1, r);
    }
    forall part ensures Holds(hash, part, s') == true {
      if part != Readers { HeldIrrelevant(hash, s1, Note(s, s1), part); }
    }
  }

  lemma HeldIrrelevant(hash: Hash, s: Rcu, held: map<ReaderId, set<Pair>>, part: Part)
    requires part != Readers && Holds(hash, part, s)
    ensures Holds(hash, part, s.(held := held))
  {
  }

  lemma UpdateKeeps(hash: Hash, s: Rcu, a: Addr, v: int)
    requires Inv(hash, s) && Enabled(hash, s, Update(a, v)) && Safe(s, Update(a, v))
    ensures Inv(hash, Apply(hash, s, Update(a, v)))
  {
    var s1 := s.(heap := s.heap[a := s.heap[a].(strategy := v)]);
    assert Holds(hash, Readers, s);
    forall r | r in s.readers
      ensures ReaderOk(hash, s1.heap, s1.linked, s1.waits, s1.top, s.readers[r], HeldAfter(s, s1, r), r) == true
    {
      UpdateOk(hash, s, a, v, s.readers[r], s.held[r], r);
    }
    forall part | part != Readers ensures Holds(hash, part, s1) == true { assert Holds(hash, part, s); }
    WriterKeeps(hash, s, s1);
  }

  lemma LinkNexts(hash: Hash, s: Rcu, e: Entry)
    requires Inv(hash, s) && |s.heads| == BUCKETS
    ensures Holds(hash, Nexts, LinkCell(hash, s, e))
  {
    var s1 := LinkCell(hash, s, e);
    assert Holds(hash, Shape, s) && Holds(hash, Heads, s) && Holds(hash, Nexts, s);
    forall a | a in s1.heap
      ensures Nearest(hash, s1.heap, s1.linked, Bucket(hash, s1.heap[a].key.name), a, s1.heap[a].next)
      ensures a in s1.linked && s1.heap[a].next.Some? ==> s1.heap[a].next.value in s1.linked
    {
      var b := Bucket(hash, s1.heap[a].key.name);
      if a != s.top { assert Nearest(hash, s.heap, s.linked, b, a, s.heap[a].next); }
      else { assert Nearest(hash, s.heap, s.linked, b, a, s.heads[b]); }
    }
  }

  lemma LinkHeads(hash: Hash, s: Rcu, e: Entry)
    requires Inv(hash, s) && |s.heads| == BUCKETS
    ensures Holds(hash, Heads, LinkCell(hash, s, e))
  {
    var s1 := LinkCell(hash, s, e);
    assert Holds(hash, Shape, s) && Holds(hash, Heads, s);
    forall b | 0 <= b < |s1.heads|
      ensures Nearest(hash, s1.heap, s1.linked, b, s1.top, s1.heads[b])
              && (s1.heads[b].Some? ==> s1.heads[b].value in s1.linked)
    {
      assert Nearest(hash, s.heap, s.linked, b, s.top, s.heads[b]);
    }
  }

  lemma LinkKeys(hash: Hash, s: Rcu, e: Entry)
    requires Inv(hash, s) && Enabled(hash, s, Link(e)) && |s.heads| == BUCKETS
    ensures Holds(hash, Keys, LinkCell(hash, s, e))
  {
    assert Holds(hash, Shape, s) && Holds(hash, Keys, s);
  }

  lemma AddressAdded(keys: set<Addr>, linked: set<Addr>, waiting: set<Addr>, a: Addr)
    requires keys == linked + waiting && linked !! waiting && a !in keys
    ensures keys + {a} == (linked + {a}) + waiting && (linked + {a}) !! waiting && |linked + {a}| == |linked| + 1
  {
  }

  lemma KeysAdded(heap: Heap, a: Addr, c: Cell)
    ensures heap[a := c].Keys == heap.Keys + {a}
  {
  }

  lemma ShapeAdded(s: Rcu, s1: Rcu)
    requires ShapeInv(s) && |s1.heads| == |s.heads| && s1.heap.Keys == s.heap.Keys + {s.top}
    requires s1.linked == s.linked + {s.top} && s1.waits == s.waits && s1.readers == s.readers && s1.top == s.top + 1
    ensures ShapeInv(s1)
  {
    AddressAdded(s.heap.Keys, s.linked, s.waits.Keys, s.top);
    forall a | a in s1.heap ensures a < s1.top {
      assert a in s1.heap.Keys;
    }
  }

  lemma LinkShape(hash: Hash, s: Rcu, e: Entry)
    requires ShapeInv(s)
    ensures ShapeInv(LinkCell(hash, s, e))
  {
    var b := Bucket(hash, e.key.name);
    KeysAdded(s.heap, s.top, Cell(e.key, e.strategy, s.heads[b]));
    ShapeAdded(s, LinkCell(hash, s, e));
  }

  lemma LinkCount(hash: Hash, s: Rcu, e: Entry)
    requires ShapeInv(s) && CountInv(s) && s.writer == Free
    ensures CountInv(LinkCell(hash, s, e))
  {
    AddressAdded(s.heap.Keys, s.linked, s.waits.Keys, s.top);
  }

  lemma LinkTable(hash: Hash, s: Rcu, e: Entry, part: Part)
    requires Inv(hash, s) && Enabled(hash, s, Link(e)) && Safe(s, Link(e)) && part != Readers
    ensures Holds(hash, part, LinkCell(hash, s, e))
  {
    if part == Nexts { LinkNexts(hash, s, e); }
    else if part == Heads { LinkHeads(hash, s, e); }
    else if part == Keys { LinkKeys(hash, s, e); }
    else {
      assert Holds(hash, Shape, s) && Holds(hash, Count, s);
      LinkShape(hash, s, e);
      LinkCount(hash, s, e);
    }
  }

  lemma LinkKeeps(hash: Hash, s: Rcu, e: Entry)
    requires Inv(hash, s) && Enabled(hash, s, Link(e)) && Safe(s, Link(e))
    ensures Inv(hash, Apply(hash, s, Link(e)))
  {
    var s1 := LinkCell(hash, s, e);
    assert Holds(hash, Readers, s);
    forall r | r in s.readers
      ensures ReaderOk(hash, s1.heap, s1.linked, s1.waits, s1.top, s.readers[r], HeldAfter(s, s1, r), r) == true
    {
      LinkOk(hash, s, e, s.readers[r], s.held[r], r);
    }
    forall part | part != Readers ensures Holds(hash, part, s1) == true { LinkTable(hash, s, e, part); }
    WriterKeeps(hash, s, s1);
  }

  lemma UnlinkNearest(hash: Hash, s: Rcu, a: Addr, b: nat, limit: Addr, p: Option<Addr>)
    requires Inv(hash, s) && a in s.linked && a in s.heap && Nearest(hash, s.heap, s.linked, b, limit, p)
             && (p.Some? ==> p.value in s.linked)
    ensures var s1 := UnlinkCell(s, a);
            var p1 := if p == Some(a) then s.heap[a].next else p;
            Nearest(hash, s1.heap, s1.linked, b, limit, p1) && (p1.Some? ==> p1.value in s1.linked)
  {
    assert Holds(hash, Nexts, s) && Holds(hash, Keys, s);
    assert Nearest(hash, s.heap, s.linked, Bucket(hash, s.heap[a].key.name), a, s.heap[a].next);
  }

  lemma UnlinkNexts(hash: Hash, s: Rcu, a: Addr)
    requires Inv(hash, s) && a in s.linked && a in s.heap
    ensures Holds(hash, Nexts, UnlinkCell(s, a))
  {
    var s1 := UnlinkCell(s, a);
    assert Holds(hash, Nexts, s);
    forall x | x in s1.heap
      ensures Nearest(hash, s1.heap, s1.linked, Bucket(hash, s1.heap[x].key.name), x, s1.heap[x].next)
      ensures x in s1.linked && s1.heap[x].next.Some? ==> s1.heap[x].next.value in s1.linked
    {
      var b := Bucket(hash, s.heap[x].key.name);
      assert Nearest(hash, s.heap, s.linked, b, x, s.heap[x].next);
      if x in s.linked { UnlinkNearest(hash, s, a, b, x, s.heap[x].next); }
    }
  }

  lemma UnlinkHeads(hash: Hash, s: Rcu, a: Addr)
    requires Inv(hash, s) && a in s.linked && a in s.heap
    ensures Holds(hash, Heads, UnlinkCell(s, a))
  {
    var s1 := UnlinkCell(s, a);
    assert Holds(hash, Heads, s);
    forall b | 0 <= b < |s1.heads|
      ensures Nearest(hash, s1.heap, s1.linked, b, s.top, s1.heads[b])
              && (s1.heads[b].Some? ==> s1.heads[b].value in s1.linked)
    {
      UnlinkNearest(hash, s, a, b, s.top, s.heads[b]);
    }
  }

  lemma UnlinkTable(hash: Hash, s: Rcu, a: Addr, part: Part)
    requires Inv(hash, s) && a in s.linked && a in s.heap && part != Readers && part != Count
    ensures Holds(hash, part, UnlinkCell(s, a))
  {
    assert Holds(hash, part, s) && Holds(hash, Shape, s);
    if part == Heads { UnlinkHeads(hash, s, a); }
    else if part == Nexts { UnlinkNexts(hash, s, a); }
  }

  lemma UnlinkKeeps(hash: Hash, s: Rcu, step: Step)
    requires Inv(hash, s) && (step.Unlink? || step.DestroyUnlink?) && Enabled(hash, s, step) && Safe(s, step)
    ensures Inv(hash, Apply(hash, s, step))
  {
    var a, s1 := step.a, Act(hash, s, step);
    assert Holds(hash, Readers, s) && Holds(hash, Count, s);
    forall r | r in s.readers
      ensures ReaderOk(hash, s1.heap, s1.linked, s1.waits, s1.top, s.readers[r], HeldAfter(s, s1, r), r) == true
    {
      UnlinkOk(hash, s, a, s.readers[r], s.held[r], r);
      assert HeldAfter(s, s1, r) == s.held[r];
    }
    forall part | part != Readers ensures Holds(hash, part, s1) == true {
      if part != Count { UnlinkTable(hash, s, a, part); }
    }
    WriterKeeps(hash, s, s1);
  }

  lemma ReclaimNexts(hash: Hash, s: Rcu, a: Addr)
    requires Inv(hash, s) && a in s.waits
    ensures NextsInv(hash, s.heap - {a}, s.linked)
  {
    var heap := s.heap - {a};
    assert Holds(hash, Nexts, s) && Holds(hash, Shape, s);
    forall x | x in heap ensures Nearest(hash, heap, s.linked, Bucket(hash, heap[x].key.name), x, heap[x].next) {
      assert Nearest(hash, s.heap, s.linked, Bucket(hash, heap[x].key.name), x, heap[x].next);
    }
  }

  lemma ReclaimTable(hash: Hash, s: Rcu, a: Addr, part: Part)
    requires Inv(hash, s) && a in s.waits && part != Readers
    ensures Holds(hash, part, s.(heap := s.heap - {a}, waits := s.waits - {a}))
  {
    assert Holds(hash, part, s) && Holds(hash, Shape, s);
    if part == Nexts { ReclaimNexts(hash, s, a); }
  }

  lemma ReclaimKeeps(hash: Hash, s: Rcu, a: Addr)
    requires Inv(hash, s) && Enabled(hash, s, Reclaim(a)) && Safe(s, Reclaim(a))
    ensures Inv(hash, Apply(hash, s, Reclaim(a)))
  {
    var s1 := s.(heap := s.heap - {a}, waits := s.waits - {a});
    assert Holds(hash, Readers, s) && Holds(hash, Shape, s);
    assert Pairs(s1.linked, s1.heap) == Pairs(s.linked, s.heap);
    forall r | r in s.readers
      ensures ReaderOk(hash, s1.heap, s1.linked, s1.waits, s1.top, s.readers[r], HeldAfter(s, s1, r), r) == true
    {
      assert s.readers[r].phase.Walking? ==> r in Active(s);
      ReclaimOk(hash, s, a, s.readers[r], s.held[r], r);
      assert HeldAfter(s, s1, r) == s.held[r];
    }
    forall part | part != Readers ensures Holds(hash, part, s1) == true { ReclaimTable(hash, s, a, part); }
    WriterKeeps(hash, s, s1);
  }

  /** The notes do not change with the count or the writer's place. */
  lemma NoteSame(hash: Hash, s: Rcu, s': Rcu)
    requires ReadersInv(hash, s) && s'.readers == s.readers && s'.linked == s.linked && s'.heap == s.heap
    ensures Note(s, s') == s.held
  {
    forall r | r in s.readers ensures r in s.held && Note(s, s')[r] == s.held[r] {
      assert ReaderOk(hash, s.heap, s.linked, s.waits, s.top, s.readers[r], s.held[r], r);
    }
  }

  lemma SameTableKeeps(hash: Hash, s: Rcu, s': Rcu)
    requires Inv(hash, s) && s' == s.(count := s'.count, writer := s'.writer, held := Note(s, s')) && CountInv(s')
    ensures Inv(hash, s')
  {
    assert Holds(hash, Readers, s);
    NoteSame(hash, s, s');
    forall part ensures Holds(hash, part, s') == true { SameTableHolds(hash, s, s', part); }
  }

  lemma SameTableHolds(hash: Hash, s: Rcu, s': Rcu, part: Part)
    requires Holds(hash, part, s) && s' == s.(count := s'.count, writer := s'.writer) && CountInv(s')
    ensures Holds(hash, part, s')
  {
  }

  lemma CountStepKeeps(hash: Hash, s: Rcu, step: Step)
    requires Inv(hash, s) && Enabled(hash, s, step) && Safe(s, step)
    requires step.CountUp? || step.CountDown? || step.DestroyBegin? || step.DestroyEnd?
    ensures Inv(hash, Apply(hash, s, step))
  {
    assert Holds(hash, Count, s);
    SameTableKeeps(hash, s, Apply(hash, s, step));
  }

  /** Every step keeps the invariant. */
  lemma StepKeeps(hash: Hash, s: Rcu, step: Step)
    requires Inv(hash, s) && Enabled(hash, s, step) && Safe(s, step)
    ensures Inv(hash, Apply(hash, s, step))
  {
    match step
    case Begin(_, _, _) => BeginKeeps(hash, s, step);
    case Enter(_) => WalkKeeps(hash, s, step);
    case Visit(_) => WalkKeeps(hash, s, step);
    case Move(_) => WalkKeeps(hash, s, step);
    case Update(a, v) => UpdateKeeps(hash, s, a, v);
    case Link(e) => LinkKeeps(hash, s, e);
    case Unlink(_) => UnlinkKeeps(hash, s, step);
    case DestroyUnlink(_) => UnlinkKeeps(hash, s, step);
    case Reclaim(a) => ReclaimKeeps(hash, s, a);
    case _ => CountStepKeeps(hash, s, step);
  }

  // ----- What a lookup can count on.

  lemma {:induction false} RunInv(hash: Hash, states: seq<Rcu>, steps: seq<Step>, i: nat)
    requires IsRun(hash, states, steps) && Init(states[0]) && i < |states|
    ensures Inv(hash, states[i])
  {
    if i == 0 {
      InitInv(hash, states[0]);
    } else {
      RunInv(hash, states, steps, i - 1);
      assert StepAt(hash, states, steps, i - 1);
      StepKeeps(hash, states[i - 1], steps[i - 1]);
    }
  }

  /** At no point of any run does a step touch a reclaimed entry. */
  lemma RunSafe(hash: Hash, states: seq<Rcu>, steps: seq<Step>, i: nat, step: Step)
    requires IsRun(hash, states, steps) && Init(states[0]) && i < |states| && Enabled(hash, states[i], step)
    ensures Safe(states[i], step)
  {
    RunInv(hash, states, steps, i);
    StepSafe(hash, states[i], step);
  }

  /** Entry e holds r's exact rule or its any-code rule; r is still going to meet e, or has
      answered with the exact rule or, failing that, with an any-code rule. */
  predicate OnTrack(s: Rcu, r: ReaderId, e: Addr) {
    && r in s.readers && e in s.linked && e in s.heap && e < s.top
    && (s.heap[e].key == s.readers[r].Exact() || s.heap[e].key == s.readers[r].Any())
    && match s.readers[r].phase
       case Ready => true
       case Walking(_, _, _) => e < s.readers[r].born
       case Answer(result, exact) => result.Some? && (s.heap[e].key == s.readers[r].Exact() ==> exact)
  }

  /** A fully added rule keeps the count above zero, so the fast path cannot miss it. */
  lemma BeginOnTrack(hash: Hash, s: Rcu, r: ReaderId, k: Key, e: Addr)
    requires Inv(hash, s) && Enabled(hash, s, Begin(r, k.name, k.code)) && Safe(s, Begin(r, k.name, k.code))
    requires e in s.linked && e in s.heap && s.heap[e].key in {k, Key(k.name, ANY_CODE)} && s.writer != Inc(e)
    ensures OnTrack(Apply(hash, s, Begin(r, k.name, k.code)), r, e)
  {
    assert Holds(hash, Count, s) && Holds(hash, Shape, s);
    SubsetSize({e}, s.linked);
    if s.writer.Inc? { SubsetSize({e, s.writer.a}, s.linked); }
  }

  lemma WalkOnTrack(hash: Hash, s: Rcu, step: Step, r: ReaderId, e: Addr)
    requires Inv(hash, s) && OnTrack(s, r, e) && (step.Enter? || step.Visit? || step.Move?) && step.r == r
    requires Enabled(hash, s, step) && Safe(s, step)
    ensures OnTrack(Apply(hash, s, step), r, e)
  {
    assert Holds(hash, Readers, s);
    assert ReaderOk(hash, s.heap, s.linked, s.waits, s.top, s.readers[r], s.held[r], r);
  }

  lemma StepOnTrack(hash: Hash, s: Rcu, step: Step, r: ReaderId, e: Addr)
    requires Inv(hash, s) && OnTrack(s, r, e) && Enabled(hash, s, step) && Safe(s, step)
    requires e in Apply(hash, s, step).linked
    ensures OnTrack(Apply(hash, s, step), r, e)
  {
    assert Holds(hash, Shape, s);
    if (step.Enter? || step.Visit? || step.Move?) && step.r == r { WalkOnTrack(hash, s, step, r, e); }
  }

  /** A rule that was completely added before a lookup began and stays in the table until the
      lookup answers is not missed, whatever else is added, changed, deleted and reclaimed
      meanwhile: for the exact rule the answer is exact, for the any-code rule there is an answer. */
  lemma {:induction false} StayingRuleIsFound(hash: Hash, states: seq<Rcu>, steps: seq<Step>, i: nat, j: nat,
                                              r: ReaderId, e: Addr)
    requires IsRun(hash, states, steps) && Init(states[0]) && i < j < |states|
    requires steps[i].Begin? && steps[i].r == r && states[i].writer != Inc(e)
    requires e in states[i].linked && e in states[i].heap
    requires states[i].heap[e].key in {Key(steps[i].name, steps[i].code), Key(steps[i].name, ANY_CODE)}
    requires forall m :: i <= m <= j ==> e in states[m].linked
    ensures OnTrack(states[j], r, e)
    ensures states[j].readers[r].phase.Answer? ==>
              states[j].readers[r].phase.result.Some? &&
              (states[j].heap[e].key == states[j].readers[r].Exact() ==> states[j].readers[r].phase.exact)
  {
    assert StepAt(hash, states, steps, j - 1);
    RunInv(hash, states, steps, j - 1);
    if j == i + 1 {
      BeginOnTrack(hash, states[i], r, Key(steps[i].name, steps[i].code), e);
    } else {
      StayingRuleIsFound(hash, states, steps, i, j - 1, r, e);
      StepOnTrack(hash, states[j - 1], steps[j - 1], r, e);
    }
  }

  lemma HeldGrows(hash: Hash, s: Rcu, step: Step, r: ReaderId, p: Pair)
    requires Inv(hash, s) && Enabled(hash, s, step) && Safe(s, step)
    requires var s' := Apply(hash, s, step); r in s'.held && p in s'.held[r]
    ensures var s' := Apply(hash, s, step);
            (r in s.held && p in s.held[r]) || p in Pairs(s.linked, s.heap) || p in Pairs(s'.linked, s'.heap)
    ensures r !in s.readers ==> step.Begin? && step.r == r
    ensures r in s.readers ==> r in s.held
  {
    assert Holds(hash, Readers, s);
  }

  lemma HeldBefore(hash: Hash, states: seq<Rcu>, steps: seq<Step>, j: nat, r: ReaderId, p: Pair)
    requires IsRun(hash, states, steps) && Init(states[0]) && j < |steps|
    requires r in states[j + 1].held && p in states[j + 1].held[r]
    ensures || p in Pairs(states[j].linked, states[j].heap) || p in Pairs(states[j + 1].linked, states[j + 1].heap)
            || (r in states[j].held && p in states[j].held[r] && !(steps[j].Begin? && steps[j].r == r))
  {
    assert StepAt(hash, states, steps, j);
    RunInv(hash, states, steps, j);
    HeldGrows(hash, states[j], steps[j], r, p);
    assert Holds(hash, Readers, states[j]);
  }

  /** Everything a reader has noted was in the table at some state since its lookup began. */
  lemma {:induction false} HeldWasThere(hash: Hash, states: seq<Rcu>, steps: seq<Step>, i: nat, j: nat, r: ReaderId,
                                        p: Pair) returns (m: nat)
    requires IsRun(hash, states, steps) && Init(states[0]) && i < j < |states| && steps[i].Begin? && steps[i].r == r
    requires r in states[j].held && p in states[j].held[r]
    ensures i <= m <= j && p in Pairs(states[m].linked, states[m].heap)
  {
    HeldBefore(hash, states, steps, j - 1, r, p);
    if p in Pairs(states[j].linked, states[j].heap) {
      m := j;
    } else if p in Pairs(states[j - 1].linked, states[j - 1].heap) {
      m := j - 1;
    } else {
      m := HeldWasThere(hash, states, steps, i, j - 1, r, p);
    }
  }

  /** Whatever a lookup answers was, at some state between its beginning and its answer, the
      strategy of the exact rule, or of the any-code rule, of that name. */
  lemma AnswerWasARule(hash: Hash, states: seq<Rcu>, steps: seq<Step>, i: nat, j: nat, r: ReaderId)
    requires IsRun(hash, states, steps) && Init(states[0]) && i < j < |states| && steps[i].Begin? && steps[i].r == r
    requires r in states[j].readers && states[j].readers[r].phase.Answer? && states[j].readers[r].phase.result.Some?
    ensures var x := states[j].readers[r];
            exists m :: i <= m <= j && ((if x.phase.exact then x.Exact() else x.Any()), x.phase.result.value)
                                       in Pairs(states[m].linked, states[m].heap)
  {
    RunInv(hash, states, steps, j);
    assert Holds(hash, Readers, states[j]);
    var x := states[j].readers[r];
    assert ReaderOk(hash, states[j].heap, states[j].linked, states[j].waits, states[j].top, x, states[j].held[r], r);
    var p := ((if x.phase.exact then x.Exact() else x.Any()), x.phase.result.value);
    var m := HeldWasThere(hash, states, steps, i, j, r, p);
  }
}
