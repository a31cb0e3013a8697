/** Lookups of the rule table running next to adds, deletes and destroy. Readers take no lock:
    they follow `next` pointers one load at a time. Writers hold the mutex, insert at the head,
    unlink with one store that leaves the victim's own `next` alone, and hand the victim to
    kfree_rcu, which frees it once every reader that was inside at the unlink has left. */
module RuleRcu {
  import opened Base
  import opened RuleTable

  type Addr = nat               // entries are numbered in the order of their allocation
  type ReaderId = nat
  type Pair = (Key, int)

  datatype Cell = Cell(key: Key, strategy: int, next: Option<Addr>)

  /** What the mutex holder still has to do. */
  datatype Writer = Free | Inc(a: Addr) | Dec | Destroying

  /** Past the count test; inside the read-side section, before or after reading the entry at
      `cur`; answered, with `exact` telling whether the exact rule was met. */
  datatype Phase =
    | Ready
    | Walking(cur: Option<Addr>, seen: bool, wild: int)
    | Answer(result: Option<int>, exact: bool)

  datatype Reader = Reader(name: string, code: int, phase: Phase, born: Addr) {
    function Exact(): Key { Key(name, code) }
    function Any(): Key { Key(name, ANY_CODE) }
  }

  datatype Rcu = Rcu(
    heads: seq<Option<Addr>>,
    heap: map<Addr, Cell>,
    linked: set<Addr>,                   // history: the entries now in the table
    waits: map<Addr, set<ReaderId>>,     // unlinked entries, each with the readers it waits for
    top: Addr,                           // the next address
    count: int,
    writer: Writer,
    readers: map<ReaderId, Reader>,
    held: map<ReaderId, set<Pair>>)      // history: all rules in the table since the lookup began

  datatype Step =
    | Begin(r: ReaderId, name: string, code: int)
    | Enter(r: ReaderId)
    | Visit(r: ReaderId)
    | Move(r: ReaderId)
    | Update(a: Addr, strategy: int)
    | Link(e: Entry)
    | CountUp
    | Unlink(a: Addr)
    | CountDown
    | DestroyBegin
    | DestroyUnlink(a: Addr)
    | DestroyEnd
    | Reclaim(a: Addr)

  function Bucket(hash: string -> nat, name: string): (b: nat)
    ensures b < BUCKETS
  {
    hash(name) % BUCKETS
  }

  predicate Inside(s: Rcu, r: ReaderId) {
    r in s.readers && s.readers[r].phase.Walking?
  }

  function Active(s: Rcu): set<ReaderId> {
    set r | r in s.readers && Inside(s, r)
  }

  /** The rules now in the table. */
  function Pairs(linked: set<Addr>, heap: map<Addr, Cell>): set<Pair> {
    set a | a in linked && a in heap :: (heap[a].key, heap[a].strategy)
  }

  predicate Enabled(hash: string -> nat, s: Rcu, step: Step) {
    match step
    case Begin(r, _, _) => r !in s.readers
    case Enter(r) => r in s.readers && s.readers[r].phase.Ready?
    case Visit(r) => Inside(s, r) && s.readers[r].phase.cur.Some? && !s.readers[r].phase.seen
    case Move(r) => Inside(s, r) && (s.readers[r].phase.cur.Some? ==> s.readers[r].phase.seen)
    case Update(a, v) => s.writer == Free && a in s.linked && StrategyValid(v)
    case Link(e) =>
      s.writer == Free && EntryOk(e) && forall a :: a in s.linked && a in s.heap ==> s.heap[a].key != e.key
    case CountUp => s.writer.Inc?
    case Unlink(a) => s.writer == Free && a in s.linked
    case CountDown => s.writer == Dec
    case DestroyBegin => s.writer == Free
    case DestroyUnlink(a) => s.writer == Destroying && a in s.linked
    case DestroyEnd => s.writer == Destroying && s.linked == {}
    case Reclaim(a) => a in s.waits && s.waits[a] !! Active(s)
  }

  /** No step touches an entry that has been reclaimed. */
  predicate Safe(s: Rcu, step: Step) {
    match step
    case Visit(r) => Inside(s, r) && s.readers[r].phase.cur.Some? && s.readers[r].phase.cur.value in s.heap
    case Move(r) => Inside(s, r) && (s.readers[r].phase.cur.Some? ==> s.readers[r].phase.cur.value in s.heap)
    case Enter(r) => r in s.readers && |s.heads| == BUCKETS
    case Update(a, _) => a in s.heap
    case Unlink(a) => a in s.heap && |s.heads| == BUCKETS
    case DestroyUnlink(a) => a in s.heap && |s.heads| == BUCKETS
    case Link(_) => |s.heads| == BUCKETS
    case _ => true
  }

  // ----- Readers.

  function WithPhase(s: Rcu, r: ReaderId, phase: Phase): Rcu
    requires r in s.readers
  {
    s.(readers := s.readers[r := s.readers[r].(phase := phase)])
  }

  /** The body of the loop: compare the entry, remember or return its strategy. */
  function VisitPhase(reader: Reader, c: Cell): Phase
    requires reader.phase.Walking?
  {
    if c.key.name != reader.name then reader.phase.(seen := true)
    else if c.key.code == reader.code then Answer(Some(c.strategy), true)
    else if c.key.code == ANY_CODE then reader.phase.(seen := true, wild := c.strategy)
    else reader.phase.(seen := true)
  }

  function MovePhase(phase: Phase, heap: map<Addr, Cell>): Phase
    requires phase.Walking? && (phase.cur.Some? ==> phase.cur.value in heap)
  {
    if phase.cur.Some? then phase.(cur := heap[phase.cur.value].next, seen := false)
    else Answer(if phase.wild != 0 then Some(phase.wild) else None, false)
  }

  // ----- Writers.

  function LinkCell(hash: string -> nat, s: Rcu, e: Entry): Rcu
    requires |s.heads| == BUCKETS
  {
    var b := Bucket(hash, e.key.name);
    s.(heap := s.heap[s.top := Cell(e.key, e.strategy, s.heads[b])],
       heads := s.heads[b := Some(s.top)],
       linked := s.linked + {s.top},
       top := s.top + 1,
       writer := Inc(s.top))
  }

  /** *pprev = next: the one linked pointer to a, in the head or in its predecessor, skips it. */
  function UnlinkCell(s: Rcu, a: Addr): Rcu
    requires a in s.heap
  {
    s.(heads := seq(|s.heads|, i requires 0 <= i < |s.heads| =>
                      if s.heads[i] == Some(a) then s.heap[a].next else s.heads[i]),
       heap := map x | x in s.heap ::
                 if x in s.linked && s.heap[x].next == Some(a) then s.heap[x].(next := s.heap[a].next) else s.heap[x],
       linked := s.linked - {a},
       waits := s.waits[a := Active(s)])
  }

  function Act(hash: string -> nat, s: Rcu, step: Step): Rcu
    requires Safe(s, step) && Enabled(hash, s, step)
  {
    match step
    case Begin(r, name, code) =>
      s.(readers := s.readers[r := Reader(name, code, if s.count > 0 then Ready else Answer(None, false), 0)])
    case Enter(r) =>
      var x := s.readers[r];
      s.(readers := s.readers[r := x.(phase := Walking(s.heads[Bucket(hash, x.name)], false, 0), born := s.top)])
    case Visit(r) => WithPhase(s, r, VisitPhase(s.readers[r], s.heap[s.readers[r].phase.cur.value]))
    case Move(r) => WithPhase(s, r, MovePhase(s.readers[r].phase, s.heap))
    case Update(a, v) => s.(heap := s.heap[a := s.heap[a].(strategy := v)])
    case Link(e) => LinkCell(hash, s, e)
    case CountUp => s.(count := s.count + 1, writer := Free)
    case Unlink(a) => UnlinkCell(s, a).(writer := Dec)
    case CountDown => s.(count := s.count - 1, writer := Free)
    case DestroyBegin => s.(writer := Destroying)
    case DestroyUnlink(a) => UnlinkCell(s, a)
    case DestroyEnd => s.(count := 0, writer := Free)
    case Reclaim(a) => s.(heap := s.heap - {a}, waits := s.waits - {a})
  }

  predicate Answered(s: Rcu, r: ReaderId) {
    r in s.readers && s.readers[r].phase.Answer?
  }

  /** A lookup that has not answered yet takes note of the rules in the table. */
  function Note(s: Rcu, s1: Rcu): map<ReaderId, set<Pair>> {
    map r | r in s1.readers ::
      if Answered(s, r) then (if r in s.held then s.held[r] else {})
      else (if r in s.held then s.held[r] else Pairs(s.linked, s.heap)) + Pairs(s1.linked, s1.heap)
  }

  function Apply(hash: string -> nat, s: Rcu, step: Step): Rcu
    requires Safe(s, step) && Enabled(hash, s, step)
  {
    var s1 := Act(hash, s, step);
    s1.(held := Note(s, s1))
  }

  predicate Next(hash: string -> nat, s: Rcu, step: Step, s': Rcu) {
    Enabled(hash, s, step) && Safe(s, step) && s' == Apply(hash, s, step)
  }

  predicate StepAt(hash: string -> nat, states: seq<Rcu>, steps: seq<Step>, i: nat)
    requires i < |steps| && |states| == |steps| + 1
  {
    Next(hash, states[i], steps[i], states[i + 1])
  }

  predicate IsRun(hash: string -> nat, states: seq<Rcu>, steps: seq<Step>) {
    |states| == |steps| + 1 && forall i :: 0 <= i < |steps| ==> StepAt(hash, states, steps, i)
  }

  predicate Init(s: Rcu) {
    && s.heads == seq(BUCKETS, _ => None) && s.heap == map[] && s.linked == {} && s.waits == map[]
    && s.count == 0 && s.writer == Free && s.readers == map[] && s.held == map[]
  }
}
