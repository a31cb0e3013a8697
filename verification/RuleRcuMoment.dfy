/** The answer of a lookup is what a lookup at one single moment would give, if at most one step
    meanwhile changes the rules of its name. RuleRcuMissed shows that it is not always so. */
module RuleRcuMoment {
  import opened Base
  import opened RuleTable
  import opened RuleRcu
  import opened RuleRcuProof

  // ----- The rules in the table as a map.

  ghost predicate Present(s: Rcu, k: Key) {
    exists a :: a in s.linked && a in s.heap && s.heap[a].key == k
  }

  ghost predicate Has(s: Rcu, k: Key, v: int) {
    exists a :: a in s.linked && a in s.heap && s.heap[a].key == k && s.heap[a].strategy == v
  }

  ghost function StrategyAt(s: Rcu, k: Key): int
    requires Present(s, k)
  {
    var a :| a in s.linked && a in s.heap && s.heap[a].key == k;
    s.heap[a].strategy
  }

  ghost function RulesAt(s: Rcu): Rules {
    map k | k in (set a | a in s.linked && a in s.heap :: s.heap[a].key) :: StrategyAt(s, k)
  }

  lemma RulesAtAre(hash: Hash, s: Rcu, k: Key)
    requires Inv(hash, s)
    ensures k in RulesAt(s) <==> Present(s, k)
    ensures Present(s, k) ==> Has(s, k, RulesAt(s)[k])
    ensures forall v :: Has(s, k, v) ==> k in RulesAt(s) && RulesAt(s)[k] == v
  {
    assert Holds(hash, Keys, s);
  }

  /** What a lookup at this very moment gives. */
  ghost function SelectAt(s: Rcu, name: string, code: int): Option<int> {
    Select(RulesAt(s), name, code)
  }

  lemma SelectAtIs(hash: Hash, s: Rcu, name: string, code: int)
    requires Inv(hash, s)
    ensures forall v :: Has(s, Key(name, code), v) ==> SelectAt(s, name, code) == Some(v)
    ensures forall v :: !Present(s, Key(name, code)) && Has(s, Key(name, ANY_CODE), v) ==>
                          SelectAt(s, name, code) == Some(v)
    ensures !Present(s, Key(name, code)) && !Present(s, Key(name, ANY_CODE)) ==> SelectAt(s, name, code) == None
  {
    RulesAtAre(hash, s, Key(name, code));
    RulesAtAre(hash, s, Key(name, ANY_CODE));
  }

  // ----- One step.

  /** Nothing about the rules of this name is different. */
  ghost predicate SameRules(s: Rcu, s': Rcu, name: string) {
    forall k: Key, v :: k.name == name ==> (Has(s, k, v) <==> Has(s', k, v))
  }

  /** An entry whose key stays in the table stays itself. */
  lemma CellStays(hash: Hash, s: Rcu, step: Step, s': Rcu, a: Addr)
    requires Inv(hash, s) && Next(hash, s, step, s') && a in s.linked && a in s.heap && Present(s', s.heap[a].key)
    ensures a in s'.linked && a in s'.heap && s'.heap[a].key == s.heap[a].key
  {
    assert Holds(hash, Keys, s) && Holds(hash, Shape, s);
  }

  /** The entry at a is in the table in both states or in neither, with the same rule. */
  predicate SameCell(s: Rcu, s': Rcu, a: Addr) {
    && (a in s.linked && a in s.heap <==> a in s'.linked && a in s'.heap)
    && (a in s.linked && a in s.heap && a in s'.heap ==>
          s'.heap[a].key == s.heap[a].key && s'.heap[a].strategy == s.heap[a].strategy)
  }

  /** The entry that a step can change. */
  function Touched(s: Rcu, step: Step): Addr {
    match step
    case Link(_) => s.top
    case Unlink(a) => a
    case DestroyUnlink(a) => a
    case Update(a, _) => a
    case _ => 0
  }

  lemma UnlinkTouches(s: Rcu, a: Addr, x: Addr)
    requires a in s.heap && x != a
    ensures SameCell(s, UnlinkCell(s, a), x)
  {
  }

  lemma OtherCell(hash: Hash, s: Rcu, step: Step, s': Rcu, a: Addr)
    requires Inv(hash, s) && Next(hash, s, step, s') && a != Touched(s, step)
    ensures SameCell(s, s', a)
  {
    if step.Unlink? || step.DestroyUnlink? {
      UnlinkTouches(s, step.a, a);
    } else if step.Reclaim? {
      assert Holds(hash, Shape, s);
    }
  }

  lemma KeyKept(hash: Hash, s: Rcu, step: Step, s': Rcu, a: Addr)
    requires Inv(hash, s) && Next(hash, s, step, s') && a in s.linked && a in s.heap && a in s'.linked && a in s'.heap
    ensures s'.heap[a].key == s.heap[a].key
  {
    assert Holds(hash, Shape, s);
  }

  /** Every step changes at most one entry of the table, and never its key. */
  lemma OnlyOneCell(hash: Hash, s: Rcu, step: Step, s': Rcu) returns (b: Addr)
    requires Inv(hash, s) && Next(hash, s, step, s')
    ensures forall a :: a != b ==> SameCell(s, s', a)
    ensures b in s.linked && b in s.heap && b in s'.linked && b in s'.heap ==> s'.heap[b].key == s.heap[b].key
  {
    b := Touched(s, step);
    forall a | a != b ensures SameCell(s, s', a) == true { OtherCell(hash, s, step, s', a); }
    if b in s.linked && b in s.heap && b in s'.linked && b in s'.heap { KeyKept(hash, s, step, s', b); }
  }

  /** A step that brings or takes away one key leaves all other rules alone. */
  lemma OneKeyFlips(hash: Hash, s: Rcu, step: Step, s': Rcu, k: Key, l: Key, v: int)
    requires Inv(hash, s) && Next(hash, s, step, s') && k != l && Present(s, k) != Present(s', k)
    ensures Has(s, l, v) <==> Has(s', l, v)
  {
    var b := OnlyOneCell(hash, s, step, s');
    FlipAlone(s, s', b, k, l, v);
  }

  lemma FlipAlone(s: Rcu, s': Rcu, b: Addr, k: Key, l: Key, v: int)
    requires forall a :: a != b ==> SameCell(s, s', a)
    requires b in s.linked && b in s.heap && b in s'.linked && b in s'.heap ==> s'.heap[b].key == s.heap[b].key
    requires k != l && Present(s, k) != Present(s', k)
    ensures Has(s, l, v) <==> Has(s', l, v)
  {
    if Present(s, k) {
      var a :| a in s.linked && a in s.heap && s.heap[a].key == k;
      assert a != b ==> SameCell(s, s', a);
    } else {
      var a :| a in s'.linked && a in s'.heap && s'.heap[a].key == k;
      assert a != b ==> SameCell(s, s', a);
    }
    if Has(s, l, v) {
      var a :| a in s.linked && a in s.heap && s.heap[a].key == l && s.heap[a].strategy == v;
      assert SameCell(s, s', a);
    }
    if Has(s', l, v) {
      var a :| a in s'.linked && a in s'.heap && s'.heap[a].key == l && s'.heap[a].strategy == v;
      assert SameCell(s, s', a);
    }
  }

  // ----- A whole lookup.

  /** Step c changes the rules of this name. */
  ghost predicate Changes(states: seq<Rcu>, c: nat, name: string)
    requires c + 1 < |states|
  {
    !SameRules(states[c], states[c + 1], name)
  }

  ghost predicate AtMostOneChange(states: seq<Rcu>, i: nat, j: nat, name: string)
    requires i <= j < |states|
  {
    forall c, d :: i <= c < d < j ==> !(Changes(states, c, name) && Changes(states, d, name))
  }

  lemma {:induction false} Unchanged(states: seq<Rcu>, i: nat, j: nat, name: string)
    requires i <= j < |states| && forall c :: i <= c < j ==> !Changes(states, c, name)
    ensures SameRules(states[i], states[j], name)
  {
    if i < j {
      Unchanged(states, i, j - 1, name);
      assert !Changes(states, j - 1, name);
    }
  }

  /** With at most one change, the rules of the name are those of the first or of the last state. */
  lemma FirstOrLast(states: seq<Rcu>, i: nat, m: nat, j: nat, name: string)
    requires i <= m <= j < |states| && AtMostOneChange(states, i, j, name)
    ensures SameRules(states[m], states[i], name) || SameRules(states[m], states[j], name)
  {
    if c :| i <= c < m && Changes(states, c, name) {
      forall d | m <= d < j ensures !Changes(states, d, name) {}
      Unchanged(states, m, j, name);
    } else {
      Unchanged(states, i, m, name);
    }
  }

  /** Of two keys of the name, only one can come or go. */
  lemma OneFlips(hash: Hash, states: seq<Rcu>, steps: seq<Step>, i: nat, j: nat, k: Key, l: Key, v: int)
    requires IsRun(hash, states, steps) && Init(states[0]) && i <= j < |states| && AtMostOneChange(states, i, j, k.name)
    requires k != l && l.name == k.name && Present(states[i], k) != Present(states[j], k)
    ensures Has(states[i], l, v) <==> Has(states[j], l, v)
  {
    if c :| i <= c < j && Changes(states, c, k.name) {
      forall d | i <= d < c ensures !Changes(states, d, k.name) {}
      forall d | c < d < j ensures !Changes(states, d, k.name) {}
      Unchanged(states, i, c, k.name);
      Unchanged(states, c + 1, j, k.name);
      SamePresent(states[i], states[c], k);
      SamePresent(states[c + 1], states[j], k);
      RunInv(hash, states, steps, c);
      assert StepAt(hash, states, steps, c);
      OneKeyFlips(hash, states[c], steps[c], states[c + 1], k, l, v);
    } else {
      Unchanged(states, i, j, k.name);
      SamePresent(states[i], states[j], k);
    }
  }

  lemma SamePresent(s: Rcu, s': Rcu, k: Key)
    requires SameRules(s, s', k.name)
    ensures Present(s, k) <==> Present(s', k)
  {
    if Present(s, k) {
      var a :| a in s.linked && a in s.heap && s.heap[a].key == k;
      assert Has(s, k, s.heap[a].strategy);
    }
    if Present(s', k) {
      var a :| a in s'.linked && a in s'.heap && s'.heap[a].key == k;
      assert Has(s', k, s'.heap[a].strategy);
    }
  }

  /** A key that is in the table throughout is there in one and the same entry. */
  lemma {:induction false} SameEntry(hash: Hash, states: seq<Rcu>, steps: seq<Step>, i: nat, j: nat, k: Key, a: Addr)
    requires IsRun(hash, states, steps) && Init(states[0]) && i <= j < |states|
    requires a in states[i].linked && a in states[i].heap && states[i].heap[a].key == k
    requires forall m :: i <= m <= j ==> Present(states[m], k)
    ensures a in states[j].linked && a in states[j].heap && states[j].heap[a].key == k
  {
    if i < j {
      SameEntry(hash, states, steps, i, j - 1, k, a);
      RunInv(hash, states, steps, j - 1);
      assert StepAt(hash, states, steps, j - 1);
      assert Present(states[j], k);
      CellStays(hash, states[j - 1], steps[j - 1], states[j], a);
    }
  }

  /** The lookup of r that begins at step i has answered in state j. */
  ghost predicate Lookup(hash: Hash, states: seq<Rcu>, steps: seq<Step>, i: nat, j: nat, r: ReaderId) {
    && IsRun(hash, states, steps) && Init(states[0]) && i < j < |states| && steps[i].Begin? && steps[i].r == r
    && r in states[j].readers && states[j].readers[r].phase.Answer?
  }

  lemma NameKept(hash: Hash, s: Rcu, step: Step, s': Rcu, r: ReaderId)
    requires Next(hash, s, step, s') && r in s.readers
    ensures r in s'.readers && s'.readers[r].name == s.readers[r].name && s'.readers[r].code == s.readers[r].code
  {
  }

  /** A lookup keeps the name and the code it began with. */
  lemma {:induction false} SameQuestion(hash: Hash, states: seq<Rcu>, steps: seq<Step>, i: nat, j: nat, r: ReaderId)
    requires IsRun(hash, states, steps) && i < j < |states| && steps[i].Begin? && steps[i].r == r
    ensures r in states[j].readers
    ensures states[j].readers[r].name == steps[i].name && states[j].readers[r].code == steps[i].code
  {
    assert StepAt(hash, states, steps, j - 1);
    if i + 1 < j {
      SameQuestion(hash, states, steps, i, j - 1, r);
      NameKept(hash, states[j - 1], steps[j - 1], states[j], r);
    }
  }

  /** No rule of the name is half added when the lookup begins. */
  predicate NoneHalfAdded(s: Rcu, name: string) {
    s.writer.Inc? && s.writer.a in s.heap ==> s.heap[s.writer.a].key.name != name
  }

  /** A rule of the name that is in the table throughout is found. */
  lemma PresentIsFound(hash: Hash, states: seq<Rcu>, steps: seq<Step>, i: nat, j: nat, r: ReaderId, k: Key)
    requires Lookup(hash, states, steps, i, j, r) && NoneHalfAdded(states[i], steps[i].name)
    requires k in {Key(steps[i].name, steps[i].code), Key(steps[i].name, ANY_CODE)}
    requires forall m :: i <= m <= j ==> Present(states[m], k)
    ensures var p := states[j].readers[r].phase;
            p.result.Some? && (k == Key(steps[i].name, steps[i].code) ==> p.exact)
  {
    assert Present(states[i], k);
    var a :| a in states[i].linked && a in states[i].heap && states[i].heap[a].key == k;
    forall m | i <= m <= j ensures a in states[m].linked { SameEntry(hash, states, steps, i, m, k, a); }
    SameEntry(hash, states, steps, i, j, k, a);
    SameQuestion(hash, states, steps, i, j, r);
    StayingRuleIsFound(hash, states, steps, i, j, r, a);
  }

  /** If a key is in the table at the first and the last state, it is there throughout. */
  lemma PresentThroughout(states: seq<Rcu>, i: nat, j: nat, k: Key)
    requires i <= j < |states| && AtMostOneChange(states, i, j, k.name)
    requires Present(states[i], k) && Present(states[j], k)
    ensures forall m :: i <= m <= j ==> Present(states[m], k)
  {
    forall m | i <= m <= j ensures Present(states[m], k) {
      FirstOrLast(states, i, m, j, k.name);
      if SameRules(states[m], states[i], k.name) {
        SamePresent(states[m], states[i], k);
      } else {
        SamePresent(states[m], states[j], k);
      }
    }
  }

  /** An exact answer is what a lookup at one moment gives, whatever happens meanwhile. */
  lemma ExactAnswer(hash: Hash, states: seq<Rcu>, steps: seq<Step>, i: nat, j: nat, r: ReaderId)
    requires Lookup(hash, states, steps, i, j, r)
    requires states[j].readers[r].phase.exact
    ensures exists m :: i <= m <= j
              && SelectAt(states[m], steps[i].name, steps[i].code) == states[j].readers[r].phase.result
  {
    var x := states[j].readers[r];
    SameQuestion(hash, states, steps, i, j, r);
    AnswerIsSome(hash, states, steps, j, r);
    var m := AnswerHeld(hash, states, steps, i, j, r);
    RunInv(hash, states, steps, m);
    SelectAtIs(hash, states[m], x.name, x.code);
  }

  lemma AnswerIsSome(hash: Hash, states: seq<Rcu>, steps: seq<Step>, j: nat, r: ReaderId)
    requires IsRun(hash, states, steps) && Init(states[0]) && j < |states|
    requires r in states[j].readers && states[j].readers[r].phase.Answer? && states[j].readers[r].phase.exact
    ensures states[j].readers[r].phase.result.Some?
  {
    RunInv(hash, states, steps, j);
    assert Holds(hash, Readers, states[j]);
    var s := states[j];
    assert ReaderOk(hash, s.heap, s.linked, s.waits, s.top, s.readers[r], s.held[r], r);
  }

  /** The moment at which the rule answered was in the table. */
  lemma AnswerHeld(hash: Hash, states: seq<Rcu>, steps: seq<Step>, i: nat, j: nat, r: ReaderId) returns (m: nat)
    requires Lookup(hash, states, steps, i, j, r) && states[j].readers[r].phase.result.Some?
    ensures i <= m <= j
    ensures var x := states[j].readers[r];
            Has(states[m], if x.phase.exact then x.Exact() else x.Any(), x.phase.result.value)
  {
    var x := states[j].readers[r];
    var p := ((if x.phase.exact then x.Exact() else x.Any()), x.phase.result.value);
    AnswerWasARule(hash, states, steps, i, j, r);
    m :| i <= m <= j && p in Pairs(states[m].linked, states[m].heap);
  }

  /** An any-code answer: the exact rule is missing at the first or the last state, and the any-code
      rule is in the table there too. */
  lemma AnyAnswer(hash: Hash, states: seq<Rcu>, steps: seq<Step>, i: nat, j: nat, r: ReaderId) returns (m: nat)
    requires Lookup(hash, states, steps, i, j, r) && states[j].readers[r].phase.result.Some?
    requires !states[j].readers[r].phase.exact
    requires AtMostOneChange(states, i, j, steps[i].name) && NoneHalfAdded(states[i], steps[i].name)
    ensures i <= m <= j && SelectAt(states[m], steps[i].name, steps[i].code) == states[j].readers[r].phase.result
  {
    var x := states[j].readers[r];
    var exact, any, v := Key(steps[i].name, steps[i].code), Key(steps[i].name, ANY_CODE), x.phase.result.value;
    SameQuestion(hash, states, steps, i, j, r);
    m := AnswerHeld(hash, states, steps, i, j, r);
    if Present(states[m], exact) && exact != any {
      if Present(states[i], exact) && Present(states[j], exact) {
        PresentThroughout(states, i, j, exact);
        PresentIsFound(hash, states, steps, i, j, r, exact);
        assert false;
      }
      FirstOrLast(states, i, m, j, exact.name);
      if SameRules(states[m], states[i], exact.name) { SamePresent(states[m], states[i], exact); }
      if SameRules(states[m], states[j], exact.name) { SamePresent(states[m], states[j], exact); }
      OneFlips(hash, states, steps, i, j, exact, any, v);
      m := if Present(states[i], exact) then j else i;
    }
    RunInv(hash, states, steps, m);
    SelectAtIs(hash, states[m], x.name, x.code);
  }

  /** No answer: both rules are missing at the first or at the last state. */
  lemma NoAnswer(hash: Hash, states: seq<Rcu>, steps: seq<Step>, i: nat, j: nat, r: ReaderId) returns (m: nat)
    requires Lookup(hash, states, steps, i, j, r) && states[j].readers[r].phase.result.None?
    requires AtMostOneChange(states, i, j, steps[i].name) && NoneHalfAdded(states[i], steps[i].name)
    ensures i <= m <= j && SelectAt(states[m], steps[i].name, steps[i].code) == None
  {
    var exact, any := Key(steps[i].name, steps[i].code), Key(steps[i].name, ANY_CODE);
    NotThroughout(hash, states, steps, i, j, r, exact);
    NotThroughout(hash, states, steps, i, j, r, any);
    if exact != any && Present(states[i], exact) != Present(states[j], exact) {
      AnyStays(hash, states, steps, i, j, exact, any);
    }
    m := if Present(states[i], exact) || Present(states[i], any) then j else i;
    RunInv(hash, states, steps, m);
    SelectAtIs(hash, states[m], steps[i].name, steps[i].code);
  }

  lemma NotThroughout(hash: Hash, states: seq<Rcu>, steps: seq<Step>, i: nat, j: nat, r: ReaderId, k: Key)
    requires Lookup(hash, states, steps, i, j, r) && states[j].readers[r].phase.result.None?
    requires AtMostOneChange(states, i, j, steps[i].name) && NoneHalfAdded(states[i], steps[i].name)
    requires k in {Key(steps[i].name, steps[i].code), Key(steps[i].name, ANY_CODE)}
    ensures !Present(states[i], k) || !Present(states[j], k)
  {
    if Present(states[i], k) && Present(states[j], k) {
      PresentThroughout(states, i, j, k);
      PresentIsFound(hash, states, steps, i, j, r, k);
    }
  }

  lemma AnyStays(hash: Hash, states: seq<Rcu>, steps: seq<Step>, i: nat, j: nat, k: Key, l: Key)
    requires IsRun(hash, states, steps) && Init(states[0]) && i <= j < |states| && AtMostOneChange(states, i, j, k.name)
    requires k != l && l.name == k.name && Present(states[i], k) != Present(states[j], k)
    ensures Present(states[i], l) <==> Present(states[j], l)
  {
    if Present(states[i], l) {
      var a :| a in states[i].linked && a in states[i].heap && states[i].heap[a].key == l;
      assert Has(states[i], l, states[i].heap[a].strategy);
      OneFlips(hash, states, steps, i, j, k, l, states[i].heap[a].strategy);
    }
    if Present(states[j], l) {
      var a :| a in states[j].linked && a in states[j].heap && states[j].heap[a].key == l;
      assert Has(states[j], l, states[j].heap[a].strategy);
      OneFlips(hash, states, steps, i, j, k, l, states[j].heap[a].strategy);
    }
  }

  /** If at most one step during a lookup changes the rules of its name, and none of them is half
      added when it begins, then its answer is the one of a lookup at a single moment meanwhile. */
  lemma AnswerOfOneMoment(hash: Hash, states: seq<Rcu>, steps: seq<Step>, i: nat, j: nat, r: ReaderId)
    requires Lookup(hash, states, steps, i, j, r)
    requires AtMostOneChange(states, i, j, steps[i].name) && NoneHalfAdded(states[i], steps[i].name)
    ensures exists m :: i <= m <= j
              && SelectAt(states[m], steps[i].name, steps[i].code) == states[j].readers[r].phase.result
  {
    var p := states[j].readers[r].phase;
    if p.exact {
      ExactAnswer(hash, states, steps, i, j, r);
    } else if p.result.Some? {
      var m := AnyAnswer(hash, states, steps, i, j, r);
    } else {
      var m := NoAnswer(hash, states, steps, i, j, r);
    }
  }
}
