/** Two runs in which a lookup misses: at every moment of the lookup there is a rule for its call,
    and it answers that there is none. */
module RuleRcuMissed {
  import opened Base
  import opened RuleTable
  import opened RuleRcu
  import opened RuleRcuProof
  import opened RuleRcuMoment

  lemma Extend(hash: Hash, states: seq<Rcu>, steps: seq<Step>, n: nat, step: Step)
    returns (states': seq<Rcu>, steps': seq<Step>)
    requires IsRun(hash, states, steps) && |steps| == n
    requires Enabled(hash, states[n], step) && Safe(states[n], step)
    ensures states' == states + [Apply(hash, states[n], step)] && steps' == steps + [step]
    ensures IsRun(hash, states', steps')
  {
    states', steps' := states + [Apply(hash, states[n], step)], steps + [step];
    forall i | 0 <= i < |steps'| ensures StepAt(hash, states', steps', i) == true {
      if i < n {
        assert StepAt(hash, states, steps, i);
        assert states'[i] == states[i] && states'[i + 1] == states[i + 1] && steps'[i] == steps[i];
      }
    }
  }

  function Empty(): (s: Rcu)
    ensures Init(s)
  {
    Rcu(seq(BUCKETS, _ => None), map[], {}, map[], 0, 0, Free, map[], map[])
  }

  // ----- A rule that is linked but not yet counted.

  /** The rule is in the table, the count is still zero, and the lookup does not walk. */
  lemma HalfAddedIsMissed(hash: Hash, e: Entry) returns (states: seq<Rcu>, steps: seq<Step>)
    requires EntryOk(e)
    ensures Lookup(hash, states, steps, 1, 2, 0) && steps[1] == Begin(0, e.key.name, e.key.code)
    ensures AtMostOneChange(states, 1, 2, e.key.name)
    ensures forall m :: 1 <= m <= 2 ==> SelectAt(states[m], e.key.name, e.key.code) == Some(e.strategy)
    ensures states[2].readers[0].phase.result == None
  {
    states, steps := Extend(hash, [Empty()], [], 0, Link(e));
    states, steps := Extend(hash, states, steps, 1, Begin(0, e.key.name, e.key.code));
    forall m | 1 <= m <= 2 ensures SelectAt(states[m], e.key.name, e.key.code) == Some(e.strategy) {
      RunInv(hash, states, steps, m);
      assert states[m].heap == map[0 := Cell(e.key, e.strategy, None)] && states[m].linked == {0};
      assert Has(states[m], e.key, e.strategy);
      SelectAtIs(hash, states[m], e.key.name, e.key.code);
    }
  }

  // ----- Two changes during one walk.

  /** The rules in the order in which they are added. */
  function Rule(n: nat): Entry {
    if n == 0 then Entry(Key("a", ANY_CODE), SKIP)
    else if n == 1 then Entry(Key("a", 7), BY_CODE)
    else Entry(Key("a", 5), SKIP)
  }

  function Head(n: nat): Option<Addr> {
    if n == 0 then None else Some(n - 1)
  }

  /** The first n rules are in the table, all in one chain, the last one first. */
  ghost predicate Added(hash: Hash, s: Rcu, n: nat) {
    && |s.heads| == BUCKETS && s.heads[Bucket(hash, "a")] == Head(n) && s.top == n
    && (forall a :: a in s.linked <==> 0 <= a < n) && s.heap.Keys == s.linked
    && forall a :: 0 <= a < n ==> s.heap[a] == Cell(Rule(a).key, Rule(a).strategy, Head(a))
  }

  /** The third rule is there and the first one is not. */
  predicate Replaced(s: Rcu) {
    && s.linked == {1, 2} && 1 in s.heap && 2 in s.heap
    && s.heap[1] == Cell(Rule(1).key, Rule(1).strategy, None)
    && s.heap[2] == Cell(Rule(2).key, Rule(2).strategy, Some(1))
  }

  /** The lookup of code 5 of "a". */
  predicate Asks(s: Rcu, phase: Phase) {
    0 in s.readers && s.readers[0].name == "a" && s.readers[0].code == 5 && s.readers[0].phase == phase
  }

  /** A rule for code 5 of "a" is in the table. */
  ghost predicate Covered(s: Rcu) {
    SelectAt(s, "a", 5) == Some(SKIP)
  }

  lemma AddedCovers(hash: Hash, s: Rcu, n: nat)
    requires Inv(hash, s) && Added(hash, s, n) && 2 <= n <= 3
    ensures Covered(s)
  {
    SelectAtIs(hash, s, "a", 5);
    assert s.heap[0].key == Key("a", ANY_CODE) && s.heap[1].key == Key("a", 7);
    assert Has(s, Key("a", ANY_CODE), SKIP);
    if n == 3 { assert s.heap[2].key == Key("a", 5); }
  }

  lemma ReplacedCovers(hash: Hash, s: Rcu)
    requires Inv(hash, s) && Replaced(s)
    ensures Covered(s)
  {
    SelectAtIs(hash, s, "a", 5);
    assert s.heap[2].key == Key("a", 5);
  }

  lemma LinkAdds(hash: Hash, s: Rcu, n: nat)
    requires Added(hash, s, n) && n < 3 && s.writer == Free
    ensures Enabled(hash, s, Link(Rule(n))) && Safe(s, Link(Rule(n)))
    ensures var s' := Apply(hash, s, Link(Rule(n)));
            Added(hash, s', n + 1) && s'.writer == Inc(n) && s'.count == s.count && s'.readers == s.readers
  {
    var s' := Apply(hash, s, Link(Rule(n)));
    assert s'.heap.Keys == s'.linked;
  }

  /** Taking out the first rule, behind the one the lookup stands at. */
  lemma UnlinkReplaces(hash: Hash, s: Rcu)
    requires Added(hash, s, 3) && s.writer == Free
    ensures Enabled(hash, s, Unlink(0)) && Safe(s, Unlink(0))
    ensures var s' := Apply(hash, s, Unlink(0));
            Replaced(s') && s'.writer == Dec && s'.readers == s.readers
  {
    assert s.heap[0].next == None && s.heap[1].next == Some(0) && s.heap[2].next == Some(1);
    assert s.linked - {0} == {1, 2};
  }

  lemma CountedIn(hash: Hash, s: Rcu, n: nat)
    requires Added(hash, s, n) && s.writer.Inc?
    ensures Enabled(hash, s, CountUp) && Safe(s, CountUp)
    ensures var s' := Apply(hash, s, CountUp);
            Added(hash, s', n) && s'.writer == Free && s'.count == s.count + 1 && s'.readers == s.readers
  {
  }

  lemma CountedOut(hash: Hash, s: Rcu)
    requires Replaced(s) && s.writer == Dec
    ensures var s' := Apply(hash, s, CountDown);
            Replaced(s') && s'.writer == Free && s'.readers == s.readers
  {
  }

  /** The lookup passes the second rule, which is not for it, and comes to the end of the chain. */
  lemma PassesBy(hash: Hash, s: Rcu, seen: bool)
    requires Replaced(s) && Asks(s, Walking(Some(1), seen, 0))
    ensures var step := if seen then Move(0) else Visit(0);
            && Enabled(hash, s, step) && Safe(s, step) && Replaced(Apply(hash, s, step))
            && Asks(Apply(hash, s, step), if seen then Walking(None, false, 0) else Walking(Some(1), true, 0))
  {
  }

  lemma FindsNothing(hash: Hash, s: Rcu)
    requires Replaced(s) && Asks(s, Walking(None, false, 0))
    ensures Enabled(hash, s, Move(0)) && Safe(s, Move(0))
    ensures Replaced(Apply(hash, s, Move(0))) && Asks(Apply(hash, s, Move(0)), Answer(None, false))
  {
  }

  /** A run of n steps in which the lookup begins at step 4, with a rule for it there all the time. */
  ghost predicate Running(hash: Hash, states: seq<Rcu>, steps: seq<Step>, n: nat) {
    && IsRun(hash, states, steps) && Init(states[0]) && |steps| == n && 4 <= n
    && (4 < n ==> steps[4] == Begin(0, "a", 5)) && NoneHalfAdded(states[4], "a")
    && forall m :: 4 <= m <= n ==> Covered(states[m])
  }

  lemma GoesAdded(hash: Hash, states: seq<Rcu>, steps: seq<Step>, n: nat, step: Step, k: nat)
    returns (states': seq<Rcu>, steps': seq<Step>)
    requires Running(hash, states, steps, n) && (n == 4 ==> step == Begin(0, "a", 5))
    requires Enabled(hash, states[n], step) == true && Safe(states[n], step) == true
    requires 2 <= k <= 3 && Added(hash, Apply(hash, states[n], step), k)
    ensures Running(hash, states', steps', n + 1) && states'[n + 1] == Apply(hash, states[n], step)
  {
    states', steps' := Extend(hash, states, steps, n, step);
    RunInv(hash, states', steps', n + 1);
    AddedCovers(hash, states'[n + 1], k);
    assert forall m :: 4 <= m <= n ==> states'[m] == states[m];
  }

  lemma GoesReplaced(hash: Hash, states: seq<Rcu>, steps: seq<Step>, n: nat, step: Step)
    returns (states': seq<Rcu>, steps': seq<Step>)
    requires Running(hash, states, steps, n) && n > 4
    requires Enabled(hash, states[n], step) && Safe(states[n], step) && Replaced(Apply(hash, states[n], step))
    ensures Running(hash, states', steps', n + 1) && states'[n + 1] == Apply(hash, states[n], step)
  {
    states', steps' := Extend(hash, states, steps, n, step);
    RunInv(hash, states', steps', n + 1);
    ReplacedCovers(hash, states'[n + 1]);
    assert forall m :: 4 <= m <= n ==> states'[m] == states[m];
  }

  // The run, step by step.

  lemma FirstRule(hash: Hash) returns (states: seq<Rcu>, steps: seq<Step>)
    ensures IsRun(hash, states, steps) && Init(states[0]) && |steps| == 2 && Added(hash, states[2], 1)
    ensures states[2].count == 1 && states[2].writer == Free && states[2].readers == map[]
  {
    assert Empty().heap.Keys == Empty().linked;
    LinkAdds(hash, Empty(), 0);
    states, steps := Extend(hash, [Empty()], [], 0, Link(Rule(0)));
    CountedIn(hash, states[1], 1);
    states, steps := Extend(hash, states, steps, 1, CountUp);
  }

  lemma SecondRule(hash: Hash) returns (states: seq<Rcu>, steps: seq<Step>)
    ensures Running(hash, states, steps, 4) && Added(hash, states[4], 2)
    ensures states[4].count == 2 && states[4].writer == Free && states[4].readers == map[]
  {
    states, steps := FirstRule(hash);
    LinkAdds(hash, states[2], 1);
    states, steps := Extend(hash, states, steps, 2, Link(Rule(1)));
    CountedIn(hash, states[3], 2);
    states, steps := Extend(hash, states, steps, 3, CountUp);
    RunInv(hash, states, steps, 4);
    AddedCovers(hash, states[4], 2);
  }

  lemma LookupBegins(hash: Hash) returns (states: seq<Rcu>, steps: seq<Step>)
    ensures Running(hash, states, steps, 5) && Added(hash, states[5], 2) && states[5].writer == Free
    ensures Asks(states[5], Ready)
  {
    states, steps := SecondRule(hash);
    states, steps := GoesAdded(hash, states, steps, 4, Begin(0, "a", 5), 2);
  }

  /** It stands at the second rule. */
  lemma LookupEnters(hash: Hash) returns (states: seq<Rcu>, steps: seq<Step>)
    ensures Running(hash, states, steps, 6) && Added(hash, states[6], 2) && states[6].writer == Free
    ensures Asks(states[6], Walking(Some(1), false, 0))
  {
    states, steps := LookupBegins(hash);
    states, steps := GoesAdded(hash, states, steps, 5, Enter(0), 2);
  }

  /** The third rule is added before it. */
  lemma ThirdRuleLinked(hash: Hash) returns (states: seq<Rcu>, steps: seq<Step>)
    ensures Running(hash, states, steps, 7) && Added(hash, states[7], 3) && states[7].writer.Inc?
    ensures Asks(states[7], Walking(Some(1), false, 0))
  {
    states, steps := LookupEnters(hash);
    LinkAdds(hash, states[6], 2);
    states, steps := GoesAdded(hash, states, steps, 6, Link(Rule(2)), 3);
  }

  lemma ThirdRuleCounted(hash: Hash) returns (states: seq<Rcu>, steps: seq<Step>)
    ensures Running(hash, states, steps, 8) && Added(hash, states[8], 3) && states[8].writer == Free
    ensures Asks(states[8], Walking(Some(1), false, 0))
  {
    states, steps := ThirdRuleLinked(hash);
    CountedIn(hash, states[7], 3);
    states, steps := GoesAdded(hash, states, steps, 7, CountUp, 3);
  }

  /** The first one is deleted behind it. */
  lemma FirstRuleUnlinked(hash: Hash) returns (states: seq<Rcu>, steps: seq<Step>)
    ensures Running(hash, states, steps, 9) && Replaced(states[9]) && states[9].writer == Dec
    ensures Asks(states[9], Walking(Some(1), false, 0))
  {
    states, steps := ThirdRuleCounted(hash);
    UnlinkReplaces(hash, states[8]);
    states, steps := GoesReplaced(hash, states, steps, 8, Unlink(0));
  }

  lemma FirstRuleUncounted(hash: Hash) returns (states: seq<Rcu>, steps: seq<Step>)
    ensures Running(hash, states, steps, 10) && Replaced(states[10])
    ensures Asks(states[10], Walking(Some(1), false, 0))
  {
    states, steps := FirstRuleUnlinked(hash);
    CountedOut(hash, states[9]);
    states, steps := GoesReplaced(hash, states, steps, 9, CountDown);
  }

  lemma LookupReads(hash: Hash) returns (states: seq<Rcu>, steps: seq<Step>)
    ensures Running(hash, states, steps, 11) && Replaced(states[11]) && Asks(states[11], Walking(Some(1), true, 0))
  {
    states, steps := FirstRuleUncounted(hash);
    PassesBy(hash, states[10], false);
    states, steps := GoesReplaced(hash, states, steps, 10, Visit(0));
  }

  lemma LookupMovesOn(hash: Hash) returns (states: seq<Rcu>, steps: seq<Step>)
    ensures Running(hash, states, steps, 12) && Replaced(states[12]) && Asks(states[12], Walking(None, false, 0))
  {
    states, steps := LookupReads(hash);
    PassesBy(hash, states[11], true);
    states, steps := GoesReplaced(hash, states, steps, 11, Move(0));
  }

  /** The answer of a lookup need not be the one of any moment of it: code 5 has the any-code rule
      first and its own rule in the end, and one of the two at every moment, but the walk meets
      neither. No rule was half added when it began. */
  lemma CoveredCallIsMissed(hash: Hash) returns (states: seq<Rcu>, steps: seq<Step>)
    ensures Lookup(hash, states, steps, 4, 13, 0) && steps[4] == Begin(0, "a", 5)
    ensures NoneHalfAdded(states[4], "a")
    ensures forall m :: 4 <= m <= 13 ==> SelectAt(states[m], "a", 5) == Some(SKIP)
    ensures states[13].readers[0].phase.result == None
  {
    states, steps := LookupMovesOn(hash);
    FindsNothing(hash, states[12]);
    states, steps := GoesReplaced(hash, states, steps, 12, Move(0));
    assert forall m :: 4 <= m <= 13 ==> Covered(states[m]);
  }
}
