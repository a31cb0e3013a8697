/** The concurrent table refines a map: what the writers' steps of a run have added, changed and
    deleted so far, kept in a ledger that knows nothing of chains and entries. */
module RuleRcuMap {
  import opened Base
  import opened RuleTable
  import opened RuleRcu
  import opened RuleRcuProof
  import opened RuleRcuMoment

  /** The rules by the writers' steps alone. Entries are known by their number, as in the steps. */
  datatype Ledger = Ledger(next: Addr, keys: map<Addr, Key>, rules: Rules)

  function Record(l: Ledger, step: Step): Ledger {
    match step
    case Link(e) => Ledger(l.next + 1, l.keys[l.next := e.key], l.rules[e.key := e.strategy])
    case Update(a, v) => if a in l.keys then l.(rules := l.rules[l.keys[a] := v]) else l
    case Unlink(a) => if a in l.keys then l.(rules := l.rules - {l.keys[a]}) else l
    case DestroyUnlink(a) => if a in l.keys then l.(rules := l.rules - {l.keys[a]}) else l
    case _ => l
  }

  function Recorded(first: Addr, steps: seq<Step>): Ledger {
    if steps == [] then Ledger(first, map[], map[])
    else Record(Recorded(first, steps[..|steps| - 1]), steps[|steps| - 1])
  }

  /** What a step makes of the map. */
  function Written(s: Rcu, rules: Rules, step: Step): Rules {
    match step
    case Link(e) => rules[e.key := e.strategy]
    case Update(a, v) => if a in s.heap then rules[s.heap[a].key := v] else rules
    case Unlink(a) => if a in s.heap then rules - {s.heap[a].key} else rules
    case DestroyUnlink(a) => if a in s.heap then rules - {s.heap[a].key} else rules
    case _ => rules
  }

  /** The rule is in the map. */
  predicate Maps(rules: Rules, k: Key, v: int) {
    k in rules && rules[k] == v
  }

  lemma HasIs(hash: Hash, s: Rcu, k: Key, v: int)
    requires Inv(hash, s)
    ensures Has(s, k, v) <==> Maps(RulesAt(s), k, v)
  {
    RulesAtAre(hash, s, k);
  }

  lemma RulesAre(hash: Hash, s: Rcu, rules: Rules)
    requires Inv(hash, s) && forall k, v :: Has(s, k, v) <==> Maps(rules, k, v)
    ensures RulesAt(s) == rules
  {
    forall k ensures k in RulesAt(s) <==> k in rules {
      if k in RulesAt(s) { HasIs(hash, s, k, RulesAt(s)[k]); }
      if k in rules { assert Maps(rules, k, rules[k]); HasIs(hash, s, k, rules[k]); }
    }
    forall k | k in RulesAt(s) ensures RulesAt(s)[k] == rules[k] {
      HasIs(hash, s, k, RulesAt(s)[k]);
      assert Maps(rules, k, RulesAt(s)[k]);
    }
  }

  lemma LinkWrites(hash: Hash, s: Rcu, e: Entry, k: Key, v: int)
    requires Inv(hash, s) && Enabled(hash, s, Link(e)) && Safe(s, Link(e))
    ensures Has(LinkCell(hash, s, e), k, v) <==> if k == e.key then v == e.strategy else Has(s, k, v)
  {
    assert Holds(hash, Shape, s);
    var s' := LinkCell(hash, s, e);
    assert s.top in s'.linked && s'.heap[s.top].key == e.key && s'.heap[s.top].strategy == e.strategy;
    if Has(s, k, v) {
      var a :| a in s.linked && a in s.heap && s.heap[a].key == k && s.heap[a].strategy == v;
      assert a in s'.linked && s'.heap[a] == s.heap[a];
    }
  }

  lemma UpdateWrites(hash: Hash, s: Rcu, a: Addr, v: int, k: Key, w: int)
    requires Inv(hash, s) && a in s.linked && a in s.heap
    ensures Has(s.(heap := s.heap[a := s.heap[a].(strategy := v)]), k, w)
            <==> if k == s.heap[a].key then w == v else Has(s, k, w)
  {
    assert Holds(hash, Keys, s);
    var s' := s.(heap := s.heap[a := s.heap[a].(strategy := v)]);
    assert a in s'.linked && s'.heap[a].key == s.heap[a].key && s'.heap[a].strategy == v;
    if Has(s, k, w) {
      var b :| b in s.linked && b in s.heap && s.heap[b].key == k && s.heap[b].strategy == w;
      assert b in s'.linked && (b != a ==> s'.heap[b] == s.heap[b]);
    }
  }

  lemma UnlinkWrites(hash: Hash, s: Rcu, a: Addr, k: Key, v: int)
    requires Inv(hash, s) && a in s.linked && a in s.heap
    ensures Has(UnlinkCell(s, a), k, v) <==> k != s.heap[a].key && Has(s, k, v)
  {
    assert Holds(hash, Keys, s);
    var s' := UnlinkCell(s, a);
    if Has(s, k, v) && k != s.heap[a].key {
      var b :| b in s.linked && b in s.heap && s.heap[b].key == k && s.heap[b].strategy == v;
      UnlinkTouches(s, a, b);
    }
    if Has(s', k, v) {
      var b :| b in s'.linked && b in s'.heap && s'.heap[b].key == k && s'.heap[b].strategy == v;
      UnlinkTouches(s, a, b);
    }
  }

  /** The steps by which writers change the rules. */
  predicate Writes(step: Step) {
    step.Link? || step.Update? || step.Unlink? || step.DestroyUnlink?
  }

  lemma OthersWriteNothing(hash: Hash, s: Rcu, step: Step, k: Key, v: int)
    requires Inv(hash, s) && Enabled(hash, s, step) && Safe(s, step) && !Writes(step)
    ensures Has(Apply(hash, s, step), k, v) <==> Has(s, k, v)
  {
    assert Holds(hash, Shape, s);
    var s' := Apply(hash, s, step);
    assert s'.linked == s.linked && forall a :: a in s.linked && a in s'.heap ==> a in s.heap;
    assert forall a :: a in s.linked && a in s.heap ==> a in s'.heap && s'.heap[a] == s.heap[a];
  }

  lemma SameTable(s: Rcu, s': Rcu, k: Key, v: int)
    requires s'.linked == s.linked && s'.heap == s.heap
    ensures Has(s', k, v) <==> Has(s, k, v)
  {
  }

  lemma StepWrites(hash: Hash, s: Rcu, step: Step, k: Key, v: int)
    requires Inv(hash, s) && Enabled(hash, s, step) && Safe(s, step)
    ensures Has(Apply(hash, s, step), k, v) <==> Maps(Written(s, RulesAt(s), step), k, v)
  {
    HasIs(hash, s, k, v);
    match step
    case Link(e) =>
      LinkWrites(hash, s, e, k, v);
      SameTable(LinkCell(hash, s, e), Apply(hash, s, step), k, v);
    case Update(a, w) =>
      UpdateWrites(hash, s, a, w, k, v);
      SameTable(s.(heap := s.heap[a := s.heap[a].(strategy := w)]), Apply(hash, s, step), k, v);
    case Unlink(a) =>
      UnlinkWrites(hash, s, a, k, v);
      SameTable(UnlinkCell(s, a), Apply(hash, s, step), k, v);
    case DestroyUnlink(a) =>
      UnlinkWrites(hash, s, a, k, v);
      SameTable(UnlinkCell(s, a), Apply(hash, s, step), k, v);
    case _ =>
      OthersWriteNothing(hash, s, step, k, v);
  }

  /** Every step of a writer does to the table what the map operation does, and no other step
      changes a rule. */
  lemma StepRefines(hash: Hash, s: Rcu, step: Step)
    requires Inv(hash, s) && Enabled(hash, s, step) && Safe(s, step)
    ensures Inv(hash, Apply(hash, s, step))
    ensures RulesAt(Apply(hash, s, step)) == Written(s, RulesAt(s), step)
    ensures step.DestroyEnd? ==> RulesAt(s) == map[]
  {
    StepKeeps(hash, s, step);
    forall k, v ensures Has(Apply(hash, s, step), k, v) <==> Maps(Written(s, RulesAt(s), step), k, v) {
      StepWrites(hash, s, step, k, v);
    }
    RulesAre(hash, Apply(hash, s, step), Written(s, RulesAt(s), step));
  }

  // ----- Runs.

  /** The ledger knows the table. */
  ghost predicate Knows(l: Ledger, s: Rcu) {
    && l.next == s.top && l.rules == RulesAt(s)
    && forall a :: a in s.linked && a in s.heap ==> a in l.keys && l.keys[a] == s.heap[a].key
  }

  lemma KeysKnown(hash: Hash, l: Ledger, s: Rcu, step: Step)
    requires Inv(hash, s) && Knows(l, s) && Enabled(hash, s, step) && Safe(s, step)
    ensures var s', l' := Apply(hash, s, step), Record(l, step);
            && l'.next == s'.top
            && forall a :: a in s'.linked && a in s'.heap ==> a in l'.keys && l'.keys[a] == s'.heap[a].key
  {
    assert Holds(hash, Shape, s) && Holds(hash, Keys, s);
  }

  lemma StepKnown(hash: Hash, l: Ledger, s: Rcu, step: Step)
    requires Inv(hash, s) && Knows(l, s) && Enabled(hash, s, step) && Safe(s, step)
    ensures Knows(Record(l, step), Apply(hash, s, step))
  {
    KeysKnown(hash, l, s, step);
    StepRefines(hash, s, step);
    assert Holds(hash, Shape, s) && Holds(hash, Keys, s);
  }

  /** At every moment of every run the table holds exactly the rules that the writers' steps so far
      have made. */
  lemma {:induction false} RunRefines(hash: Hash, states: seq<Rcu>, steps: seq<Step>, i: nat)
    requires IsRun(hash, states, steps) && Init(states[0]) && i < |states|
    ensures Knows(Recorded(states[0].top, steps[..i]), states[i])
  {
    if i == 0 {
      assert RulesAt(states[0]) == map[];
    } else {
      RunRefines(hash, states, steps, i - 1);
      RunInv(hash, states, steps, i - 1);
      assert StepAt(hash, states, steps, i - 1);
      StepKnown(hash, Recorded(states[0].top, steps[..i - 1]), states[i - 1], steps[i - 1]);
      assert steps[..i][..i - 1] == steps[..i - 1];
    }
  }

  /** What a lookup should find at moment i, by the ledger. */
  function Meant(states: seq<Rcu>, steps: seq<Step>, i: nat, name: string, code: int): Option<int>
    requires |states| > 0 && i <= |steps|
  {
    Select(Recorded(states[0].top, steps[..i]).rules, name, code)
  }

  /** The answer of a lookup is what the ledger says at one moment of it, if at most one step
      meanwhile changes the rules of its name and none of them is half added when it begins. */
  lemma AnswerIsMeant(hash: Hash, states: seq<Rcu>, steps: seq<Step>, i: nat, j: nat, r: ReaderId)
    requires Lookup(hash, states, steps, i, j, r)
    requires AtMostOneChange(states, i, j, steps[i].name) && NoneHalfAdded(states[i], steps[i].name)
    ensures exists m :: i <= m <= j
              && Meant(states, steps, m, steps[i].name, steps[i].code) == states[j].readers[r].phase.result
  {
    AnswerOfOneMoment(hash, states, steps, i, j, r);
    var m :| i <= m <= j && SelectAt(states[m], steps[i].name, steps[i].code) == states[j].readers[r].phase.result;
    RunRefines(hash, states, steps, m);
    assert Meant(states, steps, m, steps[i].name, steps[i].code) == states[j].readers[r].phase.result;
  }

  lemma {:induction false} QuietLedger(first: Addr, steps: seq<Step>, i: nat, j: nat)
    requires i <= j <= |steps| && forall m :: i <= m < j ==> !Writes(steps[m])
    ensures Recorded(first, steps[..j]) == Recorded(first, steps[..i])
  {
    if i < j {
      QuietLedger(first, steps, i, j - 1);
      assert steps[..j][..j - 1] == steps[..j - 1] && !Writes(steps[j - 1]);
    }
  }

  lemma QuietChangesNothing(hash: Hash, states: seq<Rcu>, steps: seq<Step>, c: nat, name: string)
    requires IsRun(hash, states, steps) && Init(states[0]) && c < |steps| && !Writes(steps[c])
    ensures !Changes(states, c, name)
  {
    RunInv(hash, states, steps, c);
    assert StepAt(hash, states, steps, c);
    forall k, v ensures Has(states[c], k, v) <==> Has(states[c + 1], k, v) {
      OthersWriteNothing(hash, states[c], steps[c], k, v);
    }
  }

  /** A lookup during which no writer touches the rules answers exactly by what the writers' steps
      before it have made, unless a rule of its name is half added when it begins. */
  lemma QuietLookup(hash: Hash, states: seq<Rcu>, steps: seq<Step>, i: nat, j: nat, r: ReaderId)
    requires Lookup(hash, states, steps, i, j, r) && NoneHalfAdded(states[i], steps[i].name)
    requires forall m :: i <= m < j ==> !Writes(steps[m])
    ensures states[j].readers[r].phase.result == Meant(states, steps, i, steps[i].name, steps[i].code)
  {
    forall c | i <= c < j ensures !Changes(states, c, steps[i].name) {
      QuietChangesNothing(hash, states, steps, c, steps[i].name);
    }
    AnswerIsMeant(hash, states, steps, i, j, r);
    var m :| i <= m <= j && Meant(states, steps, m, steps[i].name, steps[i].code) == states[j].readers[r].phase.result;
    QuietLedger(states[0].top, steps, i, m);
  }
}
