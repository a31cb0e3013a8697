/** Lookups are never held up by writers, and reclaim is never held up by later lookups. */
module RuleRcuProgress {
  import opened Base
  import opened RuleTable
  import opened RuleRcu
  import opened RuleRcuProof

  /** The step is one of the lookup r itself. */
  predicate Own(step: Step, r: ReaderId) {
    (step.Enter? || step.Visit? || step.Move?) && step.r == r
  }

  /** How many entries are still before a walk; they are met from newer to older. */
  function Ahead(phase: Phase): nat {
    if phase.Walking? && phase.cur.Some? then 2 * phase.cur.value + (if phase.seen then 1 else 2) else 0
  }

  /** The next step of a lookup that has not answered. */
  function NextOf(s: Rcu, r: ReaderId): Step
    requires r in s.readers
  {
    var p := s.readers[r].phase;
    if p.Ready? then Enter(r) else if p.Walking? && p.cur.Some? && !p.seen then Visit(r) else Move(r)
  }

  /** It can always be made, and needs nothing of any writer. */
  lemma LookupGoesOn(hash: Hash, s: Rcu, r: ReaderId)
    requires Inv(hash, s) && r in s.readers && !s.readers[r].phase.Answer?
    ensures Enabled(hash, s, NextOf(s, r)) && Safe(s, NextOf(s, r))
  {
    StepSafe(hash, s, NextOf(s, r));
  }

  /** An own step brings the lookup nearer its answer. */
  lemma OwnStep(hash: Hash, s: Rcu, step: Step, r: ReaderId)
    requires Inv(hash, s) && Enabled(hash, s, step) && Safe(s, step) && Own(step, r) && r in s.readers
    ensures var x, x' := s.readers[r], Apply(hash, s, step).readers[r];
            && (step.Enter? ==> x.phase.Ready? && x'.phase.Walking? && Ahead(x'.phase) <= 2 * x'.born)
            && (!step.Enter? ==> x'.born == x.born && (x'.phase.Answer? || Ahead(x'.phase) < Ahead(x.phase)))
  {
    assert Holds(hash, Nexts, s) && Holds(hash, Heads, s) && Holds(hash, Shape, s);
  }

  lemma OtherStep(hash: Hash, s: Rcu, step: Step, r: ReaderId)
    requires Enabled(hash, s, step) && Safe(s, step) && !Own(step, r) && r in s.readers
    ensures var s' := Apply(hash, s, step); r in s'.readers && s'.readers[r] == s.readers[r]
  {
  }

  /** How many of the steps in [i, j) are the lookup's own. */
  function Steps(steps: seq<Step>, i: nat, j: nat, r: ReaderId): nat
    requires i <= j <= |steps|
  {
    if i == j then 0 else Steps(steps, i, j - 1, r) + (if Own(steps[j - 1], r) then 1 else 0)
  }

  /** The steps made so far and those ahead are within the bound. */
  predicate Within(x: Reader, made: nat) {
    match x.phase
    case Ready => made == 0
    case Walking(_, _, _) => made + Ahead(x.phase) <= 2 * x.born + 1
    case Answer(_, _) => made <= 2 * x.born + 2
  }

  lemma WithinNext(hash: Hash, s: Rcu, step: Step, r: ReaderId, made: nat)
    requires Inv(hash, s) && Enabled(hash, s, step) && Safe(s, step) && r in s.readers && Within(s.readers[r], made)
    ensures r in Apply(hash, s, step).readers
    ensures Within(Apply(hash, s, step).readers[r], made + if Own(step, r) then 1 else 0)
  {
    if Own(step, r) { OwnStep(hash, s, step, r); } else { OtherStep(hash, s, step, r); }
  }

  /** Whatever writers do meanwhile, a lookup can always go on, and makes at most two steps for every
      entry number given out before it entered, and two more. */
  lemma {:induction false} LookupIsWaitFree(hash: Hash, states: seq<Rcu>, steps: seq<Step>, i: nat, j: nat, r: ReaderId)
    requires IsRun(hash, states, steps) && Init(states[0]) && i < j < |states| && steps[i].Begin? && steps[i].r == r
    ensures r in states[j].readers && Within(states[j].readers[r], Steps(steps, i + 1, j, r))
    ensures Steps(steps, i + 1, j, r) <= 2 * states[j].readers[r].born + 2
    ensures states[j].readers[r].phase.Answer? ||
            (Enabled(hash, states[j], NextOf(states[j], r)) && Safe(states[j], NextOf(states[j], r)))
  {
    assert StepAt(hash, states, steps, j - 1);
    if i + 1 < j {
      LookupIsWaitFree(hash, states, steps, i, j - 1, r);
      RunInv(hash, states, steps, j - 1);
      WithinNext(hash, states[j - 1], steps[j - 1], r, Steps(steps, i + 1, j - 1, r));
    }
    RunInv(hash, states, steps, j);
    if !states[j].readers[r].phase.Answer? { LookupGoesOn(hash, states[j], r); }
  }

  // ----- Reclaim.

  lemma NeverLinkedAgain(hash: Hash, s: Rcu, step: Step, a: Addr)
    requires Inv(hash, s) && Enabled(hash, s, step) && Safe(s, step) && a < s.top && a !in s.linked
    ensures var s' := Apply(hash, s, step);
            && a < s'.top && a !in s'.linked && (a in s'.waits ==> a in s.waits && s'.waits[a] == s.waits[a])
            && forall r :: Answered(s, r) ==> Answered(s', r)
  {
  }

  lemma {:induction false} WaitsStay(hash: Hash, states: seq<Rcu>, steps: seq<Step>, i: nat, j: nat, a: Addr)
    requires IsRun(hash, states, steps) && Init(states[0]) && i <= j < |states| && a in states[i].waits
    ensures a < states[j].top && a !in states[j].linked
    ensures a in states[j].waits ==> states[j].waits[a] == states[i].waits[a]
    ensures forall r :: Answered(states[i], r) ==> Answered(states[j], r)
  {
    RunInv(hash, states, steps, i);
    assert Holds(hash, Shape, states[i]);
    if i < j {
      WaitsStay(hash, states, steps, i, j - 1, a);
      RunInv(hash, states, steps, j - 1);
      assert StepAt(hash, states, steps, j - 1);
      NeverLinkedAgain(hash, states[j - 1], steps[j - 1], a);
    }
  }

  /** Once the lookups that were inside when an entry was unlinked have answered, the entry can be
      reclaimed at any time, however many lookups have begun since. */
  lemma GraceEnds(hash: Hash, states: seq<Rcu>, steps: seq<Step>, i: nat, j: nat, a: Addr)
    requires IsRun(hash, states, steps) && Init(states[0]) && i <= j < |states|
    requires a in states[i].waits && a in states[j].waits
    requires forall r :: r in states[i].waits[a] ==> Answered(states[i], r)
    ensures Enabled(hash, states[j], Reclaim(a))
  {
    WaitsStay(hash, states, steps, i, j, a);
    assert forall r :: r in states[j].waits[a] ==> Answered(states[j], r) && r !in Active(states[j]);
  }
}
