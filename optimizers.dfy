/**
 * The optimizer as the manager drives it: a stateful `step()` that either hands back
 * one `{row index -> score}` mapping or raises `StopIteration` once it is exhausted.
 * The optimizer's own search is replaced by the script of outcomes it produces, call
 * by call; a call past the end of the script signals exhaustion.
 */
module Optimizers {
  import opened Common

  /** Scores are Python floats; they are only stored and overwritten, never computed on. */
  type Scores = map<int, real>

  datatype StepOutcome = Continue(scores: Scores) | Exhausted

  class Optimizer {
    /** The outcome of each call to `step()`, in call order. */
    const script: seq<StepOutcome>
    /** How many times `step()` has been called. */
    var calls: nat

    constructor (script: seq<StepOutcome>)
      ensures this.script == script && calls == 0
    {
      this.script := script;
      calls := 0;
    }

    /** `optimizer.step()`; `Exhausted` stands for the `StopIteration` it raises. */
    method Step() returns (o: StepOutcome)
      modifies this`calls
      ensures calls == old(calls) + 1
      ensures o == OutcomeAt(script, old(calls))
    {
      o := OutcomeAt(script, calls);
      calls := calls + 1;
    }
  }

  function OutcomeAt(script: seq<StepOutcome>, k: nat): StepOutcome
  {
    if k < |script| then script[k] else Exhausted
  }

  /** The outcomes still to come once `calls` calls have been made. */
  function Pending(script: seq<StepOutcome>, calls: nat): seq<StepOutcome>
  {
    if calls <= |script| then script[calls..] else []
  }

  lemma OutcomeAtPending(script: seq<StepOutcome>, calls: nat, i: nat)
    ensures OutcomeAt(script, calls + i) == OutcomeAt(Pending(script, calls), i)
  {
  }

  /** The mappings an optimizer hands out before it first signals exhaustion. */
  function Leading(s: seq<StepOutcome>): (r: seq<Scores>)
    ensures |r| <= |s|
    ensures forall i :: 0 <= i < |r| ==> s[i] == Continue(r[i])
    ensures |r| < |s| ==> s[|r|] == Exhausted
  {
    if s == [] || s[0].Exhausted? then [] else [s[0].scores] + Leading(s[1..])
  }

  /** Calling `step()` again after `i` leading mappings: exhausted exactly when they are all used up. */
  lemma StepAfterLeading(s: seq<StepOutcome>, i: nat)
    requires i <= |Leading(s)|
    ensures OutcomeAt(s, i).Exhausted? <==> i == |Leading(s)|
    ensures i < |Leading(s)| ==> OutcomeAt(s, i) == Continue(Leading(s)[i])
  {
  }

  /** What a run has yielded and how often it called `step()` when its loop ends after `i` mappings. */
  lemma RunEnds(s: seq<StepOutcome>, steps: Option<int>, i: nat, exhausted: bool)
    requires i <= |Leading(s)|
    requires steps.Some? ==> i <= Max0(steps.value)
    requires exhausted ==> i == |Leading(s)| && (steps.None? || i < steps.value)
    requires !exhausted ==> steps.Some? && i >= steps.value
    ensures Yielded(s, steps) == Leading(s)[..i]
    ensures CallCount(s, steps) == if exhausted then i + 1 else i
  {
  }

  /**
   * The mappings a run with budget `steps` yields when the optimizer's outcomes are `s`:
   * the ones before the first exhaustion, at most `steps` of them when a budget is given
   * (a negative budget, like `range` of a negative number, allows none).
   */
  function Yielded(s: seq<StepOutcome>, steps: Option<int>): (r: seq<Scores>)
    ensures |r| <= |s|
    ensures steps.Some? ==> |r| <= Max0(steps.value)
    ensures forall i :: 0 <= i < |r| ==> s[i] == Continue(r[i])
    ensures (steps.None? || |r| < steps.value) ==> |r| == |s| || s[|r|] == Exhausted
  {
    var l := Leading(s);
    if steps.Some? && steps.value < |l| then l[..Max0(steps.value)] else l
  }

  /** How many times such a run calls `step()`: once per yielded mapping, plus the call that was refused. */
  function CallCount(s: seq<StepOutcome>, steps: Option<int>): (r: nat)
    ensures steps.Some? ==> r <= Max0(steps.value)
    ensures r == |Yielded(s, steps)| || r == |Yielded(s, steps)| + 1
    ensures r == |Yielded(s, steps)| + 1 <==> |Yielded(s, steps)| == |Leading(s)| && (steps.None? || |Leading(s)| < steps.value)
  {
    var l := Leading(s);
    if steps.Some? && steps.value <= |l| then Max0(steps.value) else |l| + 1
  }
}
