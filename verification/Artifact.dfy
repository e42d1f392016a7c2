/** The capability contract, reduced to what the replay engine branches on. */
module Artifact {
  import opened Wrappers

  datatype Risk = Safe | Risky

  /** `probeable`: no postcondition of the step needs the step's own resolved
      target (a typed value or a selected option), so the effect of an attempt
      that timed out may be probed without it. */
  datatype Step = Step(id: string, risk: Risk, probeable: bool)

  datatype Resume = RetryCurrentStep | RestartFrom(stepId: string)

  /** A business outcome is an answer with a code; a recoverable condition
      carries its recovery and where to resume. The coherence rules between the
      class and its optional fields hold by construction. */
  datatype Classification =
    | Answer(code: string)
    | Recoverable(recovery: seq<Step>, resume: Resume)

  datatype Condition = Condition(id: string, armedAfter: string, classify: Classification, maxFires: nat)

  datatype Capability = Capability(
    steps: seq<Step>,
    conditions: seq<Condition>,
    outcomes: set<string>,
    requirements: set<nat>,  // the entry requirements
    outputs: nat,            // how many outputs to extract
    reviewValid: bool)       // carries a valid signed risk review

  /** Position of the step named `id`. */
  function IndexOf(steps: seq<Step>, id: string): (i: nat)
    requires exists k :: 0 <= k < |steps| && steps[k].id == id
    ensures i < |steps| && steps[i].id == id
  {
    if steps[0].id == id then 0 else
      assert exists k :: 0 <= k < |steps[1..]| && steps[1..][k].id == id by {
        var k :| 0 <= k < |steps| && steps[k].id == id;
        assert steps[1..][k - 1].id == id;
      }
      1 + IndexOf(steps[1..], id)
  }

  predicate Names(steps: seq<Step>, id: string) {
    exists k :: 0 <= k < |steps| && steps[k].id == id
  }

  predicate UniqueIds(steps: seq<Step>) {
    forall i, j :: 0 <= i < j < |steps| ==> steps[i].id != steps[j].id
  }

  predicate ConditionOk(cap: Capability, c: Condition) {
    && Names(cap.steps, c.armedAfter)
    && match c.classify
       case Answer(code) => code in cap.outcomes
       case Recoverable(recovery, resume) =>
         recovery != [] && UniqueIds(recovery) && (resume.RestartFrom? ==> Names(cap.steps, resume.stepId))
  }

  /** What loading an artifact checks of the fields modelled here. */
  predicate Integrity(cap: Capability) {
    && cap.steps != []
    && UniqueIds(cap.steps)
    && (forall k :: 0 <= k < |cap.conditions| ==> ConditionOk(cap, cap.conditions[k]))
    && (forall code :: code in cap.outcomes ==>
          exists k :: 0 <= k < |cap.conditions| && cap.conditions[k].classify == Answer(code))
  }

  lemma IndexOfUnique(steps: seq<Step>, i: nat)
    requires UniqueIds(steps) && i < |steps|
    ensures IndexOf(steps, steps[i].id) == i
  {
    var j := IndexOf(steps, steps[i].id);
    assert steps[j].id == steps[i].id;
  }

  /** Condition `c` is armed while the flow stands at `index`; at the checkpoint
      (index past the last step) every condition is. */
  predicate Armed(cap: Capability, c: nat, index: nat)
    requires Integrity(cap)
  {
    c < |cap.conditions| && IndexOf(cap.steps, cap.conditions[c].armedAfter) <= index
  }

  predicate IsAnswer(cap: Capability, c: nat) {
    c < |cap.conditions| && cap.conditions[c].classify.Answer?
  }

  predicate HasRisky(cap: Capability) {
    exists k :: 0 <= k < |cap.steps| && cap.steps[k].risk == Risky
  }
}
