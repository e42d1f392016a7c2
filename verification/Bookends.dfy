/** How a run may begin and how it may end: the entry requirements, the outputs, and
    what it names when it goes wrong. */
module Bookends {
  import opened Wrappers
  import opened Artifact
  import opened Escalation
  import opened Protocol
  import opened Flow
  import opened Histories
  import opened Interventions
  import HazardSafety
  import ResultSafety

  // ---------------------------------------------------------------- requirements

  /** Requirement `q` was seen holding before instant `k`, while the run waited for it. */
  predicate Met(inputs: seq<Instant>, states: seq<State>, k: nat, q: nat) {
    exists m :: 0 <= m < k && m < |states| && m < |inputs| && states[m].phase.Requires? && q in inputs[m].satisfied
  }

  predicate Visited(log: seq<Event>) {
    exists e :: e in log && e.Visited?
  }

  predicate Entry(phase: Phase) {
    phase.Starting? || phase.Requires?
  }

  ghost predicate EntryOk(cap: Capability, inputs: seq<Instant>, states: seq<State>, k: nat)
    requires k < |states|
  {
    && (states[k].phase.Starting? ==> k == 0)
    && (states[k].phase.Requires? ==>
          && inputs != [] && inputs[0].usable
          && forall q :: q in states[k].phase.pending <==> q in cap.requirements && !Met(inputs, states, k, q))
    && (!Entry(states[k].phase) && !states[k].phase.Ended? ==> Visited(states[k].log))
    && (Visited(states[k].log) ==>
          inputs != [] && inputs[0].usable && forall q :: q in cap.requirements ==> Met(inputs, states, k, q))
  }

  lemma {:induction false} EntriesAreOk(cap: Capability, cfg: Config, inputs: seq<Instant>, states: seq<State>, k: nat)
    requires Integrity(cap) && Behavior(cap, cfg, inputs, states) && k < |states|
    ensures EntryOk(cap, inputs, states, k)
  {
    hide Integrity, Next, Wf, Decides, Elapse, Met, Visited, Evolves;
    if k == 0 {
      assert !Visited(Initial(cap, cfg).log) by { NothingVisited(cap, cfg); }
    } else {
      EntriesAreOk(cap, cfg, inputs, states, k - 1);
      if states[k - 1].phase.Ended? {
        EndedStays(cap, cfg, inputs, states, k - 1);
        MetStays(inputs, states, k - 1, k);
      } else {
        RunMoves(cap, cfg, inputs, states, k - 1);
        EntryStep(cap, cfg, inputs, states, k, Elapse(cfg, states[k - 1], inputs[k - 1]));
      }
    }
  }

  lemma NothingVisited(cap: Capability, cfg: Config)
    ensures !Visited(Initial(cap, cfg).log)
  {
  }

  lemma MetStays(inputs: seq<Instant>, states: seq<State>, j: nat, k: nat)
    requires k == j + 1
    ensures forall q {:trigger Met(inputs, states, k, q)} :: Met(inputs, states, j, q) ==> Met(inputs, states, k, q)
    ensures j < |inputs| && j < |states| ==>
      forall q {:trigger Met(inputs, states, k, q)} :: Met(inputs, states, k, q) <==>
        Met(inputs, states, j, q) || (states[j].phase.Requires? && q in inputs[j].satisfied)
  {
  }

  lemma NothingMet(inputs: seq<Instant>, states: seq<State>)
    ensures forall q :: !Met(inputs, states, 0, q)
  {
  }

  lemma EntryStep(cap: Capability, cfg: Config, inputs: seq<Instant>, states: seq<State>, k: nat, e: State)
    requires 0 < k < |states| && k <= |inputs| && Wf(cap, e) && EntryOk(cap, inputs, states, k - 1)
    requires Decides(cap, cfg, e, inputs[k - 1], states[k]) && Evolves(cap, cfg, e, inputs[k - 1], states[k])
    requires e.phase == states[k - 1].phase && states[k - 1].log <= e.log
    requires forall i :: |states[k - 1].log| <= i < |e.log| ==> e.log[i].Console?
    requires !e.phase.Ended?
    ensures EntryOk(cap, inputs, states, k)
  {
    hide Decides, Met, Visited;
    var s, t, r := states[k - 1], inputs[k - 1], states[k];
    MetStays(inputs, states, k - 1, k);
    VisitedGrows(s.log, e.log);
    if Entry(s.phase) {
      NothingMet(inputs, states);
      EntryOpens(cap, cfg, e, t, r);
    } else {
      VisitedGrows(e.log, r.log);
    }
  }

  lemma VisitedGrows(a: seq<Event>, b: seq<Event>)
    requires a <= b
    ensures Visited(a) ==> Visited(b)
    ensures (forall i :: |a| <= i < |b| ==> !b[i].Visited?) ==> (Visited(b) <==> Visited(a))
  {
    if Visited(a) {
      var x :| x in a && x.Visited?;
      var i :| 0 <= i < |a| && a[i] == x;
      assert b[i] == x;
    }
  }

  /** What opens the run: every requirement seen, on a page that can be read. */
  lemma EntryOpens(cap: Capability, cfg: Config, e: State, t: Instant, r: State)
    requires Wf(cap, e) && Entry(e.phase) && Decides(cap, cfg, e, t, r)
    ensures r.phase.Requires? ==> r.log == e.log
    ensures e.phase.Starting? ==>
      if !t.usable then r.phase.Ended? && r.log == e.log
      else if cap.requirements == {} then InVisit(r.phase) && Visited(r.log)
      else if cfg.requiresBudget > 0 then r.phase == Requires(cap.requirements)
      else r.phase == Ended(PreconditionFailed) && r.log == e.log
    ensures e.phase.Requires? ==>
      if e.phase.pending <= t.satisfied then InVisit(r.phase) && Visited(r.log)
      else if e.now < e.deadline then
        r.phase.Requires? && forall q :: q in r.phase.pending <==> q in e.phase.pending && q !in t.satisfied
      else r.phase == Ended(PreconditionFailed) && r.log == e.log
  {
    hide Said;
    if |r.log| > 0 && r.log[|r.log| - 1].Visited? {
      assert r.log[|r.log| - 1] in r.log;
    }
  }

  /** Over every run: no step is visited before the page could be read and every entry
      requirement was seen holding. */
  lemma StepsFollowRequirements(cap: Capability, cfg: Config, inputs: seq<Instant>, states: seq<State>, q: nat)
    requires Integrity(cap) && Behavior(cap, cfg, inputs, states) && Visited(Last(states).log) && q in cap.requirements
    ensures inputs != [] && inputs[0].usable && Met(inputs, states, |inputs|, q)
  {
    hide Integrity, Next, Wf;
    EntriesAreOk(cap, cfg, inputs, states, |states| - 1);
  }

  /** While requirements are waited for, the next instant is a visit if all have been
      seen, more waiting before the budget is spent, and after that PRECONDITION_FAILED
      with a requirement that was never seen. */
  lemma RequirementsDecide(cap: Capability, cfg: Config, inputs: seq<Instant>, states: seq<State>, k: nat)
    requires Integrity(cap) && Behavior(cap, cfg, inputs, states) && k < |inputs| && states[k].phase.Requires?
    ensures |states| > 1
    ensures var unmet := exists q :: q in cap.requirements && !Met(inputs, states, k + 1, q);
      var due := states[1].now + cfg.requiresBudget; var r := states[k + 1];
      if !unmet then InVisit(r.phase) else if r.now < due then r.phase.Requires?
          else r.phase == Ended(PreconditionFailed)
  {
    hide Integrity, Next, Wf, Decides, Elapse, Met, Visited, Evolves;
    EntriesAreOk(cap, cfg, inputs, states, k);
    EverythingIsTimed(cap, cfg, inputs, states, k);
    RunMoves(cap, cfg, inputs, states, k);
    MetStays(inputs, states, k, k + 1);
    var e := Elapse(cfg, states[k], inputs[k]);
    EntryOpens(cap, cfg, e, inputs[k], states[k + 1]);
    SameClock(cap, cfg, e, inputs[k], states[k + 1]);
  }

  lemma SameClock(cap: Capability, cfg: Config, e: State, t: Instant, r: State)
    requires Evolves(cap, cfg, e, t, r)
    ensures r.now == e.now && r.dispatched == e.dispatched && r.blocked == e.blocked && e.log <= r.log
  {
    hide Continues;
  }

  // ------------------------------------------------------------------ the review

  /** A review is demanded, there is no operator, some step is consequential, and the
      capability was not validly reviewed. */
  predicate MustBeReviewed(cap: Capability, cfg: Config) {
    && cfg.requireReview && cfg.attended.None? && !cap.reviewValid
    && exists i :: 0 <= i < |cap.steps| && cap.steps[i].risk == Risky
  }

  /** Over every run: one that must be reviewed and was not is refused before anything
      happens, and no other ever ends in that refusal. */
  lemma {:induction false} ReviewIsRequired(cap: Capability, cfg: Config, inputs: seq<Instant>, states: seq<State>,
                                            k: nat)
    requires Integrity(cap) && Behavior(cap, cfg, inputs, states) && k < |states|
    ensures states[k].phase == Ended(PolicyViolation(UnattendedRiskyRequiresReview)) <==> MustBeReviewed(cap, cfg)
    ensures MustBeReviewed(cap, cfg) ==> states[k].log == [] && states[k].dispatched == []
  {
    hide Integrity, Next, Wf, Decides, Elapse, Evolves, MustBeReviewed;
    if k == 0 {
      RefusedIs(cap, cfg);
    } else {
      ReviewIsRequired(cap, cfg, inputs, states, k - 1);
      if states[k - 1].phase.Ended? {
        EndedStays(cap, cfg, inputs, states, k - 1);
      } else {
        RunMoves(cap, cfg, inputs, states, k - 1);
        NeverRefusedLater(cap, cfg, Elapse(cfg, states[k - 1], inputs[k - 1]), inputs[k - 1], states[k]);
      }
    }
  }

  lemma RefusedIs(cap: Capability, cfg: Config)
    ensures Initial(cap, cfg).phase == Ended(PolicyViolation(UnattendedRiskyRequiresReview))
      <==> MustBeReviewed(cap, cfg)
    ensures Initial(cap, cfg).log == [] && Initial(cap, cfg).dispatched == []
  {
  }

  lemma NeverRefusedLater(cap: Capability, cfg: Config, e: State, t: Instant, r: State)
    requires Wf(cap, e) && Decides(cap, cfg, e, t, r) && !e.phase.Ended?
    ensures r.phase != Ended(PolicyViolation(UnattendedRiskyRequiresReview))
  {
    hide PollDecides, ActDecides, Named, Decides;
    if GoesWrong(r.phase) {
      var at, late := WrongIsSaid(cap, cfg, e, t, r);
    }
  }

  // --------------------------------------------------------------------- outputs

  /** Output `i` was read before instant `k`. */
  predicate Read(inputs: seq<Instant>, states: seq<State>, k: nat, i: nat) {
    exists m :: 0 <= m < k && m < |states| && m < |inputs| && states[m].phase == Output(i) && inputs[m].readable
  }

  predicate Observed(inputs: seq<Instant>, states: seq<State>, k: nat) {
    exists m :: 0 <= m < k && m < |states| && m < |inputs| && states[m].phase == Observe && inputs[m].readable
  }

  predicate ReadOk(cap: Capability, cfg: Config, inputs: seq<Instant>, states: seq<State>, k: nat)
    requires k < |states|
  {
    match states[k].phase
    case Output(j) => j < cap.outputs && forall i :: 0 <= i < j ==> Read(inputs, states, k, i)
    case Observe => cfg.observes && forall i :: 0 <= i < cap.outputs ==> Read(inputs, states, k, i)
    case Ended(Success) =>
      (forall i :: 0 <= i < cap.outputs ==> Read(inputs, states, k, i))
          && (cfg.observes ==> Observed(inputs, states, k))
    case _ => true
  }

  /** Success, the observer and the outputs come one after another. */
  predicate ReadsOn(cap: Capability, cfg: Config, e: State, t: Instant, r: State) {
    match r.phase
    case Output(j) => j < cap.outputs && (j == 0 || (e.phase == Output(j - 1) && t.readable))
    case Observe => cfg.observes && if cap.outputs == 0 then true else e.phase == Output(cap.outputs - 1) && t.readable
    case Ended(Success) =>
      || e.phase == Ended(Success)
      || (cfg.observes && e.phase == Observe && t.readable)
      || (!cfg.observes && if cap.outputs == 0 then true else e.phase == Output(cap.outputs - 1) && t.readable)
    case _ => true
  }

  predicate Reading(phase: Phase) {
    phase.Output? || phase.Observe? || phase == Ended(Success)
  }

  lemma FailingNeverReads(cap: Capability, cfg: Config, n: State, r: State, at: Option<string>, late: bool)
    ensures Fails(cap, cfg, n, r, at, late) ==> !Reading(r.phase)
    ensures StepFails(cap, cfg, n, r) ==> !Reading(r.phase)
    ensures !Said(cap, n, at, late).Success?
  {
    hide Noting, Dispatching;
  }

  lemma PollNeverReads(cap: Capability, cfg: Config, e: State, t: Instant, acted: bool, r: State)
    requires Wf(cap, e) && e.phase == Poll(acted) && PollDecides(cap, cfg, e, t, acted, r)
    ensures !Reading(r.phase)
  {
    hide Said, Silent, SpeaksFirst, Interrupted, RecoveryDecides, Fails, StepFails, Reading;
    FailingNeverReads(cap, cfg, e, r, Here(cap, e), false);
    FailingNeverReads(cap, cfg, e, r, None, false);
    if !Interrupted(cfg, e) && !Silent(cap, e, t) {
      var c: nat :| SpeaksFirst(cap, e, t, c) && Recognized(cap, cfg, e, c, acted, r);
      if cap.conditions[c].classify.Recoverable? {
        RecoveryNeverReads(cap, cfg, e, c, acted, r);
      } else {
        assert !Reading(r.phase) by { OtherNeverReads(r.phase); }
      }
    } else {
      assert r.phase.Act? || r.phase.Check? ==> !Reading(r.phase) by { OtherNeverReads(r.phase); }
      assert r.phase == Ended(Said(cap, e, None, false)) ==> !Reading(r.phase) by { OtherNeverReads(r.phase); }
    }
  }

  lemma OtherNeverReads(phase: Phase)
    ensures phase.Act? || phase.Check? || phase.RecoverAct? || (phase.Ended? && !phase.result.Success?) ==>
      !Reading(phase)
  {
  }

  lemma RecoveryNeverReads(cap: Capability, cfg: Config, e: State, c: nat, acted: bool, r: State)
    requires c < |cap.conditions| && cap.conditions[c].classify.Recoverable?
    requires RecoveryDecides(cap, cfg, e, c, acted, r)
    ensures !Reading(r.phase)
  {
    hide Said, Aims, Dispatching, Fails, Reading;
    var counted := e.(fires := e.fires[cap.conditions[c].id := Times(e, cap.conditions[c].id) + 1]);
    FailingNeverReads(cap, cfg, counted, r, Here(cap, e), false);
    FailingNeverReads(cap, cfg, counted.(log := e.log + [Consequential(e.index, e.mark)]), r, Here(cap, e), true);
    OtherNeverReads(r.phase);
  }

  lemma ActNeverReads(cap: Capability, cfg: Config, e: State, t: Instant, r: State)
    requires Wf(cap, e) && e.phase.Act? && ActDecides(cap, cfg, e, t, r)
    ensures !Reading(r.phase)
  {
    hide Noting, StepFails;
    FailingNeverReads(cap, cfg, e.(log := e.log + [Attempted(e.index)]), r, None, false);
  }

  lemma OthersNeverRead(cap: Capability, cfg: Config, e: State, t: Instant, r: State)
    requires Wf(cap, e) && Decides(cap, cfg, e, t, r)
    requires Entry(e.phase) || e.phase.Snapshot? || e.phase.Refresh? || e.phase.Probe? || Recuperating(e.phase)
    ensures !Reading(r.phase)
  {
    hide Noting, Armable;
  }

  lemma ParkNeverReads(cap: Capability, cfg: Config, e: State, t: Instant, r: State)
    requires Wf(cap, e) && Decides(cap, cfg, e, t, r)
    requires e.phase.Scan? || e.phase.Asking? || e.phase.Releasing? || Intervening(e.phase)
    ensures !Reading(r.phase)
  {
    hide Furthest;
  }

  lemma PhasesReadOn(cap: Capability, cfg: Config, e: State, t: Instant, r: State)
    requires Wf(cap, e) && Decides(cap, cfg, e, t, r)
    requires (e.phase.Output? ==> e.phase.k < cap.outputs) && (e.phase.Observe? ==> cfg.observes)
    ensures ReadsOn(cap, cfg, e, t, r)
  {
    hide PollDecides, ActDecides, ProbeDecides, ScanDecides, StartingDecides, RequiresDecides, SnapshotDecides,
         RefreshDecides,
         RecoverActDecides, RecoverCheckDecides, AskingDecides, ParkPopDecides, ParkTakeDecides, ReleasingDecides,
             Visits;
    match e.phase
    case Poll(acted) => PollNeverReads(cap, cfg, e, t, acted, r);
    case Act => ActNeverReads(cap, cfg, e, t, r);
    case Check => CheckReads(cap, cfg, e, t, r);
    case Output(_) => FailingNeverReads(cap, cfg, e, r, None, false);
    case Observe => FailingNeverReads(cap, cfg, e, r, None, false);
    case Ended(_) =>
    case Starting => OthersNeverRead(cap, cfg, e, t, r);
    case Requires(_) => OthersNeverRead(cap, cfg, e, t, r);
    case Snapshot => OthersNeverRead(cap, cfg, e, t, r);
    case Refresh(_) => OthersNeverRead(cap, cfg, e, t, r);
    case Probe => OthersNeverRead(cap, cfg, e, t, r);
    case RecoverAct(_, _, _) => OthersNeverRead(cap, cfg, e, t, r);
    case RecoverCheck(_, _, _) => OthersNeverRead(cap, cfg, e, t, r);
    case _ => ParkNeverReads(cap, cfg, e, t, r);
  }

  lemma CheckReads(cap: Capability, cfg: Config, e: State, t: Instant, r: State)
    requires Wf(cap, e) && e.phase.Check? && CheckDecides(cap, cfg, e, t, r)
    ensures ReadsOn(cap, cfg, e, t, r)
  {
  }

  lemma {:induction false} ReadingsAreOk(cap: Capability, cfg: Config, inputs: seq<Instant>, states: seq<State>, k: nat)
    requires Integrity(cap) && Behavior(cap, cfg, inputs, states) && k < |states|
    ensures ReadOk(cap, cfg, inputs, states, k)
  {
    hide Integrity, Next, Wf, Decides, Elapse, Read, Observed, Evolves;
    if k > 0 {
      ReadingsAreOk(cap, cfg, inputs, states, k - 1);
      ReadStays(inputs, states, k - 1, k);
      if states[k - 1].phase.Ended? {
        EndedStays(cap, cfg, inputs, states, k - 1);
        assert states[k].phase == Ended(Success) ==> states[k - 1].phase == Ended(Success);
      } else {
        RunMoves(cap, cfg, inputs, states, k - 1);
        PhasesReadOn(cap, cfg, Elapse(cfg, states[k - 1], inputs[k - 1]), inputs[k - 1], states[k]);
      }
    }
  }

  lemma ReadStays(inputs: seq<Instant>, states: seq<State>, j: nat, k: nat)
    requires k == j + 1
    ensures forall i {:trigger Read(inputs, states, k, i)} :: Read(inputs, states, j, i) ==> Read(inputs, states, k, i)
    ensures Observed(inputs, states, j) ==> Observed(inputs, states, k)
    ensures j < |inputs| && j < |states| && inputs[j].readable ==>
      && (states[j].phase.Output? ==> Read(inputs, states, k, states[j].phase.k))
      && (states[j].phase == Observe ==> Observed(inputs, states, k))
  {
  }

  /** Over every run: success has read every output, and the observer if there is one. */
  lemma SuccessReadEverything(cap: Capability, cfg: Config, inputs: seq<Instant>, states: seq<State>)
    requires Integrity(cap) && Behavior(cap, cfg, inputs, states) && Last(states).phase == Ended(Success)
    ensures forall i :: 0 <= i < cap.outputs ==> Read(inputs, states, |inputs|, i)
    ensures cfg.observes ==> Observed(inputs, states, |inputs|)
  {
    hide Integrity, Next, Wf;
    ReadingsAreOk(cap, cfg, inputs, states, |states| - 1);
  }

  // ------------------------------------------------------------- what goes wrong

  /** The result is what the run's record allows of a failure at `at`. */
  predicate SaidOf(cap: Capability, r: State, at: Option<string>, late: bool) {
    && r.phase == Ended(Said(cap, r, at, late))
    && (late ==> at == Here(cap, r) && Consequential(r.index, r.mark) in r.log)
  }

  lemma FailsSaid(cap: Capability, cfg: Config, n: State, r: State, at: Option<string>, late: bool)
    requires Fails(cap, cfg, n, r, at, late) && r.phase.Ended?
    requires late ==> at == Here(cap, n) && Consequential(n.index, n.mark) in n.log
    ensures SaidOf(cap, r, at, late)
  {
  }

  lemma StepFailsSaid(cap: Capability, cfg: Config, b: State, r: State) returns (at: Option<string>, late: bool)
    requires StepFails(cap, cfg, b, r) && r.phase.Ended?
    ensures SaidOf(cap, r, at, late)
  {
    hide Dispatching;
    at, late := Here(cap, b), Dispatching(cap, b);
    FailsSaid(cap, cfg, Noting(cap, b), r, at, late);
  }

  lemma RecoverySaid(cap: Capability, cfg: Config, e: State, c: nat, acted: bool, r: State)
    returns (at: Option<string>, late: bool)
    requires c < |cap.conditions| && cap.conditions[c].classify.Recoverable?
    requires RecoveryDecides(cap, cfg, e, c, acted, r) && r.phase.Ended?
    ensures SaidOf(cap, r, at, late)
  {
    hide Said, Aims, Dispatching, Fails;
    var counted := e.(fires := e.fires[cap.conditions[c].id := Times(e, cap.conditions[c].id) + 1]);
    var noted := counted.(log := e.log + [Consequential(e.index, e.mark)]);
    at, late := Here(cap, e), false;
    if Fails(cap, cfg, counted, r, at, false) {
      FailsSaid(cap, cfg, counted, r, at, false);
    } else {
      late := true;
      FailsSaid(cap, cfg, noted, r, at, true);
    }
  }

  lemma PollSaid(cap: Capability, cfg: Config, e: State, t: Instant, acted: bool, r: State)
    returns (at: Option<string>, late: bool)
    requires Wf(cap, e) && e.phase == Poll(acted) && PollDecides(cap, cfg, e, t, acted, r) && GoesWrong(r.phase)
    ensures SaidOf(cap, r, at, late)
  {
    hide Said, Silent, SpeaksFirst, Interrupted, RecoveryDecides, Fails, StepFails;
    at, late := Here(cap, e), false;
    if Interrupted(cfg, e) {
      FailsSaid(cap, cfg, e, r, at, false);
    } else if Silent(cap, e, t) {
      if StepFails(cap, cfg, e, r) {
        at, late := StepFailsSaid(cap, cfg, e, r);
      } else if Fails(cap, cfg, e, r, None, false) {
        at := None;
        FailsSaid(cap, cfg, e, r, None, false);
      } else {
        at := None;
        SameSaid(cap, e, r, None);
      }
    } else {
      var c: nat :| SpeaksFirst(cap, e, t, c) && Recognized(cap, cfg, e, c, acted, r);
      at, late := RecoverySaid(cap, cfg, e, c, acted, r);
    }
  }

  lemma SameSaid(cap: Capability, e: State, r: State, at: Option<string>)
    requires r == e.(phase := Ended(Said(cap, e, at, false))) || (r.hazard == e.hazard && r.blocked == e.blocked
      && r.blockMark == e.blockMark && r.phase == Ended(Said(cap, e, at, false)))
    ensures SaidOf(cap, r, at, false)
  {
  }

  lemma ActSaid(cap: Capability, cfg: Config, e: State, t: Instant, r: State) returns (at: Option<string>, late: bool)
    requires Wf(cap, e) && e.phase.Act? && ActDecides(cap, cfg, e, t, r) && GoesWrong(r.phase)
    ensures SaidOf(cap, r, at, late)
  {
    hide Noting, StepFails;
    at, late := StepFailsSaid(cap, cfg, e.(log := e.log + [Attempted(e.index)]), r);
  }

  lemma OthersSaid(cap: Capability, cfg: Config, e: State, t: Instant, r: State) returns (at: Option<string>)
    requires Wf(cap, e) && Decides(cap, cfg, e, t, r) && GoesWrong(r.phase)
    requires !e.phase.Poll? && !e.phase.Act? && !e.phase.Ended? && !Recuperating(e.phase)
    ensures SaidOf(cap, r, at, false)
  {
    hide Said, Noting, Armable, Furthest;
    match e.phase
    case ParkTake(a, _) =>
      at := if e.hub.decision == Abort then a else None;
      SameSaid(cap, e, r, at);
    case Scan =>
      at := if exists i :: 0 <= i < |cap.steps| && i in t.posts then None else Here(cap, e);
      SameSaid(cap, e, r, at);
    case _ =>
      at := None;
      SameSaid(cap, e, r, at);
  }

  lemma RecuperatingSaid(cap: Capability, cfg: Config, e: State, t: Instant, r: State) returns (at: Option<string>)
    requires Wf(cap, e) && Decides(cap, cfg, e, t, r) && GoesWrong(r.phase) && Recuperating(e.phase)
    ensures SaidOf(cap, r, at, false)
  {
    hide Said, Visits, Fails;
    at := Some(cap.conditions[e.phase.c].classify.recovery[e.phase.k].id);
    var tried := e.(log := e.log + [RecoveryAttempted(e.phase.c, e.phase.k)]);
    if Fails(cap, cfg, tried, r, at, false) {
      FailsSaid(cap, cfg, tried, r, at, false);
    } else if Fails(cap, cfg, e, r, at, false) {
      FailsSaid(cap, cfg, e, r, at, false);
    } else {
      at := None;
      RecuperatingCrashes(cap, cfg, e, t, r);
      SameSaid(cap, e, r, None);
    }
  }

  lemma RecuperatingCrashes(cap: Capability, cfg: Config, e: State, t: Instant, r: State)
    requires Wf(cap, e) && Decides(cap, cfg, e, t, r) && GoesWrong(r.phase) && Recuperating(e.phase)
    requires var at := Some(cap.conditions[e.phase.c].classify.recovery[e.phase.k].id);
      && !Fails(cap, cfg, e.(log := e.log + [RecoveryAttempted(e.phase.c, e.phase.k)]), r, at, false)
      && !Fails(cap, cfg, e, r, at, false)
    ensures r == e.(phase := Ended(Said(cap, e, None, false)))
  {
    hide Said, Fails;
  }

  lemma WrongIsSaid(cap: Capability, cfg: Config, e: State, t: Instant, r: State)
    returns (at: Option<string>, late: bool)
    requires Wf(cap, e) && Decides(cap, cfg, e, t, r) && GoesWrong(r.phase) && !e.phase.Ended?
    ensures SaidOf(cap, r, at, late)
  {
    hide PollDecides, ActDecides, SaidOf;
    late := false;
    match e.phase
    case Poll(acted) => at, late := PollSaid(cap, cfg, e, t, acted, r);
    case Act => at, late := ActSaid(cap, cfg, e, t, r);
    case RecoverAct(_, _, _) => at := RecuperatingSaid(cap, cfg, e, t, r);
    case RecoverCheck(_, _, _) => at := RecuperatingSaid(cap, cfg, e, t, r);
    case _ => at := OthersSaid(cap, cfg, e, t, r);
  }

  /** The hazard of the run stands on its log. */
  lemma {:induction false} HazardsAreLogged(cap: Capability, cfg: Config, inputs: seq<Instant>, states: seq<State>,
                                            k: nat)
    requires Integrity(cap) && Behavior(cap, cfg, inputs, states) && k < |states|
    ensures states[k].hazard.Some? ==> HazardRaised(states[k].hazard.value.index) in states[k].log
  {
    hide Integrity, Next, Wf, Decides, Elapse, Continues;
    if k > 0 {
      HazardsAreLogged(cap, cfg, inputs, states, k - 1);
      if states[k - 1].phase.Ended? {
        EndedStays(cap, cfg, inputs, states, k - 1);
      } else {
        RunMoves(cap, cfg, inputs, states, k - 1);
        var s, e, r := states[k - 1], Elapse(cfg, states[k - 1], inputs[k - 1]), states[k];
        if r.hazard.Some? && r.hazard == e.hazard {
          var i :| 0 <= i < |s.log| && s.log[i] == HazardRaised(r.hazard.value.index);
          assert r.log[i] == s.log[i];
        }
      }
    }
  }

  lemma HazardsAgree(cap: Capability, r: State)
    requires HazardSafety.Sound(cap, r.log, r.hazard)
    ensures forall h :: HazardRaised(h) in r.log ==> r.hazard.Some? && h == r.hazard.value.index
    ensures r.hazard.Some? ==> r.hazard.value.index < |cap.steps|
  {
    hide HazardSafety.NoRefire;
  }

  lemma LateIsAtStep(cap: Capability, r: State, at: Option<string>, late: bool)
    requires ResultSafety.Evident(cap, r.log, r.dispatched, r.hazard) && SaidOf(cap, r, at, late)
    ensures late ==> r.index < |cap.steps|
  {
    hide Mutations;
    if late {
      assert ResultSafety.Backed(cap, r.dispatched, Consequential(r.index, r.mark));
    }
  }

  /** What goes wrong is named after the step that raised the hazard, if one did; else
      UNRESOLVED names the step being visited, whose dispatch is on the log; else it is
      traffic blocked since the last mark, or a plain failure. */
  ghost predicate Named(cap: Capability, r: State) {
    && r.phase.Ended?
    && (forall h: nat :: HazardRaised(h) in r.log ==>
          h < |cap.steps| && r.phase.result == Unresolved(cap.steps[h].id, true))
    && (r.phase.result.Unresolved? ==>
          || (exists h: nat :: HazardRaised(h) in r.log)
          || (&& r.index < |cap.steps| && r.phase.result == Unresolved(cap.steps[r.index].id, true)
              && Consequential(r.index, r.mark) in r.log))
    && (r.phase.result.Unresolved? || r.phase.result.Failure? || r.phase.result == PolicyViolation(OffAllowlistTraffic))
    && (r.phase.result.PolicyViolation? <==> !r.phase.result.Unresolved? && r.blocked > r.blockMark)
  }

  lemma SaidIsNamed(cap: Capability, r: State, at: Option<string>, late: bool)
    requires SaidOf(cap, r, at, late) && (late ==> r.index < |cap.steps|)
    requires r.hazard.Some? ==> r.hazard.value.index < |cap.steps| && HazardRaised(r.hazard.value.index) in r.log
    requires forall h :: HazardRaised(h) in r.log ==> r.hazard.Some? && h == r.hazard.value.index
    ensures Named(cap, r)
  {
  }

  /** Over every run: whatever goes wrong is named for what it was. */
  lemma WhatGoesWrongIsNamed(cap: Capability, cfg: Config, inputs: seq<Instant>, states: seq<State>, k: nat)
    requires Integrity(cap) && Behavior(cap, cfg, inputs, states) && k < |inputs|
    requires !states[k].phase.Ended? && GoesWrong(states[k + 1].phase)
    ensures Named(cap, states[k + 1])
  {
    hide Integrity, Next, Wf, Decides, Elapse, Evolves, SaidOf, Named, HazardSafety.Sound, ResultSafety.Evident;
    RunMoves(cap, cfg, inputs, states, k);
    var r := states[k + 1];
    var at, late := WrongIsSaid(cap, cfg, Elapse(cfg, states[k], inputs[k]), inputs[k], r);
    HazardsAreLogged(cap, cfg, inputs, states, k + 1);
    HazardSafety.Always(cap, cfg, inputs, states, k + 1);
    HazardsAgree(cap, r);
    ResultSafety.Always(cap, cfg, inputs, states, k + 1);
    LateIsAtStep(cap, r, at, late);
    SaidIsNamed(cap, r, at, late);
  }

  /** The place a plain failure is reported at: the recovery's step, or the step being
      visited; the checkpoint has no name. */
  function Place(cap: Capability, s: State): Option<string>
    requires Wf(cap, s)
  {
    match s.phase
    case RecoverAct(c, k, _) => Some(cap.conditions[c].classify.recovery[k].id)
    case RecoverCheck(c, k, _) => Some(cap.conditions[c].classify.recovery[k].id)
    case _ => if s.index < |cap.steps| then Some(cap.steps[s.index].id) else None
  }

  predicate FailsAt(r: State, at: Option<string>) {
    r.phase.Ended? && r.phase.result.Failure? ==> r.phase.result.at == at
  }

  lemma FailsNames(cap: Capability, cfg: Config, n: State, r: State, at: Option<string>, late: bool)
    ensures Fails(cap, cfg, n, r, at, late) ==> FailsAt(r, at)
    ensures StepFails(cap, cfg, n, r) ==> FailsAt(r, Here(cap, n))
  {
    hide Dispatching;
  }

  lemma RecoveryNames(cap: Capability, cfg: Config, e: State, c: nat, acted: bool, r: State)
    requires c < |cap.conditions| && cap.conditions[c].classify.Recoverable?
    requires RecoveryDecides(cap, cfg, e, c, acted, r)
    ensures FailsAt(r, Here(cap, e))
  {
    hide Said, Aims, Dispatching, Fails;
    var counted := e.(fires := e.fires[cap.conditions[c].id := Times(e, cap.conditions[c].id) + 1]);
    FailsNames(cap, cfg, counted, r, Here(cap, e), false);
    FailsNames(cap, cfg, counted.(log := e.log + [Consequential(e.index, e.mark)]), r, Here(cap, e), true);
  }

  lemma PollNames(cap: Capability, cfg: Config, e: State, t: Instant, acted: bool, r: State)
    requires Wf(cap, e) && e.phase == Poll(acted) && PollDecides(cap, cfg, e, t, acted, r) && t.usable
    ensures FailsAt(r, Place(cap, e))
  {
    hide Said, Silent, SpeaksFirst, Interrupted, RecoveryDecides, Fails, StepFails;
    FailsNames(cap, cfg, e, r, Here(cap, e), false);
    if !Interrupted(cfg, e) && !Silent(cap, e, t) {
      var c: nat :| SpeaksFirst(cap, e, t, c) && Recognized(cap, cfg, e, c, acted, r);
      if cap.conditions[c].classify.Recoverable? {
        RecoveryNames(cap, cfg, e, c, acted, r);
      }
    }
  }

  lemma ActNames(cap: Capability, cfg: Config, e: State, t: Instant, r: State)
    requires Wf(cap, e) && e.phase.Act? && ActDecides(cap, cfg, e, t, r)
    ensures FailsAt(r, Place(cap, e))
  {
    hide StepFails, Dispatching;
    FailsNames(cap, cfg, e.(log := e.log + [Attempted(e.index)]), r, None, false);
  }

  lemma OthersName(cap: Capability, cfg: Config, e: State, t: Instant, r: State)
    requires Wf(cap, e) && Decides(cap, cfg, e, t, r) && t.usable && (InVisit(e.phase) || Recuperating(e.phase))
    requires !e.phase.Poll? && !e.phase.Act?
    ensures FailsAt(r, Place(cap, e))
  {
    hide Said, Dispatching, Armable, Fails;
    if Recuperating(e.phase) {
      var at := Place(cap, e);
      FailsNames(cap, cfg, e.(log := e.log + [RecoveryAttempted(e.phase.c, e.phase.k)]), r, at, false);
      FailsNames(cap, cfg, e, r, at, false);
    }
  }

  /** Over every run: a plain failure of a visit or of a recovery, while the browser can be
      used, is reported at the step it happened at. */
  lemma FailuresNameTheirPlace(cap: Capability, cfg: Config, inputs: seq<Instant>, states: seq<State>, k: nat)
    requires Integrity(cap) && Behavior(cap, cfg, inputs, states) && k < |inputs| && inputs[k].usable
    requires InVisit(states[k].phase) || Recuperating(states[k].phase)
    requires states[k + 1].phase.Ended? && states[k + 1].phase.result.Failure?
    ensures states[k + 1].phase.result.at == Place(cap, states[k])
  {
    hide Integrity, Next, Elapse, Evolves, Decides, PollDecides, ActDecides;
    RunMoves(cap, cfg, inputs, states, k);
    var e, t, r := Elapse(cfg, states[k], inputs[k]), inputs[k], states[k + 1];
    ByPhase(cap, cfg, e, t, r);
  }

  lemma ByPhase(cap: Capability, cfg: Config, e: State, t: Instant, r: State)
    requires Wf(cap, e) && Decides(cap, cfg, e, t, r) && t.usable && (InVisit(e.phase) || Recuperating(e.phase))
    ensures FailsAt(r, Place(cap, e))
  {
    hide PollDecides, ActDecides, FailsAt, Place;
    match e.phase
    case Poll(acted) => PollNames(cap, cfg, e, t, acted, r);
    case Act => ActNames(cap, cfg, e, t, r);
    case _ => OthersName(cap, cfg, e, t, r);
  }
}
