/** What the fields of a run are, in terms of its history: which instant a deadline, a
    mark or a count goes back to. */
module Histories {
  import opened Wrappers
  import opened Artifact
  import opened Escalation
  import opened Protocol
  import opened Flow

  // ------------------------------------------------------- what one instant changes

  /** The log grew, and the last thing on it is `x`. */
  predicate Adds(e: State, r: State, x: Event) {
    |r.log| > |e.log| && r.log[|r.log| - 1] == x
  }

  /** A visit began: to a step, or to the checkpoint. */
  predicate Begins(cap: Capability, e: State, r: State) {
    Adds(e, r, Visited(r.index)) && r.phase == (if r.index < |cap.steps| then Snapshot else Check)
  }

  predicate Intervening(phase: Phase) {
    phase.ParkLook? || phase.ParkPop? || phase.ParkTake?
  }

  predicate Recuperating(phase: Phase) {
    phase.RecoverAct? || phase.RecoverCheck?
  }

  /** Visits, recoveries and interventions go on as they began. */
  predicate Continues(cap: Capability, cfg: Config, e: State, t: Instant, r: State) {
    && (InVisit(r.phase) ==>
          if Begins(cap, e, r) then r.deadline == e.now + cfg.stepBudget
          else InVisit(e.phase) && r.index == e.index && r.deadline == e.deadline)
    && (r.phase.RecoverAct? ==>
          || (e.phase.Poll? && r.phase.k == 0 && Aims(cap, r.phase.c, e.index, r.phase.resumeAt) && r.index == e.index
              && Armable(cap, r.phase.c, e.index) && cap.conditions[r.phase.c].maxFires > 0)
          || (r.phase.k > 0 && e.phase == RecoverCheck(r.phase.c, r.phase.k - 1, r.phase.resumeAt) && t.recovered
              && r.index == e.index))
    && (r.phase.RecoverCheck? ==>
          && r.index == e.index
          && if e.phase.RecoverAct? then
               && e.phase == RecoverAct(r.phase.c, r.phase.k, r.phase.resumeAt) && t.attempt == Landed
               && Adds(e, r, RecoveryAttempted(r.phase.c, r.phase.k)) && r.deadline == e.now + cfg.stepBudget
             else e.phase == r.phase && !t.recovered && r.deadline == e.deadline && r.log == e.log)
    && (Intervening(r.phase) ==>
          if e.phase.Asking? then
            && Adds(e, r, ParkedEvent)
            && r.phase == ParkLook(e.phase.at, e.now + if cfg.attended.Some? then cfg.attended.value.ttl else 0)
          else
            && Intervening(e.phase) && r.phase.at == e.phase.at && r.phase.ttl == e.phase.ttl
            && !Adds(e, r, ParkedEvent))
    && (r.phase.Asking? ==> MayAsk(cfg, e)) && !r.phase.Starting? && (r.phase.Scan? ==> Adds(e, r, Released))
    && (|r.log| > |e.log| && r.log[|r.log| - 1].Visited? ==> Begins(cap, e, r))
    && (Parking(r.phase) ==> r.phase.Asking? || Parking(e.phase))
    && (forall i :: |e.log| <= i < |r.log| ==> r.log[i].Released? ==> e.phase.Releasing?)
    && (if e.phase.Asking? then r.log == e.log + [ParkedEvent]
        else forall i :: |e.log| <= i < |r.log| ==> !r.log[i].ParkedEvent?)
    && (r.phase.Requires? ==>
          if e.phase.Starting? then r.deadline == e.now + cfg.requiresBudget && r.phase.pending == cap.requirements
          else e.phase.Requires? && r.deadline == e.deadline
               && r.phase.pending == set q | q in e.phase.pending && q !in t.satisfied)
  }

  /** Marks and counts change only where they are taken. */
  predicate Counts(cap: Capability, e: State, r: State) {
    && r.now == e.now && r.dispatched == e.dispatched && r.blocked == e.blocked && e.log <= r.log
    && r.mark == (if e.phase.Snapshot? then |e.dispatched| else e.mark)
    && r.blockMark == (if e.phase.Snapshot? || (r.index == |cap.steps| && Begins(cap, e, r)) then e.blocked
      else e.blockMark)
    && r.escalations == e.escalations + (if r.phase.Asking? then 1 else 0)
    && (r.fires != e.fires ==> e.phase.Poll?)
    && (r.hazard != e.hazard ==> e.hazard.None? && r.hazard.Some? && HazardRaised(r.hazard.value.index) in r.log)
    && (!(e.phase.ParkPop? && e.hub.commands != []) ==>
          r.hub.commands == e.hub.commands && forall i :: |e.log| <= i < |r.log| ==> Quiet(r.log[i]))
  }

  /** Neither a console call nor a command. */
  predicate Quiet(x: Event) {
    !x.Commanded? && !x.Console?
  }

  predicate Evolves(cap: Capability, cfg: Config, e: State, t: Instant, r: State) {
    Continues(cap, cfg, e, t, r) && Counts(cap, e, r)
  }

  lemma FailsEvolves(cap: Capability, cfg: Config, e: State, t: Instant, n: State, r: State, at: Option<string>,
                     late: bool)
    requires Fails(cap, cfg, n, r, at, late) && !e.phase.Snapshot? && !e.phase.Asking?
    requires n.now == e.now && n.dispatched == e.dispatched && n.blocked == e.blocked && e.log <= n.log
    requires n.mark == e.mark && n.blockMark == e.blockMark && n.escalations == e.escalations && n.hub == e.hub
    requires n.fires != e.fires ==> e.phase.Poll?
    requires forall i :: |e.log| <= i < |n.log| ==>
      !n.log[i].Visited? && !n.log[i].Released? && !n.log[i].ParkedEvent? && Quiet(n.log[i])
    requires n.hazard != e.hazard ==> e.hazard.None? && n.hazard.Some? && HazardRaised(n.hazard.value.index) in n.log
    ensures Evolves(cap, cfg, e, t, r) && r.index == n.index
  {
    hide Said;
  }

  lemma VisitsEvolves(cap: Capability, cfg: Config, e: State, t: Instant, b: State, r: State, index: nat)
    requires Visits(cap, cfg, b, r, index) && index <= |cap.steps| && !e.phase.Snapshot? && !e.phase.Asking?
    requires b.now == e.now && b.dispatched == e.dispatched && b.blocked == e.blocked && b.log == e.log
    requires b.mark == e.mark && b.blockMark == e.blockMark && b.escalations == e.escalations && b.fires == e.fires
      && b.hub == e.hub
    requires b.hazard == e.hazard
    ensures Evolves(cap, cfg, e, t, r) && r.index == index && Begins(cap, e, r)
  {
  }

  lemma NotingEvolves(cap: Capability, e: State)
    ensures var n := Noting(cap, e);
      && n == e.(log := n.log, hazard := n.hazard) && e.log <= n.log
      && (forall i :: |e.log| <= i < |n.log| ==> n.log[i].Consequential? || n.log[i].HazardRaised?)
      && (n.hazard != e.hazard ==> e.hazard.None? && n.hazard.Some? && HazardRaised(n.hazard.value.index) in n.log)
  {
    hide Dispatching;
  }

  lemma StepFailsEvolves(cap: Capability, cfg: Config, e: State, t: Instant, b: State, r: State)
    requires StepFails(cap, cfg, b, r) && !e.phase.Snapshot? && !e.phase.Asking?
    requires b.now == e.now && b.dispatched == e.dispatched && b.blocked == e.blocked && e.log <= b.log
    requires b.mark == e.mark && b.blockMark == e.blockMark && b.escalations == e.escalations && b.fires == e.fires
      && b.hub == e.hub
    requires b.hazard == e.hazard && forall i :: |e.log| <= i < |b.log| ==>
      !b.log[i].Visited? && !b.log[i].Released? && !b.log[i].ParkedEvent? && Quiet(b.log[i])
    ensures Evolves(cap, cfg, e, t, r) && r.index == b.index
  {
    hide Noting, Fails, Evolves;
    NotingEvolves(cap, b);
    FailsEvolves(cap, cfg, e, t, Noting(cap, b), r, Here(cap, b), Dispatching(cap, b));
  }

  lemma OpeningEvolves(cap: Capability, cfg: Config, e: State, t: Instant, r: State)
    requires Wf(cap, e)
    requires e.phase.Starting? || e.phase.Requires?
    requires e.phase.Starting? ==> StartingDecides(cap, cfg, e, t, r)
    requires e.phase.Requires? ==> RequiresDecides(cap, cfg, e, t, e.phase.pending, r)
    ensures Evolves(cap, cfg, e, t, r)
  {
    hide Said, Visits;
    var b := e.(deadline := e.now + cfg.requiresBudget);
    if Visits(cap, cfg, b, r, e.index) {
      VisitsEvolves(cap, cfg, e, t, b, r, e.index);
    }
    if Visits(cap, cfg, e, r, e.index) {
      VisitsEvolves(cap, cfg, e, t, e, r, e.index);
    }
  }

  lemma LooksEvolve(cap: Capability, cfg: Config, e: State, t: Instant, r: State)
    requires Wf(cap, e) && (e.phase.Snapshot? || e.phase.Refresh?)
    requires e.phase.Snapshot? ==> SnapshotDecides(cap, e, t, r)
    requires e.phase.Refresh? ==> RefreshDecides(cap, e, t, e.phase.acted, r)
    ensures Evolves(cap, cfg, e, t, r)
  {
    hide Armable;
  }

  lemma RecognitionEvolves(cap: Capability, cfg: Config, e: State, t: Instant, c: nat, acted: bool, r: State)
    requires Wf(cap, e) && e.phase == Poll(acted) && c < |cap.conditions| && cap.conditions[c].classify.Recoverable?
    requires RecoveryDecides(cap, cfg, e, c, acted, r) && Armable(cap, c, e.index)
    ensures Evolves(cap, cfg, e, t, r)
  {
    hide Said, Fails, Aims, Armable, Dispatching, Evolves;
    var counted := e.(fires := e.fires[cap.conditions[c].id := Times(e, cap.conditions[c].id) + 1]);
    var noted := counted.(log := e.log + [Consequential(e.index, e.mark)]);
    if Fails(cap, cfg, counted, r, Here(cap, e), false) {
      FailsEvolves(cap, cfg, e, t, counted, r, Here(cap, e), false);
    } else if Fails(cap, cfg, noted, r, Here(cap, e), true) {
      FailsEvolves(cap, cfg, e, t, noted, r, Here(cap, e), true);
    } else {
      RecoveryStarts(cap, cfg, e, t, c, acted, r);
    }
  }

  lemma RecoveryStarts(cap: Capability, cfg: Config, e: State, t: Instant, c: nat, acted: bool, r: State)
    requires Wf(cap, e) && e.phase == Poll(acted) && c < |cap.conditions| && cap.conditions[c].classify.Recoverable?
    requires RecoveryDecides(cap, cfg, e, c, acted, r) && Armable(cap, c, e.index)
    requires var counted := e.(fires := e.fires[cap.conditions[c].id := Times(e, cap.conditions[c].id) + 1]);
      && !Fails(cap, cfg, counted, r, Here(cap, e), false)
      && !Fails(cap, cfg, counted.(log := e.log + [Consequential(e.index, e.mark)]), r, Here(cap, e), true)
    ensures Evolves(cap, cfg, e, t, r)
  {
    hide Said, Fails, Aims, Armable, Dispatching;
  }

  lemma PollEvolves(cap: Capability, cfg: Config, e: State, t: Instant, acted: bool, r: State)
    requires Wf(cap, e) && e.phase == Poll(acted) && PollDecides(cap, cfg, e, t, acted, r)
    ensures Evolves(cap, cfg, e, t, r)
  {
    hide Said, Silent, SpeaksFirst, Fails, StepFails, RecoveryDecides, Evolves, Interrupted;
    if Interrupted(cfg, e) {
      FailsEvolves(cap, cfg, e, t, e, r, Here(cap, e), false);
    } else if Silent(cap, e, t) {
      if StepFails(cap, cfg, e, r) {
        StepFailsEvolves(cap, cfg, e, t, e, r);
      } else if Fails(cap, cfg, e, r, None, false) {
        FailsEvolves(cap, cfg, e, t, e, r, None, false);
      } else {
        OnlyPhase(cap, cfg, e, t, r);
      }
    } else {
      var c: nat :| SpeaksFirst(cap, e, t, c) && Recognized(cap, cfg, e, c, acted, r);
      if cap.conditions[c].classify.Recoverable? {
        assert Armable(cap, c, e.index) by { SpeakersAreArmed(cap, e, t, c); }
        RecognitionEvolves(cap, cfg, e, t, c, acted, r);
      } else {
        OnlyPhase(cap, cfg, e, t, r);
      }
    }
  }

  lemma SpeakersAreArmed(cap: Capability, e: State, t: Instant, c: nat)
    requires SpeaksFirst(cap, e, t, c)
    ensures Armable(cap, c, e.index) && c in t.matching
  {
  }

  /** From a poll to an act, a check or the end. */
  lemma OnlyPhase(cap: Capability, cfg: Config, e: State, t: Instant, r: State)
    requires InVisit(e.phase) && !e.phase.Snapshot? && r == e.(phase := r.phase)
    requires r.phase.Act? || r.phase.Check? || r.phase.Poll? || r.phase.Refresh? || r.phase.Probe? || r.phase.Ended?
      || r.phase.Output? || r.phase.Observe?
    ensures Evolves(cap, cfg, e, t, r)
  {
  }

  lemma TriedEvolves(cap: Capability, cfg: Config, e: State, t: Instant, r: State)
    requires InVisit(e.phase) && !e.phase.Snapshot? && e.index < |cap.steps|
    requires r == e.(phase := r.phase, log := r.log, hazard := r.hazard) && e.log <= r.log
    requires forall i :: |e.log| <= i < |r.log| ==>
      !r.log[i].Visited? && !r.log[i].Released? && !r.log[i].ParkedEvent? && Quiet(r.log[i])
    requires r.hazard != e.hazard ==> e.hazard.None? && r.hazard.Some? && HazardRaised(r.hazard.value.index) in r.log
    requires r.phase.Check? || r.phase.Poll? || r.phase.Refresh? || r.phase.Probe?
    ensures Evolves(cap, cfg, e, t, r)
  {
  }

  lemma ActEvolves(cap: Capability, cfg: Config, e: State, t: Instant, r: State)
    requires Wf(cap, e) && e.phase.Act? && ActDecides(cap, cfg, e, t, r)
    ensures Evolves(cap, cfg, e, t, r)
  {
    hide StepFails, Noting, Evolves;
    var tried := e.(log := e.log + [Attempted(e.index)]);
    NotingEvolves(cap, tried);
    if StepFails(cap, cfg, tried, r) {
      StepFailsEvolves(cap, cfg, e, t, tried, r);
    } else {
      TriedEvolves(cap, cfg, e, t, r);
    }
  }

  lemma ProbeEvolves(cap: Capability, cfg: Config, e: State, t: Instant, r: State)
    requires Wf(cap, e) && e.phase.Probe? && ProbeDecides(cap, e, t, r)
    ensures Evolves(cap, cfg, e, t, r)
  {
    hide Noting, Evolves;
    NotingEvolves(cap, e);
    TriedEvolves(cap, cfg, e, t, r);
  }

  lemma CheckEvolves(cap: Capability, cfg: Config, e: State, t: Instant, r: State)
    requires Wf(cap, e) && e.phase.Check? && CheckDecides(cap, cfg, e, t, r)
    ensures Evolves(cap, cfg, e, t, r)
  {
    hide Visits, Evolves;
    if e.index < |cap.steps| && e.index in t.posts {
      VisitsEvolves(cap, cfg, e, t, e.(kept := e.stale), r, e.index + 1);
    } else {
      OnlyPhase(cap, cfg, e, t, r);
    }
  }

  lemma RecoveryEvolves(cap: Capability, cfg: Config, e: State, t: Instant, r: State)
    requires Wf(cap, e) && (e.phase.RecoverAct? || e.phase.RecoverCheck?) && Decides(cap, cfg, e, t, r)
    ensures Evolves(cap, cfg, e, t, r)
  {
    hide Visits, Fails, Said, Evolves;
    var at := Some(cap.conditions[e.phase.c].classify.recovery[e.phase.k].id);
    var tried := e.(log := e.log + [RecoveryAttempted(e.phase.c, e.phase.k)]);
    var b := e.(recoveries := e.recoveries + 1);
    if Fails(cap, cfg, tried, r, at, false) {
      FailsEvolves(cap, cfg, e, t, tried, r, at, false);
    } else if Fails(cap, cfg, e, r, at, false) {
      FailsEvolves(cap, cfg, e, t, e, r, at, false);
    } else if Visits(cap, cfg, b, r, e.phase.resumeAt) {
      VisitsEvolves(cap, cfg, e, t, b, r, e.phase.resumeAt);
    } else {
      RecoveryGoesOn(cap, cfg, e, t, r);
    }
  }

  lemma RecoveryGoesOn(cap: Capability, cfg: Config, e: State, t: Instant, r: State)
    requires Wf(cap, e) && (e.phase.RecoverAct? || e.phase.RecoverCheck?) && Decides(cap, cfg, e, t, r)
    requires var at := Some(cap.conditions[e.phase.c].classify.recovery[e.phase.k].id);
      && !Fails(cap, cfg, e.(log := e.log + [RecoveryAttempted(e.phase.c, e.phase.k)]), r, at, false)
      && !Fails(cap, cfg, e, r, at, false)
      && !Visits(cap, cfg, e.(recoveries := e.recoveries + 1), r, e.phase.resumeAt)
    ensures Evolves(cap, cfg, e, t, r)
  {
    hide Visits, Fails, Said;
  }

  lemma ParkEvolves(cap: Capability, cfg: Config, e: State, t: Instant, r: State)
    requires Wf(cap, e) && Decides(cap, cfg, e, t, r)
    requires e.phase.Asking? || Intervening(e.phase) || e.phase.Releasing?
    ensures Evolves(cap, cfg, e, t, r)
  {
    hide Evolves, AskingDecides, ReleasingDecides, ParkPopDecides, ParkTakeDecides;
    match e.phase
    case ParkLook(at, ttl) => ParkGoesOn(cap, cfg, e, t, r, at, ttl);
    case ParkPop(at, ttl) => ParkGoesOn(cap, cfg, e, t, r, at, ttl);
    case ParkTake(at, ttl) => TakeEvolves(cap, cfg, e, t, r, at, ttl);
    case _ => HandoverEvolves(cap, cfg, e, t, r);
  }

  lemma HandoverEvolves(cap: Capability, cfg: Config, e: State, t: Instant, r: State)
    requires Wf(cap, e) && Decides(cap, cfg, e, t, r) && (e.phase.Asking? || e.phase.Releasing?)
    ensures Evolves(cap, cfg, e, t, r)
  {
  }

  lemma ParkGoesOn(cap: Capability, cfg: Config, e: State, t: Instant, r: State, at: Option<string>, ttl: int)
    requires Wf(cap, e) && Decides(cap, cfg, e, t, r) && (e.phase == ParkLook(at, ttl) || e.phase == ParkPop(at, ttl))
    ensures Evolves(cap, cfg, e, t, r)
  {
  }

  lemma TakeEvolves(cap: Capability, cfg: Config, e: State, t: Instant, r: State, at: Option<string>, ttl: int)
    requires e.phase == ParkTake(at, ttl) && ParkTakeDecides(cap, e, at, ttl, r)
    ensures Evolves(cap, cfg, e, t, r)
  {
    hide Said;
  }

  lemma ScanEvolves(cap: Capability, cfg: Config, e: State, t: Instant, r: State)
    requires Wf(cap, e) && e.phase.Scan? && ScanDecides(cap, cfg, e, t, r)
    ensures Evolves(cap, cfg, e, t, r)
  {
    hide Said, Visits, Furthest, Evolves;
    if exists i: nat :: i <= |cap.steps| && Visits(cap, cfg, e, r, i) {
      var i: nat :| i <= |cap.steps| && Visits(cap, cfg, e, r, i);
      VisitsEvolves(cap, cfg, e, t, e, r, i);
    } else {
      ScanEnds(cap, cfg, e, t, r);
    }
  }

  lemma ScanEnds(cap: Capability, cfg: Config, e: State, t: Instant, r: State)
    requires Wf(cap, e) && e.phase.Scan? && ScanDecides(cap, cfg, e, t, r)
    requires forall i: nat :: i <= |cap.steps| ==> !Visits(cap, cfg, e, r, i)
    ensures Evolves(cap, cfg, e, t, r) && r == e.(phase := r.phase) && r.phase.Ended?
  {
    hide Said, Visits;
    if exists i: nat :: Furthest(cap, t, i) {
      var i: nat :| Furthest(cap, t, i);
      assert i <= |cap.steps|;
    }
  }

  lemma ReadingEvolves(cap: Capability, cfg: Config, e: State, t: Instant, r: State)
    requires Wf(cap, e) && Decides(cap, cfg, e, t, r) && (e.phase.Output? || e.phase.Observe? || e.phase.Ended?)
    ensures Evolves(cap, cfg, e, t, r)
  {
    hide Said;
  }

  /** Every instant of a run changes its fields in these ways only. */
  lemma EveryInstantEvolves(cap: Capability, cfg: Config, e: State, t: Instant, r: State)
    requires Wf(cap, e) && Decides(cap, cfg, e, t, r)
    ensures Evolves(cap, cfg, e, t, r)
  {
    hide Evolves, Said, StartingDecides, RequiresDecides, SnapshotDecides, RefreshDecides, PollDecides, ActDecides,
         ProbeDecides, CheckDecides, ScanDecides;
    match e.phase
    case Starting => OpeningEvolves(cap, cfg, e, t, r);
    case Requires(_) => OpeningEvolves(cap, cfg, e, t, r);
    case Snapshot => LooksEvolve(cap, cfg, e, t, r);
    case Refresh(_) => LooksEvolve(cap, cfg, e, t, r);
    case Poll(acted) => PollEvolves(cap, cfg, e, t, acted, r);
    case Act => ActEvolves(cap, cfg, e, t, r);
    case Probe => ProbeEvolves(cap, cfg, e, t, r);
    case Check => CheckEvolves(cap, cfg, e, t, r);
    case RecoverAct(_, _, _) => RecoveryEvolves(cap, cfg, e, t, r);
    case RecoverCheck(_, _, _) => RecoveryEvolves(cap, cfg, e, t, r);
    case Scan => ScanEvolves(cap, cfg, e, t, r);
    case Output(_) => ReadingEvolves(cap, cfg, e, t, r);
    case Observe => ReadingEvolves(cap, cfg, e, t, r);
    case Ended(_) => ReadingEvolves(cap, cfg, e, t, r);
    case _ => ParkEvolves(cap, cfg, e, t, r);
  }

  // ------------------------------------------------------------------ over a run

  /** The state once the world has moved, and what the instant decides. */
  lemma RunMoves(cap: Capability, cfg: Config, inputs: seq<Instant>, states: seq<State>, k: nat)
    requires Integrity(cap) && Behavior(cap, cfg, inputs, states) && k < |inputs| && !states[k].phase.Ended?
    ensures var s, t, e := states[k], inputs[k], Elapse(cfg, states[k], inputs[k]);
      && Wf(cap, e) && Decides(cap, cfg, e, t, states[k + 1]) && Evolves(cap, cfg, e, t, states[k + 1])
      && e == s.(now := s.now + 1 + t.elapsed, dispatched := s.dispatched + t.sent, blocked := s.blocked + t.blocked,
                 hub := e.hub, log := e.log)
      && s.log <= e.log && forall i :: |s.log| <= i < |e.log| ==> e.log[i].Console?
  {
    hide Integrity, React, Decides, Evolves, HubAfter, Accepted;
    var e := Elapse(cfg, states[k], inputs[k]);
    ElapseFrame(cap, cfg, states[k], inputs[k]);
    ReactDecides(cap, cfg, e, inputs[k]);
    EveryInstantEvolves(cap, cfg, e, inputs[k], states[k + 1]);
    assert forall x :: x in Accepted(states[k].hub, inputs[k].calls) ==> x.Console?;
  }

  /** The log of instant `k` ends in something new that is a `p`. */
  predicate Happens(states: seq<State>, k: nat, p: Event -> bool) {
    && 0 < k < |states| && |states[k].log| > |states[k - 1].log|
    && p(states[k].log[|states[k].log| - 1])
  }

  /** When the latest `p` happened. */
  function Since(states: seq<State>, k: nat, p: Event -> bool): (m: nat)
    requires k < |states|
    ensures m <= k && (m > 0 ==> Happens(states, m, p)) && forall i :: m < i <= k ==> !Happens(states, i, p)
  {
    if k == 0 then 0 else if Happens(states, k, p) then k else Since(states, k - 1, p)
  }

  predicate IsVisit(e: Event) { e.Visited? }

  predicate IsPark(e: Event) { e.ParkedEvent? }

  predicate IsRecovery(e: Event) { e.RecoveryAttempted? }

  /** A visit's deadline is the clock it began at and the step budget, and the flow has
      stood at the same place since; a recovery step's is counted from the return of
      its action; the entry requirements' from the start of the run; and an
      intervention is due its time to live after the hub parked. */
  predicate Timed(cfg: Config, states: seq<State>, k: nat)
    requires k < |states|
  {
    var s := states[k];
    && (InVisit(s.phase) ==>
          var m := Since(states, k, IsVisit);
          m > 0 && states[m].index == s.index && s.deadline == states[m].now + cfg.stepBudget)
    && (s.phase.RecoverCheck? ==> s.deadline == states[Since(states, k, IsRecovery)].now + cfg.stepBudget)
    && (s.phase.Requires? ==> |states| > 1 && s.deadline == states[1].now + cfg.requiresBudget)
    && (s.phase.Asking? || Intervening(s.phase) ==> cfg.attended.Some?)
    && (Intervening(s.phase) ==> s.phase.ttl == states[Since(states, k, IsPark)].now + cfg.attended.value.ttl)
  }

  lemma {:induction false} EverythingIsTimed(cap: Capability, cfg: Config, inputs: seq<Instant>, states: seq<State>,
                                             k: nat)
    requires Integrity(cap) && Behavior(cap, cfg, inputs, states) && k < |states|
    ensures Timed(cfg, states, k) && (states[k].phase.Starting? ==> k == 0)
  {
    hide Integrity, Next, Wf, Decides, Elapse;
    if k > 0 {
      EverythingIsTimed(cap, cfg, inputs, states, k - 1);
      if states[k - 1].phase.Ended? {
        assert states[k] == states[k - 1] by { EndedStays(cap, cfg, inputs, states, k - 1); }
      } else {
        RunMoves(cap, cfg, inputs, states, k - 1);
        TimedStep(cap, cfg, states, k, Elapse(cfg, states[k - 1], inputs[k - 1]), inputs[k - 1]);
      }
    }
  }

  lemma EndedStays(cap: Capability, cfg: Config, inputs: seq<Instant>, states: seq<State>, k: nat)
    requires Integrity(cap) && Behavior(cap, cfg, inputs, states) && k < |inputs| && states[k].phase.Ended?
    ensures states[k + 1] == states[k]
  {
    hide Integrity, Wf;
  }

  lemma TimedStep(cap: Capability, cfg: Config, states: seq<State>, k: nat, e: State, t: Instant)
    requires 0 < k < |states| && Timed(cfg, states, k - 1) && (states[k - 1].phase.Starting? ==> k == 1)
    requires Evolves(cap, cfg, e, t, states[k]) && states[k - 1].log <= e.log
    requires e == states[k - 1].(now := e.now, dispatched := e.dispatched, blocked := e.blocked, hub := e.hub,
      log := e.log)
    requires forall i :: |states[k - 1].log| <= i < |e.log| ==> e.log[i].Console?
    ensures Timed(cfg, states, k)
  {
    hide Aims, Armable, Quiet;
    var s, r := states[k - 1], states[k];
    var last := |r.log| - 1;
    if |r.log| > |s.log| && !r.log[last].Console? {
      assert last >= |e.log|;
    }
  }

  /** The latest instant up to `k` at which `p`, or 0. */
  function Latest(k: nat, p: nat -> bool): (m: nat)
    ensures m <= k && (m > 0 ==> p(m)) && forall i :: m < i <= k ==> !p(i)
  {
    if k == 0 then 0 else if p(k) then k else Latest(k - 1, p)
  }

  /** A step visit took its snapshot. */
  predicate Looked(states: seq<State>, m: nat) {
    0 < m < |states| && states[m - 1].phase.Snapshot?
  }

  /** A step visit took its snapshot, or a visit to the checkpoint began. */
  predicate Marked(cap: Capability, states: seq<State>, m: nat) {
    Looked(states, m) || (Happens(states, m, IsVisit) && states[m].index == |cap.steps|)
  }

  predicate MarksTaken(cap: Capability, states: seq<State>, k: nat)
    requires k < |states|
  {
    var look, mark := Latest(k, (m: nat) => Looked(states, m)), Latest(k, (m: nat) => Marked(cap, states, m));
    && states[k].mark == (if look == 0 then 0 else |states[look].dispatched|)
    && states[k].blockMark == if mark == 0 then 0 else states[mark].blocked
  }

  /** Over every run: what a step is seen dispatching is counted from the snapshot of its
      visit on, and blocked traffic from there or from the visit to the checkpoint. */
  lemma {:induction false} MarksAreTaken(cap: Capability, cfg: Config, inputs: seq<Instant>, states: seq<State>, k: nat)
    requires Integrity(cap) && Behavior(cap, cfg, inputs, states) && k < |states|
    ensures MarksTaken(cap, states, k)
  {
    hide Integrity, Next, Wf, Decides, Elapse;
    if k > 0 {
      MarksAreTaken(cap, cfg, inputs, states, k - 1);
      if states[k - 1].phase.Ended? {
        EndedStays(cap, cfg, inputs, states, k - 1);
      } else {
        RunMoves(cap, cfg, inputs, states, k - 1);
        MarkStep(cap, cfg, states, k, Elapse(cfg, states[k - 1], inputs[k - 1]), inputs[k - 1]);
      }
    }
  }

  lemma MarkStep(cap: Capability, cfg: Config, states: seq<State>, k: nat, e: State, t: Instant)
    requires 0 < k < |states| && Evolves(cap, cfg, e, t, states[k]) && states[k - 1].log <= e.log
    requires e == states[k - 1].(now := e.now, dispatched := e.dispatched, blocked := e.blocked, hub := e.hub,
      log := e.log)
    requires forall i :: |states[k - 1].log| <= i < |e.log| ==> e.log[i].Console?
    ensures states[k].mark == if Looked(states, k) then |states[k].dispatched| else states[k - 1].mark
    ensures states[k].blockMark == if Marked(cap, states, k) then states[k].blocked else states[k - 1].blockMark
  {
    hide Continues;
    var s, r := states[k - 1], states[k];
    var last := |r.log| - 1;
    if |r.log| > |s.log| && r.log[last].Visited? {
      assert last >= |e.log|;
      assert Begins(cap, e, r) by { VisitBegins(cap, cfg, e, t, r); }
    }
  }

  lemma VisitBegins(cap: Capability, cfg: Config, e: State, t: Instant, r: State)
    requires Evolves(cap, cfg, e, t, r) && |r.log| > |e.log| && r.log[|r.log| - 1].Visited?
    ensures Begins(cap, e, r)
  {
  }

  /** Nothing is handed back before an operator was asked. */
  lemma {:induction false} HandbacksFollowAsking(cap: Capability, cfg: Config, inputs: seq<Instant>, states: seq<State>,
                                                 k: nat)
    requires Integrity(cap) && Behavior(cap, cfg, inputs, states) && k < |states|
    ensures Parking(states[k].phase) || Released in states[k].log ==> states[k].escalations > 0
  {
    hide Integrity, Next, Wf, Decides, Elapse;
    if k > 0 {
      HandbacksFollowAsking(cap, cfg, inputs, states, k - 1);
      if states[k - 1].phase.Ended? {
        EndedStays(cap, cfg, inputs, states, k - 1);
      } else {
        RunMoves(cap, cfg, inputs, states, k - 1);
        AskedStep(cap, cfg, states[k - 1], Elapse(cfg, states[k - 1], inputs[k - 1]), inputs[k - 1], states[k]);
      }
    }
  }

  lemma AskedStep(cap: Capability, cfg: Config, s: State, e: State, t: Instant, r: State)
    requires Parking(s.phase) || Released in s.log ==> s.escalations > 0
    requires Evolves(cap, cfg, e, t, r) && s.log <= e.log && e.phase == s.phase && e.escalations == s.escalations
    requires forall i :: |s.log| <= i < |e.log| ==> e.log[i].Console?
    ensures Parking(r.phase) || Released in r.log ==> r.escalations > 0
  {
    if Released in r.log {
      var i :| 0 <= i < |r.log| && r.log[i] == Released;
      if i < |e.log| {
        assert e.log[i] == Released && i < |s.log| && s.log[i] == Released;
      }
    }
  }
}
