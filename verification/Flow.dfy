/** What one instant leads to, phase by phase, said of the readings, the clock and the
    artifact alone. */
module Flow {
  import opened Wrappers
  import opened Artifact
  import opened Escalation
  import opened Protocol

  // --------------------------------------------------------------- vocabulary

  predicate InVisit(phase: Phase) {
    phase.Snapshot? || phase.Refresh? || phase.Poll? || phase.Act? || phase.Probe? || phase.Check?
  }

  /** A visit to `index` begins, with a fresh time budget. */
  predicate Visits(cap: Capability, cfg: Config, e: State, r: State, index: nat) {
    && r.log == e.log + [Visited(index)] && r.index == index && r.deadline == e.now + cfg.stepBudget
    && if index < |cap.steps| then
         r == e.(index := index, deadline := r.deadline, log := r.log, phase := Snapshot, gone := {})
       else
         r == e.(index := index, deadline := r.deadline, log := r.log, phase := Check, blockMark := e.blocked)
  }

  /** Condition `c` may be recognized while the flow stands at `index`. */
  predicate Armable(cap: Capability, c: nat, index: nat) {
    && c < |cap.conditions|
    && exists i :: 0 <= i <= index && i < |cap.steps| && cap.steps[i].id == cap.conditions[c].armedAfter
  }

  /** What was already showing, and has not been seen gone. */
  function Stale(cap: Capability, s: State): set<string> {
    if s.index < |cap.steps| then s.stale else s.kept
  }

  /** The recognizer of `c` speaks: it is armed, it matches, and it is not an answer
      that was already showing. */
  predicate Speaks(cap: Capability, s: State, t: Instant, c: nat) {
    && Armable(cap, c, s.index) && c in t.matching
    && !(cap.conditions[c].classify.Answer? && cap.conditions[c].id in Stale(cap, s))
  }

  predicate SpeaksFirst(cap: Capability, s: State, t: Instant, c: nat) {
    Speaks(cap, s, t, c) && forall d :: 0 <= d < c ==> !Speaks(cap, s, t, d)
  }

  predicate Silent(cap: Capability, s: State, t: Instant) {
    forall c :: 0 <= c < |cap.conditions| ==> !Speaks(cap, s, t, c)
  }

  /** The operator wants the session, and automation still has it. */
  predicate Interrupted(cfg: Config, s: State) {
    cfg.attended.Some? && s.hub.pauseRequested && s.hub.state == Automation
  }

  /** There is an operator, and an intervention left to ask for. */
  predicate MayAsk(cfg: Config, s: State) {
    cfg.attended.Some? && s.escalations < cfg.attended.value.maxEscalations
  }

  /** The step the flow stands at, by name; the checkpoint has none. */
  function Here(cap: Capability, s: State): Option<string> {
    if s.index < |cap.steps| then Some(cap.steps[s.index].id) else None
  }

  /** What the run says of a failure at `at`; `late` when a dispatch was seen after a
      risky action and is on no other record. */
  function Said(cap: Capability, s: State, at: Option<string>, late: bool): Result {
    if s.hazard.Some? then
      Unresolved(if s.hazard.value.index < |cap.steps| then cap.steps[s.hazard.value.index].id else "?", true)
    else if late then Unresolved(if at.Some? then at.value else "?", true)
    else if s.blocked > s.blockMark then PolicyViolation(OffAllowlistTraffic)
    else Failure(at)
  }

  /** A failure at `at`: an intervention where one may be asked for, else the end. */
  predicate Fails(cap: Capability, cfg: Config, e: State, r: State, at: Option<string>, late: bool) {
    if MayAsk(cfg, e) then r == e.(escalations := e.escalations + 1, phase := Asking(at))
    else r == e.(phase := Ended(Said(cap, e, at, late)))
  }

  /** A risky step has a mutation in the log since its mark. */
  predicate Dispatching(cap: Capability, s: State) {
    && s.index < |cap.steps| && cap.steps[s.index].risk == Risky && s.mark <= |s.dispatched|
    && exists i :: s.mark <= i < |s.dispatched| && s.dispatched[i].kind == Mutation
  }

  /** What a risky step is seen dispatching goes on the record; the first one of the
      run is its hazard. */
  function Noting(cap: Capability, e: State): State {
    var seen := e.log + [Consequential(e.index, e.mark)];
    if !Dispatching(cap, e) then e
    else if e.hazard.Some? then e.(log := seen)
    else e.(log := seen + [HazardRaised(e.index)], hazard := Some(Hazard(e.index, Mutations(e.dispatched[e.mark..]))))
  }

  /** A failure of the current step, after what it dispatched went on the record. */
  predicate StepFails(cap: Capability, cfg: Config, e: State, r: State) {
    Fails(cap, cfg, Noting(cap, e), r, Here(cap, e), Dispatching(cap, e))
  }

  /** On to the recognizers; first to what was already showing, if anything was. */
  predicate Watches(cap: Capability, e: State, r: State, acted: bool) {
    r == e.(phase := if Stale(cap, e) == {} then Poll(acted) else Refresh(acted))
  }

  /** How often a condition of this name has been recognized so far. */
  function Times(s: State, id: string): nat {
    if id in s.fires then s.fires[id] else 0
  }

  /** The flow is to go on at `index` after recovering from `c`. */
  predicate Aims(cap: Capability, c: nat, here: nat, index: nat) {
    && c < |cap.conditions| && cap.conditions[c].classify.Recoverable?
    && match cap.conditions[c].classify.resume
       case RetryCurrentStep => index == here
       case RestartFrom(id) => index < |cap.steps| && cap.steps[index].id == id
  }

  // ---------------------------------------------------------- phase by phase

  predicate StartingDecides(cap: Capability, cfg: Config, e: State, t: Instant, r: State) {
    var b := e.(deadline := e.now + cfg.requiresBudget);
    if !t.usable then r == e.(phase := Ended(Said(cap, e, None, false)))
    else if cap.requirements == {} then Visits(cap, cfg, b, r, e.index)
    else if cfg.requiresBudget > 0 then r == b.(phase := Requires(cap.requirements))
    else r == b.(phase := Ended(PreconditionFailed))
  }

  predicate RequiresDecides(cap: Capability, cfg: Config, e: State, t: Instant, pending: set<nat>, r: State) {
    if pending <= t.satisfied then Visits(cap, cfg, e, r, e.index)
    else if e.now < e.deadline then r == e.(phase := Requires(set q | q in pending && q !in t.satisfied))
    else r == e.(phase := Ended(PreconditionFailed))
  }

  predicate SnapshotDecides(cap: Capability, e: State, t: Instant, r: State) {
    && r.stale == (set c | 0 <= c < |cap.conditions| && c in t.matching && Armable(cap, c, e.index)
                         && cap.conditions[c].classify.Answer? :: cap.conditions[c].id)
    && r == e.(stale := r.stale, gone := r.gone, mark := |e.dispatched|, blockMark := e.blocked,
               phase := if r.stale == {} then Poll(false) else Refresh(false))
  }

  predicate RefreshDecides(cap: Capability, e: State, t: Instant, acted: bool, r: State) {
    var still := set c | 0 <= c < |cap.conditions| && c in t.matching && Armable(cap, c, e.index)
                         && cap.conditions[c].id in Stale(cap, e) :: cap.conditions[c].id;
    if e.index < |cap.steps| then r == e.(stale := still, gone := r.gone, phase := Poll(acted))
    else r == e.(kept := still, phase := Poll(acted))
  }

  ghost predicate PollDecides(cap: Capability, cfg: Config, e: State, t: Instant, acted: bool, r: State) {
    if Interrupted(cfg, e) then Fails(cap, cfg, e, r, Here(cap, e), false)
    else if Silent(cap, e, t) then
      if !acted then r == e.(phase := Act)
      else if e.now < e.deadline then r == e.(phase := Check)
      else if !t.usable then r == e.(phase := Ended(Said(cap, e, None, false)))
      else if e.index < |cap.steps| then StepFails(cap, cfg, e, r)
      else Fails(cap, cfg, e, r, None, false)
    else
      exists c: nat :: SpeaksFirst(cap, e, t, c) && Recognized(cap, cfg, e, c, acted, r)
  }

  /** An answer ends the run; anything else is recovered from. */
  ghost predicate Recognized(cap: Capability, cfg: Config, e: State, c: nat, acted: bool, r: State) {
    c < |cap.conditions|
    && match cap.conditions[c].classify
       case Answer(code) => r == e.(phase := Ended(BusinessOutcome(code, ByCondition(c))))
       case Recoverable(_, _) => RecoveryDecides(cap, cfg, e, c, acted, r)
  }

  ghost predicate RecoveryDecides(cap: Capability, cfg: Config, e: State, c: nat, acted: bool, r: State)
    requires c < |cap.conditions| && cap.conditions[c].classify.Recoverable?
  {
    var id := cap.conditions[c].id;
    var counted := e.(fires := e.fires[id := Times(e, id) + 1]);
    if Times(e, id) >= cap.conditions[c].maxFires then Fails(cap, cfg, counted, r, Here(cap, e), false)
    else if acted && e.index < |cap.steps| && cap.steps[e.index].risk == Risky then
      if Dispatching(cap, e) then
        Fails(cap, cfg, counted.(log := e.log + [Consequential(e.index, e.mark)]), r, Here(cap, e), true)
      else Fails(cap, cfg, counted, r, Here(cap, e), false)
    else
      exists index: nat :: Aims(cap, c, e.index, index)
        && if e.hazard.Some? && index <= e.hazard.value.index then Fails(cap, cfg, counted, r, Here(cap, e), false)
           else r == counted.(phase := RecoverAct(c, 0, index))
  }

  predicate ActDecides(cap: Capability, cfg: Config, e: State, t: Instant, r: State)
    requires e.index < |cap.steps|
  {
    var tried := e.(log := e.log + [Attempted(e.index)]);
    if t.attempt == Landed then r == Noting(cap, tried).(phase := Check)
    else if cap.steps[e.index].risk == Safe && t.attempt == TimedOut && e.now < e.deadline then
      if cap.steps[e.index].probeable then r == tried.(phase := Probe) else Watches(cap, tried, r, false)
    else StepFails(cap, cfg, tried, r)
  }

  predicate ProbeDecides(cap: Capability, e: State, t: Instant, r: State) {
    if e.index in t.posts then r == Noting(cap, e).(phase := Check) else Watches(cap, e, r, false)
  }

  predicate CheckDecides(cap: Capability, cfg: Config, e: State, t: Instant, r: State) {
    if e.index == |cap.steps| then
      if t.checkpoint then Reads(cap, cfg, e, r, 0) else Watches(cap, e, r, true)
    else if e.index in t.posts then Visits(cap, cfg, e.(kept := e.stale), r, e.index + 1)
    else Watches(cap, e, r, true)
  }

  /** `k` outputs have been read: on to the next one, to the observer, to success. */
  predicate Reads(cap: Capability, cfg: Config, e: State, r: State, k: nat) {
    r == e.(phase := if k < cap.outputs then Output(k) else if cfg.observes then Observe else Ended(Success))
  }

  predicate RecoverActDecides(cap: Capability, cfg: Config, e: State, t: Instant, c: nat, k: nat, resumeAt: nat,
                              r: State)
    requires RecoveryPoint(cap, c, k, resumeAt)
  {
    var tried := e.(log := e.log + [RecoveryAttempted(c, k)]);
    if t.attempt == Landed then r == tried.(phase := RecoverCheck(c, k, resumeAt), deadline := e.now + cfg.stepBudget)
    else Fails(cap, cfg, tried, r, Some(cap.conditions[c].classify.recovery[k].id), false)
  }

  predicate RecoverCheckDecides(cap: Capability, cfg: Config, e: State, t: Instant, c: nat, k: nat, resumeAt: nat,
                                r: State)
    requires RecoveryPoint(cap, c, k, resumeAt)
  {
    var steps := cap.conditions[c].classify.recovery;
    if t.recovered && k + 1 < |steps| then r == e.(phase := RecoverAct(c, k + 1, resumeAt))
    else if t.recovered then Visits(cap, cfg, e.(recoveries := e.recoveries + 1), r, resumeAt)
    else if e.now < e.deadline then r == e
    else if !t.usable then r == e.(phase := Ended(Said(cap, e, None, false)))
    else Fails(cap, cfg, e, r, Some(steps[k].id), false)
  }

  predicate AskingDecides(cfg: Config, e: State, at: Option<string>, r: State) {
    && r.hub == e.hub.(state := Paused, parked := true, decision := NoDecision, pauseRequested := false)
    && r == e.(hub := r.hub, log := e.log + [ParkedEvent],
               phase := ParkLook(at, e.now + if cfg.attended.Some? then cfg.attended.value.ttl else 0))
  }

  predicate ParkPopDecides(e: State, at: Option<string>, ttl: int, r: State) {
    if e.hub.commands == [] then r == e.(phase := ParkTake(at, ttl))
    else
      && r.hub == e.hub.(commands := e.hub.commands[1..])
      && r == e.(hub := r.hub, log := e.log + [Commanded(e.hub.commands[0])], phase := ParkLook(at, ttl))
  }

  predicate ParkTakeDecides(cap: Capability, e: State, at: Option<string>, ttl: int, r: State) {
    var d := e.hub.decision;
    var taken := e.(hub := e.hub.(decision := NoDecision));
    var consumed := taken.(log := e.log + [Consumed(d, e.hub.code)]);
    match d
    case NoDecision =>
      if e.now < ttl then r == taken.(phase := ParkLook(at, ttl))
          else r == taken.(phase := Ended(Said(cap, e, None, false)))
    case Resolve =>
      if e.hub.code in cap.outcomes then
        r == consumed.(phase := Ended(BusinessOutcome(e.hub.code, ByOperator(e.hub.operator))))
      else r == taken.(phase := ParkLook(at, ttl))
    case Abort => r == consumed.(phase := Ended(Said(cap, e, at, false)))
    case Approve => r == consumed.(phase := Releasing)
    case Handback => r == consumed.(phase := Releasing)
  }

  predicate ReleasingDecides(e: State, r: State) {
    && r.hub == e.hub.(state := Automation, parked := false, takeRequested := false)
    && r == e.(hub := r.hub, log := e.log + [Released], phase := Scan)
  }

  /** One past the furthest step whose postconditions hold. */
  predicate Furthest(cap: Capability, t: Instant, index: nat) {
    && 0 < index <= |cap.steps| && index - 1 in t.posts
    && forall i :: index <= i < |cap.steps| ==> i !in t.posts
  }

  ghost predicate ScanDecides(cap: Capability, cfg: Config, e: State, t: Instant, r: State) {
    if t.checkpoint then Visits(cap, cfg, e, r, |cap.steps|)
    else if exists i :: 0 <= i < |cap.steps| && i in t.posts then
      exists index: nat :: Furthest(cap, t, index)
        && if e.hazard.Some? && index <= e.hazard.value.index then r == e.(phase := Ended(Said(cap, e, None, false)))
           else Visits(cap, cfg, e, r, index)
    else if e.index < |cap.steps| && cap.steps[e.index].risk == Risky then
      r == e.(phase := Ended(Said(cap, e, Here(cap, e), false)))
    else Visits(cap, cfg, e, r, e.index)
  }

  predicate OutputDecides(cap: Capability, cfg: Config, e: State, t: Instant, k: nat, r: State) {
    if t.readable then Reads(cap, cfg, e, r, k + 1) else r == e.(phase := Ended(Said(cap, e, None, false)))
  }

  predicate ObserveDecides(cap: Capability, e: State, t: Instant, r: State) {
    r == e.(phase := Ended(if t.readable then Success else Said(cap, e, None, false)))
  }

  ghost predicate Decides(cap: Capability, cfg: Config, e: State, t: Instant, r: State)
    requires Wf(cap, e)
  {
    match e.phase
    case Starting => StartingDecides(cap, cfg, e, t, r)
    case Requires(pending) => RequiresDecides(cap, cfg, e, t, pending, r)
    case Snapshot => SnapshotDecides(cap, e, t, r)
    case Refresh(acted) => RefreshDecides(cap, e, t, acted, r)
    case Poll(acted) => PollDecides(cap, cfg, e, t, acted, r)
    case Act => ActDecides(cap, cfg, e, t, r)
    case Probe => ProbeDecides(cap, e, t, r)
    case Check => CheckDecides(cap, cfg, e, t, r)
    case RecoverAct(c, k, i) => RecoverActDecides(cap, cfg, e, t, c, k, i, r)
    case RecoverCheck(c, k, i) => RecoverCheckDecides(cap, cfg, e, t, c, k, i, r)
    case Asking(at) => AskingDecides(cfg, e, at, r)
    case ParkLook(at, ttl) => r == e.(phase := if e.hub.state == Human then ParkPop(at, ttl) else ParkTake(at, ttl))
    case ParkPop(at, ttl) => ParkPopDecides(e, at, ttl, r)
    case ParkTake(at, ttl) => ParkTakeDecides(cap, e, at, ttl, r)
    case Releasing => ReleasingDecides(e, r)
    case Scan => ScanDecides(cap, cfg, e, t, r)
    case Output(k) => OutputDecides(cap, cfg, e, t, k, r)
    case Observe => ObserveDecides(cap, e, t, r)
    case Ended(_) => r == e
  }

  // ---------------------------------------------------------------- the proofs

  lemma {:induction false} MutationsExist(ds: seq<Dispatch>)
    ensures Mutations(ds) != [] <==> exists i :: 0 <= i < |ds| && ds[i].kind == Mutation
  {
    if ds != [] {
      MutationsExist(ds[1..]);
      if i :| 0 <= i < |ds[1..]| && ds[1..][i].kind == Mutation {
        assert ds[i + 1].kind == Mutation;
      }
      if i :| 0 <= i < |ds| && ds[i].kind == Mutation {
        assert i > 0 ==> ds[1..][i - 1] == ds[i];
      }
    }
  }

  lemma DispatchingIs(cap: Capability, s: State)
    requires s.mark <= |s.dispatched|
    ensures Dispatching(cap, s) <==> IsRisky(cap, s.index) && StepMutations(s) != []
  {
    hide Mutations;
    var ds := s.dispatched[s.mark..];
    MutationsExist(ds);
    if Dispatching(cap, s) {
      var i :| s.mark <= i < |s.dispatched| && s.dispatched[i].kind == Mutation;
      assert ds[i - s.mark] == s.dispatched[i];
    }
    if StepMutations(s) != [] {
      var i :| 0 <= i < |ds| && ds[i].kind == Mutation;
      assert s.dispatched[s.mark + i] == ds[i];
    }
  }

  lemma ArmableIs(cap: Capability, c: nat, index: nat)
    requires Integrity(cap)
    ensures Armable(cap, c, index) <==> Armed(cap, c, index)
  {
    if c < |cap.conditions| {
      assert ConditionOk(cap, cap.conditions[c]);
      var j := IndexOf(cap.steps, cap.conditions[c].armedAfter);
      assert cap.steps[j].id == cap.conditions[c].armedAfter;
    }
  }

  lemma NotingIs(cap: Capability, e: State)
    requires Wf(cap, e)
    ensures Note(cap, e) == (Noting(cap, e), Dispatching(cap, e))
  {
    hide Mutations, Dispatching;
    DispatchingIs(cap, e);
  }

  lemma FailsIs(cap: Capability, cfg: Config, e: State, at: Option<string>, late: bool)
    ensures Fails(cap, cfg, e, Escalate(cap, cfg, e, Failed(at, late, late)), at, late)
    ensures Finish(cap, e, Failed(at, late, late)) == e.(phase := Ended(Said(cap, e, at, late)))
    ensures Crash(cap, e) == e.(phase := Ended(Said(cap, e, None, false)))
  {
  }

  lemma StepFailsIs(cap: Capability, cfg: Config, e: State)
    requires Wf(cap, e)
    ensures StepFails(cap, cfg, e, NoteFailed(cap, cfg, e))
  {
    hide Note, Noting, Dispatching, Fails, Escalate;
    NotingIs(cap, e);
    FailsIs(cap, cfg, Noting(cap, e), Here(cap, e), Dispatching(cap, e));
  }

  lemma HitIs(cap: Capability, s: State, t: Instant, from: nat)
    requires Integrity(cap) && from <= |cap.conditions|
    ensures var hit := FirstHit(cap, s.index, Stale(cap, s), t.matching, from);
      if hit.Some? then Speaks(cap, s, t, hit.value) && forall d :: from <= d < hit.value ==> !Speaks(cap, s, t, d)
      else forall d :: from <= d < |cap.conditions| ==> !Speaks(cap, s, t, d)
    decreases |cap.conditions| - from
  {
    hide Integrity, Armable, Armed;
    if from < |cap.conditions| {
      ArmableIs(cap, from, s.index);
      HitIs(cap, s, t, from + 1);
    }
  }

  lemma AimIs(cap: Capability, c: nat, here: nat)
    requires Integrity(cap) && c < |cap.conditions| && cap.conditions[c].classify.Recoverable? && here <= |cap.steps|
    ensures ConditionOk(cap, cap.conditions[c])
    ensures Aims(cap, c, here, ResumePoint(cap, here, cap.conditions[c].classify.resume))
    ensures forall i, j :: Aims(cap, c, here, i) && Aims(cap, c, here, j) ==> i == j
  {
    assert ConditionOk(cap, cap.conditions[c]);
  }

  lemma RecoverDecides(cap: Capability, cfg: Config, e: State, c: nat, acted: bool)
    requires Integrity(cap) && Wf(cap, e) && c < |cap.conditions| && cap.conditions[c].classify.Recoverable?
    ensures RecoveryDecides(cap, cfg, e, c, acted, Recover(cap, cfg, e, c, acted))
  {
    hide Integrity, Mutations, Dispatching, Fails, Escalate, Aims;
    var id := cap.conditions[c].id;
    var counted := e.(fires := e.fires[id := Times(e, id) + 1]);
    AimIs(cap, c, e.index);
    DispatchingIs(cap, e);
    FailsIs(cap, cfg, counted, Here(cap, e), false);
    FailsIs(cap, cfg, counted.(log := e.log + [Consequential(e.index, e.mark)]), Here(cap, e), true);
  }

  lemma PollIs(cap: Capability, cfg: Config, e: State, t: Instant, acted: bool)
    requires Integrity(cap) && Wf(cap, e) && e.phase == Poll(acted)
    ensures PollDecides(cap, cfg, e, t, acted, OnPoll(cap, cfg, e, t, acted))
  {
    hide Integrity, FirstHit, Speaks, Fails, StepFails, RecoveryDecides, Recover, NoteFailed, Escalate, Crash, Said;
    HitIs(cap, e, t, 0);
    var hit := FirstHit(cap, e.index, Suppressed(cap, e), t.matching, 0);
    FailsIs(cap, cfg, e, Here(cap, e), false);
    StepFailsIs(cap, cfg, e);
    if hit.Some? {
      assert SpeaksFirst(cap, e, t, hit.value);
      if cap.conditions[hit.value].classify.Recoverable? {
        RecoverDecides(cap, cfg, e, hit.value, acted);
      }
    }
  }

  lemma ActIs(cap: Capability, cfg: Config, e: State, t: Instant)
    requires Wf(cap, e) && e.phase.Act?
    ensures ActDecides(cap, cfg, e, t, OnAct(cap, cfg, e, t))
  {
    hide Note, Noting, NoteFailed, StepFails;
    var tried := Logged(e, Attempted(e.index));
    NotingIs(cap, tried);
    StepFailsIs(cap, cfg, tried);
  }

  lemma ProbeIs(cap: Capability, e: State, t: Instant)
    requires Wf(cap, e) && e.phase.Probe?
    ensures ProbeDecides(cap, e, t, OnProbe(cap, e, t))
  {
    hide Note, Noting;
    NotingIs(cap, e);
  }

  lemma LooksAre(cap: Capability, e: State, t: Instant)
    requires Integrity(cap) && Wf(cap, e)
    ensures e.phase.Snapshot? ==> SnapshotDecides(cap, e, t, OnSnapshot(cap, e, t))
    ensures e.phase.Refresh? ==> RefreshDecides(cap, e, t, e.phase.acted, OnRefresh(cap, e, t, e.phase.acted))
  {
    hide Integrity, Armed, Armable;
    forall c, i: nat ensures Armable(cap, c, i) <==> Armed(cap, c, i) {
      ArmableIs(cap, c, i);
    }
  }

  lemma CheckIs(cap: Capability, cfg: Config, e: State, t: Instant)
    requires Wf(cap, e) && e.phase.Check?
    ensures CheckDecides(cap, cfg, e, t, OnCheck(cap, cfg, e, t))
  {
  }

  lemma OpeningIs(cap: Capability, cfg: Config, e: State, t: Instant)
    requires Integrity(cap) && Wf(cap, e)
    ensures e.phase.Starting? ==> StartingDecides(cap, cfg, e, t, OnStarting(cap, cfg, e, t))
    ensures e.phase.Requires? ==> RequiresDecides(cap, cfg, e, t, e.phase.pending,
      OnRequires(cap, cfg, e, t, e.phase.pending))
  {
    hide Integrity;
    if e.phase.Requires? {
      assert e.phase.pending - t.satisfied == set q | q in e.phase.pending && q !in t.satisfied;
      if e.phase.pending - t.satisfied == {} {
        assert forall q :: q in e.phase.pending ==> q in t.satisfied by {
          assert forall q :: q in e.phase.pending && q !in t.satisfied ==> q in e.phase.pending - t.satisfied;
        }
      }
    }
  }

  lemma RecoveryIs(cap: Capability, cfg: Config, e: State, t: Instant)
    requires Integrity(cap) && Wf(cap, e) && (e.phase.RecoverAct? || e.phase.RecoverCheck?)
    ensures Decides(cap, cfg, e, t, React(cap, cfg, e, t))
  {
    hide Integrity, Fails, Escalate, Crash, Said;
    var at := Some(cap.conditions[e.phase.c].classify.recovery[e.phase.k].id);
    FailsIs(cap, cfg, e, at, false);
    FailsIs(cap, cfg, Logged(e, RecoveryAttempted(e.phase.c, e.phase.k)), at, false);
  }

  lemma ParkIs(cap: Capability, cfg: Config, e: State, t: Instant)
    requires Integrity(cap) && Wf(cap, e)
    requires e.phase.Asking? || e.phase.ParkLook? || e.phase.ParkPop? || e.phase.ParkTake? || e.phase.Releasing?
    ensures Decides(cap, cfg, e, t, React(cap, cfg, e, t))
  {
    hide Integrity;
  }

  lemma ScanIs(cap: Capability, cfg: Config, e: State, t: Instant)
    requires Integrity(cap) && Wf(cap, e) && e.phase.Scan?
    ensures ScanDecides(cap, cfg, e, t, OnScan(cap, cfg, e, t))
  {
    hide Integrity;
    var to := Frontier(t.posts, |cap.steps|);
    if to.Some? {
      assert Furthest(cap, t, to.value);
      assert to.value - 1 in t.posts;
    }
  }

  lemma ReadingIs(cap: Capability, cfg: Config, e: State, t: Instant)
    requires Integrity(cap) && Wf(cap, e)
    ensures e.phase.Output? ==> OutputDecides(cap, cfg, e, t, e.phase.k, OnOutput(cap, cfg, e, t, e.phase.k))
    ensures e.phase.Observe? ==> ObserveDecides(cap, e, t, OnObserve(cap, e, t))
  {
    hide Integrity;
  }

  /** The machine's reaction is what the readings, the clock and the artifact decide. */
  lemma ReactDecides(cap: Capability, cfg: Config, e: State, t: Instant)
    requires Integrity(cap) && Wf(cap, e)
    ensures Decides(cap, cfg, e, t, React(cap, cfg, e, t))
  {
    hide Integrity, OnStarting, OnRequires, OnSnapshot, OnRefresh, OnPoll, OnAct, OnProbe, OnCheck, OnScan, OnOutput,
         OnObserve, StartingDecides, RequiresDecides, SnapshotDecides, RefreshDecides, PollDecides, ActDecides,
             ProbeDecides,
         CheckDecides, ScanDecides, OutputDecides, ObserveDecides;
    match e.phase
    case Starting => OpeningIs(cap, cfg, e, t);
    case Requires(_) => OpeningIs(cap, cfg, e, t);
    case Snapshot => LooksAre(cap, e, t);
    case Refresh(_) => LooksAre(cap, e, t);
    case Poll(acted) => PollIs(cap, cfg, e, t, acted);
    case Act => ActIs(cap, cfg, e, t);
    case Probe => ProbeIs(cap, e, t);
    case Check => CheckIs(cap, cfg, e, t);
    case RecoverAct(_, _, _) => RecoveryIs(cap, cfg, e, t);
    case RecoverCheck(_, _, _) => RecoveryIs(cap, cfg, e, t);
    case Scan => ScanIs(cap, cfg, e, t);
    case Output(_) => ReadingIs(cap, cfg, e, t);
    case Observe => ReadingIs(cap, cfg, e, t);
    case Ended(_) =>
    case _ => ParkIs(cap, cfg, e, t);
  }
}
