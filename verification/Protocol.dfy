/** One replay run as a state machine. The environment (page, browser, clock and
    operator console) answers one `Instant` at a time; `Next` says what the
    engine does with it. Every branch of the engine's flow is a branch here. */
module Protocol {
  import opened Wrappers
  import opened Artifact
  import opened Escalation

  // ---------------------------------------------------------------- inputs

  /** A non-GET request seen leaving the browser. */
  datatype Kind = Session | Mutation
  datatype Dispatch = Dispatch(method_: string, url: string, kind: Kind)

  datatype Attempt = Landed | TimedOut | Errored

  /** What the world answers in one pass of the engine's looking or acting: how far
      the clock moved, what the console asked, what left the browser or was
      blocked, and what the engine read. A pass reads its conditions one after
      another while the page may change, so the sets say what each of them read,
      not what held together. Any sensor may report anything. */
  datatype Instant = Instant(
    elapsed: nat,
    calls: seq<ConsoleCall>,
    sent: seq<Dispatch>,
    blocked: nat,
    usable: bool,           // the page can be started and its address read
    matching: set<nat>,     // recognizers whose state is showing
    posts: set<nat>,        // steps whose postconditions all hold
    recovered: bool,        // the recovery step's postconditions all hold
    checkpoint: bool,       // the checkpoint's conditions all hold
    satisfied: set<nat>,    // entry requirements that hold
    attempt: Attempt,       // how an attempted action ends
    readable: bool)         // an output or the observer can be read

  datatype Attended = Attended(ttl: nat, maxEscalations: nat)

  datatype Config = Config(
    attended: Option<Attended>,
    requireReview: bool,
    stepBudget: nat,
    requiresBudget: nat,
    observes: bool)

  // --------------------------------------------------------------- results

  datatype Evidence = ByCondition(condition: nat) | ByOperator(operator: Option<string>)

  datatype Rule = UnattendedRiskyRequiresReview | OffAllowlistTraffic

  datatype Result =
    | Success
    | BusinessOutcome(code: string, evidence: Evidence)
    | Failure(at: Option<string>)
    | Unresolved(stepId: string, dispatched: bool)
    | PreconditionFailed
    | PolicyViolation(rule: Rule)

  /** A failed step. `unresolved`: the engine may not claim nothing happened. */
  datatype Failed = Failed(at: Option<string>, unresolved: bool, dispatched: bool)

  function PlainFailure(at: Option<string>): Failed { Failed(at, false, false) }

  // ----------------------------------------------------------------- state

  datatype Phase =
    | Starting
    | Requires(pending: set<nat>)
    | Snapshot                               // freshness snapshot of a step visit
    | Refresh(acted: bool)                   // lift stale suppressions
    | Poll(acted: bool)                      // pause flag, then recognizers
    | Act
    | Probe                                  // did a timed-out safe action land?
    | Check                                  // postconditions, or the checkpoint
    | RecoverAct(c: nat, k: nat, resumeAt: nat)
    | RecoverCheck(c: nat, k: nat, resumeAt: nat)
    | Asking(at: Option<string>)             // an intervention is due, the hub not yet parked
    | ParkLook(at: Option<string>, ttl: int)
    | ParkPop(at: Option<string>, ttl: int)
    | ParkTake(at: Option<string>, ttl: int)
    | Releasing                              // a decision to go on was taken, control not yet given back
    | Scan                                   // where is the flow after a handback?
    | Output(k: nat)
    | Observe
    | Ended(result: Result)

  /** The run's record of a consequential action that may have reached the server. */
  datatype Hazard = Hazard(index: nat, requests: seq<Dispatch>)

  datatype Event =
    | Console(call: ConsoleCall)             // accepted by the hub
    | Visited(index: nat)                    // a step, or the checkpoint at |steps|
    | Attempted(index: nat)                  // the step's action was tried
    | Consequential(index: nat, mark: nat)   // since `mark`, a risky step was seen dispatching a mutation
    | HazardRaised(index: nat)
    | RecoveryAttempted(condition: nat, k: nat)
    | ParkedEvent
    | Commanded(command: Command)            // executed on the operator's behalf
    | Consumed(decision: Decision, code: string)
    | Released                               // control back to automation

  datatype State = State(
    phase: Phase,
    now: int,
    deadline: int,
    index: nat,
    fires: map<string, nat>,
    kept: set<string>,       // suppression the loop carries to the checkpoint
    stale: set<string>,      // suppression of the current step visit
    gone: set<nat>,          // conditions seen not matching since this visit began
    escalations: nat,
    recoveries: nat,
    hazard: Option<Hazard>,
    mark: nat,
    blockMark: nat,
    dispatched: seq<Dispatch>,
    blocked: nat,
    hub: Hub,
    log: seq<Event>)

  predicate Core(cap: Capability, s: State) {
    && s.index <= |cap.steps|
    && s.mark <= |s.dispatched|
    && s.blockMark <= s.blocked
    && (s.hazard.Some? ==> s.hazard.value.index < |cap.steps|)
  }

  predicate Wf(cap: Capability, s: State) {
    && Core(cap, s)
    && match s.phase
       case Snapshot => s.index < |cap.steps|
       case Act => s.index < |cap.steps|
       case Probe => s.index < |cap.steps|
       case Refresh(acted) => acted || s.index < |cap.steps|
       case Poll(acted) => acted || s.index < |cap.steps|
       case RecoverAct(c, k, r) => RecoveryPoint(cap, c, k, r)
       case RecoverCheck(c, k, r) => RecoveryPoint(cap, c, k, r)
       case _ => true
  }

  predicate RecoveryPoint(cap: Capability, c: nat, k: nat, r: nat) {
    && c < |cap.conditions| && cap.conditions[c].classify.Recoverable?
    && k < |cap.conditions[c].classify.recovery| && r <= |cap.steps|
  }

  function Logged(s: State, e: Event): State { s.(log := s.log + [e]) }

  function StepId(cap: Capability, index: nat): Option<string> {
    if index < |cap.steps| then Some(cap.steps[index].id) else None
  }

  predicate IsRisky(cap: Capability, index: nat) {
    index < |cap.steps| && cap.steps[index].risk == Risky
  }

  function Mutations(ds: seq<Dispatch>): seq<Dispatch> {
    if ds == [] then []
    else (if ds[0].kind == Mutation then [ds[0]] else []) + Mutations(ds[1..])
  }

  function StepMutations(s: State): seq<Dispatch>
    requires s.mark <= |s.dispatched|
  {
    Mutations(s.dispatched[s.mark..])
  }

  /** The operator has been asked, and the flow has not moved on since. */
  predicate Parking(phase: Phase) {
    phase.Asking? || phase.ParkLook? || phase.ParkPop? || phase.ParkTake? || phase.Releasing? || phase.Scan?
  }

  /** The suppression set in force: a step visit has its own, the checkpoint
      works on the loop's. */
  function Suppressed(cap: Capability, s: State): set<string> {
    if s.index < |cap.steps| then s.stale else s.kept
  }

  // ------------------------------------------------------------ the world

  function HubAfter(h: Hub, calls: seq<ConsoleCall>): Hub
    decreases |calls|
  {
    if calls == [] then h else HubAfter(Apply(h, calls[0]), calls[1..])
  }

  /** The calls the hub accepts, in order. */
  function Accepted(h: Hub, calls: seq<ConsoleCall>): (events: seq<Event>)
    ensures forall e :: e in events ==> e.Console?
    decreases |calls|
  {
    if calls == [] then []
    else (if Accepts(h.state, calls[0]) then [Console(calls[0])] else []) + Accepted(Apply(h, calls[0]), calls[1..])
  }

  /** The world moves to the next instant. Without an operator console no
      console call can arrive. */
  function Elapse(cfg: Config, s: State, t: Instant): State {
    var s1 := s.(now := s.now + 1 + t.elapsed, dispatched := s.dispatched + t.sent, blocked := s.blocked + t.blocked);
    if cfg.attended.Some? then s1.(hub := HubAfter(s.hub, t.calls), log := s.log + Accepted(s.hub, t.calls)) else s1
  }

  /** The passing of time leaves the flow where it is. */
  lemma ElapseFrame(cap: Capability, cfg: Config, s: State, t: Instant)
    requires Wf(cap, s)
    ensures var e := Elapse(cfg, s, t);
      && Wf(cap, e)
      && e == s.(now := e.now, dispatched := e.dispatched, blocked := e.blocked, hub := e.hub, log := e.log)
  {
    hide HubAfter, Accepted;
  }

  // -------------------------------------------------- one pass of readings

  lemma {:induction false} CallsConcat(h: Hub, a: seq<ConsoleCall>, b: seq<ConsoleCall>)
    ensures HubAfter(h, a + b) == HubAfter(HubAfter(h, a), b)
    ensures Accepted(h, a + b) == Accepted(h, a) + Accepted(HubAfter(h, a), b)
    decreases |a|
  {
    if a == [] {
      assert a + b == b;
    } else {
      assert (a + b)[1..] == a[1..] + b;
      CallsConcat(Apply(h, a[0]), a[1..], b);
    }
  }

  /** The world as it moves from reading to reading of a pass. */
  function Moved(cfg: Config, s: State, moves: seq<Instant>): State {
    if moves == [] then s else Elapse(cfg, Moved(cfg, s, moves[..|moves| - 1]), moves[|moves| - 1])
  }

  /** What the readings of an instant were. */
  predicate SameReadings(a: Instant, b: Instant) {
    a == b.(elapsed := a.elapsed, calls := a.calls, sent := a.sent, blocked := a.blocked)
  }

  /** One move after another, with the readings of a third instant. */
  function Merged(a: Instant, b: Instant, readings: Instant): Instant {
    readings.(elapsed := a.elapsed + 1 + b.elapsed, calls := a.calls + b.calls, sent := a.sent + b.sent,
              blocked := a.blocked + b.blocked)
  }

  lemma TwoMoves(cfg: Config, s: State, a: Instant, b: Instant, readings: Instant)
    ensures Elapse(cfg, Elapse(cfg, s, a), b) == Elapse(cfg, s, Merged(a, b, readings))
  {
    hide HubAfter, Accepted;
    CallsConcat(s.hub, a.calls, b.calls);
    var x, y := Elapse(cfg, Elapse(cfg, s, a), b), Elapse(cfg, s, Merged(a, b, readings));
    assert x.dispatched == y.dispatched && x.log == y.log;
  }

  /** However the clock, the console and the traffic move between the readings of a
      pass, what the engine then stands on is one instant with the same readings. */
  lemma {:induction false} PassIsOneInstant(cfg: Config, s: State, moves: seq<Instant>, readings: Instant)
    returns (t: Instant)
    requires moves != []
    ensures SameReadings(t, readings) && Elapse(cfg, s, t) == Moved(cfg, s, moves)
    decreases |moves|
  {
    hide Elapse;
    var init, last := moves[..|moves| - 1], moves[|moves| - 1];
    if init == [] {
      t := readings.(elapsed := last.elapsed, calls := last.calls, sent := last.sent, blocked := last.blocked);
      OnlyMovesMatter(cfg, s, t, last);
    } else {
      var u := PassIsOneInstant(cfg, s, init, readings);
      t := Merged(u, last, readings);
      TwoMoves(cfg, s, u, last, readings);
    }
  }

  lemma OnlyMovesMatter(cfg: Config, s: State, a: Instant, b: Instant)
    requires a.elapsed == b.elapsed && a.calls == b.calls && a.sent == b.sent && a.blocked == b.blocked
    ensures Elapse(cfg, s, a) == Elapse(cfg, s, b)
  {
  }

  // ------------------------------------------------------- ways a run ends

  function End(s: State, r: Result): State { s.(phase := Ended(r)) }

  /** A failed step reaches the top of the run. */
  function Finish(cap: Capability, s: State, f: Failed): State {
    End(s,
      if s.hazard.Some? then Unresolved(StepId(cap, s.hazard.value.index).GetOr("?"), true)
      else if f.unresolved then Unresolved(f.at.GetOr("?"), f.dispatched)
      else if s.blocked > s.blockMark then PolicyViolation(OffAllowlistTraffic)
      else Failure(f.at))
  }

  /** The browser itself failed. */
  function Crash(cap: Capability, s: State): State {
    End(s,
      if s.hazard.Some? then Unresolved(StepId(cap, s.hazard.value.index).GetOr("?"), true)
      else if s.blocked > s.blockMark then PolicyViolation(OffAllowlistTraffic)
      else Failure(None))
  }

  lemma FinishEnds(cap: Capability, s: State, f: Failed)
    ensures var r := Finish(cap, s, f); r.phase.Ended? && r == End(s, r.phase.result)
  {
  }

  /** A failure, or a pause at the operator's request, becomes an intervention
      when there is an operator to ask and budget left. */
  function Escalate(cap: Capability, cfg: Config, s: State, f: Failed): State {
    if cfg.attended.None? || s.escalations + 1 > cfg.attended.value.maxEscalations then Finish(cap, s, f)
    else s.(escalations := s.escalations + 1, phase := Asking(f.at))
  }

  // -------------------------------------------------------------- the loop

  /** The head of the step loop. */
  function Enter(cap: Capability, cfg: Config, s: State): (r: State)
    requires Core(cap, s)
    ensures Wf(cap, r)
  {
    var s1 := Logged(s.(deadline := s.now + cfg.stepBudget), Visited(s.index));
    if s.index < |cap.steps| then s1.(phase := Snapshot, gone := {})
    else s1.(phase := Check, blockMark := s1.blocked)
  }

  function EnterAt(cap: Capability, cfg: Config, s: State, index: nat): (r: State)
    requires index <= |cap.steps|
    requires Core(cap, s)
    ensures Wf(cap, r)
  {
    Enter(cap, cfg, s.(index := index))
  }

  function RequiresHead(cap: Capability, cfg: Config, s: State, pending: set<nat>): (r: State)
    requires Core(cap, s)
    ensures Wf(cap, r)
  {
    if pending == {} then Enter(cap, cfg, s)
    else if s.now < s.deadline then s.(phase := Requires(pending))
    else End(s, PreconditionFailed)
  }

  function AfterSuppression(cap: Capability, s: State, acted: bool): State {
    s.(phase := if Suppressed(cap, s) != {} then Refresh(acted) else Poll(acted))
  }

  function MatchingIds(cap: Capability, cs: set<nat>): set<string>
    requires forall c :: c in cs ==> c < |cap.conditions|
  {
    set c | c in cs :: cap.conditions[c].id
  }

  function ArmedAnswers(cap: Capability, index: nat): set<nat>
    requires Integrity(cap)
  {
    set c | 0 <= c < |cap.conditions| && IsAnswer(cap, c) && Armed(cap, c, index)
  }

  function ArmedNamed(cap: Capability, index: nat, ids: set<string>): set<nat>
    requires Integrity(cap)
  {
    set c | 0 <= c < |cap.conditions| && Armed(cap, c, index) && cap.conditions[c].id in ids
  }

  /** First armed recognizer, in artifact order, that matches and is not a
      suppressed business outcome. */
  function FirstHit(cap: Capability, index: nat, suppressed: set<string>, matching: set<nat>,
                    from: nat): (hit: Option<nat>)
    requires Integrity(cap) && from <= |cap.conditions|
    ensures hit.Some? ==>
      && from <= hit.value < |cap.conditions| && Armed(cap, hit.value, index) && hit.value in matching
      && (IsAnswer(cap, hit.value) ==> cap.conditions[hit.value].id !in suppressed)
    decreases |cap.conditions| - from
  {
    if from == |cap.conditions| then None
    else if Armed(cap, from, index) && from in matching
        && !(IsAnswer(cap, from) && cap.conditions[from].id in suppressed)
      then Some(from)
    else FirstHit(cap, index, suppressed, matching, from + 1)
  }

  /** Record that a risky step was seen sending a mutation; the first one of the
      run is its hazard. */
  function Note(cap: Capability, s: State): (r: (State, bool))
    requires Wf(cap, s)
    ensures r.0.phase == s.phase && Wf(cap, r.0)
  {
    if !IsRisky(cap, s.index) || StepMutations(s) == [] then (s, false)
    else
      var s1 := Logged(s, Consequential(s.index, s.mark));
      if s.hazard.Some? then (s1, true)
      else (Logged(s1.(hazard := Some(Hazard(s.index, StepMutations(s)))), HazardRaised(s.index)), true)
  }

  function NoteFailed(cap: Capability, cfg: Config, s: State): (r: State)
    requires Wf(cap, s)
    ensures Wf(cap, r)
  {
    var (s1, noted) := Note(cap, s);
    Escalate(cap, cfg, s1, Failed(StepId(cap, s.index), noted, noted))
  }

  /** A recoverable condition matched. */
  function Recover(cap: Capability, cfg: Config, s: State, c: nat, acted: bool): (r: State)
    requires Integrity(cap) && Wf(cap, s) && c < |cap.conditions| && cap.conditions[c].classify.Recoverable?
    ensures Wf(cap, r)
  {
    var cond := cap.conditions[c];
    var count := Fires(s, cond.id) + 1;
    var s1 := s.(fires := s.fires[cond.id := count]);
    var at := StepId(cap, s.index);
    if count > cond.maxFires then Escalate(cap, cfg, s1, PlainFailure(at))
    else if acted && IsRisky(cap, s.index) then
      var sent := StepMutations(s1) != [];
      Escalate(cap, cfg, if sent then Logged(s1, Consequential(s.index, s.mark)) else s1, Failed(at, sent, sent))
    else
      var resumeAt := ResumePoint(cap, s.index, cond.classify.resume);
      if Forbidden(s.hazard, resumeAt) then Escalate(cap, cfg, s1, PlainFailure(at))
      else s1.(phase := RecoverAct(c, 0, resumeAt))
  }

  function Fires(s: State, id: string): nat {
    if id in s.fires then s.fires[id] else 0
  }

  function ResumePoint(cap: Capability, current: nat, resume: Resume): (r: nat)
    requires resume.RestartFrom? ==> Names(cap.steps, resume.stepId)
    requires current <= |cap.steps|
    ensures r <= |cap.steps|
  {
    match resume
    case RetryCurrentStep => current
    case RestartFrom(id) => IndexOf(cap.steps, id)
  }

  /** Resuming here would re-run the consequential step. */
  predicate Forbidden(hazard: Option<Hazard>, resumeAt: nat) {
    hazard.Some? && resumeAt <= hazard.value.index
  }

  /** One past the furthest step, below `n`, whose postconditions hold. */
  function Frontier(posts: set<nat>, n: nat): (r: Option<nat>)
    ensures r.Some? ==> 0 < r.value <= n && r.value - 1 in posts
    ensures r.None? ==> forall i :: 0 <= i < n ==> i !in posts
    ensures r.Some? ==> forall i :: r.value <= i < n ==> i !in posts
  {
    if n == 0 then None else if n - 1 in posts then Some(n) else Frontier(posts, n - 1)
  }

  /** Where a handed-back flow resumes; None is a loud failure. */
  function ResumeScan(cap: Capability, s: State, t: Instant): (r: Option<nat>)
    requires Wf(cap, s)
    ensures r.Some? ==> r.value <= |cap.steps|
  {
    if t.checkpoint then Some(|cap.steps|)
    else
      match Frontier(t.posts, |cap.steps|)
      case Some(resumeAt) => if Forbidden(s.hazard, resumeAt) then None else Some(resumeAt)
      case None => if IsRisky(cap, s.index) then None else Some(s.index)
  }

  /** What a failed scan is reported against: the consequential step, or the
      current one when there is no completed step to resume after. */
  function ScanFailedAt(cap: Capability, s: State, t: Instant): Option<string> {
    if Frontier(t.posts, |cap.steps|).Some? && s.hazard.Some? then StepId(cap, s.hazard.value.index)
    else StepId(cap, s.index)
  }

  function AfterOutputs(cap: Capability, cfg: Config, s: State, k: nat): (r: State)
    requires Core(cap, s)
    ensures Wf(cap, r)
  {
    if k < cap.outputs then s.(phase := Output(k))
    else if cfg.observes then s.(phase := Observe)
    else End(s, Success)
  }

  // ------------------------------------------------- one phase at a time

  function OnStarting(cap: Capability, cfg: Config, s: State, t: Instant): (r: State)
    requires Core(cap, s)
    ensures Wf(cap, r)
  {
    if !t.usable then Crash(cap, s)
    else RequiresHead(cap, cfg, s.(deadline := s.now + cfg.requiresBudget), cap.requirements)
  }

  function OnRequires(cap: Capability, cfg: Config, s: State, t: Instant, pending: set<nat>): (r: State)
    requires Core(cap, s)
    ensures Wf(cap, r)
  {
    RequiresHead(cap, cfg, s, pending - t.satisfied)
  }

  function OnSnapshot(cap: Capability, s: State, t: Instant): (r: State)
    requires Integrity(cap) && Wf(cap, s) && s.phase.Snapshot?
    ensures Wf(cap, r)
  {
    var armed := ArmedAnswers(cap, s.index);
    AfterSuppression(cap,
      s.(stale := MatchingIds(cap, armed * t.matching), gone := armed - t.matching,
         mark := |s.dispatched|, blockMark := s.blocked), false)
  }

  function OnRefresh(cap: Capability, s: State, t: Instant, acted: bool): (r: State)
    requires Integrity(cap) && Wf(cap, s) && s.phase == Refresh(acted)
    ensures Wf(cap, r)
  {
    var looked := ArmedNamed(cap, s.index, Suppressed(cap, s));
    var still := MatchingIds(cap, looked * t.matching);
    (if s.index < |cap.steps| then s.(stale := s.stale * still, gone := s.gone + (looked - t.matching))
     else s.(kept := s.kept * still)).(phase := Poll(acted))
  }

  predicate PauseDue(cfg: Config, s: State) {
    cfg.attended.Some? && s.hub.pauseRequested && s.hub.state == Automation
  }

  function OnPoll(cap: Capability, cfg: Config, s: State, t: Instant, acted: bool): (r: State)
    requires Integrity(cap) && Wf(cap, s) && s.phase == Poll(acted)
    ensures Wf(cap, r)
  {
    if PauseDue(cfg, s) then Escalate(cap, cfg, s, PlainFailure(StepId(cap, s.index)))
    else
      match FirstHit(cap, s.index, Suppressed(cap, s), t.matching, 0)
      case Some(c) =>
        (match cap.conditions[c].classify
         case Recoverable(_, _) => Recover(cap, cfg, s, c, acted)
         case Answer(code) => End(s, BusinessOutcome(code, ByCondition(c))))
      case None =>
        if !acted then s.(phase := Act)
        else if s.now < s.deadline then s.(phase := Check)
        else if !t.usable then Crash(cap, s)
        else if s.index < |cap.steps| then NoteFailed(cap, cfg, s)
        else Escalate(cap, cfg, s, PlainFailure(None))
  }

  function OnAct(cap: Capability, cfg: Config, s: State, t: Instant): (r: State)
    requires Wf(cap, s) && s.phase.Act?
    ensures Wf(cap, r)
  {
    var s1 := Logged(s, Attempted(s.index));
    if t.attempt == Landed then Note(cap, s1).0.(phase := Check)
    else if cap.steps[s.index].risk == Safe && t.attempt == TimedOut && s.now < s.deadline then
      if cap.steps[s.index].probeable then s1.(phase := Probe) else AfterSuppression(cap, s1, false)
    else NoteFailed(cap, cfg, s1)
  }

  function OnProbe(cap: Capability, s: State, t: Instant): (r: State)
    requires Wf(cap, s) && s.phase.Probe?
    ensures Wf(cap, r)
  {
    if s.index in t.posts then Note(cap, s).0.(phase := Check) else AfterSuppression(cap, s, false)
  }

  function OnCheck(cap: Capability, cfg: Config, s: State, t: Instant): (r: State)
    requires Wf(cap, s)
    ensures Wf(cap, r)
  {
    if s.index == |cap.steps| then
      if t.checkpoint then AfterOutputs(cap, cfg, s, 0) else AfterSuppression(cap, s, true)
    else if s.index in t.posts then EnterAt(cap, cfg, s.(kept := s.stale), s.index + 1)
    else AfterSuppression(cap, s, true)
  }

  function OnRecoverAct(cap: Capability, cfg: Config, s: State, t: Instant, c: nat, k: nat, resumeAt: nat): (r: State)
    requires RecoveryPoint(cap, c, k, resumeAt)
    requires Wf(cap, s)
    ensures Wf(cap, r)
  {
    var s1 := Logged(s, RecoveryAttempted(c, k));
    if t.attempt == Landed then s1.(phase := RecoverCheck(c, k, resumeAt), deadline := s.now + cfg.stepBudget)
    else Escalate(cap, cfg, s1, PlainFailure(Some(cap.conditions[c].classify.recovery[k].id)))
  }

  function OnRecoverCheck(cap: Capability, cfg: Config, s: State, t: Instant, c: nat, k: nat, resumeAt: nat): (r: State)
    requires RecoveryPoint(cap, c, k, resumeAt)
    requires Wf(cap, s)
    ensures Wf(cap, r)
  {
    if t.recovered then
      if k + 1 < |cap.conditions[c].classify.recovery| then s.(phase := RecoverAct(c, k + 1, resumeAt))
      else EnterAt(cap, cfg, s.(recoveries := s.recoveries + 1), resumeAt)
    else if s.now < s.deadline then s
    else if !t.usable then Crash(cap, s)
    else Escalate(cap, cfg, s, PlainFailure(Some(cap.conditions[c].classify.recovery[k].id)))
  }

  /** The hub parks; the clock of the intervention starts. */
  function OnAsking(cfg: Config, s: State, at: Option<string>): State {
    var ttl := if cfg.attended.Some? then cfg.attended.value.ttl else 0;
    Logged(s.(hub := Parked(s.hub), phase := ParkLook(at, s.now + ttl)), ParkedEvent)
  }

  /** A decision to resolve the run with a code the capability does not declare. */
  predicate Undeclared(cap: Capability, h: Hub) {
    h.decision == Resolve && h.code !in cap.outcomes
  }

  function OnParkLook(s: State, at: Option<string>, ttl: int): State {
    s.(phase := if s.hub.state == Human then ParkPop(at, ttl) else ParkTake(at, ttl))
  }

  function OnParkPop(s: State, at: Option<string>, ttl: int): State {
    if s.hub.commands == [] then s.(phase := ParkTake(at, ttl))
    else Logged(s.(hub := Popped(s.hub), phase := ParkLook(at, ttl)), Commanded(s.hub.commands[0]))
  }

  function OnParkTake(cap: Capability, s: State, at: Option<string>, ttl: int): (r: State)
    requires Wf(cap, s)
    ensures Wf(cap, r)
  {
    var d := s.hub.decision;
    var s1 := s.(hub := s.hub.(decision := NoDecision));
    if d == NoDecision then
      if s.now < ttl then s1.(phase := ParkLook(at, ttl)) else Finish(cap, s1, PlainFailure(None))
    else if Undeclared(cap, s.hub) then s1.(phase := ParkLook(at, ttl))
    else
      var s2 := Logged(s1, Consumed(d, s.hub.code));
      match d
      case Abort => Finish(cap, s2, PlainFailure(at))
      case Resolve => End(s2, BusinessOutcome(s.hub.code, ByOperator(s.hub.operator)))
      case _ => s2.(phase := Releasing)
  }

  /** Control goes back to automation, whatever the console did meanwhile. */
  function OnReleasing(s: State): State {
    Logged(s.(hub := Resumed(s.hub), phase := Scan), Released)
  }

  function OnScan(cap: Capability, cfg: Config, s: State, t: Instant): (r: State)
    requires Wf(cap, s)
    ensures Wf(cap, r)
  {
    match ResumeScan(cap, s, t)
    case Some(i) => EnterAt(cap, cfg, s, i)
    case None => Finish(cap, s, PlainFailure(ScanFailedAt(cap, s, t)))
  }

  function OnOutput(cap: Capability, cfg: Config, s: State, t: Instant, k: nat): (r: State)
    requires Wf(cap, s)
    ensures Wf(cap, r)
  {
    if t.readable then AfterOutputs(cap, cfg, s, k + 1) else Finish(cap, s, PlainFailure(None))
  }

  function OnObserve(cap: Capability, s: State, t: Instant): State {
    if t.readable then End(s, Success) else Finish(cap, s, PlainFailure(None))
  }

  /** The machine once the world has moved to the instant `t`. */
  function React(cap: Capability, cfg: Config, s: State, t: Instant): (r: State)
    requires Integrity(cap) && Wf(cap, s)
    ensures Wf(cap, r)
  {
    match s.phase
    case Starting => OnStarting(cap, cfg, s, t)
    case Requires(pending) => OnRequires(cap, cfg, s, t, pending)
    case Snapshot => OnSnapshot(cap, s, t)
    case Refresh(acted) => OnRefresh(cap, s, t, acted)
    case Poll(acted) => OnPoll(cap, cfg, s, t, acted)
    case Act => OnAct(cap, cfg, s, t)
    case Probe => OnProbe(cap, s, t)
    case Check => OnCheck(cap, cfg, s, t)
    case RecoverAct(c, k, r) => OnRecoverAct(cap, cfg, s, t, c, k, r)
    case RecoverCheck(c, k, r) => OnRecoverCheck(cap, cfg, s, t, c, k, r)
    case Asking(at) => OnAsking(cfg, s, at)
    case ParkLook(at, ttl) => OnParkLook(s, at, ttl)
    case ParkPop(at, ttl) => OnParkPop(s, at, ttl)
    case ParkTake(at, ttl) => OnParkTake(cap, s, at, ttl)
    case Releasing => OnReleasing(s)
    case Scan => OnScan(cap, cfg, s, t)
    case Output(k) => OnOutput(cap, cfg, s, t, k)
    case Observe => OnObserve(cap, s, t)
    case Ended(_) => s
  }

  function Next(cap: Capability, cfg: Config, s: State, t: Instant): (r: State)
    requires Integrity(cap) && Wf(cap, s)
    ensures Wf(cap, r)
  {
    if s.phase.Ended? then s else React(cap, cfg, Elapse(cfg, s, t), t)
  }

  /** Unattended replay of risky steps needs a valid signed review. */
  predicate Refused(cap: Capability, cfg: Config) {
    cfg.requireReview && cfg.attended.None? && HasRisky(cap) && !cap.reviewValid
  }

  function Initial(cap: Capability, cfg: Config): State {
    State(if Refused(cap, cfg) then Ended(PolicyViolation(UnattendedRiskyRequiresReview)) else Starting,
      0, 0, 0, map[], {}, {}, {}, 0, 0, None, 0, 0, [], 0, INITIAL_HUB, [])
  }

  /** A run so far: the machine's states under a finite input history. Every
      finite prefix of every run is one. */
  ghost predicate Behavior(cap: Capability, cfg: Config, inputs: seq<Instant>, states: seq<State>)
    requires Integrity(cap)
  {
    && |states| == |inputs| + 1
    && states[0] == Initial(cap, cfg)
    && (forall k :: 0 <= k < |states| ==> Wf(cap, states[k]))
    && (forall k :: 0 <= k < |inputs| ==> states[k + 1] == Next(cap, cfg, states[k], inputs[k]))
  }

  function Last(states: seq<State>): State
    requires states != []
  {
    states[|states| - 1]
  }

  /** Every run can go on with any instant. */
  lemma Extend(cap: Capability, cfg: Config, inputs: seq<Instant>, states: seq<State>, t: Instant)
    requires Integrity(cap) && Behavior(cap, cfg, inputs, states)
    ensures Behavior(cap, cfg, inputs + [t], states + [Next(cap, cfg, Last(states), t)])
  {
    hide Integrity, Next, Wf;
    var i2, s2 := inputs + [t], states + [Next(cap, cfg, Last(states), t)];
    assert s2[0] == states[0];
    forall k | 0 <= k < |s2| ensures Wf(cap, s2[k]) {
      if k < |states| { assert s2[k] == states[k]; }
    }
    forall k | 0 <= k < |i2| ensures s2[k + 1] == Next(cap, cfg, s2[k], i2[k]) {
      if k < |inputs| { assert s2[k + 1] == states[k + 1] && i2[k] == inputs[k]; }
    }
  }
}
