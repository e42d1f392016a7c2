/** The replay engine as it runs: an object whose methods update its fields, with
    the exceptions of its control flow as signals. Every method is proved against
    the machine of module Protocol: a method leaves the engine's fields describing
    a state of the machine, and the machine exactly one continuation ahead. */
module Engine {
  import opened Wrappers
  import opened Artifact
  import opened Escalation
  import opened Protocol
  import Bounds
  import HazardSafety
  import ResultSafety
  import Control

  /** The internal control flow. */
  datatype Signal =
    | Completed
    | StepFailed(failed: Failed)
    | Recognized(code: string, evidence: Evidence)
    | RecoverNow(condition: nat, acted: bool)
    | PauseRequested
    | Crashed

  datatype Outcome = Returned(result: Result) | Raised(signal: Signal)

  datatype Answer = Waiting | Expired | Answered

  datatype HazardRecord = HazardRecord(stepId: string, requests: seq<Dispatch>)

  /** A console call that can keep an intervention going: a command, or a decision
      to resolve with an undeclared code. */
  predicate KeepsTalking(cap: Capability, call: ConsoleCall) {
    call.Submit? || (call.Decide? && call.decision == Resolve && call.code !in cap.outcomes)
  }

  /** The live browser session. The script says what the world answers at each
      instant; `settledFrom` is where the console has stopped keeping interventions
      alive, if it ever does. */
  class Surface {
    const script: nat -> Instant
    ghost const settledFrom: nat
    var at: nat
    var now: int
    var dispatched: seq<Dispatch>
    var blocked: nat

    /** From then on the console may say anything but what keeps an intervention alive. */
    ghost predicate Settles(cap: Capability) {
      forall k: nat, call :: k >= settledFrom && call in script(k).calls ==> !KeepsTalking(cap, call)
    }

    constructor (script: nat -> Instant, ghost settledFrom: nat)
      ensures this.script == script && this.settledFrom == settledFrom
      ensures at == 0 && now == 0 && dispatched == [] && blocked == 0
    {
      this.script, this.settledFrom := script, settledFrom;
      at, now, dispatched, blocked := 0, 0, [], 0;
    }
  }

  /** The hub has no more to keep an intervention alive with than before. */
  predicate Quieter(cap: Capability, before: Hub, after: Hub) {
    after.commands == before.commands && (Undeclared(cap, after) ==> Undeclared(cap, before))
  }

  lemma {:induction false} SettledCalls(cap: Capability, h: Hub, calls: seq<ConsoleCall>)
    requires forall call :: call in calls ==> !KeepsTalking(cap, call)
    ensures Quieter(cap, h, HubAfter(h, calls))
    decreases |calls|
  {
    if calls != [] {
      assert !KeepsTalking(cap, calls[0]);
      SettledCalls(cap, Apply(h, calls[0]), calls[1..]);
    }
  }

  class ReplayEngine {
    const config: Config
    var hub: EscalationHub?
    var dispatchMark: nat
    var blockedMark: nat
    var hazard: Option<HazardRecord>
    ghost var inputs: seq<Instant>
    ghost var states: seq<State>

    constructor (config: Config)
      ensures this.config == config && hub == null && fresh(this)
    {
      this.config := config;
      hub, dispatchMark, blockedMark, hazard := null, 0, 0, None;
      inputs, states := [], [];
    }

    /** The engine's fields, the session and the hub describe `s`. */
    ghost predicate Tracks(cap: Capability, surface: Surface, s: State)
      reads this, surface, hub
    {
      && surface.now == s.now && surface.dispatched == s.dispatched && surface.blocked == s.blocked
      && (hub != null <==> config.attended.Some?)
      && (hub != null ==> hub.View() == s.hub)
      && dispatchMark == s.mark && blockedMark == s.blockMark
      && (hazard.Some? <==> s.hazard.Some?)
      && (hazard.Some? ==>
            s.hazard.value.index < |cap.steps|
            && hazard.value.stepId == cap.steps[s.hazard.value.index].id
            && hazard.value.requests == s.hazard.value.requests)
    }

    /** The machine has consumed exactly the instants the session has answered. */
    ghost predicate Recorded(cap: Capability, surface: Surface)
      requires Integrity(cap)
      reads this`inputs, this`states, surface`at
    {
      && Behavior(cap, config, inputs, states)
      && surface.Settles(cap)
      && |inputs| == surface.at
      && (forall k :: 0 <= k < |inputs| ==> inputs[k] == surface.script(k))
    }

    ghost predicate Live(cap: Capability, surface: Surface, s: State)
      requires Integrity(cap)
      reads this, surface, hub
    {
      Tracks(cap, surface, s) && Recorded(cap, surface) && states != [] && Core(cap, s)
    }

    /** The machine stands at `m`. */
    ghost predicate At(m: State)
      reads this`states
    {
      states != [] && Last(states) == m
    }

    /** `e` differs from `s` only in what the passing of time may change. */
    static predicate Elapsed(s: State, e: State) {
      e == s.(now := e.now, dispatched := e.dispatched, blocked := e.blocked, hub := e.hub, log := e.log)
          && s.now < e.now
    }

    /** The next instant of the world; the console thread is served meanwhile. */
    method Sense(cap: Capability, surface: Surface, ghost s: State) returns (t: Instant, ghost e: State)
      requires Integrity(cap) && Live(cap, surface, s) && At(s) && Wf(cap, s) && !s.phase.Ended?
      modifies this`inputs, this`states, surface, hub
      ensures Live(cap, surface, e) && Wf(cap, e) && e.phase == s.phase && Elapsed(s, e) && e == Elapse(config, s, t)
      ensures At(React(cap, config, e, t))
      ensures surface.at == old(surface.at) + 1
        && (old(surface.at) >= surface.settledFrom ==> Quieter(cap, s.hub, e.hub))
    {
      hide Integrity, React, Next;
      t := surface.script(surface.at);
      surface.at := surface.at + 1;
      surface.now := surface.now + 1 + t.elapsed;
      surface.dispatched := surface.dispatched + t.sent;
      surface.blocked := surface.blocked + t.blocked;
      if hub != null {
        ServeAll(t.calls);
      }
      e := Elapse(config, s, t);
      Extend(cap, config, inputs, states, t);
      inputs := inputs + [t];
      states := states + [Next(cap, config, s, t)];
      NextIsReact(cap, config, s, t);
      if surface.at > surface.settledFrom {
        SettledCalls(cap, s.hub, t.calls);
      }
    }

    method ServeAll(calls: seq<ConsoleCall>)
      requires hub != null
      modifies hub
      ensures hub.View() == HubAfter(old(hub.View()), calls)
    {
      var i := 0;
      assert calls[0..] == calls;
      while i < |calls|
        invariant 0 <= i <= |calls|
        invariant HubAfter(hub.View(), calls[i..]) == HubAfter(old(hub.View()), calls)
      {
        ghost var before := hub.View();
        var ok := hub.Serve(calls[i]);
        assert calls[i..][0] == calls[i] && calls[i..][1..] == calls[i + 1..];
        i := i + 1;
      }
    }

    // ---------------------------------------------------------- recognizers

    /** Evaluate armed recognizers against the current page. */
    method CheckRecognizers(cap: Capability, index: nat, suppressed: set<string>, matching: set<nat>)
      returns (hit: Option<nat>)
      requires Integrity(cap)
      ensures hit == FirstHit(cap, index, suppressed, matching, 0)
    {
      hide Integrity, Armed;
      var c := 0;
      while c < |cap.conditions|
        invariant 0 <= c <= |cap.conditions|
        invariant FirstHit(cap, index, suppressed, matching, 0) == FirstHit(cap, index, suppressed, matching, c)
      {
        if Armed(cap, c, index) {
          var stale := cap.conditions[c].classify.Answer? && cap.conditions[c].id in suppressed;
          if !stale && c in matching {
            return Some(c);
          }
        }
        c := c + 1;
      }
      return None;
    }

    /** Lift suppression for stale recognizers whose state has disappeared. */
    method RefreshSuppression(cap: Capability, surface: Surface, index: nat, suppressed: set<string>, acted: bool,
                              ghost s: State)
      returns (still: set<string>, ghost e: State)
      requires Integrity(cap) && Live(cap, surface, s) && Wf(cap, s) && At(s)
      requires s.index == index && Suppressed(cap, s) == suppressed
      requires s.phase == (if suppressed != {} then Refresh(acted) else Poll(acted))
      modifies this`inputs, this`states, surface, hub
      ensures Live(cap, surface, e) && Wf(cap, e) && At(e) && e.phase == Poll(acted) && Suppressed(cap, e) == still
        && Kin(s, e)
      ensures index < |cap.steps| ==> e.kept == s.kept
    {
      hide Integrity, ReplayEngine.Recorded;
      still, e := suppressed, s;
      if suppressed == {} {
        return;
      }
      var t, e1 := Sense(cap, surface, s);
      var looked := ArmedNamed(cap, index, suppressed);
      still := suppressed * MatchingIds(cap, looked * t.matching);
      e := OnRefresh(cap, e1, t, acted);
    }

    /** The operator's pause first, then the armed recognizers. */
    method PollRecognizers(cap: Capability, surface: Surface, index: nat, suppressed: set<string>, acted: bool,
                           ghost s: State)
      returns (signal: Signal, usable: bool, ghost e: State)
      requires Integrity(cap) && Live(cap, surface, s) && Wf(cap, s) && At(s)
      requires s.index == index && Suppressed(cap, s) == suppressed && s.phase == Poll(acted)
      modifies this`inputs, this`states, surface, hub
      ensures Live(cap, surface, e) && Wf(cap, e) && e.phase == Poll(acted) && Elapsed(s, e)
      ensures signal.Completed? || signal.PauseRequested? || signal.RecoverNow? || signal.Recognized?
      ensures SignalOk(cap, signal) && (signal.RecoverNow? ==> signal.acted == acted)
      ensures At(if signal.Completed? then Unanswered(cap, config, e, usable, acted) else Then(cap, config, e, signal))
    {
      hide Integrity, ReplayEngine.Recorded, FirstHit, Armed, Recover, NoteFailed, Escalate, Crash;
      var t;
      t, e := Sense(cap, surface, s);
      usable := t.usable;
      if hub != null && hub.pauseRequested && hub.state == Automation {
        return PauseRequested, usable, e;
      }
      var hit := CheckRecognizers(cap, index, suppressed, t.matching);
      if hit.None? {
        return Completed, usable, e;
      }
      match cap.conditions[hit.value].classify
      case Recoverable(_, _) =>
        return RecoverNow(hit.value, acted), usable, e;
      case Answer(code) =>
        return Recognized(code, ByCondition(hit.value)), usable, e;
    }

    // --------------------------------------------------------------- hazard

    /** Record the run's consequential-action hazard if this risky step was seen
        dispatching a business mutation; only the first one is kept. */
    method NoteHazard(cap: Capability, surface: Surface, index: nat, ghost s: State)
      returns (noted: bool, ghost e: State)
      requires Integrity(cap) && Live(cap, surface, s) && Wf(cap, s) && s.index == index < |cap.steps|
      modifies this`hazard
      ensures Live(cap, surface, e) && Wf(cap, e) && (e, noted) == Note(cap, s)
      ensures Kin(s, e) && e.stale == s.stale && e.kept == s.kept && e.phase == s.phase
    {
      hide Integrity, ReplayEngine.Recorded, Mutations;
      e := Note(cap, s).0;
      var step := cap.steps[index];
      if step.risk != Risky {
        return false, e;
      }
      var requests := Mutations(surface.dispatched[dispatchMark..]);
      if requests == [] {
        return false, e;
      }
      if hazard.None? {
        hazard := Some(HazardRecord(step.id, requests));
      }
      return true, e;
    }

    // ----------------------------------------------------------- one step

    /** Suppression refreshed, then the recognizers polled. */
    method Watch(cap: Capability, surface: Surface, index: nat, suppressed: set<string>, acted: bool, ghost s: State)
      returns (signal: Signal, still: set<string>, usable: bool, ghost e: State)
      requires Integrity(cap) && Live(cap, surface, s) && Wf(cap, s) && At(s)
      requires s.index == index && Suppressed(cap, s) == suppressed
      requires s.phase == (if suppressed != {} then Refresh(acted) else Poll(acted))
      modifies this`inputs, this`states, surface, hub
      ensures Live(cap, surface, e) && Wf(cap, e) && e.phase == Poll(acted) && Kin(s, e) && s.now < e.now
      ensures Suppressed(cap, e) == still && (index < |cap.steps| ==> e.kept == s.kept)
      ensures signal.Completed? || signal.PauseRequested? || signal.RecoverNow? || signal.Recognized?
      ensures SignalOk(cap, signal) && (signal.RecoverNow? ==> signal.acted == acted)
      ensures At(if signal.Completed? then Unanswered(cap, config, e, usable, acted) else Then(cap, config, e, signal))
    {
      hide Integrity, ReplayEngine.Live, Then, Unanswered;
      still, e := RefreshSuppression(cap, surface, index, suppressed, acted, s);
      signal, usable, e := PollRecognizers(cap, surface, index, still, acted, e);
    }

    /** One attempt at the step's action: it landed (or its effect is there), it may
        be tried again, or the step failed. */
    method AttemptOnce(cap: Capability, surface: Surface, index: nat, deadline: int, ghost s: State)
      returns (landed: bool, retry: bool, ghost e: State)
      requires Integrity(cap) && Live(cap, surface, s) && Wf(cap, s) && At(s) && s.phase == Act
      requires s.index == index < |cap.steps| && s.deadline == deadline
      modifies this`inputs, this`states, surface, hub
      ensures Live(cap, surface, e) && Wf(cap, e) && Kin(s, e) && e.stale == s.stale && e.kept == s.kept
        && s.now < e.now
      ensures retry ==> cap.steps[index].risk == Safe && s.now < deadline
      ensures At(if landed then Note(cap, e).0.(phase := Check) else if retry then AfterSuppression(cap, e, false)
        else NoteFailed(cap, config, e))
    {
      hide Integrity, ReplayEngine.Recorded, NoteFailed, Note;
      var step := cap.steps[index];
      var t;
      t, e := Sense(cap, surface, s);
      var retryable := step.risk == Safe && t.attempt == TimedOut && surface.now < deadline;
      e := Logged(e, Attempted(index));
      if t.attempt == Landed || !retryable {
        return t.attempt == Landed, false, e;
      }
      if step.probeable {
        e := e.(phase := Probe);
        t, e := Sense(cap, surface, e);
        if index in t.posts {
          return true, false, e;
        }
      }
      return false, true, e;
    }

    /** Act within the step's budget. A risky step is attempted once; a safe one
        again after a timeout, unless its effect is already there. */
    method ActWithRetries(cap: Capability, surface: Surface, index: nat, stale: set<string>, deadline: int,
                          ghost s: State)
      returns (signal: Signal, left: set<string>, ghost e: State)
      requires Integrity(cap) && Live(cap, surface, s) && Wf(cap, s) && At(s)
      requires s.index == index < |cap.steps| && s.stale == stale && s.deadline == deadline
      requires s.phase == (if stale != {} then Refresh(false) else Poll(false))
      modifies this`inputs, this`states, surface, hub
      ensures Live(cap, surface, e) && Wf(cap, e) && Kin(s, e) && e.stale == left && e.kept == s.kept
      ensures signal.Completed? || signal.PauseRequested? || signal.RecoverNow? || signal.Recognized?
        || signal.StepFailed?
      ensures SignalOk(cap, signal) && (signal.RecoverNow? ==> !signal.acted)
      ensures signal.StepFailed? ==> signal.failed == PlainFailure(Some(cap.steps[index].id))
      ensures At(match signal
                 case Completed => Note(cap, e).0.(phase := Check)
                 case StepFailed(_) => NoteFailed(cap, config, e)
                 case _ => Then(cap, config, e, signal))
    {
      hide Integrity, ReplayEngine.Recorded, Recover, NoteFailed, Escalate, Note;
      left, e := stale, s;
      while true
        invariant Live(cap, surface, e) && Wf(cap, e) && At(e) && Kin(s, e) && e.stale == left && e.kept == s.kept
        invariant e.phase == (if left != {} then Refresh(false) else Poll(false))
        decreases deadline - e.now
      {
        var usable;
        signal, left, usable, e := Watch(cap, surface, index, left, false, e);
        if signal != Completed {
          return;
        }
        e := e.(phase := Act);
        var landed, retry;
        landed, retry, e := AttemptOnce(cap, surface, index, deadline, e);
        if landed {
          return Completed, left, e;
        }
        if !retry {
          return StepFailed(PlainFailure(Some(cap.steps[index].id))), left, e;
        }
        e := AfterSuppression(cap, e, false);
      }
    }

    /** Poll for the step's postconditions: satisfied ones win over a recognizer
        matching at the same time. */
    method AwaitPost(cap: Capability, surface: Surface, index: nat, stale: set<string>, deadline: int, ghost s: State)
      returns (signal: Signal, left: set<string>, ghost e: State)
      requires Integrity(cap) && Live(cap, surface, s) && Wf(cap, s) && At(s) && s.phase == Check
      requires s.index == index < |cap.steps| && s.stale == stale && s.deadline == deadline
      modifies this`inputs, this`states, surface, hub
      ensures Live(cap, surface, e) && Wf(cap, e) && Kin(s, e) && e.stale == left && e.kept == s.kept
        && !e.phase.Snapshot?
      ensures SignalOk(cap, signal) && (signal.RecoverNow? ==> signal.acted)
      ensures signal.StepFailed? ==> signal.failed == PlainFailure(Some(cap.steps[index].id))
      ensures At(match signal
                 case Completed => EnterAt(cap, config, e.(kept := left), index + 1)
                 case StepFailed(_) => NoteFailed(cap, config, e)
                 case _ => Then(cap, config, e, signal))
    {
      hide Integrity, ReplayEngine.Recorded, Recover, NoteFailed, Escalate, EnterAt, Crash, React, Elapse, Then,
           SignalOk;
      PlainSignals(cap);
      left, e := stale, s;
      while true
        invariant Live(cap, surface, e) && Wf(cap, e) && At(e) && Kin(s, e) && e.stale == left && e.kept == s.kept
        invariant e.phase == Check
        decreases deadline - e.now
      {
        var t;
        t, e := Sense(cap, surface, e);
        CheckReacts(cap, config, e, t);
        if index in t.posts {
          return Completed, left, e;
        }
        e := AfterSuppression(cap, e, true);
        var usable;
        signal, left, usable, e := Watch(cap, surface, index, left, true, e);
        if signal != Completed {
          return;
        }
        if surface.now >= deadline {
          // building the report reads the page's address
          if !usable {
            ThenCrashed(cap, config, e);
            return Crashed, left, e;
          }
          return StepFailed(PlainFailure(Some(cap.steps[index].id))), left, e;
        }
        e := e.(phase := Check);
      }
    }

    /** The visit's freshness snapshot, and the marks its traffic is measured from. */
    method TakeSnapshot(cap: Capability, surface: Surface, index: nat, ghost s: State)
      returns (stale: set<string>, ghost e: State)
      requires Integrity(cap) && Live(cap, surface, s) && s.index == index < |cap.steps| && At(Enter(cap, config, s))
      modifies this, surface, hub
      ensures hub == old(hub)
      ensures Live(cap, surface, e) && Wf(cap, e) && At(e) && e.index == index && Same(s, e) && e.stale == stale
      ensures e.phase == (if stale != {} then Refresh(false) else Poll(false))
        && e.deadline == s.now + config.stepBudget
    {
      hide Integrity, ReplayEngine.Recorded, Armed;
      e := Enter(cap, config, s);
      var t;
      t, e := Sense(cap, surface, e);
      stale := MatchingIds(cap, ArmedAnswers(cap, index) * t.matching);
      dispatchMark := |surface.dispatched|;
      blockedMark := surface.blocked;
      e := OnSnapshot(cap, e, t);
    }

    /** One visit of a step: freshness snapshot, act, note, await. */
    method RunStep(cap: Capability, surface: Surface, index: nat, ghost s: State)
      returns (signal: Signal, stale: set<string>, ghost e: State)
      requires Integrity(cap) && Live(cap, surface, s) && s.index == index < |cap.steps| && At(Enter(cap, config, s))
      modifies this, surface, hub
      ensures hub == old(hub)
      ensures Live(cap, surface, e) && Wf(cap, e) && e.index == index && Same(s, e)
      ensures SignalOk(cap, signal)
      ensures At(if signal.Completed? then EnterAt(cap, config, e.(kept := stale), index + 1)
        else Then(cap, config, e, signal))
    {
      hide Integrity, ReplayEngine.Recorded, Recover, NoteFailed, Note, Escalate, Enter, EnterAt, Crash;
      var deadline := surface.now + config.stepBudget;
      stale, e := TakeSnapshot(cap, surface, index, s);
      signal, stale, e := ActWithRetries(cap, surface, index, stale, deadline, e);
      if signal.StepFailed? {
        signal, e := FailStep(cap, surface, index, signal.failed, e);
        return;
      }
      if signal != Completed {
        return;
      }
      var noted;
      noted, e := NoteHazard(cap, surface, index, e);
      e := e.(phase := Check);
      signal, stale, e := AwaitPost(cap, surface, index, stale, deadline, e);
      if signal.StepFailed? {
        signal, e := FailStep(cap, surface, index, signal.failed, e);
      }
    }

    /** A failed step is unresolved when a mutation was seen leaving first. */
    method FailStep(cap: Capability, surface: Surface, index: nat, failed: Failed, ghost s: State)
      returns (signal: Signal, ghost e: State)
      requires Integrity(cap) && Live(cap, surface, s) && Wf(cap, s) && s.index == index < |cap.steps|
      requires failed == PlainFailure(Some(cap.steps[index].id)) && At(NoteFailed(cap, config, s))
      modifies this`hazard
      ensures Live(cap, surface, e) && Wf(cap, e) && e.index == index && Same(s, e)
      ensures signal.StepFailed? && At(Escalate(cap, config, e, signal.failed))
    {
      hide Integrity, ReplayEngine.Live, Escalate;
      var noted;
      noted, e := NoteHazard(cap, surface, index, s);
      signal := StepFailed(Failed(failed.at, noted, noted));
    }

    /** The checkpoint owns the traffic blocked from here on. */
    method OpenCheckpoint(cap: Capability, surface: Surface, ghost s: State) returns (ghost e: State)
      requires Integrity(cap) && Live(cap, surface, s) && s.index == |cap.steps| && At(Enter(cap, config, s))
      modifies this`blockedMark
      ensures Live(cap, surface, e) && Wf(cap, e) && At(e) && Same(s, e)
      ensures e.phase == Check && e.index == |cap.steps| && e.deadline == s.now + config.stepBudget
    {
      hide Integrity, ReplayEngine.Recorded;
      blockedMark := surface.blocked;
      e := Enter(cap, config, s);
    }

    /** Poll the identity checkpoint. */
    method AwaitCheckpoint(cap: Capability, surface: Surface, kept: set<string>, deadline: int, ghost s: State)
      returns (signal: Signal, left: set<string>, ghost e: State)
      requires Integrity(cap) && Live(cap, surface, s) && Wf(cap, s) && At(s) && s.phase == Check
      requires s.index == |cap.steps| && s.kept == kept && s.deadline == deadline
      modifies this`inputs, this`states, surface, hub
      ensures Live(cap, surface, e) && Wf(cap, e) && e.index == |cap.steps| && Same(s.(kept := left), e)
      ensures SignalOk(cap, signal)
      ensures At(if signal.Completed? then AfterOutputs(cap, config, e, 0) else Then(cap, config, e, signal))
    {
      hide Integrity, ReplayEngine.Recorded, Recover, NoteFailed, Note, Escalate, Crash, React, Elapse;
      left, e := kept, s;
      while true
        invariant Live(cap, surface, e) && Wf(cap, e) && At(e) && Same(s.(kept := left), e)
        invariant e.phase == Check && e.index == |cap.steps| && e.deadline == deadline
        decreases deadline - e.now
      {
        var t;
        t, e := Sense(cap, surface, e);
        CheckReacts(cap, config, e, t);
        if t.checkpoint {
          return Completed, left, e;
        }
        e := AfterSuppression(cap, e, true);
        var usable;
        signal, left, usable, e := Watch(cap, surface, |cap.steps|, left, true, e);
        if signal != Completed {
          return;
        }
        if surface.now >= deadline {
          if !usable {
            return Crashed, left, e;
          }
          return StepFailed(PlainFailure(None)), left, e;
        }
        e := e.(phase := Check);
      }
    }

    /** One visit of the checkpoint. */
    method VerifyCheckpoint(cap: Capability, surface: Surface, kept: set<string>, ghost s: State)
      returns (signal: Signal, left: set<string>, ghost e: State)
      requires Integrity(cap) && Live(cap, surface, s) && s.index == |cap.steps| && s.kept == kept
        && At(Enter(cap, config, s))
      modifies this, surface, hub
      ensures hub == old(hub)
      ensures Live(cap, surface, e) && Wf(cap, e) && e.index == |cap.steps| && Same(s.(kept := left), e)
      ensures SignalOk(cap, signal)
      ensures At(if signal.Completed? then AfterOutputs(cap, config, e, 0) else Then(cap, config, e, signal))
    {
      hide Integrity, ReplayEngine.Recorded, Then, AfterOutputs, Enter;
      var deadline := surface.now + config.stepBudget;
      e := OpenCheckpoint(cap, surface, s);
      signal, left, e := AwaitCheckpoint(cap, surface, kept, deadline, e);
    }

    // ------------------------------------------------------------- recovery

    /** One recovery step: a single attempt, then a bounded wait. */
    method RecoveryStep(cap: Capability, surface: Surface, c: nat, k: nat, resumeAt: nat, ghost s: State)
      returns (signal: Signal, ghost e: State)
      requires Integrity(cap) && Live(cap, surface, s) && Wf(cap, s) && At(s) && s.phase == RecoverAct(c, k, resumeAt)
      modifies this`inputs, this`states, surface, hub
      ensures Live(cap, surface, e) && Same(s, e) && e.index == s.index && Wf(cap, e)
      ensures signal.Completed? || signal.StepFailed? || signal.Crashed?
      ensures At(if signal.StepFailed? then Escalate(cap, config, e, signal.failed)
                 else if signal.Crashed? then Crash(cap, e)
                 else AfterRecoveryStep(cap, config, e, c, k, resumeAt))
    {
      hide Integrity, ReplayEngine.Recorded, Escalate, EnterAt, Crash;
      var failure := PlainFailure(Some(cap.conditions[c].classify.recovery[k].id));
      var t;
      t, e := Sense(cap, surface, s);
      e := Logged(e, RecoveryAttempted(c, k));
      if t.attempt != Landed {
        return StepFailed(failure), e;
      }
      var deadline := surface.now + config.stepBudget;
      e := e.(phase := RecoverCheck(c, k, resumeAt), deadline := deadline);
      while true
        invariant Live(cap, surface, e) && Wf(cap, e) && At(e) && Same(s, e) && e.index == s.index
        invariant e.phase == RecoverCheck(c, k, resumeAt) && e.deadline == deadline
        decreases deadline - e.now
      {
        t, e := Sense(cap, surface, e);
        if t.recovered {
          return Completed, e;
        }
        if surface.now >= deadline {
          if !t.usable {
            return Crashed, e;
          }
          return StepFailed(failure), e;
        }
      }
    }

    /** Run a condition's recovery steps, with no recognizer matching. */
    method RunRecovery(cap: Capability, surface: Surface, c: nat, resumeAt: nat, ghost s: State)
      returns (signal: Signal, ghost e: State)
      requires Integrity(cap) && Live(cap, surface, s) && Wf(cap, s) && At(s) && s.phase == RecoverAct(c, 0, resumeAt)
      modifies this`inputs, this`states, surface, hub
      ensures Live(cap, surface, e) && Same(s.(recoveries := e.recoveries), e) && e.index == s.index && Wf(cap, e)
      ensures signal.Completed? || signal.StepFailed? || signal.Crashed?
      ensures e.recoveries == s.recoveries + if signal.Completed? then 1 else 0
      ensures At(if signal.StepFailed? then Escalate(cap, config, e, signal.failed)
                 else if signal.Crashed? then Crash(cap, e)
                 else EnterAt(cap, config, e, resumeAt))
    {
      hide Integrity, ReplayEngine.Recorded, Escalate, EnterAt, Crash;
      var k := 0;
      var n := |cap.conditions[c].classify.recovery|;
      e := s;
      while true
        invariant 0 <= k < n
        invariant Live(cap, surface, e) && Wf(cap, e) && At(e) && Same(s, e) && e.index == s.index
        invariant e.phase == RecoverAct(c, k, resumeAt)
        decreases n - k
      {
        signal, e := RecoveryStep(cap, surface, c, k, resumeAt, e);
        if signal != Completed {
          return;
        }
        if k + 1 == n {
          e := e.(recoveries := e.recoveries + 1);
          return;
        }
        e := e.(phase := RecoverAct(c, k + 1, resumeAt));
        k := k + 1;
      }
    }

    /** Handle a recoverable condition: bounded, never re-running a risky step
        after its action, never resuming at or before the consequential step. */
    method HandleRecovery(cap: Capability, surface: Surface, c: nat, acted: bool, fires: map<string, nat>, current: nat,
                          ghost s: State)
      returns (signal: Signal, counted: map<string, nat>, resumeAt: nat, ghost e: State)
      requires Integrity(cap) && Live(cap, surface, s) && Wf(cap, s) && s.index == current && s.fires == fires
      requires c < |cap.conditions| && cap.conditions[c].classify.Recoverable? && At(Recover(cap, config, s, c, acted))
      modifies this`inputs, this`states, surface, hub
      ensures Live(cap, surface, e) && Wf(cap, e) && e.index == current && e.fires == counted
        && e.escalations == s.escalations && e.kept == s.kept
      ensures counted == fires[cap.conditions[c].id := Fires(s, cap.conditions[c].id) + 1]
      ensures resumeAt <= |cap.steps|
      ensures signal.Completed? || signal.StepFailed? || signal.Crashed?
      ensures signal.Completed? ==> counted[cap.conditions[c].id] <= cap.conditions[c].maxFires
      ensures signal.Completed? ==> Aimed(cap, cap.conditions[c].classify.resume, current, resumeAt)
      ensures At(if signal.StepFailed? then Escalate(cap, config, e, signal.failed)
                 else if signal.Crashed? then Crash(cap, e)
                 else EnterAt(cap, config, e, resumeAt))
    {
      hide Integrity, ReplayEngine.Recorded, Escalate, EnterAt, Crash, Mutations, Aimed, Names, Forbidden;
      ConditionIsOk(cap, c);
      var cond := cap.conditions[c];
      var count := (if cond.id in fires then fires[cond.id] else 0) + 1;
      counted := fires[cond.id := count];
      e := s.(fires := counted);
      resumeAt := 0;
      var at := if current < |cap.steps| then Some(cap.steps[current].id) else None;
      if count > cond.maxFires {
        return StepFailed(PlainFailure(at)), counted, resumeAt, e;
      }
      if acted && current < |cap.steps| && cap.steps[current].risk == Risky {
        var dispatched := Mutations(surface.dispatched[dispatchMark..]) != [];
        if dispatched {
          e := Logged(e, Consequential(current, e.mark));
        }
        return StepFailed(Failed(at, dispatched, dispatched)), counted, resumeAt, e;
      }
      if cond.classify.resume.RetryCurrentStep? {
        resumeAt := current;
      } else {
        resumeAt := IndexOf(cap.steps, cond.classify.resume.stepId);
      }
      AimIs(cap, cond.classify.resume, current, resumeAt);
      if Blocks(cap, surface, resumeAt, e) {
        return StepFailed(PlainFailure(at)), counted, resumeAt, e;
      }
      e := e.(phase := RecoverAct(c, 0, resumeAt));
      signal, e := RunRecovery(cap, surface, c, resumeAt, e);
    }

    /** Would resuming here re-run the consequential step? */
    function Blocks(cap: Capability, surface: Surface, resumeAt: nat, ghost s: State): (r: bool)
      requires Integrity(cap) && Tracks(cap, surface, s)
      reads this, surface, hub
      ensures r == Forbidden(s.hazard, resumeAt)
    {
      if hazard.None? then false else
        assert cap.steps[s.hazard.value.index].id == hazard.value.stepId;
        IndexOfUnique(cap.steps, s.hazard.value.index);
        resumeAt <= IndexOf(cap.steps, hazard.value.stepId)
    }

    // ----------------------------------------------------------- escalation

    /** Run the console's next command, if a human holds the session and left one. */
    method ServeCommand(cap: Capability, surface: Surface, at: Option<string>, deadline: int, ghost s: State)
      returns (ran: bool, ghost e: State)
      requires Integrity(cap) && Live(cap, surface, s) && Wf(cap, s) && At(s) && hub != null
        && s.phase == ParkLook(at, deadline)
      modifies this`inputs, this`states, surface, hub
      ensures Live(cap, surface, e) && Wf(cap, e) && At(e) && e.index == s.index && Same(s, e)
        && surface.at > old(surface.at)
      ensures e.phase == if ran then ParkLook(at, deadline) else ParkTake(at, deadline)
      ensures old(surface.at) >= surface.settledFrom ==>
                (Undeclared(cap, e.hub) ==> Undeclared(cap, s.hub))
                    && |e.hub.commands| == |s.hub.commands| - if ran then 1 else 0
    {
      hide Integrity, ReplayEngine.Recorded, Elapse;
      var t;
      t, e := Sense(cap, surface, s);
      if hub.state == Human {
        e := e.(phase := ParkPop(at, deadline));
        t, e := Sense(cap, surface, e);
        var command := hub.PopCommand();
        if command.Some? {
          e := Logged(e.(hub := Popped(e.hub), phase := ParkLook(at, deadline)), Commanded(command.value));
          return true, e;
        }
      }
      e := e.(phase := ParkTake(at, deadline));
      ran := false;
    }

    /** Take the operator's decision, if there is one; an undeclared outcome code
        leaves the run parked. */
    method PollDecision(cap: Capability, surface: Surface, at: Option<string>, deadline: int, ghost s: State)
      returns (answer: Answer, decision: Decision, code: string, operator: Option<string>, ghost e: State)
      requires Integrity(cap) && Live(cap, surface, s) && Wf(cap, s) && At(s) && hub != null
        && s.phase == ParkTake(at, deadline)
      modifies this`inputs, this`states, surface, hub
      ensures Live(cap, surface, e) && Wf(cap, e) && e.index == s.index && Same(s, e)
        && e.phase == ParkTake(at, deadline)
      ensures surface.at > old(surface.at) && s.now < e.now && e.hub.decision == NoDecision
      ensures old(surface.at) >= surface.settledFrom ==> e.hub.commands == s.hub.commands
      ensures answer == Waiting && old(surface.at) >= surface.settledFrom && !Undeclared(cap, s.hub) ==>
        s.now < deadline
      ensures answer == Answered ==> decision != NoDecision && (decision == Resolve ==> code in cap.outcomes)
      ensures answer == Expired ==> e.now >= deadline && decision == NoDecision
      ensures At(match answer
                 case Waiting => e.(phase := ParkLook(at, deadline))
                 case Expired => Finish(cap, e, PlainFailure(None))
                 case Answered => Decided(cap, e, decision, code, operator, at))
    {
      hide Integrity, ReplayEngine.Recorded, Finish, Elapse;
      var t;
      t, e := Sense(cap, surface, s);
      var note;
      decision, note, code, operator := hub.TakeDecision();
      e := e.(hub := e.hub.(decision := NoDecision));
      if decision != NoDecision {
        if decision == Resolve && code !in cap.outcomes {
          return Waiting, decision, code, operator, e;
        }
        e := Logged(e, Consumed(decision, code));
        return Answered, decision, code, operator, e;
      }
      answer := if surface.now >= deadline then Expired else Waiting;
    }

    /** The parked engine: the only one that touches the browser, so it also runs
        the console's commands. Returns an operator's decision, or that the
        intervention expired. */
    method ParkAndWait(cap: Capability, surface: Surface, at: Option<string>, deadline: int, ghost s: State)
      returns (answer: Answer, decision: Decision, code: string, operator: Option<string>, ghost e: State)
      requires Integrity(cap) && Live(cap, surface, s) && Wf(cap, s) && At(s) && hub != null
        && s.phase == ParkLook(at, deadline)
      modifies this`inputs, this`states, surface, hub
      ensures Live(cap, surface, e) && Wf(cap, e) && e.index == s.index && Same(s, e)
      ensures answer != Waiting
      ensures answer == Answered ==> decision != NoDecision && (decision == Resolve ==> code in cap.outcomes)
      ensures answer == Expired ==> e.now >= deadline && decision == NoDecision
      ensures At(if answer == Expired then Finish(cap, e, PlainFailure(None))
        else Decided(cap, e, decision, code, operator, at))
    {
      hide Integrity, ReplayEngine.Recorded, Finish, Decided;
      e := s;
      while true
        invariant Live(cap, surface, e) && Wf(cap, e) && At(e) && e.index == s.index && Same(s, e)
        invariant e.phase == ParkLook(at, deadline)
        decreases Remaining(surface), |e.hub.commands|, if Undeclared(cap, e.hub) then 1 else 0, deadline - e.now
      {
        var ran;
        ran, e := ServeCommand(cap, surface, at, deadline, e);
        if ran {
          continue;
        }
        answer, decision, code, operator, e := PollDecision(cap, surface, at, deadline, e);
        if answer != Waiting {
          return;
        }
        e := e.(phase := ParkLook(at, deadline));
      }
    }

    /** Instants left before the console settles. */
    ghost function Remaining(surface: Surface): nat
      reads surface`at
    {
      if surface.at < surface.settledFrom then surface.settledFrom - surface.at else 0
    }

    /** Forward scan after a handback: the checkpoint, else one past the furthest
        completed step, else the current step unless it is risky. */
    method ScanForResume(cap: Capability, surface: Surface, current: nat, ghost s: State)
      returns (found: bool, resumeAt: nat, at: Option<string>, ghost e: State)
      requires Integrity(cap) && Live(cap, surface, s) && Wf(cap, s) && At(s) && s.phase == Scan && s.index == current
      modifies this`inputs, this`states, surface, hub
      ensures Live(cap, surface, e) && Wf(cap, e) && e.index == s.index && Same(s, e) && resumeAt <= |cap.steps|
      ensures At(if found then EnterAt(cap, config, e, resumeAt) else Finish(cap, e, PlainFailure(at)))
    {
      hide Integrity, ReplayEngine.Recorded, Finish, EnterAt;
      var t;
      t, e := Sense(cap, surface, s);
      at := StepId(cap, current);
      if t.checkpoint {
        return true, |cap.steps|, at, e;
      }
      var i := |cap.steps|;
      while i > 0
        invariant 0 <= i <= |cap.steps|
        invariant Frontier(t.posts, |cap.steps|) == Frontier(t.posts, i)
      {
        if i - 1 in t.posts {
          if Blocks(cap, surface, i, e) {
            return false, 0, Some(hazard.value.stepId), e;
          }
          return true, i, at, e;
        }
        i := i - 1;
      }
      if current < |cap.steps| && cap.steps[current].risk == Risky {
        return false, 0, at, e;
      }
      return true, current, at, e;
    }

    /** Ask the operator; the console may still act before the hub parks. */
    method ParkHub(cap: Capability, surface: Surface, at: Option<string>, ghost s: State)
      returns (deadline: int, ghost e: State)
      requires Integrity(cap) && Live(cap, surface, s) && Wf(cap, s) && At(s) && hub != null && s.phase == Asking(at)
      modifies this`inputs, this`states, surface, hub
      ensures Live(cap, surface, e) && Wf(cap, e) && At(e) && e.index == s.index && Same(s, e)
        && e.phase == ParkLook(at, deadline)
    {
      hide Integrity, ReplayEngine.Recorded, Elapse;
      var t;
      t, e := Sense(cap, surface, s);
      hub.Park();
      deadline := surface.now + if config.attended.Some? then config.attended.value.ttl else 0;
      e := OnAsking(config, e, at);
    }

    /** Give control back; the console may still act before that. */
    method Release(cap: Capability, surface: Surface, ghost s: State) returns (ghost e: State)
      requires Integrity(cap) && Live(cap, surface, s) && Wf(cap, s) && At(s) && hub != null && s.phase == Releasing
      modifies this`inputs, this`states, surface, hub
      ensures Live(cap, surface, e) && Wf(cap, e) && At(e) && e.index == s.index && Same(s, e) && e.phase == Scan
    {
      hide Integrity, ReplayEngine.Recorded, Elapse;
      var t;
      t, e := Sense(cap, surface, s);
      hub.ResumeAutomation();
      e := OnReleasing(e);
    }

    /** A would-be failure becomes an intervention when there is an operator to ask
        and budget left; otherwise it is raised as it stands. */
    method MaybeEscalate(cap: Capability, surface: Surface, failed: Failed, index: nat, escalations: nat,
                         ghost s: State)
      returns (signal: Signal, resumeAt: nat, spent: nat, ghost e: State)
      requires Integrity(cap) && Live(cap, surface, s) && Wf(cap, s) && s.index == index && s.escalations == escalations
      requires At(Escalate(cap, config, s, failed))
      modifies this`inputs, this`states, surface, hub
      ensures Live(cap, surface, e) && Wf(cap, e) && Same(s.(escalations := spent), e) && resumeAt <= |cap.steps|
      ensures signal.Completed? || signal.StepFailed? || signal.Recognized?
      ensures signal.Completed? ==> spent == escalations + 1 <= Bounds.MaxEscalations(config)
      ensures At(if signal.Completed? then EnterAt(cap, config, e, resumeAt)
                 else if signal.StepFailed? then Finish(cap, e, signal.failed)
                 else Then(cap, config, e, signal))
    {
      hide Integrity, ReplayEngine.Recorded, Finish, EnterAt;
      e, spent, resumeAt := s, escalations, index;
      if hub == null || config.attended.None? {
        return StepFailed(failed), resumeAt, spent, e;
      }
      if escalations + 1 > config.attended.value.maxEscalations {
        return StepFailed(failed), resumeAt, spent, e;
      }
      spent := escalations + 1;
      e := Escalate(cap, config, s, failed);
      var deadline;
      deadline, e := ParkHub(cap, surface, failed.at, e);
      var answer, decision, code, operator;
      answer, decision, code, operator, e := ParkAndWait(cap, surface, failed.at, deadline, e);
      if answer == Expired {
        return StepFailed(PlainFailure(None)), resumeAt, spent, e;
      }
      if decision == Abort {
        return StepFailed(PlainFailure(failed.at)), resumeAt, spent, e;
      }
      if decision == Resolve {
        return Recognized(code, ByOperator(operator)), resumeAt, spent, e;
      }
      e := e.(phase := Releasing);
      e := Release(cap, surface, e);
      var found, at;
      found, resumeAt, at, e := ScanForResume(cap, surface, index, e);
      signal := if found then Completed else StepFailed(PlainFailure(at));
    }

    // ----------------------------------------------------------- whole run

    /** Wait for the entry requirements; one seen holding is not asked again. */
    method CheckRequires(cap: Capability, surface: Surface, ghost s: State) returns (met: bool, ghost e: State)
      requires Integrity(cap) && Live(cap, surface, s) && Wf(cap, s)
      requires At(RequiresHead(cap, config, s.(deadline := s.now + config.requiresBudget), cap.requirements))
      modifies this`inputs, this`states, surface, hub
      ensures Live(cap, surface, e) && Core(cap, e) && e.index == s.index && Same(s, e)
      ensures At(if met then Enter(cap, config, e) else End(e, PreconditionFailed))
    {
      hide Integrity, ReplayEngine.Recorded, Enter;
      var deadline := surface.now + config.requiresBudget;
      var pending := cap.requirements;
      e := s.(deadline := deadline);
      while pending != {} && surface.now < deadline
        invariant Live(cap, surface, e) && Core(cap, e) && e.index == s.index && Same(s, e) && e.deadline == deadline
        invariant At(RequiresHead(cap, config, e, pending))
        decreases deadline - e.now
      {
        e := e.(phase := Requires(pending));
        var t;
        t, e := Sense(cap, surface, e);
        pending := pending - t.satisfied;
      }
      met := pending == {};
    }

    /** Extract every output, then run the observer if there is one. */
    method ExtractOutputs(cap: Capability, surface: Surface, ghost s: State) returns (ok: bool, ghost e: State)
      requires Integrity(cap) && Live(cap, surface, s) && Wf(cap, s) && At(AfterOutputs(cap, config, s, 0))
      modifies this`inputs, this`states, surface, hub
      ensures Live(cap, surface, e) && Wf(cap, e)
      ensures At(if ok then End(e, Success) else Finish(cap, e, PlainFailure(None)))
    {
      hide Integrity, ReplayEngine.Recorded, Finish;
      e := s;
      var k := 0;
      while k < cap.outputs
        invariant 0 <= k <= cap.outputs
        invariant Live(cap, surface, e) && Wf(cap, e) && At(AfterOutputs(cap, config, e, k))
      {
        e := e.(phase := Output(k));
        var t;
        t, e := Sense(cap, surface, e);
        if !t.readable {
          return false, e;
        }
        k := k + 1;
      }
      if config.observes {
        e := e.(phase := Observe);
        var t;
        t, e := Sense(cap, surface, e);
        return t.readable, e;
      }
      ok := true;
    }

    /** Handle whatever ended a visit other than completion: recover, or ask the
        operator, or let the signal end the run. */
    method HandleSignal(cap: Capability, surface: Surface, raised: Signal, fires: map<string, nat>, escalations: nat,
                        index: nat, ghost s: State)
      returns (signal: Signal, counted: map<string, nat>, spent: nat, resumeAt: nat, ghost e: State)
      requires Integrity(cap) && Live(cap, surface, s) && Wf(cap, s) && SignalOk(cap, raised) && raised != Completed
      requires s.index == index && s.fires == fires && s.escalations == escalations <= Bounds.MaxEscalations(config)
      requires At(Then(cap, config, s, raised))
      modifies this`inputs, this`states, surface, hub
      ensures Live(cap, surface, e) && Wf(cap, e) && e.kept == s.kept && e.fires == counted && e.escalations == spent
        && resumeAt <= |cap.steps|
      ensures signal.Completed? || signal.StepFailed? || signal.Recognized? || signal.Crashed?
      ensures signal.Completed? ==> spent <= Bounds.MaxEscalations(config)
                                    && Budget(cap, config, counted, spent) < Budget(cap, config, fires, escalations)
      ensures At(if signal.Completed? then EnterAt(cap, config, e, resumeAt)
                 else if signal.StepFailed? then Finish(cap, e, signal.failed)
                 else Then(cap, config, e, signal))
    {
      hide Integrity, ReplayEngine.Recorded, ReplayEngine.Tracks, Finish, EnterAt, Escalate, Recover, Crash;
      signal, counted, spent, resumeAt, e := raised, fires, escalations, index, s;
      if signal.RecoverNow? {
        var c := signal.condition;
        signal, counted, resumeAt, e := HandleRecovery(cap, surface, c, signal.acted, fires, index, e);
        Bounds.FireUsesSlack(cap, fires, c, |cap.conditions|);
      }
      if signal.StepFailed? || signal.PauseRequested? {
        var failed := if signal.StepFailed? then signal.failed else PlainFailure(StepId(cap, index));
        signal, resumeAt, spent, e := MaybeEscalate(cap, surface, failed, index, escalations, e);
      }
    }

    /** Where the flow stands, and what it keeps for the checkpoint, are the loop's own. */
    lemma LiveMoves(cap: Capability, surface: Surface, s: State, e: State)
      requires Integrity(cap) && Live(cap, surface, s) && e == s.(kept := e.kept, index := e.index)
        && e.index <= |cap.steps|
      ensures Live(cap, surface, e)
    {
      hide Integrity, ReplayEngine.Recorded;
    }

    /** The index loop: forward, back through a recovery, or anywhere after a
        handback, until the checkpoint holds or the run ends. */
    method RunSteps(cap: Capability, surface: Surface, ghost s: State) returns (signal: Signal, ghost e: State)
      requires Integrity(cap) && Live(cap, surface, s) && At(Enter(cap, config, s))
      requires s.index == 0 && s.fires == map[] && s.kept == {} && s.escalations == 0
      modifies this, surface, hub
      ensures hub == old(hub)
      ensures Live(cap, surface, e) && Wf(cap, e)
      ensures signal.Completed? || signal.StepFailed? || signal.Recognized? || signal.Crashed?
      ensures At(if signal.Completed? then AfterOutputs(cap, config, e, 0) else Top(cap, e, signal))
    {
      hide Integrity, ReplayEngine.Recorded, ReplayEngine.Tracks, Finish, Enter, Escalate, Recover, Crash, AfterOutputs;
      var fires, suppressed: set<string>, escalations, index := map[], {}, 0, 0;
      e := s;
      while true
        invariant Live(cap, surface, e) && At(Enter(cap, config, e)) && hub == old(hub)
        invariant e.index == index <= |cap.steps| && e.fires == fires && e.kept == suppressed
        invariant e.escalations == escalations <= Bounds.MaxEscalations(config)
        decreases Budget(cap, config, fires, escalations), |cap.steps| - index
      {
        if index == |cap.steps| {
          signal, suppressed, e := VerifyCheckpoint(cap, surface, suppressed, e);
          if signal == Completed {
            return;
          }
        } else {
          var stale;
          signal, stale, e := RunStep(cap, surface, index, e);
          if signal == Completed {
            suppressed, index := stale, index + 1;
            LiveMoves(cap, surface, e, e.(kept := stale, index := index));
            e := e.(kept := stale, index := index);
            continue;
          }
        }
        signal, fires, escalations, index, e := HandleSignal(cap, surface, signal, fires, escalations, index, e);
        if signal != Completed {
          return;
        }
        LiveMoves(cap, surface, e, e.(index := index));
        e := e.(index := index);
      }
    }

    /** Entry requirements, the steps and the checkpoint, the outputs. */
    method Execute(cap: Capability, surface: Surface, ghost s: State) returns (out: Outcome, ghost e: State)
      requires Integrity(cap) && Live(cap, surface, s) && Wf(cap, s)
      requires s.index == 0 && s.fires == map[] && s.kept == {} && s.escalations == 0
      requires At(RequiresHead(cap, config, s.(deadline := s.now + config.requiresBudget), cap.requirements))
      modifies this, surface, hub
      ensures hub == old(hub)
      ensures Live(cap, surface, e) && Core(cap, e)
      ensures out.Raised? ==> out.signal.StepFailed? || out.signal.Recognized? || out.signal.Crashed?
      ensures At(match out
                 case Returned(r) => End(e, r)
                 case Raised(signal) => Top(cap, e, signal))
    {
      hide Integrity, ReplayEngine.Recorded, ReplayEngine.Tracks, Finish, Enter, Crash, RequiresHead, AfterOutputs;
      var met, signal, ok;
      met, e := CheckRequires(cap, surface, s);
      if !met {
        return Returned(PreconditionFailed), e;
      }
      signal, e := RunSteps(cap, surface, e);
      if signal != Completed {
        return Raised(signal), e;
      }
      ok, e := ExtractOutputs(cap, surface, e);
      return if ok then Returned(Success) else Raised(StepFailed(PlainFailure(None))), e;
    }

    /** One replay: exactly one of the contract's result shapes. */
    method Run(cap: Capability, surface: Surface) returns (result: Result)
      requires Integrity(cap) && surface.Settles(cap)
      requires surface.at == 0 && surface.now == 0 && surface.dispatched == [] && surface.blocked == 0
      modifies this, surface
      ensures Recorded(cap, surface) && states != [] && Last(states).phase == Ended(result)
      ensures Promises(cap, config, Last(states))
    {
      hide Integrity, Elapse, Finish, Crash, RequiresHead, Promises, HasRisky, StepId;
      // per-run state is cleared before anything can return early
      hub, hazard, dispatchMark, blockedMark := null, None, 0, 0;
      ghost var s := Initial(cap, config);
      inputs, states := [], [s];
      if config.requireReview && config.attended.None? && HasRisky(cap) && !cap.reviewValid {
        PromisesKept(cap, config, inputs, states);
        return PolicyViolation(UnattendedRiskyRequiresReview);
      }
      if config.attended.Some? {
        hub := new EscalationHub();
      }
      var t, e := Sense(cap, surface, s);
      var out;
      if !t.usable {
        out := Raised(Crashed);
      } else {
        out, e := Execute(cap, surface, e);
      }
      result := Classify(cap, surface, out, e);
      PromisesKept(cap, config, inputs, states);
      hub := null;
    }

    /** Name the end of the run: what the hazard, the allowlist and the failure allow. */
    method Classify(cap: Capability, surface: Surface, out: Outcome, ghost e: State) returns (result: Result)
      requires Integrity(cap) && Live(cap, surface, e)
      requires out.Raised? ==> out.signal.StepFailed? || out.signal.Recognized? || out.signal.Crashed?
      ensures match out
              case Returned(r) => result == r
              case Raised(signal) => Top(cap, e, signal) == End(e, result)
    {
      hide Integrity, ReplayEngine.Recorded;
      if out.Returned? {
        return out.result;
      }
      if out.signal.Recognized? {
        return BusinessOutcome(out.signal.code, out.signal.evidence);
      }
      var failed := if out.signal.StepFailed? then out.signal.failed else PlainFailure(None);
      if failed.unresolved || hazard.Some? {
        var stepId := if hazard.Some? then hazard.value.stepId else failed.at.GetOr("?");
        return Unresolved(stepId, hazard.Some? || failed.dispatched);
      }
      if surface.blocked > blockedMark {
        return PolicyViolation(OffAllowlistTraffic);
      }
      return Failure(failed.at);
    }
  }

  /** What a run keeps, whatever the world answered: nothing up to the hazard is
      tried again, the session has one owner at a time, the visits are bounded, and
      the result says no more than what happened. */
  predicate Promises(cap: Capability, cfg: Config, s: State) {
    && HazardSafety.NoRefire(s.log)
    && Control.Orderly(s.log)
    && Bounds.Visits(s.log) <= (1 + Bounds.MaxEscalations(cfg) + Bounds.Caps(cap, |cap.conditions|)) * (|cap.steps| + 1)
    && (s.phase.Ended? ==> ResultSafety.Honest(cap, s, s.phase.result))
  }

  lemma PromisesKept(cap: Capability, cfg: Config, inputs: seq<Instant>, states: seq<State>)
    requires Integrity(cap) && Behavior(cap, cfg, inputs, states)
    ensures states != [] && Promises(cap, cfg, Last(states))
  {
    hide Integrity, Next, Wf, HazardSafety.NoRefire, Control.Orderly, Bounds.Visits, ResultSafety.Honest;
    HazardSafety.NeverRefiresUpToHazard(cap, cfg, inputs, states);
    Control.OneOwner(cap, cfg, inputs, states, |states| - 1);
    Bounds.VisitsAreBounded(cap, cfg, inputs, states);
    ResultSafety.Always(cap, cfg, inputs, states, |states| - 1);
  }

  /** A signal that reaches the top of the run. */
  function Top(cap: Capability, e: State, signal: Signal): State
    requires Core(cap, e)
  {
    match signal
    case StepFailed(f) => Finish(cap, e, f)
    case Recognized(code, evidence) => End(e, BusinessOutcome(code, evidence))
    case _ => Crash(cap, e)
  }

  /** What is left to spend on jumps. */
  function Budget(cap: Capability, cfg: Config, fires: map<string, nat>, escalations: nat): int {
    Bounds.TotalSlack(cap, fires, |cap.conditions|) + Bounds.MaxEscalations(cfg) - escalations
  }

  /** What the machine does with a decision it has taken. */
  function Decided(cap: Capability, e: State, decision: Decision, code: string, operator: Option<string>,
                   at: Option<string>): State
  {
    match decision
    case Abort => Finish(cap, e, PlainFailure(at))
    case Resolve => End(e, BusinessOutcome(code, ByOperator(operator)))
    case _ => e.(phase := Releasing)
  }

  lemma PlainSignals(cap: Capability)
    ensures SignalOk(cap, Completed) && SignalOk(cap, Crashed) && forall f :: SignalOk(cap, StepFailed(f))
  {
  }

  lemma ThenCrashed(cap: Capability, cfg: Config, e: State)
    requires Integrity(cap) && Wf(cap, e)
    ensures Then(cap, cfg, e, Crashed) == Crash(cap, e)
  {
  }

  /** The very step again, or the step that is named. */
  predicate Aimed(cap: Capability, resume: Resume, current: nat, resumeAt: nat) {
    match resume
    case RetryCurrentStep => resumeAt == current
    case RestartFrom(id) => resumeAt < |cap.steps| && cap.steps[resumeAt].id == id
  }

  lemma AimIs(cap: Capability, resume: Resume, current: nat, resumeAt: nat)
    requires resume.RestartFrom? ==> Names(cap.steps, resume.stepId)
    requires resumeAt == if resume.RetryCurrentStep? then current else IndexOf(cap.steps, resume.stepId)
    ensures Aimed(cap, resume, current, resumeAt)
  {
  }

  lemma ConditionIsOk(cap: Capability, c: nat)
    requires Integrity(cap) && c < |cap.conditions|
    ensures ConditionOk(cap, cap.conditions[c])
  {
  }

  function AfterRecoveryStep(cap: Capability, cfg: Config, e: State, c: nat, k: nat, resumeAt: nat): State
    requires Core(cap, e) && RecoveryPoint(cap, c, k, resumeAt)
  {
    if k + 1 < |cap.conditions[c].classify.recovery| then e.(phase := RecoverAct(c, k + 1, resumeAt))
    else EnterAt(cap, cfg, e.(recoveries := e.recoveries + 1), resumeAt)
  }

  /** What a visit never changes. */
  predicate Same(s: State, e: State) {
    e.fires == s.fires && e.escalations == s.escalations && e.recoveries == s.recoveries && e.kept == s.kept
        && s.now <= e.now
  }

  /** The state whose continuation `signal` names. */
  function Then(cap: Capability, cfg: Config, e: State, signal: Signal): State
    requires Integrity(cap) && Wf(cap, e) && SignalOk(cap, signal)
  {
    match signal
    case Completed => e
    case StepFailed(f) => Escalate(cap, cfg, e, f)
    case Recognized(code, evidence) => End(e, BusinessOutcome(code, evidence))
    case RecoverNow(c, acted) => Recover(cap, cfg, e, c, acted)
    case PauseRequested => Escalate(cap, cfg, e, PlainFailure(StepId(cap, e.index)))
    case Crashed => Crash(cap, e)
  }

  predicate SignalOk(cap: Capability, signal: Signal) {
    signal.RecoverNow? ==> signal.condition < |cap.conditions| && cap.conditions[signal.condition].classify.Recoverable?
  }

  /** A poll that recognized nothing. */
  function Unanswered(cap: Capability, cfg: Config, e: State, usable: bool, acted: bool): State
    requires Wf(cap, e)
  {
    if !acted then e.(phase := Act)
    else if e.now < e.deadline then e.(phase := Check)
    else if !usable then Crash(cap, e)
    else if e.index < |cap.steps| then NoteFailed(cap, cfg, e)
    else Escalate(cap, cfg, e, PlainFailure(None))
  }

  /** What one visit of a step or the checkpoint leaves alone. */
  predicate Kin(s: State, e: State) {
    && e.index == s.index && e.fires == s.fires && e.escalations == s.escalations && e.recoveries == s.recoveries
    && e.deadline == s.deadline && e.mark == s.mark && e.blockMark == s.blockMark && s.now <= e.now
  }

  /** What a reading of the postconditions, or of the checkpoint, leads to. */
  lemma CheckReacts(cap: Capability, cfg: Config, s: State, t: Instant)
    requires Integrity(cap) && Wf(cap, s) && s.phase == Check
    ensures React(cap, cfg, s, t) ==
      if s.index == |cap.steps| && t.checkpoint then AfterOutputs(cap, cfg, s, 0)
      else if s.index == |cap.steps| then AfterSuppression(cap, s, true)
      else if s.index in t.posts then EnterAt(cap, cfg, s.(kept := s.stale), s.index + 1)
      else AfterSuppression(cap, s, true)
  {
    hide Integrity, AfterOutputs, AfterSuppression, EnterAt;
  }

  lemma NextIsReact(cap: Capability, cfg: Config, s: State, t: Instant)
    requires Integrity(cap) && Wf(cap, s) && !s.phase.Ended?
    ensures Wf(cap, Elapse(cfg, s, t)) && Elapse(cfg, s, t).phase == s.phase
    ensures Next(cap, cfg, s, t) == React(cap, cfg, Elapse(cfg, s, t), t)
  {
    hide Integrity, React, HubAfter, Accepted;
  }
}
