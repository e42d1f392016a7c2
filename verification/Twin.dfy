/** The verified run: observe, execute, observe again, judge; and what its verdicts
    mean of the server. */
module Twin {
  import opened Wrappers
  import opened Characters
  import opened Artifact
  import opened Escalation
  import opened Protocol
  import opened Meridian
  import opened Network
  import opened Reconciler
  import Engine
  import HazardSafety
  import ResultSafety
  import DoubleFire

  /** The executor's result, reduced to what the reconciler may use. */
  function ClaimOf(result: Result): ExecutorClaim {
    match result
    case Success => ExecutorClaim(SuccessKind, None, None)
    case BusinessOutcome(code, _) => ExecutorClaim(BusinessOutcomeKind, None, Some(code))
    case Unresolved(_, dispatched) => ExecutorClaim(UnresolvedKind, Some(dispatched), None)
    case Failure(_) => ExecutorClaim(FailureKind, None, None)
    case PreconditionFailed => ExecutorClaim(PreconditionFailedKind, None, None)
    case PolicyViolation(_) => ExecutorClaim(PolicyViolationKind, None, None)
  }

  // ---------------------------------------------------------- orchestration

  datatype Refusal = PreImageUnavailable | NotInStartingState

  datatype TwinRun = TwinRun(
    executed: bool,
    aborted: Option<Refusal>,
    pre: Report,
    result: Option<Result>,
    post: Option<Report>,
    reconciliation: Option<Reconciliation>)

  datatype Word = Ruled(verdict: Verdict) | Refused

  function VerdictOf(run: TwinRun): Word {
    if run.reconciliation.Some? then Ruled(run.reconciliation.value.verdict)
    else if run.aborted.Some? then Word.Refused
    else Ruled(Unverifiable)
  }

  /** A fresh verifier for every reading; the script is what the readings report. */
  class VerifierRunner {
    const script: nat -> Report
    var at: nat

    constructor (script: nat -> Report)
      ensures this.script == script && at == 0
    {
      this.script, at := script, 0;
    }

    method Observe() returns (report: Report)
      modifies this
      ensures report == script(old(at)) && at == old(at) + 1
    {
      report := script(at);
      at := at + 1;
    }
  }

  /** The pre-image shows the target in its starting state. */
  predicate MayExecute(expected: ExpectedEffect, pre: Report) {
    pre.Ok() && pre.observation.value.StatusOf(expected.shareId) == Some(expected.fromStatus)
  }

  /** The kind of claim a result is. */
  predicate ClaimKind(result: Result, kind: Reconciler.Kind) {
    && (kind == SuccessKind <==> result.Success?)
    && (kind == BusinessOutcomeKind <==> result.BusinessOutcome?)
    && (kind == UnresolvedKind <==> result.Unresolved?)
    && (kind == FailureKind <==> result.Failure?)
    && (kind == PreconditionFailedKind <==> result.PreconditionFailed?)
    && (kind == PolicyViolationKind <==> result.PolicyViolation?)
  }

  /** The judgment says what the two images and the run's result say. */
  ghost predicate Judged(expected: ExpectedEffect, pre: Report, result: Result, post: Report, r: Reconciliation) {
    && ClaimKind(result, r.executorKind)
    && Reports(expected, pre.observation, post.observation, r)
    && Explains(expected, pre.observation, post.observation, r)
    && Rules(expected, Comparable(expected, pre.observation, post.observation), r.executorKind, r)
  }

  lemma KindIs(expected: ExpectedEffect, pre: Option<Observation>, post: Option<Observation>, executor: ExecutorClaim)
    ensures Reconcile(expected, pre, post, executor).executorKind == executor.kind
  {
    hide Strip, Collateral, FirstStatus;
  }

  lemma OneFirst(image: Observation, expected: ExpectedEffect)
    ensures ReadsFirst(image.shares, expected.shareId, Some(expected.fromStatus))
      <==> image.StatusOf(expected.shareId) == Some(expected.fromStatus)
  {
    FirstStatusIs(image.shares, expected.shareId);
  }

  /** Pre-image, execution, post-image, judgment. Nothing is executed on a state
      that cannot be read or is not the starting one. */
  method RunTwin(cap: Capability, expected: ExpectedEffect, verifier: VerifierRunner, engine: Engine.ReplayEngine,
                 surface: Engine.Surface)
    returns (run: TwinRun)
    requires Integrity(cap) && surface.Settles(cap)
    requires surface.at == 0 && surface.now == 0 && surface.dispatched == [] && surface.blocked == 0
    modifies verifier, engine, surface
    ensures run.pre == verifier.script(old(verifier.at))
    ensures run.executed <==> MayExecute(expected, run.pre)
    ensures run.executed <==>
      run.pre.observation.Some? && ReadsFirst(run.pre.observation.value.shares, expected.shareId,
          Some(expected.fromStatus))
    ensures run.executed ==>
      && run.result.Some? && run.post.Some? && run.reconciliation.Some?
      && Judged(expected, run.pre, run.result.value, run.post.value, run.reconciliation.value)
      && VerdictOf(run) == Ruled(run.reconciliation.value.verdict)
    ensures !run.executed ==>
      && surface.at == 0 && surface.dispatched == [] && verifier.at == old(verifier.at) + 1
      && run.result.None? && run.post.None? && VerdictOf(run) == Word.Refused
      && run.aborted == Some(if run.pre.Ok() then NotInStartingState else PreImageUnavailable)
    ensures run.executed ==>
      && engine.Recorded(cap, surface) && engine.states != []
      && run.result.Some? && Last(engine.states).phase == Ended(run.result.value)
      && Engine.Promises(cap, engine.config, Last(engine.states))
      && run.post == Some(verifier.script(old(verifier.at) + 1)) && run.aborted.None?
      && run.reconciliation == Some(Reconcile(expected, run.pre.observation, run.post.value.observation,
        ClaimOf(run.result.value)))
  {
    hide Integrity, Reconcile, Engine.Promises, ReadsFirst, Reports, Explains, Rules;
    var pre := verifier.Observe();
    if pre.observation.Some? {
      OneFirst(pre.observation.value, expected);
    }
    var targetPre := if pre.observation.Some? then pre.observation.value.StatusOf(expected.shareId) else None;
    if !pre.Ok() {
      return TwinRun(false, Some(PreImageUnavailable), pre, None, None, None);
    }
    if targetPre != Some(expected.fromStatus) {
      return TwinRun(false, Some(NotInStartingState), pre, None, None, None);
    }
    var result := engine.Run(cap, surface);
    var post := verifier.Observe();
    var judged := Reconcile(expected, pre.observation, post.observation, ClaimOf(result));
    JudgmentIsExact(expected, pre.observation, post.observation, ClaimOf(result));
    assert judged.executorKind == ClaimOf(result).kind
        by { KindIs(expected, pre.observation, post.observation, ClaimOf(result)); }
    run := TwinRun(true, None, pre, Some(result), Some(post), Some(judged));
  }

  // --------------------------------------------------------------- the world

  /** What the executor's browser sent, what reached the server, and the server's
      state, instant by instant of the run. */
  datatype World = World(sent: seq<seq<Request>>, delivered: seq<seq<Request>>, stores: seq<Store>)

  predicate HasHoldPost(requests: seq<Request>) {
    exists r :: r in requests && IsHoldPost(r)
  }

  /** The executor is the only actor on the server. The browser records what it
      sends; whatever stands between may drop requests, not add any; and only the
      action of a consequential step sends a hold post, seen when the action
      returns. */
  ghost predicate Situated(cap: Capability, inputs: seq<Instant>, states: seq<State>, world: World,
                           supervisors: set<string>)
  {
    && |states| == |inputs| + 1
    && |world.sent| == |inputs| && |world.delivered| == |inputs| && |world.stores| == |inputs| + 1
    && (forall k :: 0 <= k < |inputs| ==> inputs[k].sent == DispatchLog(world.sent[k], SESSION_PATHS))
    && (forall k, r :: 0 <= k < |inputs| && r in world.delivered[k] ==> r in world.sent[k])
    && (forall k :: 0 <= k < |inputs| ==>
      world.stores[k + 1] == Serve(world.stores[k], supervisors, world.delivered[k]))
    && (forall k :: 0 <= k < |inputs| && HasHoldPost(world.sent[k]) ==>
      states[k].phase == Act && IsRisky(cap, states[k].index))
  }

  /** A refusal shows on the page only while the server has applied nothing. */
  ghost predicate RefusalsAreTrue(cap: Capability, inputs: seq<Instant>, world: World)
    requires |world.stores| == |inputs| + 1
  {
    forall k, c :: 0 <= k < |inputs| && IsAnswer(cap, c) && c in inputs[k].matching ==>
        world.stores[k + 1] == world.stores[0]
  }

  /** The latest hold posts to reach the server by instant `k` arrived at `j`. */
  predicate LatestPosts(world: World, j: nat, k: nat) {
    && j <= k < |world.delivered| && HasHoldPost(world.delivered[j])
    && forall i :: j < i <= k ==> !HasHoldPost(world.delivered[i])
  }

  /** A refusal shows on the page only when the server refused what the executor
      last posted. */
  ghost predicate RefusalsAnswerTheLastPost(cap: Capability, inputs: seq<Instant>, world: World)
    requires |world.stores| == |inputs| + 1 && |world.delivered| == |inputs|
  {
    forall k, c, j: nat :: 0 <= k < |inputs| && IsAnswer(cap, c) && c in inputs[k].matching && LatestPosts(world, j, k)
      ==> world.stores[j + 1] == world.stores[j]
  }

  // --------------------------------------------------------- the step lemmas

  lemma {:induction false} OnlyHoldPostsWrite(store: Store, supervisors: set<string>, requests: seq<Request>)
    requires !HasHoldPost(requests)
    ensures Serve(store, supervisors, requests) == store
    decreases |requests|
  {
    if requests != [] {
      assert requests[0] in requests;
      assert forall r :: r in requests[1..] ==> r in requests;
      OnlyHoldPostsWrite(store, supervisors, requests[1..]);
    }
  }

  /** A consequential action seen sending a mutation raises the hazard. */
  lemma SendingRaisesHazard(cap: Capability, cfg: Config, s: State, t: Instant)
    requires Integrity(cap) && Wf(cap, s) && s.phase == Act && IsRisky(cap, s.index) && Mutations(t.sent) != []
    ensures Next(cap, cfg, s, t).hazard.Some?
  {
    hide Integrity, Mutations, Next;
    ResultSafety.MutationsGrow(s.dispatched[s.mark..], t.sent);
    ResultSafety.ReturnRaisesHazard(cap, cfg, s, t);
  }

  /** Away from the operator, a business outcome is what an armed recognizer saw on
      the page. */
  lemma OutcomesAreSeen(cap: Capability, cfg: Config, s: State, t: Instant)
    requires Integrity(cap) && Wf(cap, s) && !s.phase.Ended? && !Parking(s.phase)
    requires var r := Next(cap, cfg, s, t); r.phase.Ended? && r.phase.result.BusinessOutcome?
    ensures s.phase.Poll? && exists c :: IsAnswer(cap, c) && c in t.matching
  {
    hide Integrity, Mutations, OnPoll, Wf, Frontier, HubAfter, Accepted;
    ElapseFrame(cap, cfg, s, t);
    if s.phase.Poll? {
      PollSees(cap, cfg, Elapse(cfg, s, t), t, s.phase.acted);
    }
  }

  predicate Answers(r: State) {
    r.phase.Ended? && r.phase.result.BusinessOutcome?
  }

  lemma NoteFailedNeverAnswers(cap: Capability, cfg: Config, s: State)
    requires Wf(cap, s)
    ensures !Answers(NoteFailed(cap, cfg, s))
  {
    hide Mutations;
  }

  lemma RecoverNeverAnswers(cap: Capability, cfg: Config, s: State, c: nat, acted: bool)
    requires Integrity(cap) && Wf(cap, s) && s.phase == Poll(acted) && c < |cap.conditions|
      && cap.conditions[c].classify.Recoverable?
    ensures !Answers(Recover(cap, cfg, s, c, acted))
  {
    hide Integrity, Mutations;
  }

  lemma PollSees(cap: Capability, cfg: Config, s: State, t: Instant, acted: bool)
    requires Integrity(cap) && Wf(cap, s) && s.phase == Poll(acted) && Answers(OnPoll(cap, cfg, s, t, acted))
    ensures exists c :: IsAnswer(cap, c) && c in t.matching
  {
    hide Integrity, Armed, Recover, NoteFailed;
    var hit := FirstHit(cap, s.index, Suppressed(cap, s), t.matching, 0);
    NoteFailedNeverAnswers(cap, cfg, s);
    if hit.Some? && cap.conditions[hit.value].classify.Recoverable? {
      RecoverNeverAnswers(cap, cfg, s, hit.value, acted);
    }
    assert IsAnswer(cap, hit.value);
  }

  // ------------------------------------------------------------ whole runs

  /** What reached the server at instant `k` left the store alone, or raised the
      hazard. */
  lemma PostingRaisesHazard(cap: Capability, cfg: Config, inputs: seq<Instant>, states: seq<State>, world: World,
                            supervisors: set<string>, k: nat)
    requires Integrity(cap) && Behavior(cap, cfg, inputs, states) && k < |inputs|
    requires Situated(cap, inputs, states, world, supervisors)
    ensures world.stores[k + 1] == world.stores[k]
      || (states[k + 1].hazard.Some? && states[k].phase == Act && IsRisky(cap, states[k].index))
    ensures states[k].hazard.Some? ==> states[k + 1].hazard.Some?
  {
    hide Integrity, Next, Wf, Mutations, HoldTarget, Serve, DispatchLog;
    if HasHoldPost(world.delivered[k]) {
      var r :| r in world.delivered[k] && IsHoldPost(r);
      assert r in world.sent[k] && HasHoldPost(world.sent[k]);
      SignOnIsSeparate();
      HoldPostsAreMutations(world.sent[k], SESSION_PATHS);
      SendingRaisesHazard(cap, cfg, states[k], inputs[k]);
    } else {
      OnlyHoldPostsWrite(world.stores[k], supervisors, world.delivered[k]);
    }
    if states[k].hazard.Some? {
      ResultSafety.HazardStays(cap, cfg, states[k], inputs[k]);
    }
  }

  /** As long as nothing raised the hazard, the server is untouched. */
  lemma {:induction false} ChangesRaiseHazard(cap: Capability, cfg: Config, inputs: seq<Instant>, states: seq<State>,
                                              world: World, supervisors: set<string>, k: nat)
    requires Integrity(cap) && Behavior(cap, cfg, inputs, states) && k < |states|
    requires Situated(cap, inputs, states, world, supervisors)
    ensures |world.stores| == |states| && (world.stores[k] != world.stores[0] ==> states[k].hazard.Some?)
  {
    hide Integrity, Next, Wf, Behavior, Situated;
    Sizes(cap, inputs, states, world, supervisors);
    if k > 0 {
      ChangesRaiseHazard(cap, cfg, inputs, states, world, supervisors, k - 1);
      PostingRaisesHazard(cap, cfg, inputs, states, world, supervisors, k - 1);
    }
  }

  /** A run that ended in an answer left the server untouched. */
  ghost predicate Faithful(s: State, start: Store, now: Store) {
    (Answers(s) ==> now == start) && !Parking(s.phase)
  }

  lemma StepIsFaithful(cap: Capability, cfg: Config, inputs: seq<Instant>, states: seq<State>, world: World,
                       supervisors: set<string>, k: nat)
    requires Integrity(cap) && Behavior(cap, cfg, inputs, states) && k < |inputs|
    requires Situated(cap, inputs, states, world, supervisors) && RefusalsAreTrue(cap, inputs, world)
    requires Faithful(states[k], world.stores[0], world.stores[k]) && !Parking(states[k + 1].phase)
    ensures Faithful(states[k + 1], world.stores[0], world.stores[k + 1])
  {
    hide Integrity, Next, Wf, Situated;
    var s, t := states[k], inputs[k];
    if Answers(states[k + 1]) {
      EndedStays(cap, cfg, s, t);
      if s.phase.Ended? {
        PostingRaisesHazard(cap, cfg, inputs, states, world, supervisors, k);
      } else {
        OutcomesAreSeen(cap, cfg, s, t);
        var c :| IsAnswer(cap, c) && c in t.matching;
      }
    }
  }

  lemma EndedStays(cap: Capability, cfg: Config, s: State, t: Instant)
    requires Integrity(cap) && Wf(cap, s)
    ensures s.phase.Ended? ==> Next(cap, cfg, s, t) == s
  {
    hide Integrity, Wf;
  }

  lemma {:induction false} AlwaysFaithful(cap: Capability, cfg: Config, inputs: seq<Instant>, states: seq<State>,
                                          world: World, supervisors: set<string>, k: nat)
    requires Integrity(cap) && Behavior(cap, cfg, inputs, states) && !DoubleFire.CanAsk(cfg) && k < |states|
    requires Situated(cap, inputs, states, world, supervisors) && RefusalsAreTrue(cap, inputs, world)
    ensures Faithful(states[k], world.stores[0], world.stores[k])
  {
    hide Integrity, Next, Wf, Situated, RefusalsAreTrue, Answers;
    NeverParks(cap, cfg, inputs, states, k);
    if k == 0 {
      assert !Answers(Initial(cap, cfg)) by { StartsWithoutAnswer(cap, cfg); }
    } else {
      AlwaysFaithful(cap, cfg, inputs, states, world, supervisors, k - 1);
      StepIsFaithful(cap, cfg, inputs, states, world, supervisors, k - 1);
    }
  }

  lemma StartsWithoutAnswer(cap: Capability, cfg: Config)
    ensures !Answers(Initial(cap, cfg))
  {
  }

  /** With no operator to ask, the run never parks. */
  lemma NeverParks(cap: Capability, cfg: Config, inputs: seq<Instant>, states: seq<State>, k: nat)
    requires Integrity(cap) && Behavior(cap, cfg, inputs, states) && !DoubleFire.CanAsk(cfg) && k < |states|
    ensures !Parking(states[k].phase)
  {
    hide Integrity, Next, Wf;
    DoubleFire.Always(cap, cfg, inputs, states, k);
  }

  /** What a run did to the server it denies, if at all, by a business outcome; and
      with no operator to ask not even so, as long as refusals are true of the whole
      run. */
  lemma NeverUnderClaims(cap: Capability, cfg: Config, inputs: seq<Instant>, states: seq<State>, world: World,
                         supervisors: set<string>)
    requires Integrity(cap) && Behavior(cap, cfg, inputs, states) && Last(states).phase.Ended?
    requires Situated(cap, inputs, states, world, supervisors)
    requires world.stores[|inputs|] != world.stores[0]
    ensures var result := Last(states).phase.result;
      && (result.Success? || result.Unresolved? || result.BusinessOutcome?)
      && (ClaimOf(result).Committed() == Some(false) <==> result.BusinessOutcome?)
      && (!DoubleFire.CanAsk(cfg) && RefusalsAreTrue(cap, inputs, world) ==> ClaimOf(result).Committed() != Some(false))
  {
    hide Integrity, Next, Wf, Situated, RefusalsAreTrue;
    ChangesRaiseHazard(cap, cfg, inputs, states, world, supervisors, |inputs|);
    ResultSafety.ResultsAreHonest(cap, cfg, inputs, states);
    if !DoubleFire.CanAsk(cfg) && RefusalsAreTrue(cap, inputs, world) {
      AlwaysFaithful(cap, cfg, inputs, states, world, supervisors, |inputs|);
    }
  }

  /** With at most one consequential step it is enough that a refusal on the page
      answers the executor's last post: there is only one action that posts. */
  lemma LastPostSuffices(cap: Capability, cfg: Config, inputs: seq<Instant>, states: seq<State>, world: World,
                         supervisors: set<string>)
    requires Integrity(cap) && Behavior(cap, cfg, inputs, states)
    requires forall a, b :: IsRisky(cap, a) && IsRisky(cap, b) ==> a == b
    requires Situated(cap, inputs, states, world, supervisors) && RefusalsAnswerTheLastPost(cap, inputs, world)
    ensures RefusalsAreTrue(cap, inputs, world)
  {
    hide Integrity, Next, Wf, Behavior, Situated, IsRisky;
    assert |world.stores| == |inputs| + 1 && |world.delivered| == |inputs|
        by { Sizes(cap, inputs, states, world, supervisors); }
    forall k, c | 0 <= k < |inputs| && IsAnswer(cap, c) && c in inputs[k].matching
      ensures world.stores[k + 1] == world.stores[0]
    {
      OnlyOneActionPosts(cap, cfg, inputs, states, world, supervisors, k);
    }
  }

  lemma Sizes(cap: Capability, inputs: seq<Instant>, states: seq<State>, world: World, supervisors: set<string>)
    requires Situated(cap, inputs, states, world, supervisors)
    ensures |states| == |world.stores| == |inputs| + 1 && |world.delivered| == |inputs| == |world.sent|
  {
  }

  /** Up to instant `k` either nothing was posted, or one action posted and
      everything it changed is in the store right after it. */
  lemma {:induction false} OnlyOneActionPosts(cap: Capability, cfg: Config, inputs: seq<Instant>, states: seq<State>,
                                              world: World, supervisors: set<string>, k: nat)
    requires Integrity(cap) && Behavior(cap, cfg, inputs, states) && k < |inputs|
    requires forall a, b :: IsRisky(cap, a) && IsRisky(cap, b) ==> a == b
    requires Situated(cap, inputs, states, world, supervisors)
    ensures |world.stores| == |inputs| + 1 && |world.delivered| == |inputs| == |states| - 1
    ensures world.stores[k + 1] == world.stores[0] || (exists j: nat ::
        LatestPosts(world, j, k) && world.stores[j] == world.stores[0] && world.stores[j + 1] == world.stores[k + 1])
    ensures (exists j: nat :: LatestPosts(world, j, k)) ==> states[k + 1].hazard.Some?
  {
    hide Integrity, Next, Wf, Mutations, HoldTarget, Serve, DispatchLog, IsRisky;
    var s, t := states[k], inputs[k];
    if k > 0 {
      OnlyOneActionPosts(cap, cfg, inputs, states, world, supervisors, k - 1);
    }
    if HasHoldPost(world.delivered[k]) {
      var r :| r in world.delivered[k] && IsHoldPost(r);
      assert r in world.sent[k] && HasHoldPost(world.sent[k]);
      SignOnIsSeparate();
      HoldPostsAreMutations(world.sent[k], SESSION_PATHS);
      SendingRaisesHazard(cap, cfg, s, t);
      assert LatestPosts(world, k, k);
      HazardIsAhead(cap, cfg, inputs, states, k);
    } else {
      OnlyHoldPostsWrite(world.stores[k], supervisors, world.delivered[k]);
      if s.hazard.Some? {
        ResultSafety.HazardStays(cap, cfg, s, t);
      }
      forall j: nat | k > 0 && LatestPosts(world, j, k - 1) ensures LatestPosts(world, j, k) {
      }
      forall j: nat | LatestPosts(world, j, k) ensures k > 0 && LatestPosts(world, j, k - 1) {
      }
    }
  }

  /** The only consequential step is not about to act once the hazard is raised. */
  lemma HazardIsAhead(cap: Capability, cfg: Config, inputs: seq<Instant>, states: seq<State>, k: nat)
    requires Integrity(cap) && Behavior(cap, cfg, inputs, states) && k < |states|
    requires forall a, b :: IsRisky(cap, a) && IsRisky(cap, b) ==> a == b
    requires states[k].phase == Act && IsRisky(cap, states[k].index)
    ensures states[k].hazard.None?
  {
    hide Integrity, Next, Wf, IsRisky;
    HazardSafety.Always(cap, cfg, inputs, states, k);
  }

  /** The image shows what the server holds of the target, if it shows the
      expected member at all. */
  predicate Truthful(image: Observation, expected: ExpectedEffect, store: Store) {
    IdentityOk(expected, image) ==>
        image.StatusOf(expected.shareId) == StatusOf(store, Strip(expected.member), expected.shareId)
  }

  /** The server journaled a hold on the target between two moments. */
  predicate Committed(expected: ExpectedEffect, start: Store, now: Store)
    requires start.holds <= now.holds
  {
    Journaled(Since(start, now), Strip(expected.member), expected.shareId)
  }

  lemma {:induction false} StoresAreLedgers(cap: Capability, inputs: seq<Instant>, states: seq<State>, world: World,
                                            supervisors: set<string>, k: nat)
    requires Situated(cap, inputs, states, world, supervisors) && k < |world.stores|
    ensures Ledger(world.stores[0], world.stores[k])
  {
    hide Ledger, Serve, DispatchLog;
    if k == 0 {
      LedgerStarts(world.stores[0]);
    } else {
      StoresAreLedgers(cap, inputs, states, world, supervisors, k - 1);
      JournalIsGroundTruth(world.stores[0], world.stores[k - 1], supervisors, world.delivered[k - 1]);
    }
  }

  /** Between any two moments of the server, whoever acted in between, and whatever
      the executor claims: a verdict on truthful readings is given on the journal.
      A mismatch says that the claim is definite and wrong. */
  lemma VerdictsAreTrueOfTheJournal(start: Store, now: Store, expected: ExpectedEffect, pre: Observation,
                                    post: Observation, claim: ExecutorClaim)
    requires Ledger(start, now) && expected.fromStatus != expected.toStatus
    requires Truthful(pre, expected, start) && Truthful(post, expected, now)
    ensures start.holds <= now.holds
    ensures var r := Reconcile(expected, Some(pre), Some(post), claim);
      var committed := Committed(expected, start, now);
      && (r.verdict == VerifiedCommitted ==> committed && claim.Committed() != Some(false))
      && (r.verdict == VerifiedNotCommitted ==> !committed && claim.Committed() != Some(true))
      && (r.verdict == EffectMismatch ==> claim.Committed() == Some(!committed))
      && (r.retryEligible ==> !committed)
  {
    hide IdentityOk, Collateral;
    assert Unchanged(start, now, Since(start, now), Strip(expected.member), expected.shareId);
    if Committed(expected, start, now) {
      JournaledWasNotHeld(start, now, Strip(expected.member), expected.shareId);
    }
  }

  /** The end-to-end theorem, with the executor as the only actor on the server and
      truthful readings. VERIFIED_COMMITTED says the run's hold is journaled,
      VERIFIED_NOT_COMMITTED that it is not, and EFFECT_MISMATCH that the executor's
      definite claim is wrong: with no operator to ask and refusals that are true of
      the whole run, that it claimed a success the server never committed. */
  lemma VerdictsAreTrueOfTheServer(cap: Capability, cfg: Config, inputs: seq<Instant>, states: seq<State>, world: World,
                                   supervisors: set<string>, expected: ExpectedEffect, pre: Observation,
                                       post: Observation)
    requires Integrity(cap) && Behavior(cap, cfg, inputs, states) && Last(states).phase.Ended?
    requires Situated(cap, inputs, states, world, supervisors)
    requires expected.fromStatus != expected.toStatus
    requires Truthful(pre, expected, world.stores[0]) && Truthful(post, expected, world.stores[|inputs|])
    ensures world.stores[0].holds <= world.stores[|inputs|].holds
    ensures var result := Last(states).phase.result;
      var verdict := Reconcile(expected, Some(pre), Some(post), ClaimOf(result)).verdict;
      var committed := Committed(expected, world.stores[0], world.stores[|inputs|]);
      && (verdict == VerifiedCommitted ==> committed && (result.Success? || result.Unresolved?))
      && (verdict == VerifiedNotCommitted ==> !committed && !result.Success?)
      && (verdict == EffectMismatch ==> if committed then result.BusinessOutcome? else result.Success?)
      && (committed ==> result.Success? || result.Unresolved? || result.BusinessOutcome?)
      && (!DoubleFire.CanAsk(cfg) && RefusalsAreTrue(cap, inputs, world) ==>
            (committed ==> !result.BusinessOutcome?) && (verdict == EffectMismatch ==> !committed && result.Success?))
  {
    hide Integrity, Next, Wf, Situated, RefusalsAreTrue, IdentityOk, Collateral, Reconcile, Truthful;
    Sizes(cap, inputs, states, world, supervisors);
    var start, now := world.stores[0], world.stores[|inputs|];
    StoresAreLedgers(cap, inputs, states, world, supervisors, |inputs|);
    VerdictsAreTrueOfTheJournal(start, now, expected, pre, post, ClaimOf(Last(states).phase.result));
    if start == now {
      assert Since(start, now) == [];
    } else {
      NeverUnderClaims(cap, cfg, inputs, states, world, supervisors);
    }
  }

  /** A retry that is advised cannot fire twice. Whatever the executor claims, and
      whatever requests reached the server from whatever actors: the server has
      journaled no hold on the target since the first reading. */
  lemma RetryCannotDoubleFire(start: Store, supervisors: set<string>, requests: seq<Request>, expected: ExpectedEffect,
                              pre: Observation, post: Observation, claim: ExecutorClaim)
    requires expected.fromStatus != expected.toStatus
    requires Truthful(pre, expected, start) && Truthful(post, expected, Serve(start, supervisors, requests))
    requires Reconcile(expected, Some(pre), Some(post), claim).retryEligible
    ensures var now := Serve(start, supervisors, requests); start.holds <= now.holds && !Committed(expected, start, now)
  {
    hide Ledger, Reconcile, Truthful, Serve;
    LedgerStarts(start);
    JournalIsGroundTruth(start, start, supervisors, requests);
    VerdictsAreTrueOfTheJournal(start, Serve(start, supervisors, requests), expected, pre, post, claim);
  }

  lemma JournaledWasNotHeld(start: Store, now: Store, member: string, id: string)
    requires Ledger(start, now) && Journaled(Since(start, now), member, id)
    ensures StatusOf(start, member, id) != Some(HOLD) && StatusOf(now, member, id) == Some(HOLD)
  {
    var added := Since(start, now);
    assert Unchanged(start, now, added, member, id);
  }
}
