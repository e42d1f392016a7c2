/** What each way of ending a run may claim. */
module ResultSafety {
  import opened Wrappers
  import opened Artifact
  import opened Escalation
  import opened Protocol

  /** The event is an observation of a risky step dispatching: a mutation-kind
      request stands in the dispatch log after the step's mark. */
  predicate Backed(cap: Capability, dispatched: seq<Dispatch>, e: Event) {
    e.Consequential? ==> IsRisky(cap, e.index) && e.mark <= |dispatched| && Mutations(dispatched[e.mark..]) != []
  }

  predicate Observed(log: seq<Event>) {
    exists e :: e in log && e.Consequential?
  }

  predicate Evident(cap: Capability, log: seq<Event>, dispatched: seq<Dispatch>, hazard: Option<Hazard>) {
    && (forall e :: e in log ==> Backed(cap, dispatched, e))
    && (hazard.Some? ==> Observed(log))
  }

  predicate Untouched(log: seq<Event>) {
    forall e :: e in log ==> !e.Attempted? && !e.Consequential?
  }

  /** What the result `r` says about the run that returned it. */
  predicate Honest(cap: Capability, s: State, r: Result) {
    match r
    case Success => s.index == |cap.steps|
    case BusinessOutcome(code, evidence) =>
      code in cap.outcomes
      && (evidence.ByCondition? ==>
            IsAnswer(cap, evidence.condition)
            && cap.conditions[evidence.condition].classify.code == code)
    case Unresolved(_, dispatched) => dispatched && Observed(s.log)
    case Failure(_) => s.hazard.None?
    case PolicyViolation(rule) => s.hazard.None? && (rule.OffAllowlistTraffic? ==> s.blocked > s.blockMark)
    case PreconditionFailed => s.hazard.None? && Untouched(s.log)
  }

  predicate Inv(cap: Capability, s: State) {
    && Evident(cap, s.log, s.dispatched, s.hazard)
    && (s.phase.Ended? ==> Honest(cap, s, s.phase.result))
    && (s.phase.Starting? || s.phase.Requires? ==> s.hazard.None? && Untouched(s.log))
    && (s.phase.Output? || s.phase.Observe? ==> s.index == |cap.steps|)
  }

  lemma {:induction false} MutationsGrow(a: seq<Dispatch>, b: seq<Dispatch>)
    ensures Mutations(a + b) == Mutations(a) + Mutations(b)
  {
    if a == [] {
      assert a + b == b;
    } else {
      assert (a + b)[0] == a[0] && (a + b)[1..] == a[1..] + b;
      MutationsGrow(a[1..], b);
    }
  }

  lemma EvidentAppend(cap: Capability, log: seq<Event>, dispatched: seq<Dispatch>, hazard: Option<Hazard>, e: Event)
    requires Evident(cap, log, dispatched, hazard) && Backed(cap, dispatched, e)
    ensures Evident(cap, log + [e], dispatched, hazard)
    ensures Observed(log) || e.Consequential? ==> Observed(log + [e])
  {
    assert forall x :: x in log + [e] <==> x in log || x == e;
    if x :| x in log && x.Consequential? {
      assert x in log + [e];
    }
    if e.Consequential? {
      assert e in log + [e];
    }
  }

  lemma ElapseKeeps(cap: Capability, cfg: Config, s: State, t: Instant)
    requires Wf(cap, s) && Inv(cap, s) && !s.phase.Ended?
    ensures Inv(cap, Elapse(cfg, s, t))
  {
    var r := Elapse(cfg, s, t);
    var extra := Accepted(s.hub, t.calls);
    assert forall x :: x in s.log + extra <==> x in s.log || x in extra;
    forall e | e in r.log ensures Backed(cap, r.dispatched, e) {
      if e.Consequential? {
        assert e in s.log;
        MutationsGrow(s.dispatched[e.mark..], t.sent);
        assert r.dispatched[e.mark..] == s.dispatched[e.mark..] + t.sent;
      }
    }
    if e :| e in s.log && e.Consequential? {
      assert e in r.log;
    }
  }

  lemma FinishKeeps(cap: Capability, s: State, f: Failed)
    requires Core(cap, s) && Evident(cap, s.log, s.dispatched, s.hazard)
    requires f.unresolved ==> f.dispatched && Observed(s.log)
    ensures Inv(cap, Finish(cap, s, f)) && Inv(cap, Crash(cap, s))
  {
    hide Untouched;
  }

  lemma EscalateKeeps(cap: Capability, cfg: Config, s: State, f: Failed)
    requires Core(cap, s) && Evident(cap, s.log, s.dispatched, s.hazard)
    requires f.unresolved ==> f.dispatched && Observed(s.log)
    ensures Inv(cap, Escalate(cap, cfg, s, f))
  {
    hide Finish, Evident, Observed;
    FinishKeeps(cap, s, f);
  }

  lemma NoteKeeps(cap: Capability, s: State)
    requires Wf(cap, s) && Evident(cap, s.log, s.dispatched, s.hazard)
    ensures var (r, noted) := Note(cap, s);
      Core(cap, r) && Evident(cap, r.log, r.dispatched, r.hazard) && (noted ==> Observed(r.log))
  {
    if Note(cap, s).1 {
      var e := Consequential(s.index, s.mark);
      EvidentAppend(cap, s.log, s.dispatched, s.hazard, e);
      EvidentAppend(cap, s.log + [e], s.dispatched, s.hazard, HazardRaised(s.index));
    }
  }

  lemma NoteFailedKeeps(cap: Capability, cfg: Config, s: State)
    requires Wf(cap, s) && Evident(cap, s.log, s.dispatched, s.hazard)
    ensures Inv(cap, NoteFailed(cap, cfg, s))
  {
    hide Note, Evident, Observed, Escalate;
    NoteKeeps(cap, s);
    var (s1, noted) := Note(cap, s);
    EscalateKeeps(cap, cfg, s1, Failed(StepId(cap, s.index), noted, noted));
  }

  lemma RecoverKeeps(cap: Capability, cfg: Config, s: State, c: nat, acted: bool)
    requires Integrity(cap) && Wf(cap, s) && Inv(cap, s) && c < |cap.conditions|
      && cap.conditions[c].classify.Recoverable?
    ensures Inv(cap, Recover(cap, cfg, s, c, acted))
  {
    hide Evident, Observed, Escalate, Mutations;
    var cond := cap.conditions[c];
    var s1 := s.(fires := s.fires[cond.id := Fires(s, cond.id) + 1]);
    EscalateKeeps(cap, cfg, s1, PlainFailure(StepId(cap, s.index)));
    if Fires(s, cond.id) + 1 <= cond.maxFires && acted && IsRisky(cap, s.index) && StepMutations(s1) != [] {
      var e := Consequential(s.index, s.mark);
      EvidentAppend(cap, s1.log, s1.dispatched, s1.hazard, e);
      EscalateKeeps(cap, cfg, Logged(s1, e), Failed(StepId(cap, s.index), true, true));
    }
  }

  lemma PollKeeps(cap: Capability, cfg: Config, s: State, t: Instant, acted: bool)
    requires Integrity(cap) && Wf(cap, s) && Inv(cap, s) && s.phase == Poll(acted)
    ensures Inv(cap, OnPoll(cap, cfg, s, t, acted))
  {
    hide Evident, Observed, Escalate, Recover, NoteFailed, FirstHit, Crash;
    EscalateKeeps(cap, cfg, s, PlainFailure(StepId(cap, s.index)));
    EscalateKeeps(cap, cfg, s, PlainFailure(None));
    FinishKeeps(cap, s, PlainFailure(None));
    NoteFailedKeeps(cap, cfg, s);
    var hit := FirstHit(cap, s.index, Suppressed(cap, s), t.matching, 0);
    if hit.Some? && cap.conditions[hit.value].classify.Recoverable? {
      RecoverKeeps(cap, cfg, s, hit.value, acted);
    }
  }

  lemma ActKeeps(cap: Capability, cfg: Config, s: State, t: Instant)
    requires Wf(cap, s) && Inv(cap, s) && s.phase.Act?
    ensures Inv(cap, OnAct(cap, cfg, s, t))
  {
    hide Evident, Observed, Note, NoteFailed;
    var s1 := Logged(s, Attempted(s.index));
    EvidentAppend(cap, s.log, s.dispatched, s.hazard, Attempted(s.index));
    NoteKeeps(cap, s1);
    NoteFailedKeeps(cap, cfg, s1);
  }

  lemma EnterKeeps(cap: Capability, cfg: Config, s: State, index: nat)
    requires Core(cap, s) && Evident(cap, s.log, s.dispatched, s.hazard) && index <= |cap.steps|
    ensures Inv(cap, EnterAt(cap, cfg, s, index))
  {
    hide Evident;
    EvidentAppend(cap, s.log, s.dispatched, s.hazard, Visited(index));
  }

  lemma OpeningKeeps(cap: Capability, cfg: Config, s: State, t: Instant)
    requires Integrity(cap) && Wf(cap, s) && Inv(cap, s) && (s.phase.Starting? || s.phase.Requires?)
    ensures Inv(cap, React(cap, cfg, s, t))
  {
    hide Evident, Integrity;
    FinishKeeps(cap, s, PlainFailure(None));
    EnterKeeps(cap, cfg, s, s.index);
    EnterKeeps(cap, cfg, s.(deadline := s.now + cfg.requiresBudget), s.index);
  }

  lemma CheckKeeps(cap: Capability, cfg: Config, s: State, t: Instant)
    requires Wf(cap, s) && Inv(cap, s) && s.phase.Check?
    ensures Inv(cap, OnCheck(cap, cfg, s, t))
  {
    hide Evident;
    if s.index < |cap.steps| {
      EnterKeeps(cap, cfg, s.(kept := s.stale), s.index + 1);
    }
  }

  lemma RecoveryKeeps(cap: Capability, cfg: Config, s: State, t: Instant)
    requires Integrity(cap) && Wf(cap, s) && Inv(cap, s) && (s.phase.RecoverAct? || s.phase.RecoverCheck?)
    ensures Inv(cap, React(cap, cfg, s, t))
  {
    hide Evident, Integrity, Escalate, EnterAt, Crash;
    var at := PlainFailure(Some(cap.conditions[s.phase.c].classify.recovery[s.phase.k].id));
    match s.phase
    case RecoverAct(c, k, r) =>
      EvidentAppend(cap, s.log, s.dispatched, s.hazard, RecoveryAttempted(c, k));
      EscalateKeeps(cap, cfg, Logged(s, RecoveryAttempted(c, k)), at);
    case RecoverCheck(c, k, r) =>
      EnterKeeps(cap, cfg, s.(recoveries := s.recoveries + 1), r);
      EscalateKeeps(cap, cfg, s, at);
      FinishKeeps(cap, s, at);
  }

  lemma ParkTakeKeeps(cap: Capability, s: State, at: Option<string>, ttl: int)
    requires Wf(cap, s) && Inv(cap, s) && s.phase == ParkTake(at, ttl)
    ensures Inv(cap, OnParkTake(cap, s, at, ttl))
  {
    hide Evident, Observed, Finish;
    var s1 := s.(hub := s.hub.(decision := NoDecision));
    var e := Consumed(s.hub.decision, s.hub.code);
    EvidentAppend(cap, s.log, s.dispatched, s.hazard, e);
    FinishKeeps(cap, s1, PlainFailure(None));
    FinishKeeps(cap, Logged(s1, e), PlainFailure(at));
  }

  lemma HandoverKeeps(cap: Capability, cfg: Config, s: State, t: Instant)
    requires Integrity(cap) && Wf(cap, s) && Inv(cap, s) && (s.phase.Asking? || s.phase.Releasing?)
    ensures Inv(cap, React(cap, cfg, s, t))
  {
    hide Integrity, Evident, Observed;
    EvidentAppend(cap, s.log, s.dispatched, s.hazard, ParkedEvent);
    EvidentAppend(cap, s.log, s.dispatched, s.hazard, Released);
  }

  lemma ClosingKeeps(cap: Capability, cfg: Config, s: State, t: Instant)
    requires Integrity(cap) && Wf(cap, s) && Inv(cap, s)
    requires s.phase.ParkPop? || s.phase.Scan? || s.phase.Output? || s.phase.Observe?
    ensures Inv(cap, React(cap, cfg, s, t))
  {
    hide Evident, Integrity, Finish, EnterAt;
    FinishKeeps(cap, s, PlainFailure(None));
    match s.phase
    case ParkPop(_, _) =>
      if s.hub.commands != [] {
        EvidentAppend(cap, s.log, s.dispatched, s.hazard, Commanded(s.hub.commands[0]));
      }
    case Scan =>
      FinishKeeps(cap, s, PlainFailure(ScanFailedAt(cap, s, t)));
      var to := ResumeScan(cap, s, t);
      if to.Some? {
        EnterKeeps(cap, cfg, s, to.value);
      }
    case Output(_) =>
    case Observe =>
  }

  lemma SensingKeeps(cap: Capability, cfg: Config, s: State, t: Instant)
    requires Integrity(cap) && Wf(cap, s) && Inv(cap, s)
    requires s.phase.Snapshot? || s.phase.Refresh? || s.phase.Probe? || s.phase.ParkLook? || s.phase.Ended?
    ensures Inv(cap, React(cap, cfg, s, t))
  {
    hide Evident, Integrity, Note;
    if s.phase.Probe? {
      NoteKeeps(cap, s);
    }
  }

  lemma NextKeeps(cap: Capability, cfg: Config, s: State, t: Instant)
    requires Integrity(cap) && Wf(cap, s) && Inv(cap, s)
    ensures Inv(cap, Next(cap, cfg, s, t))
  {
    hide Integrity, Inv, Elapse, OnPoll, OnAct, OnCheck, OnParkTake;
    if !s.phase.Ended? {
      ElapseKeeps(cap, cfg, s, t);
      var e := Elapse(cfg, s, t);
      assert e.phase == s.phase && Wf(cap, e) by { ElapseFrame(cap, cfg, s, t); }
      match e.phase
      case Poll(acted) => PollKeeps(cap, cfg, e, t, acted);
      case Act => ActKeeps(cap, cfg, e, t);
      case Check => CheckKeeps(cap, cfg, e, t);
      case ParkTake(at, ttl) => ParkTakeKeeps(cap, e, at, ttl);
      case Starting => OpeningKeeps(cap, cfg, e, t);
      case Requires(_) => OpeningKeeps(cap, cfg, e, t);
      case RecoverAct(_, _, _) => RecoveryKeeps(cap, cfg, e, t);
      case RecoverCheck(_, _, _) => RecoveryKeeps(cap, cfg, e, t);
      case ParkPop(_, _) => ClosingKeeps(cap, cfg, e, t);
      case Scan => ClosingKeeps(cap, cfg, e, t);
      case Output(_) => ClosingKeeps(cap, cfg, e, t);
      case Observe => ClosingKeeps(cap, cfg, e, t);
      case Asking(_) => HandoverKeeps(cap, cfg, e, t);
      case Releasing => HandoverKeeps(cap, cfg, e, t);
      case _ => SensingKeeps(cap, cfg, e, t);
    }
  }

  lemma {:induction false} Always(cap: Capability, cfg: Config, inputs: seq<Instant>, states: seq<State>, k: nat)
    requires Integrity(cap) && Behavior(cap, cfg, inputs, states) && k < |states|
    ensures Inv(cap, states[k])
  {
    hide Integrity, Next, Wf;
    if k > 0 {
      Always(cap, cfg, inputs, states, k - 1);
      hide Inv;
      NextKeeps(cap, cfg, states[k - 1], inputs[k - 1]);
    }
  }

  /** A raised hazard is never lowered. */
  lemma HazardStays(cap: Capability, cfg: Config, s: State, t: Instant)
    requires Integrity(cap) && Wf(cap, s) && s.hazard.Some?
    ensures Next(cap, cfg, s, t).hazard == s.hazard
  {
    hide Integrity, Wf, OnPoll, Mutations, Frontier, HubAfter, Accepted;
    ElapseFrame(cap, cfg, s, t);
    if s.phase.Poll? {
      PollStays(cap, cfg, Elapse(cfg, s, t), t, s.phase.acted);
    }
  }

  lemma PollStays(cap: Capability, cfg: Config, s: State, t: Instant, acted: bool)
    requires Integrity(cap) && Wf(cap, s) && s.phase == Poll(acted) && s.hazard.Some?
    ensures OnPoll(cap, cfg, s, t, acted).hazard == s.hazard
  {
    hide Integrity, FirstHit, Mutations, Armed;
  }

  /** A consequential action that returns with a mutation logged since its step's mark
      raises the hazard. */
  lemma ReturnRaisesHazard(cap: Capability, cfg: Config, s: State, t: Instant)
    requires Integrity(cap) && Wf(cap, s) && s.phase == Act && IsRisky(cap, s.index)
    requires Mutations(s.dispatched[s.mark..] + t.sent) != []
    ensures Next(cap, cfg, s, t).hazard.Some?
  {
    hide Integrity, Mutations, HubAfter, Accepted;
    assert (s.dispatched + t.sent)[s.mark..] == s.dispatched[s.mark..] + t.sent;
  }

  /** The run ended in a result that says nothing happened. */
  predicate SaysNothingHappened(s: State) {
    s.phase.Ended? && (s.phase.result.Failure? || s.phase.result.PolicyViolation? || s.phase.result.PreconditionFailed?)
  }

  /** Over every run: once a consequential action may have reached the server the
      run can only end in success, a business outcome or UNRESOLVED; UNRESOLVED
      is only ever returned with `dispatched`, and then a risky step was seen
      sending a mutation-kind request after its mark; a business outcome carries
      a declared code. */
  lemma ResultsAreHonest(cap: Capability, cfg: Config, inputs: seq<Instant>, states: seq<State>)
    requires Integrity(cap) && Behavior(cap, cfg, inputs, states) && Last(states).phase.Ended?
    ensures var s := Last(states); var r := s.phase.result;
      && (s.hazard.Some? ==> r.Success? || r.BusinessOutcome? || r.Unresolved?)
      && (r.Unresolved? ==> r.dispatched && exists e :: e in s.log && e.Consequential? && IsRisky(cap, e.index)
                                                         && e.mark <= |s.dispatched|
                                                         && Mutations(s.dispatched[e.mark..]) != [])
      && (r.BusinessOutcome? ==> r.code in cap.outcomes)
      && (r.Success? ==> s.index == |cap.steps|)
      && (r.PreconditionFailed? ==> Untouched(s.log))
  {
    hide Integrity, Next, Wf;
    Always(cap, cfg, inputs, states, |states| - 1);
    var s := Last(states);
    if s.phase.result.Unresolved? {
      var e :| e in s.log && e.Consequential?;
      assert Backed(cap, s.dispatched, e);
    }
  }

  lemma {:induction false} NoMutations(ds: seq<Dispatch>)
    requires forall d :: d in ds ==> d.kind == Session
    ensures Mutations(ds) == []
  {
    if ds != [] {
      NoMutations(ds[1..]);
    }
  }

  /** Authentication alone never leaves a run UNRESOLVED: bad credentials are a
      failure, not ambiguity. */
  lemma SignOnNeverUnresolved(cap: Capability, cfg: Config, inputs: seq<Instant>, states: seq<State>)
    requires Integrity(cap) && Behavior(cap, cfg, inputs, states) && Last(states).phase.Ended?
    requires forall d :: d in Last(states).dispatched ==> d.kind == Session
    ensures !Last(states).phase.result.Unresolved?
  {
    hide Integrity, Next, Wf;
    ResultsAreHonest(cap, cfg, inputs, states);
    var s := Last(states);
    if s.phase.result.Unresolved? {
      var e :| e in s.log && e.Consequential? && e.mark <= |s.dispatched| && Mutations(s.dispatched[e.mark..]) != [];
      NoMutations(s.dispatched[e.mark..]);
    }
  }
}
