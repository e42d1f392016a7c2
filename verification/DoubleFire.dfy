/** When is an observed consequential action safe from being fired twice, and
    when is an observation never denied? */
module DoubleFire {
  import opened Wrappers
  import opened Artifact
  import opened Escalation
  import opened Protocol
  import HazardSafety

  /** A step seen dispatching a mutation was attempted again afterwards. */
  predicate FiredTwice(log: seq<Event>) {
    exists j, k :: 0 <= j < k < |log| && log[j].Consequential? && log[k].Attempted? && log[j].index == log[k].index
  }

  /** There is an operator to ask. */
  predicate CanAsk(cfg: Config) {
    cfg.attended.Some? && cfg.attended.value.maxEscalations > 0
  }

  /** The run can get as far as its first step. */
  predicate CanStart(cap: Capability, cfg: Config) {
    !Refused(cap, cfg) && (cap.requirements == {} || cfg.requiresBudget > 0)
  }

  predicate Usable(cap: Capability, c: nat) {
    c < |cap.conditions| && cap.conditions[c].classify.Recoverable? && cap.conditions[c].maxFires > 0
  }

  /** Recovering from `c` restarts the flow at or before the risky step `b` but
      after the earlier risky step `a`, whose hazard is the only one recorded. */
  predicate RestartsBetween(cap: Capability, a: nat, b: nat, c: nat)
    requires Integrity(cap)
  {
    && IsRisky(cap, a) && IsRisky(cap, b) && Usable(cap, c)
    && cap.conditions[c].classify.resume.RestartFrom?
    && a < IndexOf(cap.steps, cap.conditions[c].classify.resume.stepId) <= b
  }

  /** One consequential step at most when an operator may hand the flow back;
      otherwise no recovery that restarts between two of them. */
  ghost predicate Guarded(cap: Capability, cfg: Config)
    requires Integrity(cap)
  {
    if CanAsk(cfg) then forall a, b :: IsRisky(cap, a) && IsRisky(cap, b) ==> a == b
    else forall a, b, c :: !RestartsBetween(cap, a, b, c)
  }

  /** A recovery may interrupt a risky step after its action while there is an
      operator to ask: the dispatch it observes is then forgotten. */
  predicate Interruptible(cap: Capability, i: nat, c: nat)
    requires Integrity(cap)
  {
    IsRisky(cap, i) && Usable(cap, c) && Armed(cap, c, i)
  }

  ghost predicate Exposed(cap: Capability, cfg: Config)
    requires Integrity(cap)
  {
    CanAsk(cfg) && exists i, c :: Interruptible(cap, i, c)
  }

  // ------------------------------------------------------------ invariant

  /** The steps seen dispatching a mutation. */
  function Seen(log: seq<Event>): set<nat> {
    set e | e in log && e.Consequential? :: e.index
  }

  /** Every step in `seen` is risky, at or after the hazard, and behind the flow. */
  predicate Behind(cap: Capability, seen: set<nat>, hazard: Option<Hazard>, at: int) {
    forall i :: i in seen ==> IsRisky(cap, i) && hazard.Some? && hazard.value.index <= i <= at
  }

  function Min(a: int, b: int): int { if a < b then a else b }

  /** How far the flow is committed: steps up to here will not be tried next. */
  function Front(phase: Phase, index: nat): int {
    match phase
    case RecoverAct(_, _, r) => Min(r - 1, index)
    case RecoverCheck(_, _, r) => Min(r - 1, index)
    case Starting => -1
    case Requires(_) => -1
    case Snapshot => index - 1
    case Refresh(acted) => if acted then index else index - 1
    case Poll(acted) => if acted then index else index - 1
    case Act => index - 1
    case Probe => index - 1
    case _ => index
  }

  predicate Remembered(seen: set<nat>, hazard: Option<Hazard>, phase: Phase) {
    seen != {} ==> hazard.Some? || (phase.Ended? && phase.result.Unresolved?)
  }

  ghost predicate Inv(cap: Capability, cfg: Config, s: State)
    requires Integrity(cap)
  {
    && HazardSafety.Inv(cap, s)
    && (Parking(s.phase) ==> CanAsk(cfg))
    && Remembered(Seen(s.log), s.hazard, s.phase)
    && (Guarded(cap, cfg) ==>
          !FiredTwice(s.log) && (!s.phase.Ended? ==> Behind(cap, Seen(s.log), s.hazard, Front(s.phase, s.index))))
  }

  lemma SeenAppend(log: seq<Event>, e: Event)
    ensures Seen(log + [e]) == if e.Consequential? then Seen(log) + {e.index} else Seen(log)
    ensures FiredTwice(log + [e]) ==> FiredTwice(log) || (e.Attempted? && e.index in Seen(log))
  {
    assert forall x :: x in log + [e] <==> x in log || x == e;
    if FiredTwice(log + [e]) {
      var l := log + [e];
      var j, k :| 0 <= j < k < |l| && l[j].Consequential? && l[k].Attempted? && l[j].index == l[k].index;
      assert l[j] == log[j] && log[j] in log;
      if k < |log| {
        assert l[k] == log[k];
      }
    }
  }

  lemma SeenElapse(log: seq<Event>, extra: seq<Event>)
    requires forall e :: e in extra ==> e.Console?
    ensures Seen(log + extra) == Seen(log)
    ensures FiredTwice(log + extra) ==> FiredTwice(log)
  {
    var l := log + extra;
    assert forall x :: x in l <==> x in log || x in extra;
    if FiredTwice(l) {
      var j, k :| 0 <= j < k < |l| && l[j].Consequential? && l[k].Attempted? && l[j].index == l[k].index;
      assert l[j] in l && l[k] in l;
      assert forall m :: |log| <= m < |l| ==> l[m] == extra[m - |log|] && extra[m - |log|] in extra;
      assert log[j] == l[j] && log[k] == l[k];
    }
  }

  lemma ElapseKeeps(cap: Capability, cfg: Config, s: State, t: Instant)
    requires Integrity(cap) && Wf(cap, s) && Inv(cap, cfg, s) && !s.phase.Ended?
    ensures Inv(cap, cfg, Elapse(cfg, s, t)) && Wf(cap, Elapse(cfg, s, t)) && Elapse(cfg, s, t).phase == s.phase
  {
    hide Integrity, Guarded, FiredTwice, Seen, HazardSafety.Inv, Accepted, HubAfter;
    HazardSafety.ElapseKeeps(cap, cfg, s, t);
    SeenElapse(s.log, Accepted(s.hub, t.calls));
  }

  /** The middle of a transition: everything but the phase is settled. */
  ghost predicate Mid(cap: Capability, cfg: Config, s: State, at: int)
    requires Integrity(cap)
  {
    && (Seen(s.log) != {} ==> s.hazard.Some?)
    && (Guarded(cap, cfg) ==> !FiredTwice(s.log) && Behind(cap, Seen(s.log), s.hazard, at))
  }

  lemma EscalateKeeps(cap: Capability, cfg: Config, s: State, f: Failed)
    requires Integrity(cap) && Core(cap, s) && Mid(cap, cfg, s, s.index)
    ensures HazardSafety.Inv(cap, Escalate(cap, cfg, s, f)) ==> Inv(cap, cfg, Escalate(cap, cfg, s, f))
  {
    hide Integrity, Guarded, FiredTwice, Seen, HazardSafety.Inv, Behind;
  }

  lemma EnterKeeps(cap: Capability, cfg: Config, s: State, index: nat)
    requires Integrity(cap) && Core(cap, s) && index <= |cap.steps| && Mid(cap, cfg, s, index - 1)
    ensures HazardSafety.Inv(cap, EnterAt(cap, cfg, s, index)) ==> Inv(cap, cfg, EnterAt(cap, cfg, s, index))
  {
    hide Integrity, Guarded, FiredTwice, Seen, HazardSafety.Inv;
    SeenAppend(s.log, Visited(index));
  }

  lemma NoteKeeps(cap: Capability, cfg: Config, s: State)
    requires Integrity(cap) && Wf(cap, s) && Mid(cap, cfg, s, s.index)
    requires s.hazard.Some? ==> s.index >= s.hazard.value.index
    ensures var r := Note(cap, s).0; Mid(cap, cfg, r, r.index) && r.index == s.index
  {
    hide Integrity, Guarded, FiredTwice, Seen, StepMutations;
    var e := Consequential(s.index, s.mark);
    SeenAppend(s.log, e);
    SeenAppend(s.log + [e], HazardRaised(s.index));
  }

  lemma NoteFailedKeeps(cap: Capability, cfg: Config, s: State)
    requires Integrity(cap) && Wf(cap, s) && Mid(cap, cfg, s, s.index)
    requires s.hazard.Some? ==> s.index >= s.hazard.value.index
    ensures HazardSafety.Inv(cap, NoteFailed(cap, cfg, s)) ==> Inv(cap, cfg, NoteFailed(cap, cfg, s))
  {
    hide Integrity, Mid, Inv, HazardSafety.Inv, Note, Escalate;
    NoteKeeps(cap, cfg, s);
    var (s1, noted) := Note(cap, s);
    EscalateKeeps(cap, cfg, s1, Failed(StepId(cap, s.index), noted, noted));
  }

  lemma IntegrityAt(cap: Capability, c: nat)
    requires Integrity(cap) && c < |cap.conditions|
    ensures ConditionOk(cap, cap.conditions[c])
  {
  }

  /** An allowed recovery resumes beyond everything seen dispatching. */
  lemma RestartIsBehind(cap: Capability, cfg: Config, s: State, c: nat, acted: bool)
    requires Integrity(cap) && Wf(cap, s) && Inv(cap, cfg, s) && s.phase == Poll(acted) && Guarded(cap, cfg)
    requires Usable(cap, c) && !(acted && IsRisky(cap, s.index))
    requires ConditionOk(cap, cap.conditions[c])
    requires !Forbidden(s.hazard, ResumePoint(cap, s.index, cap.conditions[c].classify.resume))
    ensures Behind(cap, Seen(s.log), s.hazard,
      Min(ResumePoint(cap, s.index, cap.conditions[c].classify.resume) - 1, s.index))
  {
    hide Integrity, FiredTwice, Seen;
    var r := ResumePoint(cap, s.index, cap.conditions[c].classify.resume);
    forall i | i in Seen(s.log) ensures IsRisky(cap, i) && s.hazard.Some?
        && s.hazard.value.index <= i <= Min(r - 1, s.index) {
      assert i < s.index;
      var h := s.hazard.value.index;
      assert IsRisky(cap, h);
      assert !RestartsBetween(cap, h, i, c) || CanAsk(cfg);
    }
  }

  lemma RecoverKeeps(cap: Capability, cfg: Config, s: State, c: nat, acted: bool)
    requires Integrity(cap) && Wf(cap, s) && Inv(cap, cfg, s) && s.phase == Poll(acted) && !Exposed(cap, cfg)
    requires c < |cap.conditions| && cap.conditions[c].classify.Recoverable? && Armed(cap, c, s.index)
    ensures HazardSafety.Inv(cap, Recover(cap, cfg, s, c, acted)) ==> Inv(cap, cfg, Recover(cap, cfg, s, c, acted))
  {
    hide Integrity, FiredTwice, Seen, HazardSafety.Inv, StepMutations;
    assert Mid(cap, cfg, s, s.index);
    var cond := cap.conditions[c];
    var s1 := s.(fires := s.fires[cond.id := Fires(s, cond.id) + 1]);
    EscalateKeeps(cap, cfg, s1, PlainFailure(StepId(cap, s.index)));
    if Fires(s, cond.id) + 1 <= cond.maxFires {
      if acted && IsRisky(cap, s.index) {
        assert Interruptible(cap, s.index, c);
        SeenAppend(s1.log, Consequential(s.index, s.mark));
      } else {
        IntegrityAt(cap, c);
        var r := ResumePoint(cap, s.index, cond.classify.resume);
        if Guarded(cap, cfg) && !Forbidden(s.hazard, r) {
          RestartIsBehind(cap, cfg, s, c, acted);
        }
      }
    }
  }

  lemma PollKeeps(cap: Capability, cfg: Config, s: State, t: Instant, acted: bool)
    requires Integrity(cap) && Wf(cap, s) && Inv(cap, cfg, s) && s.phase == Poll(acted) && !Exposed(cap, cfg)
    ensures Inv(cap, cfg, OnPoll(cap, cfg, s, t, acted))
  {
    hide Integrity, Guarded, Exposed, FiredTwice, Seen, HazardSafety.Inv, FirstHit, Recover, NoteFailed, Escalate;
    HazardSafety.PollKeeps(cap, cfg, s, t, acted);
    assert Mid(cap, cfg, s, s.index);
    EscalateKeeps(cap, cfg, s, PlainFailure(StepId(cap, s.index)));
    EscalateKeeps(cap, cfg, s, PlainFailure(None));
    var hit := FirstHit(cap, s.index, Suppressed(cap, s), t.matching, 0);
    if hit.Some? && cap.conditions[hit.value].classify.Recoverable? {
      RecoverKeeps(cap, cfg, s, hit.value, acted);
    }
    if acted {
      HazardInFront(cap, s);
      NoteFailedKeeps(cap, cfg, s);
    }
  }

  lemma HazardInFront(cap: Capability, s: State)
    requires HazardSafety.Inv(cap, s) && !s.phase.Ended?
    ensures s.hazard.Some? ==> s.index >= s.hazard.value.index && IsRisky(cap, s.hazard.value.index)
  {
  }

  lemma ActKeeps(cap: Capability, cfg: Config, s: State, t: Instant)
    requires Integrity(cap) && Wf(cap, s) && Inv(cap, cfg, s) && s.phase.Act?
    ensures Inv(cap, cfg, OnAct(cap, cfg, s, t))
  {
    hide Integrity, Guarded, FiredTwice, Seen, HazardSafety.Inv, NoteFailed, Note;
    HazardSafety.ActKeeps(cap, cfg, s, t);
    HazardInFront(cap, s);
    SeenAppend(s.log, Attempted(s.index));
    var s1 := Logged(s, Attempted(s.index));
    assert Mid(cap, cfg, s1, s1.index);
    NoteKeeps(cap, cfg, s1);
    NoteFailedKeeps(cap, cfg, s1);
  }

  lemma CheckKeeps(cap: Capability, cfg: Config, s: State, t: Instant)
    requires Integrity(cap) && Wf(cap, s) && Inv(cap, cfg, s) && s.phase.Check?
    ensures Inv(cap, cfg, OnCheck(cap, cfg, s, t))
  {
    hide Integrity, Guarded, FiredTwice, Seen, HazardSafety.Inv;
    HazardSafety.CheckKeeps(cap, cfg, s, t);
    if s.index < |cap.steps| && s.index in t.posts {
      EnterKeeps(cap, cfg, s.(kept := s.stale), s.index + 1);
    }
  }

  lemma OpeningKeeps(cap: Capability, cfg: Config, s: State, t: Instant)
    requires Integrity(cap) && Wf(cap, s) && Inv(cap, cfg, s) && (s.phase.Starting? || s.phase.Requires?)
    ensures Inv(cap, cfg, React(cap, cfg, s, t))
  {
    hide Integrity, Guarded, FiredTwice, Seen, HazardSafety.Inv;
    HazardSafety.OpeningKeeps(cap, cfg, s, t);
    HazardNotYet(cap, s);
    EnterKeeps(cap, cfg, s, s.index);
    EnterKeeps(cap, cfg, s.(deadline := s.now + cfg.requiresBudget), s.index);
  }

  lemma HazardNotYet(cap: Capability, s: State)
    requires HazardSafety.Inv(cap, s) && (s.phase.Starting? || s.phase.Requires?)
    ensures s.hazard.None?
  {
  }

  lemma RecoveryKeeps(cap: Capability, cfg: Config, s: State, t: Instant)
    requires Integrity(cap) && Wf(cap, s) && Inv(cap, cfg, s) && (s.phase.RecoverAct? || s.phase.RecoverCheck?)
    ensures Inv(cap, cfg, React(cap, cfg, s, t))
  {
    hide Integrity, Guarded, FiredTwice, Seen, HazardSafety.Inv, HazardSafety.Beyond, Escalate, EnterAt;
    HazardSafety.ReactKeeps(cap, cfg, s, t);
    RecoveryIsBehind(cap, cfg, s);
    var at := PlainFailure(Some(cap.conditions[s.phase.c].classify.recovery[s.phase.k].id));
    match s.phase
    case RecoverAct(c, k, r) =>
      SeenAppend(s.log, RecoveryAttempted(c, k));
      EscalateKeeps(cap, cfg, Logged(s, RecoveryAttempted(c, k)), at);
    case RecoverCheck(c, k, r) =>
      EnterKeeps(cap, cfg, s.(recoveries := s.recoveries + 1), r);
      EscalateKeeps(cap, cfg, s, at);
  }

  /** While a recovery runs, the flow still stands where it was interrupted. */
  lemma RecoveryIsBehind(cap: Capability, cfg: Config, s: State)
    requires Integrity(cap) && Inv(cap, cfg, s) && (s.phase.RecoverAct? || s.phase.RecoverCheck?)
    ensures Mid(cap, cfg, s, s.phase.resumeAt - 1) && Mid(cap, cfg, s, s.index)
  {
  }

  lemma ParkTakeKeeps(cap: Capability, cfg: Config, s: State, at: Option<string>, ttl: int)
    requires Integrity(cap) && Wf(cap, s) && Inv(cap, cfg, s) && s.phase == ParkTake(at, ttl)
    ensures Inv(cap, cfg, OnParkTake(cap, s, at, ttl))
  {
    hide Integrity, Guarded, FiredTwice, Seen, HazardSafety.Inv;
    HazardSafety.ParkTakeKeeps(cap, s, at, ttl);
    var e := Consumed(s.hub.decision, s.hub.code);
    SeenAppend(s.log, e);
  }

  lemma HandoverKeeps(cap: Capability, cfg: Config, s: State, t: Instant)
    requires Integrity(cap) && Wf(cap, s) && Inv(cap, cfg, s) && (s.phase.Asking? || s.phase.Releasing?)
    ensures Inv(cap, cfg, React(cap, cfg, s, t))
  {
    hide Integrity, Guarded, FiredTwice, Seen, HazardSafety.Inv;
    HazardSafety.ReactKeeps(cap, cfg, s, t);
    SeenAppend(s.log, ParkedEvent);
    SeenAppend(s.log, Released);
  }

  /** A handed-back flow resumes beyond everything seen dispatching. */
  lemma ScanIsBehind(cap: Capability, cfg: Config, s: State, t: Instant)
    requires Integrity(cap) && Wf(cap, s) && Inv(cap, cfg, s) && s.phase.Scan? && ResumeScan(cap, s, t).Some?
    ensures Mid(cap, cfg, s, ResumeScan(cap, s, t).value - 1)
  {
    hide Integrity, FiredTwice, Seen;
    var r := ResumeScan(cap, s, t).value;
    if Guarded(cap, cfg) {
      forall i | i in Seen(s.log) ensures i <= r - 1 {
        assert i == s.hazard.value.index;
      }
    }
  }

  lemma ClosingKeeps(cap: Capability, cfg: Config, s: State, t: Instant)
    requires Integrity(cap) && Wf(cap, s) && Inv(cap, cfg, s)
    requires s.phase.ParkPop? || s.phase.Scan?
    ensures Inv(cap, cfg, React(cap, cfg, s, t))
  {
    hide Integrity, Guarded, FiredTwice, Seen, HazardSafety.Inv, EnterAt;
    HazardSafety.ReactKeeps(cap, cfg, s, t);
    match s.phase
    case ParkPop(_, _) =>
      if s.hub.commands != [] {
        SeenAppend(s.log, Commanded(s.hub.commands[0]));
      }
    case Scan =>
      var to := ResumeScan(cap, s, t);
      if to.Some? {
        ScanIsBehind(cap, cfg, s, t);
        EnterKeeps(cap, cfg, s, to.value);
      }
  }

  lemma SensingKeeps(cap: Capability, cfg: Config, s: State, t: Instant)
    requires Integrity(cap) && Wf(cap, s) && Inv(cap, cfg, s)
    requires s.phase.Snapshot? || s.phase.Refresh? || s.phase.ParkLook? || s.phase.Output? || s.phase.Observe?
    ensures Inv(cap, cfg, React(cap, cfg, s, t))
  {
    hide Integrity, Guarded, FiredTwice, Seen, HazardSafety.Inv;
    HazardSafety.ReactKeeps(cap, cfg, s, t);
  }

  lemma ProbeKeeps(cap: Capability, cfg: Config, s: State, t: Instant)
    requires Integrity(cap) && Wf(cap, s) && Inv(cap, cfg, s) && s.phase.Probe?
    ensures Inv(cap, cfg, OnProbe(cap, s, t))
  {
    hide Integrity, Guarded, FiredTwice, Seen, HazardSafety.Inv, Note;
    HazardSafety.SensingKeeps(cap, cfg, s, t);
    HazardInFront(cap, s);
    assert Mid(cap, cfg, s, s.index);
    NoteKeeps(cap, cfg, s);
  }

  lemma NextKeeps(cap: Capability, cfg: Config, s: State, t: Instant)
    requires Integrity(cap) && Wf(cap, s) && Inv(cap, cfg, s) && !Exposed(cap, cfg)
    ensures Inv(cap, cfg, Next(cap, cfg, s, t))
  {
    hide Integrity, Inv, Elapse, Exposed, OnPoll, OnAct, OnCheck, OnParkTake, OnProbe;
    if !s.phase.Ended? {
      ElapseKeeps(cap, cfg, s, t);
      var e := Elapse(cfg, s, t);
      match e.phase
      case Poll(acted) => PollKeeps(cap, cfg, e, t, acted);
      case Act => ActKeeps(cap, cfg, e, t);
      case Probe => ProbeKeeps(cap, cfg, e, t);
      case Check => CheckKeeps(cap, cfg, e, t);
      case ParkTake(at, ttl) => ParkTakeKeeps(cap, cfg, e, at, ttl);
      case Starting => OpeningKeeps(cap, cfg, e, t);
      case Requires(_) => OpeningKeeps(cap, cfg, e, t);
      case RecoverAct(_, _, _) => RecoveryKeeps(cap, cfg, e, t);
      case RecoverCheck(_, _, _) => RecoveryKeeps(cap, cfg, e, t);
      case ParkPop(_, _) => ClosingKeeps(cap, cfg, e, t);
      case Scan => ClosingKeeps(cap, cfg, e, t);
      case Asking(_) => HandoverKeeps(cap, cfg, e, t);
      case Releasing => HandoverKeeps(cap, cfg, e, t);
      case _ => SensingKeeps(cap, cfg, e, t);
    }
  }

  lemma Starts(cap: Capability, cfg: Config)
    requires Integrity(cap)
    ensures Inv(cap, cfg, Initial(cap, cfg))
  {
    hide Integrity, Guarded;
  }

  lemma {:induction false} Always(cap: Capability, cfg: Config, inputs: seq<Instant>, states: seq<State>, k: nat)
    requires Integrity(cap) && Behavior(cap, cfg, inputs, states) && k < |states| && !Exposed(cap, cfg)
    ensures Inv(cap, cfg, states[k])
  {
    hide Integrity, Inv, Next, Wf, Exposed;
    if k == 0 {
      Starts(cap, cfg);
    } else {
      Always(cap, cfg, inputs, states, k - 1);
      NextKeeps(cap, cfg, states[k - 1], inputs[k - 1]);
    }
  }
}
