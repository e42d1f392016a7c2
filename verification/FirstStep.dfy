/** The one case the general argument leaves open: the only consequential step is
    the first one, and a recovery may interrupt it. A handed-back flow then
    resumes after it, so only a recovery that restarts from it can fire it again. */
module FirstStep {
  import opened Wrappers
  import opened Artifact
  import opened Escalation
  import opened Protocol
  import opened DoubleFire
  import HazardSafety

  /** Condition `c` interrupts the first step and condition `d` restarts from it;
      conditions that share an id share their fire count. */
  predicate Returns(cap: Capability, c: nat, d: nat)
    requires Integrity(cap)
  {
    && Interruptible(cap, 0, c) && Usable(cap, d) && RestartsAtFirst(cap, d)
    && (cap.conditions[c].id == cap.conditions[d].id ==> cap.conditions[d].maxFires > 1)
  }

  predicate RestartsAtFirst(cap: Capability, d: nat)
    requires Integrity(cap) && d < |cap.conditions|
  {
    var cond := cap.conditions[d];
    cond.classify.Recoverable? && cond.classify.resume.RestartFrom?
        && IndexOf(cap.steps, cond.classify.resume.stepId) == 0
  }

  /** A recovery may interrupt a consequential step, and the flow may come back to it. */
  ghost predicate Refirable(cap: Capability, cfg: Config)
    requires Integrity(cap)
  {
    CanAsk(cfg) && ((exists i, c :: i > 0 && Interruptible(cap, i, c)) || (exists c, d :: Returns(cap, c, d)))
  }

  /** Only the first step is consequential, and the flow cannot come back to it. */
  ghost predicate Contained(cap: Capability)
    requires Integrity(cap)
  {
    (forall i :: IsRisky(cap, i) ==> i == 0) && (forall c, d :: !Returns(cap, c, d))
  }

  /** What is known once the first step was seen dispatching: it raised the hazard,
      or a condition interrupted it and used up one of its fires. */
  ghost predicate Known(cap: Capability, seen: set<nat>, hazard: Option<Hazard>, fires: map<string, nat>)
    requires Integrity(cap)
  {
    seen != {} ==>
      && seen == {0} && IsRisky(cap, 0)
      && (hazard.None? ==> exists c :: Spent(cap, fires, c))
  }

  /** Condition `c` has interrupted the first step, or shares its fires with one that has. */
  predicate Spent(cap: Capability, fires: map<string, nat>, c: nat)
    requires Integrity(cap)
  {
    Interruptible(cap, 0, c) && cap.conditions[c].id in fires && fires[cap.conditions[c].id] > 0
  }

  ghost predicate Settled(cap: Capability, s: State, at: int)
    requires Integrity(cap)
  {
    !FiredTwice(s.log) && Known(cap, Seen(s.log), s.hazard, s.fires) && (Seen(s.log) != {} ==> at >= 0)
  }

  ghost predicate Inv(cap: Capability, s: State)
    requires Integrity(cap)
  {
    && HazardSafety.Inv(cap, s)
    && !FiredTwice(s.log)
    && (!s.phase.Ended? ==> Settled(cap, s, Front(s.phase, s.index)))
  }

  lemma ElapseKeeps(cap: Capability, cfg: Config, s: State, t: Instant)
    requires Integrity(cap) && Wf(cap, s) && Inv(cap, s) && !s.phase.Ended?
    ensures Inv(cap, Elapse(cfg, s, t)) && Wf(cap, Elapse(cfg, s, t)) && Elapse(cfg, s, t).phase == s.phase
  {
    hide Integrity, FiredTwice, Seen, Known, HazardSafety.Inv, Accepted, HubAfter;
    HazardSafety.ElapseKeeps(cap, cfg, s, t);
    SeenElapse(s.log, Accepted(s.hub, t.calls));
  }

  lemma EscalateKeeps(cap: Capability, cfg: Config, s: State, f: Failed)
    requires Integrity(cap) && Core(cap, s) && Settled(cap, s, 0)
    ensures HazardSafety.Inv(cap, Escalate(cap, cfg, s, f)) ==> Inv(cap, Escalate(cap, cfg, s, f))
  {
    hide Integrity, FiredTwice, Seen, Known, HazardSafety.Inv;
  }

  lemma EnterKeeps(cap: Capability, cfg: Config, s: State, index: nat)
    requires Integrity(cap) && Core(cap, s) && index <= |cap.steps| && Settled(cap, s, index - 1)
    ensures HazardSafety.Inv(cap, EnterAt(cap, cfg, s, index)) ==> Inv(cap, EnterAt(cap, cfg, s, index))
  {
    hide Integrity, FiredTwice, Seen, Known, HazardSafety.Inv;
    SeenAppend(s.log, Visited(index));
  }

  lemma NoteKeeps(cap: Capability, s: State)
    requires Integrity(cap) && Wf(cap, s) && Settled(cap, s, 0) && Contained(cap)
    ensures Settled(cap, Note(cap, s).0, 0)
  {
    hide Integrity, FiredTwice, Seen, StepMutations, Interruptible, Returns, IsRisky;
    var e := Consequential(s.index, s.mark);
    SeenAppend(s.log, e);
    SeenAppend(s.log + [e], HazardRaised(s.index));
  }

  lemma NoteFailedKeeps(cap: Capability, cfg: Config, s: State)
    requires Integrity(cap) && Wf(cap, s) && Settled(cap, s, 0) && Contained(cap)
    ensures HazardSafety.Inv(cap, NoteFailed(cap, cfg, s)) ==> Inv(cap, NoteFailed(cap, cfg, s))
  {
    hide Integrity, Settled, Inv, HazardSafety.Inv, Note, Escalate, Contained;
    NoteKeeps(cap, s);
    var (s1, noted) := Note(cap, s);
    EscalateKeeps(cap, cfg, s1, Failed(StepId(cap, s.index), noted, noted));
  }

  lemma WouldReturn(cap: Capability, fires: map<string, nat>, c: nat, d: nat)
    requires Integrity(cap) && Spent(cap, fires, c) && Usable(cap, d) && RestartsAtFirst(cap, d)
    requires cap.conditions[d].id in fires ==> fires[cap.conditions[d].id] < cap.conditions[d].maxFires
    ensures Returns(cap, c, d)
  {
    hide Integrity, Armed;
  }

  lemma KnownGrows(cap: Capability, s: State, id: string)
    requires Integrity(cap) && Known(cap, Seen(s.log), s.hazard, s.fires)
    ensures Known(cap, Seen(s.log), s.hazard, s.fires[id := Fires(s, id) + 1])
  {
    hide Integrity, Seen, Interruptible;
    if Seen(s.log) != {} && s.hazard.None? {
      var c :| Spent(cap, s.fires, c);
      assert Spent(cap, s.fires[id := Fires(s, id) + 1], c);
    }
  }

  /** An allowed recovery never restarts from a first step seen dispatching. */
  lemma RestartIsBeyond(cap: Capability, s: State, c: nat, acted: bool)
    requires Integrity(cap) && Wf(cap, s) && Inv(cap, s) && s.phase == Poll(acted) && Contained(cap)
    requires Usable(cap, c) && Fires(s, cap.conditions[c].id) < cap.conditions[c].maxFires
      && !(acted && IsRisky(cap, s.index))
    requires ConditionOk(cap, cap.conditions[c]) && Seen(s.log) != {}
    requires !Forbidden(s.hazard, ResumePoint(cap, s.index, cap.conditions[c].classify.resume))
    ensures ResumePoint(cap, s.index, cap.conditions[c].classify.resume) > 0 && s.index > 0
  {
    hide Integrity, FiredTwice, Seen, Armed;
    var cond := cap.conditions[c];
    if ResumePoint(cap, s.index, cond.classify.resume) == 0 {
      var i :| Spent(cap, s.fires, i);
      WouldReturn(cap, s.fires, i, c);
    }
  }

  lemma RecoverKeeps(cap: Capability, cfg: Config, s: State, c: nat, acted: bool)
    requires Integrity(cap) && Wf(cap, s) && Inv(cap, s) && s.phase == Poll(acted) && Contained(cap)
    requires c < |cap.conditions| && cap.conditions[c].classify.Recoverable? && Armed(cap, c, s.index)
    ensures HazardSafety.Inv(cap, Recover(cap, cfg, s, c, acted)) ==> Inv(cap, Recover(cap, cfg, s, c, acted))
  {
    hide Integrity, FiredTwice, Seen, HazardSafety.Inv, StepMutations, Returns, Armed;
    var cond := cap.conditions[c];
    var s1 := s.(fires := s.fires[cond.id := Fires(s, cond.id) + 1]);
    KnownGrows(cap, s, cond.id);
    assert Settled(cap, s1, 0);
    EscalateKeeps(cap, cfg, s1, PlainFailure(StepId(cap, s.index)));
    if Fires(s, cond.id) + 1 <= cond.maxFires {
      if acted && IsRisky(cap, s.index) {
        assert Spent(cap, s1.fires, c);
        SeenAppend(s1.log, Consequential(s.index, s.mark));
        var s2 := Logged(s1, Consequential(s.index, s.mark));
        assert Settled(cap, s2, 0);
        EscalateKeeps(cap, cfg, s2, Failed(StepId(cap, s.index), true, true));
        EscalateKeeps(cap, cfg, s1, Failed(StepId(cap, s.index), false, false));
      } else {
        IntegrityAt(cap, c);
        if Seen(s.log) != {} && !Forbidden(s.hazard, ResumePoint(cap, s.index, cond.classify.resume)) {
          RestartIsBeyond(cap, s, c, acted);
        }
      }
    }
  }

  lemma PollKeeps(cap: Capability, cfg: Config, s: State, t: Instant, acted: bool)
    requires Integrity(cap) && Wf(cap, s) && Inv(cap, s) && s.phase == Poll(acted) && Contained(cap)
    ensures Inv(cap, OnPoll(cap, cfg, s, t, acted))
  {
    hide Integrity, FiredTwice, Seen, Known, HazardSafety.Inv, FirstHit, Recover, NoteFailed, Escalate, Contained,
         Armed;
    HazardSafety.PollKeeps(cap, cfg, s, t, acted);
    assert Settled(cap, s, 0);
    EscalateKeeps(cap, cfg, s, PlainFailure(StepId(cap, s.index)));
    EscalateKeeps(cap, cfg, s, PlainFailure(None));
    var hit := FirstHit(cap, s.index, Suppressed(cap, s), t.matching, 0);
    if hit.Some? && cap.conditions[hit.value].classify.Recoverable? {
      RecoverKeeps(cap, cfg, s, hit.value, acted);
    }
    NoteFailedKeeps(cap, cfg, s);
  }

  lemma ActKeeps(cap: Capability, cfg: Config, s: State, t: Instant)
    requires Integrity(cap) && Wf(cap, s) && Inv(cap, s) && s.phase.Act? && Contained(cap)
    ensures Inv(cap, OnAct(cap, cfg, s, t))
  {
    hide Integrity, FiredTwice, Seen, HazardSafety.Inv, NoteFailed, Note, Contained, Interruptible;
    HazardSafety.ActKeeps(cap, cfg, s, t);
    SeenAppend(s.log, Attempted(s.index));
    var s1 := Logged(s, Attempted(s.index));
    assert Settled(cap, s1, 0);
    NoteKeeps(cap, s1);
    NoteFailedKeeps(cap, cfg, s1);
  }

  lemma ProbeKeeps(cap: Capability, cfg: Config, s: State, t: Instant)
    requires Integrity(cap) && Wf(cap, s) && Inv(cap, s) && s.phase.Probe? && Contained(cap)
    ensures Inv(cap, OnProbe(cap, s, t))
  {
    hide Integrity, FiredTwice, Seen, Known, HazardSafety.Inv, Note, Contained;
    HazardSafety.SensingKeeps(cap, cfg, s, t);
    assert Settled(cap, s, 0);
    NoteKeeps(cap, s);
  }

  lemma CheckKeeps(cap: Capability, cfg: Config, s: State, t: Instant)
    requires Integrity(cap) && Wf(cap, s) && Inv(cap, s) && s.phase.Check?
    ensures Inv(cap, OnCheck(cap, cfg, s, t))
  {
    hide Integrity, FiredTwice, Seen, Known, HazardSafety.Inv;
    HazardSafety.CheckKeeps(cap, cfg, s, t);
    if s.index < |cap.steps| && s.index in t.posts {
      EnterKeeps(cap, cfg, s.(kept := s.stale), s.index + 1);
    }
  }

  lemma OpeningKeeps(cap: Capability, cfg: Config, s: State, t: Instant)
    requires Integrity(cap) && Wf(cap, s) && Inv(cap, s) && (s.phase.Starting? || s.phase.Requires?)
    ensures Inv(cap, React(cap, cfg, s, t))
  {
    hide Integrity, FiredTwice, Seen, HazardSafety.Inv, Interruptible;
    HazardSafety.OpeningKeeps(cap, cfg, s, t);
    EnterKeeps(cap, cfg, s, s.index);
    EnterKeeps(cap, cfg, s.(deadline := s.now + cfg.requiresBudget), s.index);
  }

  lemma RecoveryKeeps(cap: Capability, cfg: Config, s: State, t: Instant)
    requires Integrity(cap) && Wf(cap, s) && Inv(cap, s) && (s.phase.RecoverAct? || s.phase.RecoverCheck?)
    ensures Inv(cap, React(cap, cfg, s, t))
  {
    hide Integrity, FiredTwice, Seen, Known, HazardSafety.Inv, Escalate, EnterAt;
    HazardSafety.ReactKeeps(cap, cfg, s, t);
    var at := PlainFailure(Some(cap.conditions[s.phase.c].classify.recovery[s.phase.k].id));
    match s.phase
    case RecoverAct(c, k, r) =>
      SeenAppend(s.log, RecoveryAttempted(c, k));
      EscalateKeeps(cap, cfg, Logged(s, RecoveryAttempted(c, k)), at);
    case RecoverCheck(c, k, r) =>
      EnterKeeps(cap, cfg, s.(recoveries := s.recoveries + 1), r);
      EscalateKeeps(cap, cfg, s, at);
  }

  lemma ParkTakeKeeps(cap: Capability, s: State, at: Option<string>, ttl: int)
    requires Integrity(cap) && Wf(cap, s) && Inv(cap, s) && s.phase == ParkTake(at, ttl)
    ensures Inv(cap, OnParkTake(cap, s, at, ttl))
  {
    hide Integrity, FiredTwice, Seen, Known, HazardSafety.Inv;
    HazardSafety.ParkTakeKeeps(cap, s, at, ttl);
    var e := Consumed(s.hub.decision, s.hub.code);
    SeenAppend(s.log, e);
  }

  lemma HandoverKeeps(cap: Capability, cfg: Config, s: State, t: Instant)
    requires Integrity(cap) && Wf(cap, s) && Inv(cap, s) && (s.phase.Asking? || s.phase.Releasing?)
    ensures Inv(cap, React(cap, cfg, s, t))
  {
    hide Integrity, FiredTwice, Seen, Known, HazardSafety.Inv;
    HazardSafety.ReactKeeps(cap, cfg, s, t);
    SeenAppend(s.log, ParkedEvent);
    SeenAppend(s.log, Released);
  }

  lemma ClosingKeeps(cap: Capability, cfg: Config, s: State, t: Instant)
    requires Integrity(cap) && Wf(cap, s) && Inv(cap, s)
    requires s.phase.ParkPop? || s.phase.Scan?
    ensures Inv(cap, React(cap, cfg, s, t))
  {
    hide Integrity, FiredTwice, Seen, HazardSafety.Inv, EnterAt, Interruptible;
    HazardSafety.ReactKeeps(cap, cfg, s, t);
    match s.phase
    case ParkPop(_, _) =>
      if s.hub.commands != [] {
        SeenAppend(s.log, Commanded(s.hub.commands[0]));
      }
    case Scan =>
      var to := ResumeScan(cap, s, t);
      if to.Some? {
        assert Seen(s.log) != {} ==> to.value > 0;
        EnterKeeps(cap, cfg, s, to.value);
      }
  }

  lemma SensingKeeps(cap: Capability, cfg: Config, s: State, t: Instant)
    requires Integrity(cap) && Wf(cap, s) && Inv(cap, s)
    requires s.phase.Snapshot? || s.phase.Refresh? || s.phase.ParkLook? || s.phase.Output? || s.phase.Observe?
    ensures Inv(cap, React(cap, cfg, s, t))
  {
    hide Integrity, FiredTwice, Seen, Known, HazardSafety.Inv;
    HazardSafety.ReactKeeps(cap, cfg, s, t);
  }

  lemma NextKeeps(cap: Capability, cfg: Config, s: State, t: Instant)
    requires Integrity(cap) && Wf(cap, s) && Inv(cap, s) && Contained(cap)
    ensures Inv(cap, Next(cap, cfg, s, t))
  {
    hide Integrity, Inv, Elapse, Contained, OnPoll, OnAct, OnCheck, OnParkTake, OnProbe;
    if !s.phase.Ended? {
      ElapseKeeps(cap, cfg, s, t);
      var e := Elapse(cfg, s, t);
      match e.phase
      case Poll(acted) => PollKeeps(cap, cfg, e, t, acted);
      case Act => ActKeeps(cap, cfg, e, t);
      case Probe => ProbeKeeps(cap, cfg, e, t);
      case Check => CheckKeeps(cap, cfg, e, t);
      case ParkTake(at, ttl) => ParkTakeKeeps(cap, e, at, ttl);
      case Starting => OpeningKeeps(cap, cfg, e, t);
      case Requires(_) => OpeningKeeps(cap, cfg, e, t);
      case RecoverAct(_, _, _) => RecoveryKeeps(cap, cfg, e, t);
      case RecoverCheck(_, _, _) => RecoveryKeeps(cap, cfg, e, t);
      case ParkPop(_, _) => ClosingKeeps(cap, cfg, e, t);
      case Scan => ClosingKeeps(cap, cfg, e, t);
      case Asking(_) => HandoverKeeps(cap, cfg, e, t);
      case Releasing => HandoverKeeps(cap, cfg, e, t);
      case _ => SensingKeeps(cap, cfg, e, t);
    }
  }

  lemma Starts(cap: Capability, cfg: Config)
    requires Integrity(cap)
    ensures Inv(cap, Initial(cap, cfg))
  {
    hide Integrity;
  }

  lemma {:induction false} Always(cap: Capability, cfg: Config, inputs: seq<Instant>, states: seq<State>, k: nat)
    requires Integrity(cap) && Behavior(cap, cfg, inputs, states) && k < |states| && Contained(cap)
    ensures Inv(cap, states[k])
  {
    hide Integrity, Inv, Next, Wf, Contained;
    if k == 0 {
      Starts(cap, cfg);
    } else {
      Always(cap, cfg, inputs, states, k - 1);
      NextKeeps(cap, cfg, states[k - 1], inputs[k - 1]);
    }
  }
}
