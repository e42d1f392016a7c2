/** Once a consequential action may have reached the server, no step up to it is
    ever tried again. */
module HazardSafety {
  import opened Wrappers
  import opened Artifact
  import opened Escalation
  import opened Protocol

  /** Nothing at or before a raised hazard is attempted after it. */
  predicate NoRefire(log: seq<Event>) {
    forall j, k :: 0 <= j < k < |log| && log[j].HazardRaised? && log[k].Attempted? ==> log[k].index > log[j].index
  }

  /** The hazard and the log agree, and the log is clean so far. */
  predicate Sound(cap: Capability, log: seq<Event>, hazard: Option<Hazard>) {
    && NoRefire(log)
    && (hazard.None? ==> forall e :: e in log ==> !e.HazardRaised?)
    && (hazard.Some? ==>
          && IsRisky(cap, hazard.value.index)
          && (forall e :: e in log && e.HazardRaised? ==> e.index == hazard.value.index))
  }

  /** Where the flow may stand once step `h` raised the hazard. */
  predicate Beyond(phase: Phase, index: nat, h: nat) {
    match phase
    case Ended(_) => true
    case Starting => false
    case Requires(_) => false
    case RecoverAct(_, _, r) => r > h && index >= h
    case RecoverCheck(_, _, r) => r > h && index >= h
    case Snapshot => index > h
    case Refresh(acted) => if acted then index >= h else index > h
    case Poll(acted) => if acted then index >= h else index > h
    case Act => index > h
    case Probe => index > h
    case _ => index >= h
  }

  predicate Inv(cap: Capability, s: State) {
    Sound(cap, s.log, s.hazard) && (s.hazard.Some? ==> Beyond(s.phase, s.index, s.hazard.value.index))
  }

  /** Appending an event that raises no hazard, and tries no forbidden step. */
  lemma Append(log: seq<Event>, e: Event)
    requires NoRefire(log) && !e.HazardRaised?
    requires e.Attempted? ==> forall j :: 0 <= j < |log| && log[j].HazardRaised? ==> e.index > log[j].index
    ensures NoRefire(log + [e])
  {
  }

  lemma SoundAppend(cap: Capability, log: seq<Event>, hazard: Option<Hazard>, e: Event)
    requires Sound(cap, log, hazard) && !e.HazardRaised?
    requires e.Attempted? && hazard.Some? ==> e.index > hazard.value.index
    ensures Sound(cap, log + [e], hazard)
  {
    if hazard.None? {
      forall j | 0 <= j < |log| ensures !log[j].HazardRaised? { assert log[j] in log; }
    } else {
      forall j | 0 <= j < |log| && log[j].HazardRaised? ensures log[j].index == hazard.value.index {
        assert log[j] in log;
      }
    }
    Append(log, e);
    assert forall x :: x in log + [e] ==> x in log || x == e;
  }

  lemma ElapseKeeps(cap: Capability, cfg: Config, s: State, t: Instant)
    requires Wf(cap, s) && Inv(cap, s)
    ensures Wf(cap, Elapse(cfg, s, t)) && Inv(cap, Elapse(cfg, s, t))
  {
    var r := Elapse(cfg, s, t);
    var extra := Accepted(s.hub, t.calls);
    assert forall k :: 0 <= k < |extra| ==> extra[k].Console? by {
      forall k | 0 <= k < |extra| ensures extra[k].Console? { assert extra[k] in extra; }
    }
    assert NoRefire(s.log + extra);
    assert forall x :: x in s.log + extra ==> x in s.log || x in extra;
  }

  lemma EscalateKeeps(cap: Capability, cfg: Config, s: State, f: Failed)
    requires Core(cap, s) && Sound(cap, s.log, s.hazard)
    requires s.hazard.Some? ==> s.index >= s.hazard.value.index
    ensures Wf(cap, Escalate(cap, cfg, s, f)) && Inv(cap, Escalate(cap, cfg, s, f))
  {
    hide Sound;
  }

  lemma EnterKeeps(cap: Capability, cfg: Config, s: State, index: nat)
    requires Core(cap, s) && Sound(cap, s.log, s.hazard) && index <= |cap.steps|
    requires s.hazard.Some? ==> index > s.hazard.value.index
    ensures Inv(cap, EnterAt(cap, cfg, s, index))
  {
    hide Sound;
    SoundAppend(cap, s.log, s.hazard, Visited(index));
  }

  lemma NoteKeeps(cap: Capability, s: State)
    requires Integrity(cap) && Wf(cap, s) && Sound(cap, s.log, s.hazard)
    requires s.hazard.Some? ==> s.index >= s.hazard.value.index
    ensures var r := Note(cap, s).0;
      && Sound(cap, r.log, r.hazard) && r.index == s.index && (r.hazard.Some? ==> r.index >= r.hazard.value.index)
  {
    var r := Note(cap, s).0;
    if r != s {
      SoundAppend(cap, s.log, s.hazard, Consequential(s.index, s.mark));
      if s.hazard.None? {
        var log := Logged(s, Consequential(s.index, s.mark)).log;
        assert r.log == log + [HazardRaised(s.index)];
        forall j | 0 <= j < |log| ensures !log[j].HazardRaised? { assert log[j] in log; }
        assert forall x :: x in r.log ==> x in log || x == HazardRaised(s.index);
      }
    }
  }

  lemma NoteFailedKeeps(cap: Capability, cfg: Config, s: State)
    requires Integrity(cap) && Wf(cap, s) && Sound(cap, s.log, s.hazard)
    requires s.hazard.Some? ==> s.index >= s.hazard.value.index
    ensures Inv(cap, NoteFailed(cap, cfg, s))
  {
    hide Integrity, Sound;
    NoteKeeps(cap, s);
    var (s1, noted) := Note(cap, s);
    EscalateKeeps(cap, cfg, s1, Failed(StepId(cap, s.index), noted, noted));
  }

  lemma RecoverKeeps(cap: Capability, cfg: Config, s: State, c: nat, acted: bool)
    requires Integrity(cap) && Wf(cap, s) && Inv(cap, s) && s.phase == Poll(acted)
    requires c < |cap.conditions| && cap.conditions[c].classify.Recoverable?
    ensures Inv(cap, Recover(cap, cfg, s, c, acted))
  {
    hide Sound, Escalate, Mutations;
    var cond := cap.conditions[c];
    var s1 := s.(fires := s.fires[cond.id := Fires(s, cond.id) + 1]);
    if Fires(s, cond.id) + 1 > cond.maxFires {
      EscalateKeeps(cap, cfg, s1, PlainFailure(StepId(cap, s.index)));
    } else if acted && IsRisky(cap, s.index) {
      var sent := StepMutations(s1) != [];
      SoundAppend(cap, s1.log, s1.hazard, Consequential(s.index, s.mark));
      EscalateKeeps(cap, cfg, if sent then Logged(s1, Consequential(s.index, s.mark)) else s1,
        Failed(StepId(cap, s.index), sent, sent));
    } else {
      var resumeAt := ResumePoint(cap, s.index, cond.classify.resume);
      if Forbidden(s.hazard, resumeAt) {
        EscalateKeeps(cap, cfg, s1, PlainFailure(StepId(cap, s.index)));
      }
    }
  }

  lemma PollKeeps(cap: Capability, cfg: Config, s: State, t: Instant, acted: bool)
    requires Integrity(cap) && Wf(cap, s) && Inv(cap, s) && s.phase == Poll(acted)
    ensures Inv(cap, OnPoll(cap, cfg, s, t, acted))
  {
    hide Integrity, Sound, FirstHit, Recover, NoteFailed, Escalate;
    EscalateKeeps(cap, cfg, s, PlainFailure(StepId(cap, s.index)));
    EscalateKeeps(cap, cfg, s, PlainFailure(None));
    NoteFailedKeeps(cap, cfg, s);
    var hit := FirstHit(cap, s.index, Suppressed(cap, s), t.matching, 0);
    if hit.Some? && cap.conditions[hit.value].classify.Recoverable? {
      RecoverKeeps(cap, cfg, s, hit.value, acted);
    }
  }

  lemma ActKeeps(cap: Capability, cfg: Config, s: State, t: Instant)
    requires Integrity(cap) && Wf(cap, s) && Inv(cap, s) && s.phase.Act?
    ensures Inv(cap, OnAct(cap, cfg, s, t))
  {
    hide Integrity, Sound, NoteFailed;
    var s1 := Logged(s, Attempted(s.index));
    SoundAppend(cap, s.log, s.hazard, Attempted(s.index));
    NoteKeeps(cap, s1);
    NoteFailedKeeps(cap, cfg, s1);
  }

  lemma ParkTakeKeeps(cap: Capability, s: State, at: Option<string>, ttl: int)
    requires Wf(cap, s) && Inv(cap, s) && s.phase == ParkTake(at, ttl)
    ensures Inv(cap, OnParkTake(cap, s, at, ttl))
  {
    hide Sound;
    SoundAppend(cap, s.log, s.hazard, Consumed(s.hub.decision, s.hub.code));
  }

  lemma HandoverKeeps(cap: Capability, cfg: Config, s: State, t: Instant)
    requires Integrity(cap) && Wf(cap, s) && Inv(cap, s) && (s.phase.Asking? || s.phase.Releasing?)
    ensures Inv(cap, React(cap, cfg, s, t))
  {
    hide Integrity, Sound;
    SoundAppend(cap, s.log, s.hazard, ParkedEvent);
    SoundAppend(cap, s.log, s.hazard, Released);
  }

  lemma ScanKeeps(cap: Capability, cfg: Config, s: State, t: Instant)
    requires Integrity(cap) && Wf(cap, s) && Inv(cap, s) && s.phase.Scan?
    ensures Inv(cap, OnScan(cap, cfg, s, t))
  {
    hide Integrity;
    var to := ResumeScan(cap, s, t);
    if to.Some? {
      EnterKeeps(cap, cfg, s, to.value);
    }
  }

  lemma CheckKeeps(cap: Capability, cfg: Config, s: State, t: Instant)
    requires Integrity(cap) && Wf(cap, s) && Inv(cap, s) && s.phase.Check?
    ensures Inv(cap, OnCheck(cap, cfg, s, t))
  {
    hide Integrity, Sound;
    if s.index < |cap.steps| && s.index in t.posts {
      EnterKeeps(cap, cfg, s.(kept := s.stale), s.index + 1);
    }
  }

  lemma RecoverActKeeps(cap: Capability, cfg: Config, s: State, t: Instant, c: nat, k: nat, r: nat)
    requires Wf(cap, s) && Inv(cap, s) && s.phase == RecoverAct(c, k, r)
    ensures Inv(cap, OnRecoverAct(cap, cfg, s, t, c, k, r))
  {
    hide Sound;
    SoundAppend(cap, s.log, s.hazard, RecoveryAttempted(c, k));
    EscalateKeeps(cap, cfg, Logged(s, RecoveryAttempted(c, k)),
        PlainFailure(Some(cap.conditions[c].classify.recovery[k].id)));
  }

  lemma RecoverCheckKeeps(cap: Capability, cfg: Config, s: State, t: Instant, c: nat, k: nat, r: nat)
    requires Wf(cap, s) && Inv(cap, s) && s.phase == RecoverCheck(c, k, r)
    ensures Inv(cap, OnRecoverCheck(cap, cfg, s, t, c, k, r))
  {
    hide Sound;
    if t.recovered {
      EnterKeeps(cap, cfg, s.(recoveries := s.recoveries + 1), r);
    } else {
      EscalateKeeps(cap, cfg, s, PlainFailure(Some(cap.conditions[c].classify.recovery[k].id)));
    }
  }

  lemma ParkPopKeeps(cap: Capability, s: State, at: Option<string>, ttl: int)
    requires Wf(cap, s) && Inv(cap, s) && s.phase == ParkPop(at, ttl)
    ensures Inv(cap, OnParkPop(s, at, ttl))
  {
    hide Sound;
    if s.hub.commands != [] {
      SoundAppend(cap, s.log, s.hazard, Commanded(s.hub.commands[0]));
    }
  }

  lemma OpeningKeeps(cap: Capability, cfg: Config, s: State, t: Instant)
    requires Integrity(cap) && Wf(cap, s) && Inv(cap, s) && (s.phase.Starting? || s.phase.Requires?)
    ensures Inv(cap, React(cap, cfg, s, t))
  {
    hide Integrity, Sound;
    match s.phase
    case Starting => EnterKeeps(cap, cfg, s.(deadline := s.now + cfg.requiresBudget), s.index);
    case Requires(_) => EnterKeeps(cap, cfg, s, s.index);
  }

  lemma SensingKeeps(cap: Capability, cfg: Config, s: State, t: Instant)
    requires Integrity(cap) && Wf(cap, s) && Inv(cap, s)
    requires s.phase.Snapshot? || s.phase.Refresh? || s.phase.Probe?
    ensures Inv(cap, React(cap, cfg, s, t))
  {
    hide Integrity, Sound;
    match s.phase
    case Snapshot =>
    case Refresh(_) =>
    case Probe => NoteKeeps(cap, s);
  }

  lemma ReactKeeps(cap: Capability, cfg: Config, s: State, t: Instant)
    requires Integrity(cap) && Wf(cap, s) && Inv(cap, s)
    ensures Inv(cap, React(cap, cfg, s, t))
  {
    hide Integrity, Sound, OnPoll, OnAct, OnCheck, OnRecoverAct, OnRecoverCheck, OnParkPop, OnParkTake, OnScan;
    match s.phase
    case Starting => OpeningKeeps(cap, cfg, s, t);
    case Requires(_) => OpeningKeeps(cap, cfg, s, t);
    case Snapshot => SensingKeeps(cap, cfg, s, t);
    case Refresh(_) => SensingKeeps(cap, cfg, s, t);
    case Probe => SensingKeeps(cap, cfg, s, t);
    case Poll(acted) => PollKeeps(cap, cfg, s, t, acted);
    case Act => ActKeeps(cap, cfg, s, t);
    case Check => CheckKeeps(cap, cfg, s, t);
    case RecoverAct(c, k, r) => RecoverActKeeps(cap, cfg, s, t, c, k, r);
    case RecoverCheck(c, k, r) => RecoverCheckKeeps(cap, cfg, s, t, c, k, r);
    case Asking(_) => HandoverKeeps(cap, cfg, s, t);
    case Releasing => HandoverKeeps(cap, cfg, s, t);
    case ParkLook(_, _) =>
    case ParkPop(at, ttl) => ParkPopKeeps(cap, s, at, ttl);
    case ParkTake(at, ttl) => ParkTakeKeeps(cap, s, at, ttl);
    case Scan => ScanKeeps(cap, cfg, s, t);
    case Output(_) =>
    case Observe =>
    case Ended(_) =>
  }

  lemma {:induction false} Always(cap: Capability, cfg: Config, inputs: seq<Instant>, states: seq<State>, k: nat)
    requires Integrity(cap) && Behavior(cap, cfg, inputs, states) && k < |states|
    ensures Inv(cap, states[k])
  {
    hide Integrity, Inv, Next, Wf;
    if k == 0 {
      StartsSound(cap, cfg);
    } else {
      Always(cap, cfg, inputs, states, k - 1);
      NextKeeps(cap, cfg, states[k - 1], inputs[k - 1]);
    }
  }

  lemma StartsSound(cap: Capability, cfg: Config)
    ensures Inv(cap, Initial(cap, cfg))
  {
  }

  lemma NextKeeps(cap: Capability, cfg: Config, s: State, t: Instant)
    requires Integrity(cap) && Wf(cap, s) && Inv(cap, s)
    ensures Inv(cap, Next(cap, cfg, s, t))
  {
    hide Integrity, React, Inv, Elapse;
    ElapseKeeps(cap, cfg, s, t);
    ReactKeeps(cap, cfg, Elapse(cfg, s, t), t);
  }

  /** Over every run: after a hazard is raised at step h, whatever recoveries,
      pauses, approvals and handbacks follow, no step at or before h is tried
      again; and only a risky step raises one. */
  lemma NeverRefiresUpToHazard(cap: Capability, cfg: Config, inputs: seq<Instant>, states: seq<State>)
    requires Integrity(cap) && Behavior(cap, cfg, inputs, states)
    ensures var log := Last(states).log;
      && NoRefire(log)
      && (forall e :: e in log && e.HazardRaised? ==> IsRisky(cap, e.index))
      && (forall e, f :: e in log && f in log && e.HazardRaised? && f.HazardRaised? ==> e == f)
  {
    Always(cap, cfg, inputs, states, |states| - 1);
  }
}
