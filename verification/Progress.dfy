/** What moves a run along: every attempt belongs to a visit, every move of the flow
    has its reason on the page, and success was seen. */
module Progress {
  import opened Wrappers
  import opened Artifact
  import opened Escalation
  import opened Protocol

  // ------------------------------------------------- attempts and visits

  /** The latest visit, and whether its action was tried. */
  datatype Visit = NoVisit | Visit(index: nat, tried: bool)

  function Visiting(log: seq<Event>): Visit {
    if log == [] then NoVisit
    else
      match log[|log| - 1]
      case Visited(i) => Visit(i, false)
      case Attempted(i) => (match Visiting(log[..|log| - 1]) case Visit(j, _) => Visit(j, true) case NoVisit => NoVisit)
      case _ => Visiting(log[..|log| - 1])
  }

  /** Every attempt is at the step being visited, and a risky step is tried once a visit. */
  predicate Disciplined(cap: Capability, log: seq<Event>) {
    log == [] || (Disciplined(cap, log[..|log| - 1]) && MayFollow(cap, log[..|log| - 1], log[|log| - 1]))
  }

  predicate MayFollow(cap: Capability, log: seq<Event>, e: Event) {
    e.Attempted? ==>
      Visiting(log).Visit? && Visiting(log).index == e.index
      && (IsRisky(cap, e.index) ==> !Visiting(log).tried)
  }

  /** The action of the visit may still be tried. */
  predicate Untried(phase: Phase) {
    phase.Snapshot? || phase == Refresh(false) || phase == Poll(false) || phase.Act? || phase.Probe?
  }

  predicate Inv(cap: Capability, s: State) {
    && Disciplined(cap, s.log)
    && (Untried(s.phase) ==> Visiting(s.log).Visit? && Visiting(s.log).index == s.index
                             && (IsRisky(cap, s.index) ==> !s.phase.Probe? && !Visiting(s.log).tried))
  }

  lemma Append(cap: Capability, log: seq<Event>, e: Event)
    requires Disciplined(cap, log) && MayFollow(cap, log, e)
    ensures Disciplined(cap, log + [e])
    ensures !e.Visited? && !e.Attempted? ==> Visiting(log + [e]) == Visiting(log)
    ensures e.Visited? ==> Visiting(log + [e]) == Visit(e.index, false)
    ensures e.Attempted? ==> Visiting(log + [e]) == Visit(e.index, true)
  {
    assert (log + [e])[..|log|] == log;
  }

  lemma {:induction false} AppendConsole(cap: Capability, log: seq<Event>, extra: seq<Event>)
    requires Disciplined(cap, log) && forall e :: e in extra ==> e.Console?
    ensures Disciplined(cap, log + extra) && Visiting(log + extra) == Visiting(log)
    decreases |extra|
  {
    hide Disciplined, Visiting;
    if extra == [] {
      assert log + extra == log;
    } else {
      var n := |extra| - 1;
      assert extra[n] in extra;
      AppendConsole(cap, log, extra[..n]);
      Append(cap, log + extra[..n], extra[n]);
      assert log + extra[..n] + [extra[n]] == log + extra;
    }
  }

  lemma ElapseKeeps(cap: Capability, cfg: Config, s: State, t: Instant)
    requires Wf(cap, s) && Inv(cap, s)
    ensures Wf(cap, Elapse(cfg, s, t)) && Inv(cap, Elapse(cfg, s, t)) && Elapse(cfg, s, t).phase == s.phase
  {
    hide Disciplined, Visiting;
    AppendConsole(cap, s.log, Accepted(s.hub, t.calls));
  }

  lemma EscalateKeeps(cap: Capability, cfg: Config, s: State, f: Failed)
    requires Core(cap, s) && Disciplined(cap, s.log)
    ensures Inv(cap, Escalate(cap, cfg, s, f))
  {
    hide Disciplined, Visiting;
  }

  lemma EnterKeeps(cap: Capability, cfg: Config, s: State, index: nat)
    requires Core(cap, s) && Disciplined(cap, s.log) && index <= |cap.steps|
    ensures Inv(cap, EnterAt(cap, cfg, s, index))
  {
    hide Disciplined, Visiting;
    Append(cap, s.log, Visited(index));
  }

  lemma NoteKeeps(cap: Capability, s: State)
    requires Wf(cap, s) && Disciplined(cap, s.log)
    ensures Disciplined(cap, Note(cap, s).0.log) && Note(cap, s).0.index == s.index
  {
    hide Disciplined, Visiting, StepMutations;
    var e := Consequential(s.index, s.mark);
    Append(cap, s.log, e);
    Append(cap, s.log + [e], HazardRaised(s.index));
  }

  lemma NoteFailedKeeps(cap: Capability, cfg: Config, s: State)
    requires Wf(cap, s) && Disciplined(cap, s.log)
    ensures Inv(cap, NoteFailed(cap, cfg, s))
  {
    hide Disciplined, Inv, Note, Escalate;
    NoteKeeps(cap, s);
    var (s1, noted) := Note(cap, s);
    EscalateKeeps(cap, cfg, s1, Failed(StepId(cap, s.index), noted, noted));
  }

  lemma RecoverKeeps(cap: Capability, cfg: Config, s: State, c: nat, acted: bool)
    requires Integrity(cap) && Wf(cap, s) && Disciplined(cap, s.log) && c < |cap.conditions|
      && cap.conditions[c].classify.Recoverable?
    ensures Inv(cap, Recover(cap, cfg, s, c, acted))
  {
    hide Integrity, Disciplined, Visiting, StepMutations, Escalate;
    var cond := cap.conditions[c];
    var s1 := s.(fires := s.fires[cond.id := Fires(s, cond.id) + 1]);
    var s2 := Logged(s1, Consequential(s.index, s.mark));
    var at := StepId(cap, s.index);
    Append(cap, s.log, Consequential(s.index, s.mark));
    EscalateKeeps(cap, cfg, s1, PlainFailure(at));
    EscalateKeeps(cap, cfg, s1, Failed(at, false, false));
    EscalateKeeps(cap, cfg, s2, Failed(at, true, true));
  }

  lemma PollKeeps(cap: Capability, cfg: Config, s: State, t: Instant, acted: bool)
    requires Integrity(cap) && Wf(cap, s) && Inv(cap, s) && s.phase == Poll(acted)
    ensures Inv(cap, OnPoll(cap, cfg, s, t, acted))
  {
    hide Integrity, Disciplined, Visiting, FirstHit, Recover, NoteFailed, Escalate;
    EscalateKeeps(cap, cfg, s, PlainFailure(StepId(cap, s.index)));
    EscalateKeeps(cap, cfg, s, PlainFailure(None));
    NoteFailedKeeps(cap, cfg, s);
    var hit := FirstHit(cap, s.index, Suppressed(cap, s), t.matching, 0);
    if hit.Some? && cap.conditions[hit.value].classify.Recoverable? {
      RecoverKeeps(cap, cfg, s, hit.value, acted);
    }
  }

  lemma ActKeeps(cap: Capability, cfg: Config, s: State, t: Instant)
    requires Wf(cap, s) && Inv(cap, s) && s.phase.Act?
    ensures Inv(cap, OnAct(cap, cfg, s, t))
  {
    hide Disciplined, Visiting, NoteFailed, Note;
    Append(cap, s.log, Attempted(s.index));
    var s1 := Logged(s, Attempted(s.index));
    NoteKeeps(cap, s1);
    NoteFailedKeeps(cap, cfg, s1);
  }

  lemma ProbeKeeps(cap: Capability, s: State, t: Instant)
    requires Wf(cap, s) && Inv(cap, s) && s.phase.Probe?
    ensures Inv(cap, OnProbe(cap, s, t))
  {
    hide Disciplined, Visiting, Note;
    NoteKeeps(cap, s);
  }

  lemma CheckKeeps(cap: Capability, cfg: Config, s: State, t: Instant)
    requires Wf(cap, s) && Inv(cap, s) && s.phase.Check?
    ensures Inv(cap, OnCheck(cap, cfg, s, t))
  {
    hide Disciplined, Visiting, EnterAt;
    if s.index < |cap.steps| {
      EnterKeeps(cap, cfg, s.(kept := s.stale), s.index + 1);
    }
  }

  lemma OpeningKeeps(cap: Capability, cfg: Config, s: State, t: Instant)
    requires Integrity(cap) && Wf(cap, s) && Inv(cap, s) && (s.phase.Starting? || s.phase.Requires?)
    ensures Inv(cap, React(cap, cfg, s, t))
  {
    hide Integrity, Disciplined, Visiting;
    EnterKeeps(cap, cfg, s, s.index);
    EnterKeeps(cap, cfg, s.(deadline := s.now + cfg.requiresBudget), s.index);
  }

  lemma RecoveryKeeps(cap: Capability, cfg: Config, s: State, t: Instant)
    requires Integrity(cap) && Wf(cap, s) && Inv(cap, s) && (s.phase.RecoverAct? || s.phase.RecoverCheck?)
    ensures Inv(cap, React(cap, cfg, s, t))
  {
    hide Integrity, Disciplined, Visiting, Escalate, EnterAt;
    var failed := PlainFailure(Some(cap.conditions[s.phase.c].classify.recovery[s.phase.k].id));
    match s.phase
    case RecoverAct(c, k, r) =>
      Append(cap, s.log, RecoveryAttempted(c, k));
      EscalateKeeps(cap, cfg, Logged(s, RecoveryAttempted(c, k)), failed);
    case RecoverCheck(c, k, r) =>
      EnterKeeps(cap, cfg, s.(recoveries := s.recoveries + 1), r);
      EscalateKeeps(cap, cfg, s, failed);
  }

  lemma ParkTakeKeeps(cap: Capability, s: State, at: Option<string>, ttl: int)
    requires Wf(cap, s) && Inv(cap, s) && s.phase == ParkTake(at, ttl)
    ensures Inv(cap, OnParkTake(cap, s, at, ttl))
  {
    hide Disciplined, Visiting, Finish;
    var e := Consumed(s.hub.decision, s.hub.code);
    var s1 := s.(hub := s.hub.(decision := NoDecision));
    FinishEnds(cap, s1, PlainFailure(None));
    FinishEnds(cap, Logged(s1, e), PlainFailure(at));
    Append(cap, s.log, e);
  }

  lemma HandoverKeeps(cap: Capability, cfg: Config, s: State, t: Instant)
    requires Integrity(cap) && Wf(cap, s) && Inv(cap, s) && (s.phase.Asking? || s.phase.Releasing?)
    ensures Inv(cap, React(cap, cfg, s, t))
  {
    hide Integrity, Disciplined, Visiting;
    Append(cap, s.log, ParkedEvent);
    Append(cap, s.log, Released);
  }

  lemma ParkKeeps(cap: Capability, cfg: Config, s: State, t: Instant)
    requires Integrity(cap) && Wf(cap, s) && Inv(cap, s) && (s.phase.ParkPop? || s.phase.Scan?)
    ensures Inv(cap, React(cap, cfg, s, t))
  {
    hide Integrity, Disciplined, Visiting, EnterAt;
    match s.phase
    case ParkPop(_, _) =>
      if s.hub.commands != [] {
        Append(cap, s.log, Commanded(s.hub.commands[0]));
      }
    case Scan =>
      var to := ResumeScan(cap, s, t);
      if to.Some? {
        EnterKeeps(cap, cfg, s, to.value);
      }
  }

  lemma SensingKeeps(cap: Capability, cfg: Config, s: State, t: Instant)
    requires Integrity(cap) && Wf(cap, s) && Inv(cap, s)
    requires s.phase.Snapshot? || s.phase.Refresh? || s.phase.ParkLook? || s.phase.Output? || s.phase.Observe?
    ensures Inv(cap, React(cap, cfg, s, t))
  {
    hide Integrity, Disciplined, Visiting;
  }

  lemma NextKeeps(cap: Capability, cfg: Config, s: State, t: Instant)
    requires Integrity(cap) && Wf(cap, s) && Inv(cap, s)
    ensures Inv(cap, Next(cap, cfg, s, t))
  {
    hide Integrity, Inv, Elapse, OnPoll, OnAct, OnCheck, OnParkTake, OnProbe;
    if !s.phase.Ended? {
      ElapseKeeps(cap, cfg, s, t);
      var e := Elapse(cfg, s, t);
      match e.phase
      case Poll(acted) => PollKeeps(cap, cfg, e, t, acted);
      case Act => ActKeeps(cap, cfg, e, t);
      case Probe => ProbeKeeps(cap, e, t);
      case Check => CheckKeeps(cap, cfg, e, t);
      case Starting => OpeningKeeps(cap, cfg, e, t);
      case Requires(_) => OpeningKeeps(cap, cfg, e, t);
      case RecoverAct(_, _, _) => RecoveryKeeps(cap, cfg, e, t);
      case RecoverCheck(_, _, _) => RecoveryKeeps(cap, cfg, e, t);
      case ParkPop(_, _) => ParkKeeps(cap, cfg, e, t);
      case ParkTake(at, ttl) => ParkTakeKeeps(cap, e, at, ttl);
      case Scan => ParkKeeps(cap, cfg, e, t);
      case Asking(_) => HandoverKeeps(cap, cfg, e, t);
      case Releasing => HandoverKeeps(cap, cfg, e, t);
      case _ => SensingKeeps(cap, cfg, e, t);
    }
  }

  lemma {:induction false} Always(cap: Capability, cfg: Config, inputs: seq<Instant>, states: seq<State>, k: nat)
    requires Integrity(cap) && Behavior(cap, cfg, inputs, states) && k < |states|
    ensures Inv(cap, states[k])
  {
    hide Integrity, Inv, Next, Wf;
    if k == 0 {
      assert Inv(cap, Initial(cap, cfg)) by { Starts(cap, cfg); }
    } else {
      Always(cap, cfg, inputs, states, k - 1);
      NextKeeps(cap, cfg, states[k - 1], inputs[k - 1]);
    }
  }

  lemma Starts(cap: Capability, cfg: Config)
    ensures Inv(cap, Initial(cap, cfg))
  {
  }

  lemma {:induction false} DisciplinedAt(cap: Capability, log: seq<Event>, k: nat)
    requires Disciplined(cap, log) && k < |log|
    ensures MayFollow(cap, log[..k], log[k])
  {
    var n := |log| - 1;
    if k < n {
      DisciplinedAt(cap, log[..n], k);
      assert log[..n][..k] == log[..k];
    }
  }

  /** Over every run: an action is only ever tried at the step being visited, and a
      risky one at most once a visit, whatever timeouts and probes say. */
  lemma RiskyStepsActOnceAVisit(cap: Capability, cfg: Config, inputs: seq<Instant>, states: seq<State>, k: nat)
    requires Integrity(cap) && Behavior(cap, cfg, inputs, states)
    requires k < |Last(states).log| && Last(states).log[k].Attempted?
    ensures var log := Last(states).log; var visit := Visiting(log[..k]);
      visit.Visit? && visit.index == log[k].index && (IsRisky(cap, log[k].index) ==> !visit.tried)
  {
    hide Integrity, Next, Wf;
    Always(cap, cfg, inputs, states, |states| - 1);
    DisciplinedAt(cap, Last(states).log, k);
  }

  // ---------------------------------------------------------------- moves

  /** Why the flow may stand at another index one instant later: the step's
      postconditions were seen, a recovery was completed, or a handed-back page
      showed the checkpoint or the furthest completed step. */
  predicate Justified(cap: Capability, s: State, t: Instant, r: State) {
    || (s.phase.Check? && s.index < |cap.steps| && s.index in t.posts && r.index == s.index + 1)
    || (s.phase.RecoverCheck? && t.recovered && r.index == s.phase.resumeAt)
    || (s.phase.Scan? && r.index == |cap.steps| && t.checkpoint)
    || (s.phase.Scan? && r.index > 0 && r.index - 1 in t.posts
        && forall i :: r.index <= i < |cap.steps| ==> i !in t.posts)
  }

  /** No step is passed over without its reason. */
  lemma MovesAreJustified(cap: Capability, cfg: Config, inputs: seq<Instant>, states: seq<State>, k: nat)
    requires Integrity(cap) && Behavior(cap, cfg, inputs, states) && k < |inputs|
    requires states[k + 1].index != states[k].index
    ensures Justified(cap, states[k], inputs[k], states[k + 1])
  {
    hide Integrity, Next, Wf;
    MoveIsJustified(cap, cfg, states[k], inputs[k]);
  }

  lemma MoveIsJustified(cap: Capability, cfg: Config, s: State, t: Instant)
    requires Integrity(cap) && Wf(cap, s) && Next(cap, cfg, s, t).index != s.index
    ensures Justified(cap, s, t, Next(cap, cfg, s, t))
  {
    hide Integrity, Elapse, OnPoll, OnAct, OnProbe;
    ElapseFrame(cap, cfg, s, t);
    var e := Elapse(cfg, s, t);
    if s.phase.Poll? {
      PollStays(cap, cfg, e, t, s.phase.acted);
    }
    ActStays(cap, cfg, e, t);
  }

  lemma PollStays(cap: Capability, cfg: Config, s: State, t: Instant, acted: bool)
    requires Integrity(cap) && Wf(cap, s) && s.phase == Poll(acted)
    ensures OnPoll(cap, cfg, s, t, acted).index == s.index
  {
    hide Integrity, FirstHit, Mutations, Armed;
  }

  lemma ActStays(cap: Capability, cfg: Config, s: State, t: Instant)
    requires Integrity(cap) && Wf(cap, s)
    ensures s.phase.Act? ==> OnAct(cap, cfg, s, t).index == s.index
    ensures s.phase.Probe? ==> OnProbe(cap, s, t).index == s.index
  {
    hide Integrity, Mutations;
  }

  // --------------------------------------------------------------- success

  predicate Passed(phase: Phase) {
    phase.Output? || phase.Observe? || (phase.Ended? && phase.result.Success?)
  }

  /** The checkpoint was seen holding at instant `m`, and the flow has not moved since. */
  ghost predicate CheckpointSeen(cap: Capability, inputs: seq<Instant>, states: seq<State>, k: nat, m: nat) {
    && m < k < |states| && m < |inputs|
    && states[m].phase.Check? && states[m].index == |cap.steps| && inputs[m].checkpoint
    && (forall j :: m < j <= k ==> Passed(states[j].phase))
  }

  lemma PassingMeans(cap: Capability, cfg: Config, s: State, t: Instant)
    requires Integrity(cap) && Wf(cap, s) && Passed(Next(cap, cfg, s, t).phase)
    ensures Passed(s.phase) || (s.phase.Check? && s.index == |cap.steps| && t.checkpoint)
  {
    hide Integrity, Wf, Elapse, OnPoll, OnAct, OnProbe, OnSnapshot, OnRefresh, Frontier;
    ElapseFrame(cap, cfg, s, t);
    var e := Elapse(cfg, s, t);
    if s.phase.Poll? {
      PollNeverPasses(cap, cfg, e, t, s.phase.acted);
    }
    ActNeverPasses(cap, cfg, e, t);
    SensingNeverPasses(cap, e, t);
  }

  lemma NoteFailedNeverPasses(cap: Capability, cfg: Config, s: State)
    requires Wf(cap, s)
    ensures !Passed(NoteFailed(cap, cfg, s).phase)
  {
    hide Mutations;
  }

  lemma RecoverNeverPasses(cap: Capability, cfg: Config, s: State, c: nat, acted: bool)
    requires Integrity(cap) && Wf(cap, s) && c < |cap.conditions| && cap.conditions[c].classify.Recoverable?
    ensures !Passed(Recover(cap, cfg, s, c, acted).phase)
  {
    hide Integrity, Mutations;
  }

  lemma PollNeverPasses(cap: Capability, cfg: Config, s: State, t: Instant, acted: bool)
    requires Integrity(cap) && Wf(cap, s) && s.phase == Poll(acted)
    ensures !Passed(OnPoll(cap, cfg, s, t, acted).phase)
  {
    hide Integrity, FirstHit, Recover, NoteFailed, Armed;
    NoteFailedNeverPasses(cap, cfg, s);
    var hit := FirstHit(cap, s.index, Suppressed(cap, s), t.matching, 0);
    if hit.Some? && cap.conditions[hit.value].classify.Recoverable? {
      RecoverNeverPasses(cap, cfg, s, hit.value, acted);
    }
  }

  lemma ActNeverPasses(cap: Capability, cfg: Config, s: State, t: Instant)
    requires Integrity(cap) && Wf(cap, s)
    ensures s.phase.Act? ==> !Passed(OnAct(cap, cfg, s, t).phase)
    ensures s.phase.Probe? ==> !Passed(OnProbe(cap, s, t).phase)
  {
    hide Integrity, Mutations;
  }

  lemma SensingNeverPasses(cap: Capability, s: State, t: Instant)
    requires Integrity(cap) && Wf(cap, s)
    ensures s.phase.Snapshot? ==> !Passed(OnSnapshot(cap, s, t).phase)
    ensures s.phase.Refresh? ==> !Passed(OnRefresh(cap, s, t, s.phase.acted).phase)
  {
    hide Integrity, Armed;
  }

  lemma {:induction false} PassedWasSeen(cap: Capability, cfg: Config, inputs: seq<Instant>, states: seq<State>, k: nat)
    returns (m: nat)
    requires Integrity(cap) && Behavior(cap, cfg, inputs, states) && k < |states| && Passed(states[k].phase)
    ensures CheckpointSeen(cap, inputs, states, k, m)
  {
    hide Integrity, Next, Wf;
    assert k > 0;
    PassingMeans(cap, cfg, states[k - 1], inputs[k - 1]);
    if Passed(states[k - 1].phase) {
      m := PassedWasSeen(cap, cfg, inputs, states, k - 1);
    } else {
      m := k - 1;
    }
  }

  /** A run that reports success saw its checkpoint hold, and did nothing but read
      afterwards. */
  lemma SuccessWasSeen(cap: Capability, cfg: Config, inputs: seq<Instant>, states: seq<State>) returns (m: nat)
    requires Integrity(cap) && Behavior(cap, cfg, inputs, states) && Last(states).phase == Ended(Success)
    ensures CheckpointSeen(cap, inputs, states, |inputs|, m)
  {
    hide Integrity, Next, Wf;
    m := PassedWasSeen(cap, cfg, inputs, states, |inputs|);
  }
}
