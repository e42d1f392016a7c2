/** Stale state never answers: a business outcome raised while a step is visited
    comes from a condition seen not matching since that visit began. */
module Freshness {
  import opened Wrappers
  import opened Artifact
  import opened Escalation
  import opened Protocol

  /** Between a step's snapshot and the end of its visit. */
  predicate Visiting(phase: Phase) {
    phase.Refresh? || phase.Poll? || phase.Act? || phase.Probe? || phase.Check?
  }

  predicate UniqueConditionIds(cap: Capability) {
    forall c, d :: 0 <= c < d < |cap.conditions| ==> cap.conditions[c].id != cap.conditions[d].id
  }

  /** An armed outcome that is not suppressed has been seen gone; with distinct
      condition ids, suppression is exactly the outcomes matching at every sample
      so far. */
  predicate Current(cap: Capability, s: State)
    requires Integrity(cap)
  {
    var armed := ArmedAnswers(cap, s.index);
    && (forall c :: c in armed && cap.conditions[c].id !in s.stale ==> c in s.gone)
    && (UniqueConditionIds(cap) ==> s.stale == MatchingIds(cap, armed - s.gone))
  }

  predicate Inv(cap: Capability, s: State)
    requires Integrity(cap)
  {
    && (Visiting(s.phase) && s.index < |cap.steps| ==> Current(cap, s))
    && (Recognized(s.phase) && s.index < |cap.steps| ==>
          IsAnswer(cap, s.phase.result.evidence.condition) && Armed(cap, s.phase.result.evidence.condition, s.index)
          && s.phase.result.evidence.condition in s.gone)
  }

  /** The run ended because a recognizer fired. */
  predicate Recognized(phase: Phase) {
    phase.Ended? && phase.result.BusinessOutcome? && phase.result.evidence.ByCondition?
  }

  lemma SnapshotKeeps(cap: Capability, s: State, t: Instant)
    requires Integrity(cap) && Wf(cap, s) && s.phase.Snapshot?
    ensures Current(cap, OnSnapshot(cap, s, t))
  {
    hide Integrity, Armed;
    var armed := ArmedAnswers(cap, s.index);
    var r := OnSnapshot(cap, s, t);
    assert r.index == s.index && r.gone == armed - t.matching && r.stale == MatchingIds(cap, armed * t.matching);
    assert armed - r.gone == armed * t.matching;
    forall c | c in armed && cap.conditions[c].id !in r.stale ensures c in r.gone {
      assert c in t.matching ==> c in armed * t.matching;
    }
  }

  lemma RefreshKeeps(cap: Capability, s: State, t: Instant, acted: bool)
    requires Integrity(cap) && Wf(cap, s) && s.phase == Refresh(acted) && s.index < |cap.steps| && Current(cap, s)
    ensures Current(cap, OnRefresh(cap, s, t, acted))
  {
    hide Integrity, Armed;
    var armed := ArmedAnswers(cap, s.index);
    var looked := ArmedNamed(cap, s.index, s.stale);
    var still := MatchingIds(cap, looked * t.matching);
    var r := OnRefresh(cap, s, t, acted);
    assert r.stale == s.stale * still && r.gone == s.gone + (looked - t.matching);
    forall c | c in armed && cap.conditions[c].id !in r.stale ensures c in r.gone {
      if cap.conditions[c].id in s.stale {
        assert c in looked;
        assert c in t.matching ==> c in looked * t.matching;
      }
    }
    if UniqueConditionIds(cap) {
      RefreshExact(cap, s, t, acted);
    }
  }

  lemma RefreshExact(cap: Capability, s: State, t: Instant, acted: bool)
    requires Integrity(cap) && Wf(cap, s) && s.phase == Refresh(acted) && s.index < |cap.steps|
    requires UniqueConditionIds(cap) && Current(cap, s)
    ensures var r := OnRefresh(cap, s, t, acted); r.stale == MatchingIds(cap, ArmedAnswers(cap, s.index) - r.gone)
  {
    hide Integrity, Armed;
    var armed := ArmedAnswers(cap, s.index);
    var looked := ArmedNamed(cap, s.index, s.stale);
    var r := OnRefresh(cap, s, t, acted);
    var right := MatchingIds(cap, armed - r.gone);
    forall id | id in r.stale ensures id in right {
      var c :| c in armed - s.gone && cap.conditions[c].id == id;
      var d :| d in looked * t.matching && cap.conditions[d].id == id;
      assert c == d;
      assert c in armed - r.gone;
    }
    forall id | id in right ensures id in r.stale {
      var c :| c in armed - r.gone && cap.conditions[c].id == id;
      assert c in armed - s.gone;
      assert id in s.stale;
      assert c in looked * t.matching;
    }
  }

  /** `r` has left the visit, if any, or begun a new one. */
  predicate Left(cap: Capability, s: State, r: State) {
    if r.phase.Snapshot? then r.gone == {}
    else r.gone == s.gone && (Visiting(r.phase) ==> r.index == |cap.steps|) && !Recognized(r.phase)
  }

  lemma EscalateLeaves(cap: Capability, cfg: Config, s: State, f: Failed)
    ensures Left(cap, s, Escalate(cap, cfg, s, f)) && Left(cap, s, Crash(cap, s)) && Left(cap, s, Finish(cap, s, f))
  {
  }

  lemma EnterLeaves(cap: Capability, cfg: Config, s: State, index: nat)
    requires Core(cap, s) && index <= |cap.steps|
    ensures Left(cap, s, EnterAt(cap, cfg, s, index))
  {
  }

  lemma NoteFailedLeaves(cap: Capability, cfg: Config, s: State)
    requires Wf(cap, s)
    ensures Left(cap, s, NoteFailed(cap, cfg, s))
  {
    hide Mutations, Escalate;
    var (s1, noted) := Note(cap, s);
    EscalateLeaves(cap, cfg, s1, Failed(StepId(cap, s.index), noted, noted));
  }

  lemma RecoverLeaves(cap: Capability, cfg: Config, s: State, c: nat, acted: bool)
    requires Integrity(cap) && Wf(cap, s) && c < |cap.conditions| && cap.conditions[c].classify.Recoverable?
    ensures Left(cap, s, Recover(cap, cfg, s, c, acted))
  {
    hide Mutations, Escalate;
    var cond := cap.conditions[c];
    var s1 := s.(fires := s.fires[cond.id := Fires(s, cond.id) + 1]);
    EscalateLeaves(cap, cfg, s1, PlainFailure(StepId(cap, s.index)));
    EscalateLeaves(cap, cfg, Logged(s1, Consequential(s.index, s.mark)), Failed(StepId(cap, s.index), true, true));
    EscalateLeaves(cap, cfg, s1, Failed(StepId(cap, s.index), false, false));
  }

  /** A poll leaves the visit, stays in it untouched, or ends the run with what
      it recognized. */
  lemma PollMoves(cap: Capability, cfg: Config, s: State, t: Instant, acted: bool)
    requires Integrity(cap) && Wf(cap, s) && s.phase == Poll(acted)
    ensures var r := OnPoll(cap, cfg, s, t, acted);
      || Left(cap, s, r)
      || (Visiting(r.phase) && r == s.(phase := r.phase))
      || (Recognized(r.phase) && r == s.(phase := r.phase)
          && FirstHit(cap, s.index, Suppressed(cap, s), t.matching, 0) == Some(r.phase.result.evidence.condition)
          && IsAnswer(cap, r.phase.result.evidence.condition))
  {
    hide Integrity, FirstHit, Recover, NoteFailed, Escalate, Crash, Left;
    EscalateLeaves(cap, cfg, s, PlainFailure(StepId(cap, s.index)));
    EscalateLeaves(cap, cfg, s, PlainFailure(None));
    NoteFailedLeaves(cap, cfg, s);
    var hit := FirstHit(cap, s.index, Suppressed(cap, s), t.matching, 0);
    if hit.Some? && !IsAnswer(cap, hit.value) {
      RecoverLeaves(cap, cfg, s, hit.value, acted);
    }
  }

  lemma ActMoves(cap: Capability, cfg: Config, s: State, t: Instant)
    requires Integrity(cap) && Wf(cap, s) && (s.phase.Act? || s.phase.Probe? || s.phase.Check?)
    ensures var r := React(cap, cfg, s, t);
      Left(cap, s, r) || (Visiting(r.phase) && r.index == s.index && r.stale == s.stale && r.gone == s.gone)
  {
    hide Integrity, Mutations, NoteFailed, EnterAt, Left;
    match s.phase
    case Act => NoteFailedLeaves(cap, cfg, Logged(s, Attempted(s.index))); LeftLogged(cap, cfg, s, t);
    case Probe =>
    case Check => CheckMoves(cap, cfg, s, t);
  }

  lemma LeftLogged(cap: Capability, cfg: Config, s: State, t: Instant)
    requires Wf(cap, s) && s.phase.Act?
    ensures var s1 := Logged(s, Attempted(s.index));
      Left(cap, s1, NoteFailed(cap, cfg, s1)) ==> Left(cap, s, NoteFailed(cap, cfg, s1))
  {
    hide NoteFailed;
  }

  lemma CheckMoves(cap: Capability, cfg: Config, s: State, t: Instant)
    requires Wf(cap, s) && s.phase.Check?
    ensures var r := OnCheck(cap, cfg, s, t);
      Left(cap, s, r) || (Visiting(r.phase) && r.index == s.index && r.stale == s.stale && r.gone == s.gone)
  {
    hide EnterAt;
    if s.index < |cap.steps| {
      EnterLeaves(cap, cfg, s.(kept := s.stale), s.index + 1);
    }
  }

  lemma OpeningMoves(cap: Capability, cfg: Config, s: State, t: Instant)
    requires Integrity(cap) && Wf(cap, s) && (s.phase.Starting? || s.phase.Requires?)
    ensures Left(cap, s, React(cap, cfg, s, t))
  {
    hide Integrity, EnterAt, Escalate;
    match s.phase
    case Starting =>
      EnterLeaves(cap, cfg, s.(deadline := s.now + cfg.requiresBudget), s.index);
      EnterIsEnterAt(cap, cfg, s.(deadline := s.now + cfg.requiresBudget));
    case Requires(_) =>
      EnterLeaves(cap, cfg, s, s.index);
      EnterIsEnterAt(cap, cfg, s);
  }

  lemma RecoveryMoves(cap: Capability, cfg: Config, s: State, t: Instant)
    requires Integrity(cap) && Wf(cap, s) && (s.phase.RecoverAct? || s.phase.RecoverCheck?)
    ensures Left(cap, s, React(cap, cfg, s, t))
  {
    hide Integrity, EnterAt, Escalate, Crash;
    var failed := PlainFailure(Some(cap.conditions[s.phase.c].classify.recovery[s.phase.k].id));
    EscalateLeaves(cap, cfg, s, failed);
    match s.phase
    case RecoverAct(c, k, r) => EscalateLeaves(cap, cfg, Logged(s, RecoveryAttempted(c, k)), failed);
    case RecoverCheck(c, k, r) => EnterLeaves(cap, cfg, s.(recoveries := s.recoveries + 1), r);
  }

  lemma ParkMoves(cap: Capability, cfg: Config, s: State, t: Instant)
    requires Integrity(cap) && Wf(cap, s) && Parking(s.phase)
    ensures Left(cap, s, React(cap, cfg, s, t))
  {
    hide Integrity, EnterAt, Escalate, Frontier, Finish;
    if s.phase.ParkTake? {
      var s1 := s.(hub := s.hub.(decision := NoDecision));
      FinishLeaves(cap, s1, PlainFailure(None));
      FinishLeaves(cap, Logged(s1, Consumed(s.hub.decision, s.hub.code)), PlainFailure(s.phase.at));
    }
    if s.phase.Scan? {
      FinishLeaves(cap, s, PlainFailure(ScanFailedAt(cap, s, t)));
      if ResumeScan(cap, s, t).Some? { EnterLeaves(cap, cfg, s, ResumeScan(cap, s, t).value); }
    }
  }

  lemma FinishLeaves(cap: Capability, s: State, f: Failed)
    ensures var r := Finish(cap, s, f); r.gone == s.gone && r.phase.Ended? && !Recognized(r.phase)
  {
  }

  lemma OutsideMoves(cap: Capability, cfg: Config, s: State, t: Instant)
    requires Integrity(cap) && Wf(cap, s) && !Visiting(s.phase) && !s.phase.Snapshot? && !s.phase.Ended?
    ensures Left(cap, s, React(cap, cfg, s, t))
  {
    hide Integrity, EnterAt, Escalate, Frontier, Finish, Left;
    match s.phase
    case Starting => OpeningMoves(cap, cfg, s, t);
    case Requires(_) => OpeningMoves(cap, cfg, s, t);
    case RecoverAct(_, _, _) => RecoveryMoves(cap, cfg, s, t);
    case RecoverCheck(_, _, _) => RecoveryMoves(cap, cfg, s, t);
    case Asking(_) => ParkMoves(cap, cfg, s, t);
    case Releasing => ParkMoves(cap, cfg, s, t);
    case ParkLook(_, _) => ParkMoves(cap, cfg, s, t);
    case ParkPop(_, _) => ParkMoves(cap, cfg, s, t);
    case ParkTake(_, _) => ParkMoves(cap, cfg, s, t);
    case Scan => ParkMoves(cap, cfg, s, t);
    case Output(_) => ClosingMoves(cap, cfg, s, t);
    case Observe => ClosingMoves(cap, cfg, s, t);
  }

  lemma ClosingMoves(cap: Capability, cfg: Config, s: State, t: Instant)
    requires Integrity(cap) && Wf(cap, s) && (s.phase.Output? || s.phase.Observe?)
    ensures Left(cap, s, React(cap, cfg, s, t))
  {
    hide Integrity, Finish;
    FinishLeaves(cap, s, PlainFailure(None));
  }

  lemma OutsideKeeps(cap: Capability, cfg: Config, s: State, t: Instant)
    requires Integrity(cap) && Wf(cap, s) && !Visiting(s.phase) && !s.phase.Snapshot? && !s.phase.Ended?
    ensures Inv(cap, React(cap, cfg, s, t))
  {
    hide Integrity, React, Left, Inv;
    OutsideMoves(cap, cfg, s, t);
    LeftKeeps(cap, s, React(cap, cfg, s, t));
  }

  lemma EnterIsEnterAt(cap: Capability, cfg: Config, s: State)
    requires Core(cap, s)
    ensures Enter(cap, cfg, s) == EnterAt(cap, cfg, s, s.index)
  {
  }

  lemma LeftKeeps(cap: Capability, s: State, r: State)
    requires Integrity(cap) && Left(cap, s, r)
    ensures Inv(cap, r)
  {
    hide Integrity, Current, Armed;
  }

  lemma PollKeeps(cap: Capability, cfg: Config, s: State, t: Instant, acted: bool)
    requires Integrity(cap) && Wf(cap, s) && Inv(cap, s) && s.phase == Poll(acted)
    ensures Inv(cap, OnPoll(cap, cfg, s, t, acted))
  {
    hide Integrity, FirstHit, UniqueConditionIds, Armed, OnPoll, Left, MatchingIds;
    PollMoves(cap, cfg, s, t, acted);
    var r := OnPoll(cap, cfg, s, t, acted);
    if Left(cap, s, r) {
      LeftKeeps(cap, s, r);
    } else if Recognized(r.phase) && s.index < |cap.steps| {
      var c := r.phase.result.evidence.condition;
      assert c in ArmedAnswers(cap, s.index);
    }
  }

  lemma ActKeeps(cap: Capability, cfg: Config, s: State, t: Instant)
    requires Integrity(cap) && Wf(cap, s) && Inv(cap, s)
    requires s.phase.Act? || s.phase.Probe? || s.phase.Check?
    ensures Inv(cap, React(cap, cfg, s, t))
  {
    hide Integrity, UniqueConditionIds, Armed, React, Left, MatchingIds;
    ActMoves(cap, cfg, s, t);
    if Left(cap, s, React(cap, cfg, s, t)) {
      LeftKeeps(cap, s, React(cap, cfg, s, t));
    }
  }

  lemma ElapseKeeps(cap: Capability, cfg: Config, s: State, t: Instant)
    requires Integrity(cap) && Wf(cap, s) && Inv(cap, s)
    ensures var e := Elapse(cfg, s, t); Inv(cap, e) && Wf(cap, e) && e.phase == s.phase
  {
    hide Integrity, MatchingIds, Armed, UniqueConditionIds, HubAfter, Accepted;
  }

  lemma NextKeeps(cap: Capability, cfg: Config, s: State, t: Instant)
    requires Integrity(cap) && Wf(cap, s) && Inv(cap, s)
    ensures Inv(cap, Next(cap, cfg, s, t))
  {
    hide Integrity, Current, Elapse, OnPoll, OnAct, OnCheck, OnProbe, OnSnapshot, OnRefresh;
    if !s.phase.Ended? {
      ElapseKeeps(cap, cfg, s, t);
      var e := Elapse(cfg, s, t);
      match e.phase
      case Snapshot => SnapshotKeeps(cap, e, t); SnapshotStays(cap, e, t);
      case Refresh(acted) =>
        RefreshStays(cap, e, t, acted);
        if e.index < |cap.steps| { RefreshKeeps(cap, e, t, acted); }
      case Poll(acted) => PollKeeps(cap, cfg, e, t, acted);
      case Act => ActKeeps(cap, cfg, e, t);
      case Probe => ActKeeps(cap, cfg, e, t);
      case Check => ActKeeps(cap, cfg, e, t);
      case _ => OutsideKeeps(cap, cfg, e, t);
    }
  }

  lemma SnapshotStays(cap: Capability, s: State, t: Instant)
    requires Integrity(cap) && Wf(cap, s) && s.phase.Snapshot?
    ensures Visiting(OnSnapshot(cap, s, t).phase)
  {
    hide Integrity;
  }

  lemma RefreshStays(cap: Capability, s: State, t: Instant, acted: bool)
    requires Integrity(cap) && Wf(cap, s) && s.phase == Refresh(acted)
    ensures Visiting(OnRefresh(cap, s, t, acted).phase) && OnRefresh(cap, s, t, acted).index == s.index
  {
    hide Integrity;
  }

  lemma {:induction false} Always(cap: Capability, cfg: Config, inputs: seq<Instant>, states: seq<State>, k: nat)
    requires Integrity(cap) && Behavior(cap, cfg, inputs, states) && k < |states|
    ensures Inv(cap, states[k])
  {
    hide Integrity, Next, Wf, Current;
    if k > 0 {
      Always(cap, cfg, inputs, states, k - 1);
      NextKeeps(cap, cfg, states[k - 1], inputs[k - 1]);
    }
  }

  /** The engine evaluates condition `c`: at a step's snapshot every armed outcome,
      at a refresh whatever is still suppressed. */
  predicate Looked(cap: Capability, s: State, c: nat)
    requires Integrity(cap)
  {
    || (s.phase.Snapshot? && c in ArmedAnswers(cap, s.index))
    || (s.phase.Refresh? && s.index < |cap.steps| && c in ArmedNamed(cap, s.index, s.stale))
  }

  /** What one instant does to the conditions seen gone. */
  lemma NextGone(cap: Capability, cfg: Config, s: State, t: Instant, c: nat)
    requires Integrity(cap) && Wf(cap, s) && !Next(cap, cfg, s, t).phase.Snapshot?
    ensures c in Next(cap, cfg, s, t).gone
      <==> (c in s.gone && !s.phase.Snapshot?) || (Looked(cap, s, c) && c !in t.matching)
  {
    hide Integrity, Elapse, OnPoll, OnAct, OnCheck, OnProbe, Armed, ArmedAnswers, ArmedNamed, Left;
    if !s.phase.Ended? {
      var e := Elapse(cfg, s, t);
      ElapseFrame(cap, cfg, s, t);
      assert Next(cap, cfg, s, t) == React(cap, cfg, e, t);
      GoneMoves(cap, cfg, e, t, c);
    }
  }

  lemma GoneMoves(cap: Capability, cfg: Config, s: State, t: Instant, c: nat)
    requires Integrity(cap) && Wf(cap, s) && !s.phase.Ended? && !React(cap, cfg, s, t).phase.Snapshot?
    ensures c in React(cap, cfg, s, t).gone
      <==> (c in s.gone && !s.phase.Snapshot?) || (Looked(cap, s, c) && c !in t.matching)
  {
    hide Integrity, OnPoll, OnAct, OnCheck, OnProbe, Armed, ArmedAnswers, ArmedNamed;
    match s.phase
    case Snapshot =>
    case Refresh(_) =>
    case Poll(acted) => PollMoves(cap, cfg, s, t, acted);
    case Act => ActMoves(cap, cfg, s, t);
    case Probe => ActMoves(cap, cfg, s, t);
    case Check => ActMoves(cap, cfg, s, t);
    case _ => OutsideMoves(cap, cfg, s, t);
  }

  /** `m` is an instant of the visit that state `k` belongs to, at which the engine
      looked at condition `c` and it was not matching. */
  ghost predicate SeenGone(cap: Capability, inputs: seq<Instant>, states: seq<State>, k: nat, c: nat, m: nat)
    requires Integrity(cap) && k < |states| && |states| == |inputs| + 1
  {
    && m < k
    && Looked(cap, states[m], c) && c !in inputs[m].matching
    && (forall i :: m < i <= k ==> !states[i].phase.Snapshot?)
  }

  lemma {:induction false} GoneWasSeen(cap: Capability, cfg: Config, inputs: seq<Instant>, states: seq<State>, k: nat,
                                       c: nat)
    returns (m: nat)
    requires Integrity(cap) && Behavior(cap, cfg, inputs, states) && k < |states|
    requires c in states[k].gone && !states[k].phase.Snapshot?
    ensures SeenGone(cap, inputs, states, k, c, m)
  {
    hide Integrity, Next, Wf, Looked;
    assert k > 0;
    NextGone(cap, cfg, states[k - 1], inputs[k - 1], c);
    assert states[k] == Next(cap, cfg, states[k - 1], inputs[k - 1]);
    if Looked(cap, states[k - 1], c) && c !in inputs[k - 1].matching {
      m := k - 1;
    } else {
      m := GoneWasSeen(cap, cfg, inputs, states, k - 1, c);
    }
  }

  lemma {:induction false} SeenIsGone(cap: Capability, cfg: Config, inputs: seq<Instant>, states: seq<State>, k: nat,
                                      c: nat, m: nat)
    requires Integrity(cap) && Behavior(cap, cfg, inputs, states) && k < |states|
      && SeenGone(cap, inputs, states, k, c, m)
    ensures c in states[k].gone
    decreases k
  {
    hide Integrity, Next, Wf, Looked;
    assert states[k] == Next(cap, cfg, states[k - 1], inputs[k - 1]);
    NextGone(cap, cfg, states[k - 1], inputs[k - 1], c);
    if m < k - 1 {
      SeenIsGone(cap, cfg, inputs, states, k - 1, c, m);
    }
  }

  /** Over every run: an outcome a recognizer raises while step `index` is visited
      comes from a condition armed at that step that the engine looked at, and saw
      not matching, at some instant since the visit began. */
  lemma OutcomesAreFresh(cap: Capability, cfg: Config, inputs: seq<Instant>, states: seq<State>, c: nat)
    returns (m: nat)
    requires Integrity(cap) && Behavior(cap, cfg, inputs, states)
    requires var s := Last(states);
      s.phase.Ended? && s.phase.result.BusinessOutcome? && s.phase.result.evidence == ByCondition(c)
          && s.index < |cap.steps|
    ensures IsAnswer(cap, c) && Armed(cap, c, Last(states).index)
    ensures SeenGone(cap, inputs, states, |inputs|, c, m)
  {
    hide Integrity, Next, Wf, Armed, Looked;
    Always(cap, cfg, inputs, states, |inputs|);
    m := GoneWasSeen(cap, cfg, inputs, states, |inputs|, c);
  }

  /** Over every run, with distinct condition ids: a step visit suppresses an armed
      outcome exactly as long as no look at it in this visit found it not matching. */
  lemma SuppressionIsExact(cap: Capability, cfg: Config, inputs: seq<Instant>, states: seq<State>, k: nat, c: nat)
    requires Integrity(cap) && Behavior(cap, cfg, inputs, states) && k < |states| && UniqueConditionIds(cap)
    requires Visiting(states[k].phase) && states[k].index < |cap.steps| && c in ArmedAnswers(cap, states[k].index)
    ensures cap.conditions[c].id in states[k].stale <==> !exists m :: SeenGone(cap, inputs, states, k, c, m)
  {
    hide Integrity, Next, Wf, Armed, Looked, SeenGone;
    Always(cap, cfg, inputs, states, k);
    var s := states[k];
    if cap.conditions[c].id in s.stale {
      var d :| d in ArmedAnswers(cap, s.index) - s.gone && cap.conditions[d].id == cap.conditions[c].id;
      assert c == d;
      forall m: nat ensures !SeenGone(cap, inputs, states, k, c, m) {
        if SeenGone(cap, inputs, states, k, c, m) {
          SeenIsGone(cap, cfg, inputs, states, k, c, m);
        }
      }
    } else {
      var m := GoneWasSeen(cap, cfg, inputs, states, k, c);
    }
  }
}
