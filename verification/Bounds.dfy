/** The step loop makes a bounded number of visits, whatever the page and the
    operator do. */
module Bounds {
  import opened Wrappers
  import opened Artifact
  import opened Escalation
  import opened Protocol

  function Visits(log: seq<Event>): nat {
    if log == [] then 0
    else Visits(log[..|log| - 1]) + if log[|log| - 1].Visited? then 1 else 0
  }

  lemma VisitsAppend(log: seq<Event>, e: Event)
    ensures Visits(log + [e]) == Visits(log) + if e.Visited? then 1 else 0
  {
    assert (log + [e])[..|log|] == log;
  }

  lemma {:induction false} VisitsAppendAll(log: seq<Event>, extra: seq<Event>)
    requires forall e :: e in extra ==> !e.Visited?
    ensures Visits(log + extra) == Visits(log)
  {
    if extra == [] {
      assert log + extra == log;
    } else {
      var n := |extra| - 1;
      assert extra[n] in extra;
      VisitsAppendAll(log, extra[..n]);
      VisitsAppend(log + extra[..n], extra[n]);
      assert log + extra == log + extra[..n] + [extra[n]];
    }
  }

  /** How many more times condition `c` may be recovered from. */
  function Slack(cap: Capability, fires: map<string, nat>, c: nat): nat
    requires c < |cap.conditions|
  {
    var f := if cap.conditions[c].id in fires then fires[cap.conditions[c].id] else 0;
    if cap.conditions[c].classify.Recoverable? && f < cap.conditions[c].maxFires then cap.conditions[c].maxFires - f
        else 0
  }

  function TotalSlack(cap: Capability, fires: map<string, nat>, n: nat): nat
    requires n <= |cap.conditions|
  {
    if n == 0 then 0 else TotalSlack(cap, fires, n - 1) + Slack(cap, fires, n - 1)
  }

  /** Sum of the fire caps of the recoverable conditions. */
  function Caps(cap: Capability, n: nat): nat
    requires n <= |cap.conditions|
  {
    if n == 0 then 0
    else Caps(cap, n - 1) + if cap.conditions[n - 1].classify.Recoverable? then cap.conditions[n - 1].maxFires else 0
  }

  lemma {:induction false} NoFiresYet(cap: Capability, n: nat)
    requires n <= |cap.conditions|
    ensures TotalSlack(cap, map[], n) == Caps(cap, n)
  {
    if n > 0 {
      NoFiresYet(cap, n - 1);
    }
  }

  /** Counting a fire never gives slack back, and uses one up if the cap allowed it. */
  lemma {:induction false} FireUsesSlack(cap: Capability, fires: map<string, nat>, c: nat, n: nat)
    requires c < |cap.conditions| && n <= |cap.conditions| && cap.conditions[c].classify.Recoverable?
    ensures var id := cap.conditions[c].id; var count := (if id in fires then fires[id] else 0) + 1;
      var later := fires[id := count];
      && TotalSlack(cap, later, n) <= TotalSlack(cap, fires, n)
      && (c < n && count <= cap.conditions[c].maxFires ==> TotalSlack(cap, later, n) < TotalSlack(cap, fires, n))
  {
    if n > 0 {
      FireUsesSlack(cap, fires, c, n - 1);
    }
  }

  /** `rounds` full passes over the steps and the checkpoint. */
  function Rounds(rounds: nat, total: nat): nat {
    if rounds == 0 then 0 else Rounds(rounds - 1, total) + total
  }

  lemma OneMoreRound(rounds: nat, total: nat)
    ensures Rounds(rounds + 1, total) == Rounds(rounds, total) + total
  {
  }

  lemma {:induction false} RoundsIsProduct(rounds: nat, total: nat)
    ensures Rounds(rounds, total) == rounds * total
  {
    if rounds > 0 {
      RoundsIsProduct(rounds - 1, total);
    }
  }

  lemma {:induction false} RoundsMonotone(a: nat, b: nat, total: nat)
    requires a <= b
    ensures Rounds(a, total) <= Rounds(b, total)
  {
    if a < b {
      RoundsMonotone(a, b - 1, total);
    }
  }

  function MaxEscalations(cfg: Config): nat {
    if cfg.attended.Some? then cfg.attended.value.maxEscalations else 0
  }

  predicate Recovering(phase: Phase) {
    phase.RecoverAct? || phase.RecoverCheck?
  }

  /** Visits so far, against the jumps spent: an escalation is paid for when the
      engine parks, a recovery when it resumes. */
  predicate Within(total: nat, visits: nat, spent: nat, index: nat, phase: Phase) {
    if phase.Starting? || phase.Requires? then visits == 0
    else if Parking(phase) then spent > 0 && visits <= Rounds(spent - 1, total) + index + 1
    else if phase.Ended? then visits <= Rounds(spent + 1, total)
    else visits <= Rounds(spent, total) + index + 1
  }

  predicate Paid(cap: Capability, cfg: Config, fires: map<string, nat>, escalations: nat, recoveries: nat, phase: Phase)
  {
    && escalations <= MaxEscalations(cfg)
    && recoveries + (if Recovering(phase) then 1 else 0)
      + TotalSlack(cap, fires, |cap.conditions|) <= Caps(cap, |cap.conditions|)
  }

  predicate Inv(cap: Capability, cfg: Config, s: State) {
    && Within(|cap.steps| + 1, Visits(s.log), s.escalations + s.recoveries, s.index, s.phase)
    && Paid(cap, cfg, s.fires, s.escalations, s.recoveries, s.phase)
  }

  /** In the middle of a transition of the loop. */
  predicate Mid(cap: Capability, cfg: Config, s: State) {
    && s.index <= |cap.steps|
    && Visits(s.log) <= Rounds(s.escalations + s.recoveries, |cap.steps| + 1) + s.index + 1
    && Paid(cap, cfg, s.fires, s.escalations, s.recoveries, Scan)
  }

  lemma ElapseKeeps(cap: Capability, cfg: Config, s: State, t: Instant)
    requires Wf(cap, s) && Inv(cap, cfg, s)
    ensures var e := Elapse(cfg, s, t); Inv(cap, cfg, e) && Wf(cap, e) && e.phase == s.phase
  {
    hide Visits, Rounds, TotalSlack;
    VisitsAppendAll(s.log, Accepted(s.hub, t.calls));
  }

  lemma EscalateKeeps(cap: Capability, cfg: Config, s: State, f: Failed)
    requires Mid(cap, cfg, s)
    ensures Inv(cap, cfg, Escalate(cap, cfg, s, f)) && Inv(cap, cfg, Crash(cap, s)) && Inv(cap, cfg, Finish(cap, s, f))
  {
    hide Visits, TotalSlack, Rounds, Finish;
    FinishEnds(cap, s, f);
    EndKeeps(cap, cfg, s);
  }

  lemma EnterKeeps(cap: Capability, cfg: Config, s: State, index: nat)
    requires Core(cap, s) && index <= |cap.steps|
    requires Visits(s.log) <= Rounds(s.escalations + s.recoveries, |cap.steps| + 1) + index
    requires Paid(cap, cfg, s.fires, s.escalations, s.recoveries, Scan)
    ensures Inv(cap, cfg, EnterAt(cap, cfg, s, index))
  {
    hide Visits, TotalSlack, Rounds;
    VisitsAppend(s.log, Visited(index));
  }

  lemma NoteKeeps(cap: Capability, cfg: Config, s: State)
    requires Wf(cap, s) && Mid(cap, cfg, s)
    ensures Mid(cap, cfg, Note(cap, s).0)
  {
    hide Visits, TotalSlack, Rounds, Mutations;
    VisitsAppend(s.log, Consequential(s.index, s.mark));
    VisitsAppend(s.log + [Consequential(s.index, s.mark)], HazardRaised(s.index));
  }

  lemma NoteFailedKeeps(cap: Capability, cfg: Config, s: State)
    requires Wf(cap, s) && Mid(cap, cfg, s)
    ensures Inv(cap, cfg, NoteFailed(cap, cfg, s))
  {
    hide Mid, Inv, Note, Escalate;
    NoteKeeps(cap, cfg, s);
    var (s1, noted) := Note(cap, s);
    EscalateKeeps(cap, cfg, s1, Failed(StepId(cap, s.index), noted, noted));
  }

  /** The loop stays where it is, in phase `p`. */
  lemma Stays(cap: Capability, cfg: Config, s: State, p: Phase)
    requires Mid(cap, cfg, s) && (p.Refresh? || p.Poll? || p.Act? || p.Probe? || p.Check? || p.Output? || p.Observe?)
    ensures Inv(cap, cfg, s.(phase := p))
  {
    hide Visits, TotalSlack, Rounds;
  }

  lemma Standing(cap: Capability, cfg: Config, s: State)
    requires Inv(cap, cfg, s) && s.index <= |cap.steps|
    requires
      || s.phase.Snapshot? || s.phase.Refresh? || s.phase.Poll? || s.phase.Act? || s.phase.Probe?
      || s.phase.Check? || s.phase.Output? || s.phase.Observe?
    ensures Mid(cap, cfg, s)
  {
    hide Visits, TotalSlack, Rounds;
  }

  function Fired(s: State, id: string): State {
    s.(fires := s.fires[id := Fires(s, id) + 1])
  }

  lemma FiredKeeps(cap: Capability, cfg: Config, s: State, c: nat, r: nat)
    requires Mid(cap, cfg, s) && c < |cap.conditions| && cap.conditions[c].classify.Recoverable?
    ensures var s1 := Fired(s, cap.conditions[c].id);
      && Mid(cap, cfg, s1)
      && (Fires(s, cap.conditions[c].id) + 1 <= cap.conditions[c].maxFires ==>
        Inv(cap, cfg, s1.(phase := RecoverAct(c, 0, r))))
  {
    hide Visits, TotalSlack, Rounds;
    FireUsesSlack(cap, s.fires, c, |cap.conditions|);
  }

  lemma LoggedKeeps(cap: Capability, cfg: Config, s: State, e: Event)
    requires Mid(cap, cfg, s) && !e.Visited?
    ensures Mid(cap, cfg, Logged(s, e))
  {
    hide Visits, TotalSlack, Rounds;
    VisitsAppend(s.log, e);
  }

  lemma RecoverKeeps(cap: Capability, cfg: Config, s: State, c: nat, acted: bool)
    requires Integrity(cap) && Wf(cap, s) && Mid(cap, cfg, s) && c < |cap.conditions|
      && cap.conditions[c].classify.Recoverable?
    ensures Inv(cap, cfg, Recover(cap, cfg, s, c, acted))
  {
    hide Mid, Inv, Mutations, Escalate;
    var cond := cap.conditions[c];
    var s1 := Fired(s, cond.id);
    var at := StepId(cap, s.index);
    var e := Consequential(s.index, s.mark);
    FiredKeeps(cap, cfg, s, c, ResumePoint(cap, s.index, cond.classify.resume));
    LoggedKeeps(cap, cfg, s1, e);
    EscalateKeeps(cap, cfg, s1, PlainFailure(at));
    EscalateKeeps(cap, cfg, Logged(s1, e), Failed(at, true, true));
  }

  lemma PollKeeps(cap: Capability, cfg: Config, s: State, t: Instant, acted: bool)
    requires Integrity(cap) && Wf(cap, s) && Inv(cap, cfg, s) && s.phase == Poll(acted)
    ensures Inv(cap, cfg, OnPoll(cap, cfg, s, t, acted))
  {
    hide Integrity, Mid, Inv, FirstHit, Recover, NoteFailed, Escalate, Crash;
    Standing(cap, cfg, s);
    EscalateKeeps(cap, cfg, s, PlainFailure(StepId(cap, s.index)));
    EscalateKeeps(cap, cfg, s, PlainFailure(None));
    NoteFailedKeeps(cap, cfg, s);
    Stays(cap, cfg, s, Act);
    Stays(cap, cfg, s, Check);
    EndKeeps(cap, cfg, s);
    var hit := FirstHit(cap, s.index, Suppressed(cap, s), t.matching, 0);
    if hit.Some? && cap.conditions[hit.value].classify.Recoverable? {
      RecoverKeeps(cap, cfg, s, hit.value, acted);
    }
  }

  /** Ending the run where it stands, whatever the result. */
  lemma EndKeeps(cap: Capability, cfg: Config, s: State)
    requires Mid(cap, cfg, s)
    ensures forall r :: Inv(cap, cfg, End(s, r))
  {
    hide Visits, TotalSlack;
    assert Rounds(s.escalations + s.recoveries + 1, |cap.steps| + 1)
        == Rounds(s.escalations + s.recoveries, |cap.steps| + 1) + |cap.steps| + 1;
  }

  lemma ActKeeps(cap: Capability, cfg: Config, s: State, t: Instant)
    requires Wf(cap, s) && Inv(cap, cfg, s) && s.phase.Act?
    ensures Inv(cap, cfg, OnAct(cap, cfg, s, t))
  {
    hide Mid, Inv, NoteFailed, Note;
    Standing(cap, cfg, s);
    var s1 := Logged(s, Attempted(s.index));
    LoggedKeeps(cap, cfg, s, Attempted(s.index));
    NoteKeeps(cap, cfg, s1);
    NoteFailedKeeps(cap, cfg, s1);
    Stays(cap, cfg, Note(cap, s1).0, Check);
    Stays(cap, cfg, s1, Probe);
    Stays(cap, cfg, s1, Refresh(false));
    Stays(cap, cfg, s1, Poll(false));
  }

  lemma SensingKeeps(cap: Capability, cfg: Config, s: State, t: Instant)
    requires Integrity(cap) && Wf(cap, s) && Inv(cap, cfg, s)
    requires s.phase.Snapshot? || s.phase.Refresh? || s.phase.Probe? || s.phase.Check?
    ensures Inv(cap, cfg, React(cap, cfg, s, t))
  {
    hide Integrity, Visits, TotalSlack, Rounds, Note, EnterAt;
    Standing(cap, cfg, s);
    if s.phase.Probe? {
      NoteKeeps(cap, cfg, s);
      Stays(cap, cfg, Note(cap, s).0, Check);
    }
    if s.phase.Check? {
      EndKeeps(cap, cfg, s);
      if s.index < |cap.steps| {
        EnterKeeps(cap, cfg, s.(kept := s.stale), s.index + 1);
      }
    }
  }

  lemma ClosingKeeps(cap: Capability, cfg: Config, s: State, t: Instant)
    requires Integrity(cap) && Wf(cap, s) && Inv(cap, cfg, s) && (s.phase.Output? || s.phase.Observe?)
    ensures Inv(cap, cfg, React(cap, cfg, s, t))
  {
    hide Integrity, Inv, Mid, Finish;
    Standing(cap, cfg, s);
    EndKeeps(cap, cfg, s);
    EscalateKeeps(cap, cfg, s, PlainFailure(None));
    Stays(cap, cfg, s, Observe);
    match s.phase
    case Output(k) => Stays(cap, cfg, s, Output(k + 1));
    case Observe =>
  }

  lemma OpeningKeeps(cap: Capability, cfg: Config, s: State, t: Instant)
    requires Integrity(cap) && Wf(cap, s) && Inv(cap, cfg, s) && (s.phase.Starting? || s.phase.Requires?)
    ensures Inv(cap, cfg, React(cap, cfg, s, t))
  {
    hide Integrity, Visits, TotalSlack, Rounds, Crash, Enter;
    var s1 := s.(deadline := s.now + cfg.requiresBudget);
    CrashKeeps(cap, cfg, s);
    HeadKeeps(cap, cfg, s);
    HeadKeeps(cap, cfg, s1);
    EndKeeps(cap, cfg, s);
    EndKeeps(cap, cfg, s1);
  }

  lemma CrashKeeps(cap: Capability, cfg: Config, s: State)
    requires Wf(cap, s) && Inv(cap, cfg, s) && (s.phase.Starting? || s.phase.Requires?)
    ensures Inv(cap, cfg, Crash(cap, s))
  {
    hide Visits, TotalSlack, Rounds;
  }

  /** The first visit of the run. */
  lemma HeadKeeps(cap: Capability, cfg: Config, s: State)
    requires Wf(cap, s) && Inv(cap, cfg, s) && (s.phase.Starting? || s.phase.Requires?)
    ensures Inv(cap, cfg, Enter(cap, cfg, s))
  {
    hide Visits, TotalSlack, Rounds;
    EnterKeeps(cap, cfg, s, s.index);
    assert s.(index := s.index) == s;
  }

  lemma RecoveryStanding(cap: Capability, cfg: Config, s: State)
    requires Wf(cap, s) && Inv(cap, cfg, s) && Recovering(s.phase)
    ensures Mid(cap, cfg, s)
    ensures Inv(cap, cfg, EnterAt(cap, cfg, s.(recoveries := s.recoveries + 1), s.phase.resumeAt))
  {
    hide Visits, TotalSlack, EnterAt;
    var s1 := s.(recoveries := s.recoveries + 1);
    assert Rounds(s.escalations + s1.recoveries, |cap.steps| + 1)
        == Rounds(s.escalations + s.recoveries, |cap.steps| + 1) + |cap.steps| + 1;
    EnterKeeps(cap, cfg, s1, s.phase.resumeAt);
  }

  lemma RecoveryActs(cap: Capability, cfg: Config, s: State, c: nat, k: nat, r: nat)
    requires Inv(cap, cfg, s) && s.phase == RecoverAct(c, k, r)
    ensures forall d :: Inv(cap, cfg,
      Logged(s, RecoveryAttempted(c, k)).(phase := RecoverCheck(c, k, r), deadline := d))
  {
    hide Visits, TotalSlack, Rounds;
    VisitsAppend(s.log, RecoveryAttempted(c, k));
  }

  lemma RecoveryKeeps(cap: Capability, cfg: Config, s: State, t: Instant)
    requires Integrity(cap) && Wf(cap, s) && Inv(cap, cfg, s) && Recovering(s.phase)
    ensures Inv(cap, cfg, React(cap, cfg, s, t))
  {
    hide Integrity, Visits, TotalSlack, Rounds, Mid, EnterAt, Escalate, Crash;
    var f := PlainFailure(Some(cap.conditions[s.phase.c].classify.recovery[s.phase.k].id));
    RecoveryStanding(cap, cfg, s);
    EscalateKeeps(cap, cfg, s, f);
    match s.phase
    case RecoverAct(c, k, r) =>
      RecoveryActs(cap, cfg, s, c, k, r);
      LoggedKeeps(cap, cfg, s, RecoveryAttempted(c, k));
      EscalateKeeps(cap, cfg, Logged(s, RecoveryAttempted(c, k)), f);
    case RecoverCheck(c, k, r) =>
  }

  /** A parked run that ends, ends within what it has paid for. */
  lemma ParkedEnds(cap: Capability, cfg: Config, s: State)
    requires s.index <= |cap.steps| && Inv(cap, cfg, s) && Parking(s.phase)
    ensures forall r :: Inv(cap, cfg, End(s, r))
    ensures Visits(s.log) <= Rounds(s.escalations + s.recoveries, |cap.steps| + 1)
  {
    hide Visits, TotalSlack, Caps, Rounds;
    OneMoreRound(s.escalations + s.recoveries - 1, |cap.steps| + 1);
    OneMoreRound(s.escalations + s.recoveries, |cap.steps| + 1);
  }

  lemma ParkKeeps(cap: Capability, cfg: Config, s: State, t: Instant)
    requires Integrity(cap) && Wf(cap, s) && Inv(cap, cfg, s)
      && (s.phase.ParkLook? || s.phase.ParkPop? || s.phase.Scan?)
    ensures Inv(cap, cfg, React(cap, cfg, s, t))
  {
    hide Integrity, Visits, TotalSlack, Rounds, EnterAt;
    ParkedEnds(cap, cfg, s);
    if s.phase.ParkPop? && s.hub.commands != [] {
      VisitsAppend(s.log, Commanded(s.hub.commands[0]));
    }
    if s.phase.Scan? && ResumeScan(cap, s, t).Some? {
      EnterKeeps(cap, cfg, s, ResumeScan(cap, s, t).value);
    }
  }

  /** While the run is parked, neither the hub nor an event that is no visit counts. */
  lemma ParkedStays(cap: Capability, cfg: Config, s: State, h: Hub, p: Phase, e: Event)
    requires s.index <= |cap.steps| && Inv(cap, cfg, s) && Parking(s.phase) && Parking(p) && !e.Visited?
    ensures Inv(cap, cfg, s.(hub := h, phase := p)) && Inv(cap, cfg, Logged(s.(hub := h, phase := p), e))
  {
    hide Visits, TotalSlack, Rounds;
    VisitsAppend(s.log, e);
  }

  lemma ParkTakeKeeps(cap: Capability, cfg: Config, s: State, at: Option<string>, ttl: int)
    requires Wf(cap, s) && Inv(cap, cfg, s) && s.phase == ParkTake(at, ttl)
    ensures Inv(cap, cfg, OnParkTake(cap, s, at, ttl))
  {
    hide Inv, Finish;
    var h := s.hub.(decision := NoDecision);
    var e := Consumed(s.hub.decision, s.hub.code);
    var s1 := s.(hub := h);
    var s2 := Logged(s1, e);
    ParkedStays(cap, cfg, s, h, ParkLook(at, ttl), e);
    ParkedStays(cap, cfg, s, h, s.phase, e);
    assert s.(hub := h, phase := s.phase) == s1;
    ParkedStays(cap, cfg, s2, h, Releasing, e);
    ParkedEnds(cap, cfg, s1);
    ParkedEnds(cap, cfg, s2);
    FinishEnds(cap, s1, PlainFailure(None));
    FinishEnds(cap, s2, PlainFailure(at));
  }

  lemma HandoverKeeps(cap: Capability, cfg: Config, s: State, t: Instant)
    requires Integrity(cap) && Wf(cap, s) && Inv(cap, cfg, s) && (s.phase.Asking? || s.phase.Releasing?)
    ensures Inv(cap, cfg, React(cap, cfg, s, t))
  {
    hide Integrity, Inv;
    match s.phase
    case Asking(at) => ParkedStays(cap, cfg, s, Parked(s.hub), OnAsking(cfg, s, at).phase, ParkedEvent);
    case Releasing => ParkedStays(cap, cfg, s, Resumed(s.hub), Scan, Released);
  }

  lemma NextKeeps(cap: Capability, cfg: Config, s: State, t: Instant)
    requires Integrity(cap) && Wf(cap, s) && Inv(cap, cfg, s)
    ensures Inv(cap, cfg, Next(cap, cfg, s, t))
  {
    hide Integrity, Inv, Elapse, OnPoll, OnAct, OnParkTake;
    if !s.phase.Ended? {
      ElapseKeeps(cap, cfg, s, t);
      var e := Elapse(cfg, s, t);
      match e.phase
      case Poll(acted) => PollKeeps(cap, cfg, e, t, acted);
      case Act => ActKeeps(cap, cfg, e, t);
      case ParkTake(at, ttl) => ParkTakeKeeps(cap, cfg, e, at, ttl);
      case Starting => OpeningKeeps(cap, cfg, e, t);
      case Requires(_) => OpeningKeeps(cap, cfg, e, t);
      case RecoverAct(_, _, _) => RecoveryKeeps(cap, cfg, e, t);
      case RecoverCheck(_, _, _) => RecoveryKeeps(cap, cfg, e, t);
      case ParkLook(_, _) => ParkKeeps(cap, cfg, e, t);
      case ParkPop(_, _) => ParkKeeps(cap, cfg, e, t);
      case Scan => ParkKeeps(cap, cfg, e, t);
      case Output(_) => ClosingKeeps(cap, cfg, e, t);
      case Observe => ClosingKeeps(cap, cfg, e, t);
      case Asking(_) => HandoverKeeps(cap, cfg, e, t);
      case Releasing => HandoverKeeps(cap, cfg, e, t);
      case _ => SensingKeeps(cap, cfg, e, t);
    }
  }

  lemma Starts(cap: Capability, cfg: Config)
    ensures Inv(cap, cfg, Initial(cap, cfg))
  {
    NoFiresYet(cap, |cap.conditions|);
  }

  lemma {:induction false} Always(cap: Capability, cfg: Config, inputs: seq<Instant>, states: seq<State>, k: nat)
    requires Integrity(cap) && Behavior(cap, cfg, inputs, states) && k < |states|
    ensures Inv(cap, cfg, states[k])
  {
    hide Integrity, Next, Wf, Inv;
    if k == 0 {
      Starts(cap, cfg);
    } else {
      Always(cap, cfg, inputs, states, k - 1);
      NextKeeps(cap, cfg, states[k - 1], inputs[k - 1]);
    }
  }

  /** Over every run, the loop visits a step or the checkpoint at most
      (1 + escalation budget + sum of the fire caps) times (steps + 1). */
  lemma VisitsAreBounded(cap: Capability, cfg: Config, inputs: seq<Instant>, states: seq<State>)
    requires Integrity(cap) && Behavior(cap, cfg, inputs, states)
    ensures Visits(Last(states).log) <= (1 + MaxEscalations(cfg) + Caps(cap, |cap.conditions|)) * (|cap.steps| + 1)
  {
    hide Integrity, Next, Wf, Visits, TotalSlack, Rounds, Caps;
    Always(cap, cfg, inputs, states, |states| - 1);
    var most := MaxEscalations(cfg) + Caps(cap, |cap.conditions|);
    assert Last(states).index <= |cap.steps| by { WfIndex(cap, Last(states)); }
    WithinMost(cap, cfg, Last(states), most);
    RoundsIsProduct(most + 1, |cap.steps| + 1);
  }

  lemma WfIndex(cap: Capability, s: State)
    requires Wf(cap, s)
    ensures s.index <= |cap.steps|
  {
  }

  lemma WithinMost(cap: Capability, cfg: Config, s: State, most: nat)
    requires Inv(cap, cfg, s) && s.index <= |cap.steps| && most == MaxEscalations(cfg) + Caps(cap, |cap.conditions|)
    ensures Visits(s.log) <= Rounds(most + 1, |cap.steps| + 1)
  {
    hide Visits, TotalSlack, Caps;
    var spent := s.escalations + s.recoveries;
    var total := |cap.steps| + 1;
    assert Visits(s.log) <= Rounds(spent + 1, total) by {
      if spent > 0 { RoundsMonotone(spent - 1, spent, total); }
    }
    RoundsMonotone(spent + 1, most + 1, total);
  }
}
