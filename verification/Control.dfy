/** The control token under every interleaving of console and engine: one owner
    at every moment. */
module Control {
  import opened Wrappers
  import opened Artifact
  import opened Escalation
  import opened Protocol

  /** Who holds the session, and what happened since the last park, read off the
      event log alone. */
  datatype Token = Token(holder: ControlState, taken: bool, decided: set<(Decision, string)>)

  function After(k: Token, e: Event): Token {
    match e
    case ParkedEvent => Token(Paused, false, {})
    case Released => k.(holder := Automation)
    case Console(Take(_)) => k.(holder := Human, taken := true)
    case Console(Decide(d, _, _, code)) => k.(decided := k.decided + {(d, code)})
    case _ => k
  }

  function Replay(log: seq<Event>): Token {
    if log == [] then Token(Automation, false, {}) else After(Replay(log[..|log| - 1]), log[|log| - 1])
  }

  predicate NeedsHuman(d: Decision) { d == Handback || d == Abort || d == Resolve }

  /** What may happen next when the token reads `k`. */
  predicate Allowed(k: Token, e: Event) {
    match e
    case Attempted(_) => k.holder == Automation
    case RecoveryAttempted(_, _) => k.holder == Automation
    case Visited(_) => k.holder == Automation
    case ParkedEvent => k.holder == Automation
    case Commanded(_) => k.holder == Human
    case Console(call) => Accepts(k.holder, call)
    case Consumed(d, code) =>
      k.holder != Automation && d != NoDecision && (d, code) in k.decided && (NeedsHuman(d) ==> k.taken)
    case Released => k.holder != Automation
    case _ => true
  }

  /** Every event was allowed by the events before it. */
  predicate Orderly(log: seq<Event>) {
    log == [] || (Orderly(log[..|log| - 1]) && Allowed(Replay(log[..|log| - 1]), log[|log| - 1]))
  }

  lemma Append(log: seq<Event>, e: Event)
    requires Orderly(log) && Allowed(Replay(log), e)
    ensures Orderly(log + [e]) && Replay(log + [e]) == After(Replay(log), e)
  {
    assert (log + [e])[..|log|] == log;
  }

  /** The hub's fields say what the log says. */
  predicate Linked(h: Hub, k: Token) {
    && h.state == k.holder
    && (k.holder == Human ==> k.taken)
    && (h.decision != NoDecision ==> (h.decision, h.code) in k.decided && (NeedsHuman(h.decision) ==> k.taken))
  }

  /** Where the engine stands and who holds the session. */
  predicate Placed(phase: Phase, holder: ControlState) {
    match phase
    case ParkLook(_, _) => holder != Automation
    case ParkPop(_, _) => holder == Human
    case ParkTake(_, _) => holder != Automation
    case Releasing => holder != Automation
    case Ended(_) => true
    case _ => holder == Automation
  }

  predicate Inv(s: State) {
    Orderly(s.log) && Linked(s.hub, Replay(s.log)) && Placed(s.phase, s.hub.state)
  }

  lemma CallKeeps(h: Hub, log: seq<Event>, c: ConsoleCall)
    requires Orderly(log) && Linked(h, Replay(log)) && Accepts(h.state, c)
    ensures Orderly(log + [Console(c)]) && Linked(Apply(h, c), Replay(log + [Console(c)]))
    ensures h.state == Automation <==> Apply(h, c).state == Automation
    ensures h.state == Human ==> Apply(h, c).state == Human
  {
    hide Orderly, Replay;
    Append(log, Console(c));
  }

  lemma {:induction false} CallsKeep(h: Hub, log: seq<Event>, calls: seq<ConsoleCall>)
    requires Orderly(log) && Linked(h, Replay(log))
    ensures Orderly(log + Accepted(h, calls)) && Linked(HubAfter(h, calls), Replay(log + Accepted(h, calls)))
    ensures h.state == Automation <==> HubAfter(h, calls).state == Automation
    ensures h.state == Human ==> HubAfter(h, calls).state == Human
    decreases |calls|
  {
    hide Orderly, Replay, Linked, Accepts;
    if calls == [] {
      assert log + Accepted(h, calls) == log;
    } else {
      var c := calls[0];
      if Accepts(h.state, c) {
        CallKeeps(h, log, c);
        CallsKeep(Apply(h, c), log + [Console(c)], calls[1..]);
        assert log + Accepted(h, calls) == log + [Console(c)] + Accepted(Apply(h, c), calls[1..]);
      } else {
        CallsKeep(h, log, calls[1..]);
        assert Accepted(h, calls) == Accepted(h, calls[1..]);
      }
    }
  }

  lemma ElapseKeeps(cap: Capability, cfg: Config, s: State, t: Instant)
    requires Wf(cap, s) && Inv(s)
    ensures var e := Elapse(cfg, s, t); Inv(e) && Wf(cap, e) && e.phase == s.phase
  {
    hide Orderly, Replay, Linked;
    CallsKeep(s.hub, s.log, t.calls);
  }

  lemma EscalateKeeps(cap: Capability, cfg: Config, s: State, f: Failed)
    requires Orderly(s.log) && Linked(s.hub, Replay(s.log)) && s.hub.state == Automation
    ensures Inv(Escalate(cap, cfg, s, f)) && Inv(Crash(cap, s)) && Inv(Finish(cap, s, f))
  {
    hide Orderly, Replay;
  }

  lemma EnterKeeps(cap: Capability, cfg: Config, s: State, index: nat)
    requires Core(cap, s) && index <= |cap.steps|
    requires Orderly(s.log) && Linked(s.hub, Replay(s.log)) && s.hub.state == Automation
    ensures Inv(EnterAt(cap, cfg, s, index))
  {
    hide Orderly, Replay;
    Append(s.log, Visited(index));
  }

  lemma NoteKeeps(cap: Capability, s: State)
    requires Wf(cap, s) && Orderly(s.log) && Linked(s.hub, Replay(s.log)) && s.hub.state == Automation
    ensures var r := Note(cap, s).0; Orderly(r.log) && Linked(r.hub, Replay(r.log)) && r.hub == s.hub
  {
    hide Orderly, Replay, Linked, Mutations;
    if Note(cap, s).1 {
      var e := Consequential(s.index, s.mark);
      Append(s.log, e);
      Append(s.log + [e], HazardRaised(s.index));
    }
  }

  lemma NoteFailedKeeps(cap: Capability, cfg: Config, s: State)
    requires Wf(cap, s) && Orderly(s.log) && Linked(s.hub, Replay(s.log)) && s.hub.state == Automation
    ensures Inv(NoteFailed(cap, cfg, s))
  {
    hide Orderly, Replay, Linked, Note, Escalate;
    NoteKeeps(cap, s);
    var (s1, noted) := Note(cap, s);
    EscalateKeeps(cap, cfg, s1, Failed(StepId(cap, s.index), noted, noted));
  }

  lemma RecoverKeeps(cap: Capability, cfg: Config, s: State, c: nat, acted: bool)
    requires Integrity(cap) && Wf(cap, s) && Inv(s) && s.phase == Poll(acted) && c < |cap.conditions|
      && cap.conditions[c].classify.Recoverable?
    ensures Inv(Recover(cap, cfg, s, c, acted))
  {
    hide Orderly, Replay, Linked, Escalate, Mutations;
    var cond := cap.conditions[c];
    var s1 := s.(fires := s.fires[cond.id := Fires(s, cond.id) + 1]);
    var at := StepId(cap, s.index);
    EscalateKeeps(cap, cfg, s1, PlainFailure(at));
    var e := Consequential(s.index, s.mark);
    Append(s.log, e);
    EscalateKeeps(cap, cfg, Logged(s1, e), Failed(at, true, true));
  }

  lemma PollKeeps(cap: Capability, cfg: Config, s: State, t: Instant, acted: bool)
    requires Integrity(cap) && Wf(cap, s) && Inv(s) && s.phase == Poll(acted)
    ensures Inv(OnPoll(cap, cfg, s, t, acted))
  {
    hide Integrity, Orderly, Replay, Linked, FirstHit, Recover, NoteFailed, Escalate, Crash;
    EscalateKeeps(cap, cfg, s, PlainFailure(StepId(cap, s.index)));
    EscalateKeeps(cap, cfg, s, PlainFailure(None));
    NoteFailedKeeps(cap, cfg, s);
    var hit := FirstHit(cap, s.index, Suppressed(cap, s), t.matching, 0);
    if hit.Some? && cap.conditions[hit.value].classify.Recoverable? {
      RecoverKeeps(cap, cfg, s, hit.value, acted);
    }
  }

  lemma ActKeeps(cap: Capability, cfg: Config, s: State, t: Instant)
    requires Wf(cap, s) && Inv(s) && s.phase.Act?
    ensures Inv(OnAct(cap, cfg, s, t))
  {
    hide Orderly, Replay, NoteFailed, Note;
    var s1 := Logged(s, Attempted(s.index));
    Append(s.log, Attempted(s.index));
    NoteKeeps(cap, s1);
    NoteFailedKeeps(cap, cfg, s1);
  }

  lemma SensingKeeps(cap: Capability, cfg: Config, s: State, t: Instant)
    requires Integrity(cap) && Wf(cap, s) && Inv(s)
    requires s.phase.Snapshot? || s.phase.Refresh? || s.phase.Probe? || s.phase.Check? || s.phase.Output?
      || s.phase.Observe?
    ensures Inv(React(cap, cfg, s, t))
  {
    hide Integrity, Orderly, Replay, Linked, Note, EnterAt, Finish;
    EscalateKeeps(cap, cfg, s, PlainFailure(None));
    if s.phase.Probe? {
      NoteKeeps(cap, s);
    }
    if s.phase.Check? && s.index < |cap.steps| {
      EnterKeeps(cap, cfg, s.(kept := s.stale), s.index + 1);
    }
  }

  lemma OpeningKeeps(cap: Capability, cfg: Config, s: State, t: Instant)
    requires Integrity(cap) && Wf(cap, s) && Inv(s) && (s.phase.Starting? || s.phase.Requires?)
    ensures Inv(React(cap, cfg, s, t))
  {
    hide Integrity, Orderly, Replay, Linked;
    EscalateKeeps(cap, cfg, s, PlainFailure(None));
    EnterKeeps(cap, cfg, s.(deadline := s.now + cfg.requiresBudget), s.index);
    EnterKeeps(cap, cfg, s, s.index);
  }

  lemma RecoveryKeeps(cap: Capability, cfg: Config, s: State, t: Instant)
    requires Integrity(cap) && Wf(cap, s) && Inv(s) && (s.phase.RecoverAct? || s.phase.RecoverCheck?)
    ensures Inv(React(cap, cfg, s, t))
  {
    hide Integrity, Orderly, Replay, EnterAt, Escalate, Crash;
    var f := PlainFailure(Some(cap.conditions[s.phase.c].classify.recovery[s.phase.k].id));
    Append(s.log, RecoveryAttempted(s.phase.c, s.phase.k));
    EscalateKeeps(cap, cfg, Logged(s, RecoveryAttempted(s.phase.c, s.phase.k)), f);
    EscalateKeeps(cap, cfg, s, f);
    EnterKeeps(cap, cfg, s.(recoveries := s.recoveries + 1), s.phase.resumeAt);
  }

  lemma ParkKeeps(cap: Capability, cfg: Config, s: State, t: Instant)
    requires Integrity(cap) && Wf(cap, s) && Inv(s)
    requires s.phase.Asking? || s.phase.ParkLook? || s.phase.ParkPop? || s.phase.Releasing?
    ensures Inv(React(cap, cfg, s, t))
  {
    hide Integrity, Orderly, Replay;
    if s.phase.Asking? {
      Append(s.log, ParkedEvent);
    }
    if s.phase.ParkPop? && s.hub.commands != [] {
      Append(s.log, Commanded(s.hub.commands[0]));
    }
    if s.phase.Releasing? {
      Append(s.log, Released);
    }
  }

  lemma ParkTakeKeeps(cap: Capability, s: State, at: Option<string>, ttl: int)
    requires Wf(cap, s) && Inv(s) && s.phase == ParkTake(at, ttl)
    ensures Inv(OnParkTake(cap, s, at, ttl))
  {
    hide Orderly, Replay, Finish, Wf;
    var d := s.hub.decision;
    var s1 := s.(hub := s.hub.(decision := NoDecision));
    FinishEnds(cap, s1, PlainFailure(None));
    if d != NoDecision && !(d == Resolve && s.hub.code !in cap.outcomes) {
      var e := Consumed(d, s.hub.code);
      FinishEnds(cap, Logged(s1, e), PlainFailure(at));
      Append(s.log, e);
    }
  }

  lemma ScanKeeps(cap: Capability, cfg: Config, s: State, t: Instant)
    requires Integrity(cap) && Wf(cap, s) && Inv(s) && s.phase.Scan?
    ensures Inv(OnScan(cap, cfg, s, t))
  {
    hide Integrity, Orderly, Replay, Linked, EnterAt;
    if ResumeScan(cap, s, t).Some? {
      EnterKeeps(cap, cfg, s, ResumeScan(cap, s, t).value);
    }
  }

  lemma NextKeeps(cap: Capability, cfg: Config, s: State, t: Instant)
    requires Integrity(cap) && Wf(cap, s) && Inv(s)
    ensures Inv(Next(cap, cfg, s, t))
  {
    hide Integrity, Inv, Elapse, OnPoll, OnAct, OnParkTake, OnScan;
    if !s.phase.Ended? {
      ElapseKeeps(cap, cfg, s, t);
      var e := Elapse(cfg, s, t);
      match e.phase
      case Poll(acted) => PollKeeps(cap, cfg, e, t, acted);
      case Act => ActKeeps(cap, cfg, e, t);
      case ParkTake(at, ttl) => ParkTakeKeeps(cap, e, at, ttl);
      case Scan => ScanKeeps(cap, cfg, e, t);
      case Starting => OpeningKeeps(cap, cfg, e, t);
      case Requires(_) => OpeningKeeps(cap, cfg, e, t);
      case RecoverAct(_, _, _) => RecoveryKeeps(cap, cfg, e, t);
      case RecoverCheck(_, _, _) => RecoveryKeeps(cap, cfg, e, t);
      case ParkLook(_, _) => ParkKeeps(cap, cfg, e, t);
      case ParkPop(_, _) => ParkKeeps(cap, cfg, e, t);
      case Asking(_) => ParkKeeps(cap, cfg, e, t);
      case Releasing => ParkKeeps(cap, cfg, e, t);
      case _ => SensingKeeps(cap, cfg, e, t);
    }
  }

  /** Over every run and every interleaving of console calls: steps and recoveries
      act only while automation holds the session, commands run only while a human
      does, only the engine takes the session from a human, every decision the
      engine acts on was submitted since it last parked, and an abort, a resolve or
      a handback follows a take in that same intervention. */
  lemma {:induction false} OneOwner(cap: Capability, cfg: Config, inputs: seq<Instant>, states: seq<State>, k: nat)
    requires Integrity(cap) && Behavior(cap, cfg, inputs, states) && k < |states|
    ensures Orderly(states[k].log) && Inv(states[k])
  {
    hide Integrity, Next, Wf, Inv;
    if k == 0 {
      assert Inv(Initial(cap, cfg)) by { Starts(cap, cfg); }
    } else {
      OneOwner(cap, cfg, inputs, states, k - 1);
      NextKeeps(cap, cfg, states[k - 1], inputs[k - 1]);
    }
    InvIsOrderly(states[k]);
  }

  lemma Starts(cap: Capability, cfg: Config)
    ensures Inv(Initial(cap, cfg))
  {
  }

  lemma InvIsOrderly(s: State)
    requires Inv(s)
    ensures Orderly(s.log)
  {
  }

  // ------------------------------------------- what an orderly log guarantees

  lemma {:induction false} OrderlyAt(log: seq<Event>, k: nat)
    requires Orderly(log) && k < |log|
    ensures Orderly(log[..k]) && Allowed(Replay(log[..k]), log[k])
  {
    var n := |log| - 1;
    if k < n {
      OrderlyAt(log[..n], k);
      assert log[..n][..k] == log[..k];
    }
  }

  /** Position of the last park before `k`, when the session is not automation's. */
  lemma {:induction false} LastPark(log: seq<Event>, k: nat) returns (p: nat)
    requires Orderly(log) && k <= |log| && Replay(log[..k]).holder != Automation
    ensures p < k && log[p] == ParkedEvent
    ensures forall i :: p < i < k ==> log[i] != ParkedEvent && log[i] != Released
    ensures forall d :: d in Replay(log[..k]).decided ==> exists i :: p < i < k && Submitted(log[i], d)
    ensures Replay(log[..k]).taken ==> exists i :: p < i < k && log[i].Console? && log[i].call.Take?
  {
    assert k > 0;
    assert log[..k][..k - 1] == log[..k - 1];
    OrderlyAt(log, k - 1);
    if log[k - 1] == ParkedEvent {
      p := k - 1;
    } else {
      p := LastPark(log, k - 1);
      forall d | d in Replay(log[..k]).decided ensures exists i :: p < i < k && Submitted(log[i], d) {
        if d in Replay(log[..k - 1]).decided {
          var i :| p < i < k - 1 && Submitted(log[i], d);
        } else {
          assert Submitted(log[k - 1], d);
        }
      }
    }
  }

  predicate Submitted(e: Event, d: (Decision, string)) {
    e.Console? && e.call.Decide? && e.call.decision == d.0 && e.call.code == d.1
  }

  /** Every decision the engine acts on was submitted after the park of the
      intervention it ends, and if it needed a human, a take came after that park. */
  lemma DecisionsBelongToTheirIntervention(cap: Capability, cfg: Config, inputs: seq<Instant>, states: seq<State>,
                                           k: nat)
    returns (p: nat, d: nat)
    requires Integrity(cap) && Behavior(cap, cfg, inputs, states)
    requires k < |Last(states).log| && Last(states).log[k].Consumed?
    ensures var log := Last(states).log;
      && p < d < k && log[p] == ParkedEvent && Submitted(log[d], (log[k].decision, log[k].code))
      && (forall i :: p < i < k ==> log[i] != ParkedEvent && log[i] != Released)
      && (NeedsHuman(log[k].decision) ==> exists i :: p < i < k && log[i].Console? && log[i].call.Take?)
  {
    hide Integrity, Next, Wf, Inv;
    OneOwner(cap, cfg, inputs, states, |states| - 1);
    var log := Last(states).log;
    OrderlyAt(log, k);
    p := LastPark(log, k);
    d :| p < d < k && Submitted(log[d], (log[k].decision, log[k].code));
  }
}
