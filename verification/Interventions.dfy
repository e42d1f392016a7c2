/** How an intervention begins, how long it is open, and what ends it; and that the
    operator's commands run in the order they were given. */
module Interventions {
  import opened Wrappers
  import opened Artifact
  import opened Escalation
  import opened Protocol
  import opened Flow
  import opened Histories

  // ------------------------------------------------------------- the time it is open

  /** When the intervention open at `k` is due: its time to live after the hub parked. */
  function Due(cfg: Config, states: seq<State>, k: nat): int
    requires k < |states| && cfg.attended.Some?
  {
    states[Since(states, k, IsPark)].now + cfg.attended.value.ttl
  }

  /** Over every run: with no decision to take, a parked run waits on until the time to
      live after its park is over, and then it ends. */
  lemma WaitsUntilDue(cap: Capability, cfg: Config, inputs: seq<Instant>, states: seq<State>, k: nat)
    requires Integrity(cap) && Behavior(cap, cfg, inputs, states) && k < |inputs| && states[k].phase.ParkTake?
    ensures cfg.attended.Some?
    ensures HubAfter(states[k].hub, inputs[k].calls).decision == NoDecision ==>
      if states[k + 1].now < Due(cfg, states, k) then
        states[k + 1].phase == ParkLook(states[k].phase.at, states[k].phase.ttl)
      else
        && states[k + 1].phase.Ended? && !states[k + 1].phase.result.BusinessOutcome?
        && !states[k + 1].phase.result.Success?
  {
    hide Integrity, Next, Wf, HubAfter, Accepted, Evolves;
    EverythingIsTimed(cap, cfg, inputs, states, k);
    RunMoves(cap, cfg, inputs, states, k);
  }

  /** The decision taken is the one that ends the intervention. */
  predicate Takes(s: State, r: State) {
    |r.log| > |s.log| && r.log[|r.log| - 1].Consumed?
  }

  /** Over every run: an intervention that ends without taking a decision ends the run,
      and not before its time to live after the park is over. */
  lemma NoDecisionMeansDue(cap: Capability, cfg: Config, inputs: seq<Instant>, states: seq<State>, k: nat)
    requires Integrity(cap) && Behavior(cap, cfg, inputs, states) && k < |inputs|
    requires Intervening(states[k].phase) && !Intervening(states[k + 1].phase) && !Takes(states[k], states[k + 1])
    ensures cfg.attended.Some? && states[k + 1].now >= Due(cfg, states, k) && states[k + 1].phase.Ended?
    ensures HubAfter(states[k].hub, inputs[k].calls).decision == NoDecision
  {
    hide Integrity, Next, Wf, HubAfter, Accepted, Evolves, Said;
    EverythingIsTimed(cap, cfg, inputs, states, k);
    RunMoves(cap, cfg, inputs, states, k);
  }

  /** What a taken decision does, whatever the clock says. */
  lemma DecisionsAreFollowed(cap: Capability, cfg: Config, inputs: seq<Instant>, states: seq<State>, k: nat)
    requires Integrity(cap) && Behavior(cap, cfg, inputs, states) && k < |inputs| && states[k].phase.ParkTake?
    ensures var h := HubAfter(states[k].hub, inputs[k].calls); var r := states[k + 1];
      match h.decision
      case NoDecision => true
      case Approve => r.phase == Releasing && Takes(states[k], r)
      case Handback => r.phase == Releasing && Takes(states[k], r)
      case Abort => r.phase.Ended? && !r.phase.result.BusinessOutcome? && !r.phase.result.Success?
          && Takes(states[k], r)
      case Resolve =>
        if h.code in cap.outcomes then r.phase == Ended(BusinessOutcome(h.code, ByOperator(h.operator)))
            && Takes(states[k], r)
        else r.phase == ParkLook(states[k].phase.at, states[k].phase.ttl)
  {
    hide Integrity, Next, Wf, HubAfter, Accepted, Evolves;
    OperatorOnly(cap, cfg, inputs, states, k);
    RunMoves(cap, cfg, inputs, states, k);
  }

  lemma OperatorOnly(cap: Capability, cfg: Config, inputs: seq<Instant>, states: seq<State>, k: nat)
    requires Integrity(cap) && Behavior(cap, cfg, inputs, states) && k < |states| && Intervening(states[k].phase)
    ensures cfg.attended.Some?
  {
    hide Integrity, Next, Wf;
    EverythingIsTimed(cap, cfg, inputs, states, k);
  }

  // ------------------------------------------------------------- how many there are

  function Parks(log: seq<Event>): nat {
    if log == [] then 0 else Parks(log[..|log| - 1]) + if log[|log| - 1].ParkedEvent? then 1 else 0
  }

  lemma {:induction false} ParksConcat(a: seq<Event>, b: seq<Event>)
    ensures Parks(a + b) == Parks(a) + Parks(b)
    decreases |b|
  {
    if b == [] {
      assert a + b == a;
    } else {
      assert (a + b)[..|a + b| - 1] == a + b[..|b| - 1];
      ParksConcat(a, b[..|b| - 1]);
    }
  }

  lemma {:induction false} NoParks(log: seq<Event>)
    requires forall i :: 0 <= i < |log| ==> !log[i].ParkedEvent?
    ensures Parks(log) == 0
  {
    if log != [] {
      NoParks(log[..|log| - 1]);
    }
  }

  /** The interventions counted are the parks on the log, and the one being asked for. */
  lemma {:induction false} CountedAreParked(cap: Capability, cfg: Config, inputs: seq<Instant>, states: seq<State>,
                                            k: nat)
    requires Integrity(cap) && Behavior(cap, cfg, inputs, states) && k < |states|
    ensures states[k].escalations == Parks(states[k].log) + if states[k].phase.Asking? then 1 else 0
  {
    hide Integrity, Next, Wf, Decides, Elapse, Parks;
    if k > 0 {
      var s, r := states[k - 1], states[k];
      CountedAreParked(cap, cfg, inputs, states, k - 1);
      if s.phase.Ended? {
        EndedStays(cap, cfg, inputs, states, k - 1);
      } else {
        RunMoves(cap, cfg, inputs, states, k - 1);
        CountStays(cap, cfg, s, Elapse(cfg, s, inputs[k - 1]), inputs[k - 1], r);
      }
    } else {
      assert Parks([]) == 0 by { NoParks([]); }
    }
  }

  lemma CountStays(cap: Capability, cfg: Config, s: State, e: State, t: Instant, r: State)
    requires Evolves(cap, cfg, e, t, r) && s.log <= e.log && e.phase == s.phase && e.escalations == s.escalations
    requires forall i :: |s.log| <= i < |e.log| ==> e.log[i].Console?
    requires s.escalations == Parks(s.log) + if s.phase.Asking? then 1 else 0
    ensures r.escalations == Parks(r.log) + if r.phase.Asking? then 1 else 0
  {
    hide Parks;
    var calls, added := e.log[|s.log|..], r.log[|e.log|..];
    assert e.log == s.log + calls && r.log == e.log + added;
    ParksConcat(s.log, calls);
    NoParks(calls);
    ParksConcat(e.log, added);
    if s.phase.Asking? {
      assert added == [ParkedEvent];
      assert Parks([ParkedEvent]) == 1 by { OnePark(); }
    } else {
      NoParks(added);
    }
  }

  lemma OnePark()
    ensures Parks([ParkedEvent]) == 1
  {
    assert [ParkedEvent][..0] == [];
  }

  /** The run ends in something that went wrong. */
  predicate GoesWrong(phase: Phase) {
    phase.Ended? && (phase.result.Failure? || phase.result.PolicyViolation? || phase.result.Unresolved?)
  }

  /** A step, a recovery or the checkpoint that fails does not end the run while there is
      an operator to ask and an intervention left: and one is only asked for then. */
  lemma FailuresAreAsked(cap: Capability, cfg: Config, inputs: seq<Instant>, states: seq<State>, k: nat)
    requires Integrity(cap) && Behavior(cap, cfg, inputs, states) && k < |inputs|
    requires InVisit(states[k].phase) || Recuperating(states[k].phase)
    ensures GoesWrong(states[k + 1].phase) && inputs[k].usable ==>
      cfg.attended.None? || Parks(states[k].log) >= cfg.attended.value.maxEscalations
    ensures states[k + 1].phase.Asking? ==>
      cfg.attended.Some? && Parks(states[k].log) < cfg.attended.value.maxEscalations
  {
    hide Integrity, Next, Wf, HubAfter, Accepted, Decides, Parks, Elapse, Counts;
    CountedAreParked(cap, cfg, inputs, states, k);
    RunMoves(cap, cfg, inputs, states, k);
    WrongMeansSpent(cap, cfg, Elapse(cfg, states[k], inputs[k]), inputs[k], states[k + 1]);
  }

  lemma WrongMeansSpent(cap: Capability, cfg: Config, e: State, t: Instant, r: State)
    requires Wf(cap, e) && Decides(cap, cfg, e, t, r) && (InVisit(e.phase) || Recuperating(e.phase))
    ensures GoesWrong(r.phase) && t.usable ==> !MayAsk(cfg, e)
  {
    hide Said, Dispatching, Armable, PollDecides, ActDecides;
    match e.phase
    case Poll(acted) => PollSpent(cap, cfg, e, t, acted, r);
    case Act => ActSpent(cap, cfg, e, t, r);
    case _ =>
  }

  lemma ActSpent(cap: Capability, cfg: Config, e: State, t: Instant, r: State)
    requires Wf(cap, e) && e.phase.Act? && ActDecides(cap, cfg, e, t, r)
    ensures GoesWrong(r.phase) ==> !MayAsk(cfg, e)
  {
    hide Said, Dispatching;
  }

  lemma PollSpent(cap: Capability, cfg: Config, e: State, t: Instant, acted: bool, r: State)
    requires Wf(cap, e) && e.phase == Poll(acted) && PollDecides(cap, cfg, e, t, acted, r)
    ensures GoesWrong(r.phase) && t.usable ==> !MayAsk(cfg, e)
  {
    hide Said, Silent, SpeaksFirst, Dispatching, Interrupted, RecoveryDecides;
    if !Interrupted(cfg, e) && !Silent(cap, e, t) {
      var c: nat :| SpeaksFirst(cap, e, t, c) && Recognized(cap, cfg, e, c, acted, r);
      if cap.conditions[c].classify.Recoverable? {
        RecoverySpent(cap, cfg, e, c, acted, r);
      }
    }
  }

  lemma RecoverySpent(cap: Capability, cfg: Config, e: State, c: nat, acted: bool, r: State)
    requires c < |cap.conditions| && cap.conditions[c].classify.Recoverable?
    requires RecoveryDecides(cap, cfg, e, c, acted, r)
    ensures GoesWrong(r.phase) ==> !MayAsk(cfg, e)
  {
    hide Said, Aims, Dispatching;
  }

  // -------------------------------------------------------- before an action

  /** The page showed nothing to recognize that is new, and no operator was waiting. */
  predicate Clear(cap: Capability, cfg: Config, e: State, t: Instant) {
    && e.phase == Poll(false) && Silent(cap, e, t)
    && !(cfg.attended.Some? && e.hub.pauseRequested && e.hub.state == Automation)
  }

  lemma PollActs(cap: Capability, cfg: Config, e: State, t: Instant, acted: bool, r: State)
    requires Wf(cap, e) && e.phase == Poll(acted) && PollDecides(cap, cfg, e, t, acted, r) && r.phase.Act?
    ensures Clear(cap, cfg, e, t) && r == e.(phase := Act)
  {
    hide Said, Silent, SpeaksFirst, Dispatching, RecoveryDecides;
    if !Interrupted(cfg, e) && !Silent(cap, e, t) {
      var c: nat :| SpeaksFirst(cap, e, t, c) && Recognized(cap, cfg, e, c, acted, r);
      if cap.conditions[c].classify.Recoverable? {
        RecoveryNeverActs(cap, cfg, e, c, acted, r);
      }
      assert false;
    }
  }

  lemma RecoveryNeverActs(cap: Capability, cfg: Config, e: State, c: nat, acted: bool, r: State)
    requires c < |cap.conditions| && cap.conditions[c].classify.Recoverable?
    requires RecoveryDecides(cap, cfg, e, c, acted, r)
    ensures !r.phase.Act?
  {
    hide Said, Aims, Dispatching;
  }

  lemma OnlyPollsAct(cap: Capability, cfg: Config, e: State, t: Instant, r: State)
    requires Wf(cap, e) && Decides(cap, cfg, e, t, r) && r.phase.Act?
    ensures Clear(cap, cfg, e, t) && r == e.(phase := Act)
  {
    hide Said, Silent, Dispatching, Armable, PollDecides, ActDecides, Furthest;
    match e.phase
    case Poll(acted) => PollActs(cap, cfg, e, t, acted, r);
    case Act => ActMovesOn(cap, cfg, e, t, r);
    case _ =>
  }

  lemma ActMovesOn(cap: Capability, cfg: Config, e: State, t: Instant, r: State)
    requires Wf(cap, e) && e.phase.Act? && ActDecides(cap, cfg, e, t, r)
    ensures !r.phase.Act?
  {
    hide Said, Dispatching;
  }

  /** Over every run: a step's action follows at once on a look at the page that found
      nothing to recognize, with no operator waiting. */
  lemma ActionsFollowSilence(cap: Capability, cfg: Config, inputs: seq<Instant>, states: seq<State>, k: nat)
    requires Integrity(cap) && Behavior(cap, cfg, inputs, states) && k < |states| && states[k].phase.Act?
    ensures k > 0 && Clear(cap, cfg, Elapse(cfg, states[k - 1], inputs[k - 1]), inputs[k - 1])
      && states[k].index == states[k - 1].index
  {
    hide Integrity, Next, Wf, Decides, Elapse, Evolves, Clear;
    assert k > 0 by { NoActAtFirst(cap, cfg); }
    if states[k - 1].phase.Ended? {
      EndedStays(cap, cfg, inputs, states, k - 1);
    }
    RunMoves(cap, cfg, inputs, states, k - 1);
    OnlyPollsAct(cap, cfg, Elapse(cfg, states[k - 1], inputs[k - 1]), inputs[k - 1], states[k]);
  }

  lemma NoActAtFirst(cap: Capability, cfg: Config)
    ensures !Initial(cap, cfg).phase.Act?
  {
  }

  // --------------------------------------------------------------- the commands

  /** The commands the hub accepted, in order. */
  function Given(log: seq<Event>): seq<Command> {
    if log == [] then []
    else
      Given(log[..|log| - 1])
      + match log[|log| - 1] case Console(Submit(c)) => [c] case _ => []
  }

  /** The commands run on the operator's behalf, in order. */
  function Ran(log: seq<Event>): seq<Command> {
    if log == [] then []
    else Ran(log[..|log| - 1]) + match log[|log| - 1] case Commanded(c) => [c] case _ => []
  }

  lemma {:induction false} CommandsConcat(a: seq<Event>, b: seq<Event>)
    ensures Given(a + b) == Given(a) + Given(b) && Ran(a + b) == Ran(a) + Ran(b)
    decreases |b|
  {
    if b == [] {
      assert a + b == a;
    } else {
      assert (a + b)[..|a + b| - 1] == a + b[..|b| - 1];
      CommandsConcat(a, b[..|b| - 1]);
    }
  }

  lemma {:induction false} CallsGive(h: Hub, calls: seq<ConsoleCall>)
    ensures HubAfter(h, calls).commands == h.commands + Given(Accepted(h, calls)) && Ran(Accepted(h, calls)) == []
    decreases |calls|
  {
    hide Given, Ran, Apply, Accepts;
    NothingGiven();
    if calls != [] {
      var first := if Accepts(h.state, calls[0]) then [Console(calls[0])] else [];
      var rest := Accepted(Apply(h, calls[0]), calls[1..]);
      CallsGive(Apply(h, calls[0]), calls[1..]);
      CommandsConcat(first, rest);
      CallGives(h, calls[0]);
    }
  }

  lemma CallGives(h: Hub, call: ConsoleCall)
    ensures var said := if Accepts(h.state, call) then [Console(call)] else [];
      Apply(h, call).commands == h.commands + Given(said) && Ran(said) == []
  {
    hide Given, Ran;
    NothingGiven();
    OneGiven(call);
  }

  lemma NothingGiven()
    ensures Given([]) == [] && Ran([]) == []
  {
  }

  lemma OneGiven(call: ConsoleCall)
    ensures Ran([Console(call)]) == [] && Given([Console(call)]) == if call.Submit? then [call.command] else []
  {
    assert [Console(call)][..0] == [];
  }

  /** Over every run: the commands given are the commands run and the ones still queued,
      in one and the same order. */
  lemma {:induction false} CommandsRunInOrder(cap: Capability, cfg: Config, inputs: seq<Instant>, states: seq<State>,
                                              k: nat)
    requires Integrity(cap) && Behavior(cap, cfg, inputs, states) && k < |states|
    ensures Given(states[k].log) == Ran(states[k].log) + states[k].hub.commands
  {
    hide Integrity, Next, Wf, Decides, Given, Ran, Accepts, HubAfter, Accepted;
    if k > 0 {
      var s, t, r := states[k - 1], inputs[k - 1], states[k];
      CommandsRunInOrder(cap, cfg, inputs, states, k - 1);
      if s.phase.Ended? {
        EndedStays(cap, cfg, inputs, states, k - 1);
      } else {
        RunMoves(cap, cfg, inputs, states, k - 1);
        var e := Elapse(cfg, s, t);
        CommandsConcat(s.log, Accepted(s.hub, t.calls));
        CallsGive(s.hub, t.calls);
        CommandStays(cap, cfg, e, t, r);
      }
    } else {
      NothingGiven();
    }
  }

  lemma CommandStays(cap: Capability, cfg: Config, e: State, t: Instant, r: State)
    requires Wf(cap, e) && Decides(cap, cfg, e, t, r) && Evolves(cap, cfg, e, t, r)
    requires Given(e.log) == Ran(e.log) + e.hub.commands
    ensures Given(r.log) == Ran(r.log) + r.hub.commands
  {
    hide Given, Ran, Decides, Continues, Counts;
    LogGrows(cap, cfg, e, t, r);
    var added := r.log[|e.log|..];
    assert r.log == e.log + added;
    CommandsConcat(e.log, added);
    if e.phase.ParkPop? && e.hub.commands != [] {
      PopRuns(cap, cfg, e, t, r);
      OneRan(e.hub.commands[0]);
    } else {
      OthersRunNothing(cap, cfg, e, t, r);
      NoneRan(added);
    }
  }

  lemma LogGrows(cap: Capability, cfg: Config, e: State, t: Instant, r: State)
    requires Evolves(cap, cfg, e, t, r)
    ensures e.log <= r.log
  {
    hide Continues;
  }

  lemma PopRuns(cap: Capability, cfg: Config, e: State, t: Instant, r: State)
    requires Wf(cap, e) && Decides(cap, cfg, e, t, r) && e.phase.ParkPop? && e.hub.commands != []
    ensures r.log == e.log + [Commanded(e.hub.commands[0])] && r.hub.commands == e.hub.commands[1..]
  {
  }

  lemma OneRan(c: Command)
    ensures Ran([Commanded(c)]) == [c] && Given([Commanded(c)]) == []
  {
    assert [Commanded(c)][..0] == [];
  }

  lemma {:induction false} NoneRan(log: seq<Event>)
    requires forall i :: 0 <= i < |log| ==> !log[i].Commanded? && !log[i].Console?
    ensures Ran(log) == [] && Given(log) == []
  {
    if log != [] {
      NoneRan(log[..|log| - 1]);
    }
  }

  lemma OthersRunNothing(cap: Capability, cfg: Config, e: State, t: Instant, r: State)
    requires Wf(cap, e) && Evolves(cap, cfg, e, t, r) && !(e.phase.ParkPop? && e.hub.commands != [])
    ensures e.log <= r.log && r.hub.commands == e.hub.commands
    ensures forall i :: |e.log| <= i < |r.log| ==> !r.log[i].Commanded? && !r.log[i].Console?
  {
    hide Continues;
  }
}
