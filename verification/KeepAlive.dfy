/** How long an intervention can last. Past its time to live it stays open exactly
    while every round of the parked loop serves a command or takes an undeclared
    outcome code: both go back to the top of the loop without asking the clock. */
module KeepAlive {
  import opened Wrappers
  import opened Artifact
  import opened Escalation
  import opened Protocol
  import opened DoubleFire
  import opened Scripts
  import opened DoubleFireTheorems

  /** The intervention with this failure and this deadline is on. */
  predicate Open(phase: Phase, at: Option<string>, ttl: int) {
    phase == ParkLook(at, ttl) || phase == ParkPop(at, ttl) || phase == ParkTake(at, ttl)
  }

  ghost predicate StillOpen(states: seq<State>, a: nat, b: nat, at: Option<string>, ttl: int) {
    a <= b < |states| && forall j :: a <= j <= b ==> Open(states[j].phase, at, ttl)
  }

  /** The engine asks for a command and there is one. */
  predicate Serves(cfg: Config, s: State, t: Instant) {
    s.phase.ParkPop? && Elapse(cfg, s, t).hub.commands != []
  }

  /** The engine takes a decision to resolve with a code the capability does not declare. */
  predicate TakesUndeclared(cap: Capability, cfg: Config, s: State, t: Instant) {
    s.phase.ParkTake? && Undeclared(cap, Elapse(cfg, s, t).hub)
  }

  /** Every round of the parked loop from the look at `a` to the look at `b` served
      a command or took an undeclared code. */
  predicate KeptAlive(cap: Capability, cfg: Config, inputs: seq<Instant>, states: seq<State>, a: nat, b: nat)
    requires |states| == |inputs| + 1 && b < |states|
    decreases b - a
  {
    || a == b
    || (a + 1 < b && Serves(cfg, states[a + 1], inputs[a + 1]) && KeptAlive(cap, cfg, inputs, states, a + 2, b))
    || (a + 1 < b && TakesUndeclared(cap, cfg, states[a + 1], inputs[a + 1])
      && KeptAlive(cap, cfg, inputs, states, a + 2, b))
    || (a + 2 < b && states[a + 1].phase.ParkPop? && TakesUndeclared(cap, cfg, states[a + 2], inputs[a + 2])
        && KeptAlive(cap, cfg, inputs, states, a + 3, b))
  }

  // ----------------------------------------------------------- one instant

  lemma LookGoesOn(cap: Capability, cfg: Config, s: State, t: Instant)
    requires Integrity(cap) && Wf(cap, s) && s.phase.ParkLook?
    ensures var r := Next(cap, cfg, s, t);
      r.now > s.now && (r.phase == ParkPop(s.phase.at, s.phase.ttl) || r.phase == ParkTake(s.phase.at, s.phase.ttl))
  {
    hide Integrity, HubAfter, Accepted;
  }

  /** The loop looks again after asking for a command exactly when there is one. */
  lemma PopLooksAgainIff(cap: Capability, cfg: Config, s: State, t: Instant)
    requires Integrity(cap) && Wf(cap, s) && s.phase.ParkPop?
    ensures var r := Next(cap, cfg, s, t);
      && r.now > s.now
      && (r.phase == ParkLook(s.phase.at, s.phase.ttl) <==> Serves(cfg, s, t))
      && (!Serves(cfg, s, t) ==> r.phase == ParkTake(s.phase.at, s.phase.ttl))
  {
    hide Integrity, HubAfter, Accepted;
  }

  /** Past the time to live, the loop looks again after asking for a decision
      exactly when it takes an undeclared code; it ends the run when there is none. */
  lemma TakeLooksAgainIff(cap: Capability, cfg: Config, s: State, t: Instant)
    requires Integrity(cap) && Wf(cap, s) && s.phase.ParkTake? && s.now >= s.phase.ttl
    ensures var r := Next(cap, cfg, s, t);
      && r.now > s.now
      && (r.phase == ParkLook(s.phase.at, s.phase.ttl) <==> TakesUndeclared(cap, cfg, s, t))
      && (!TakesUndeclared(cap, cfg, s, t) ==> r.phase.Releasing? || r.phase.Ended?)
      && (Elapse(cfg, s, t).hub.decision == NoDecision ==> r.phase.Ended?)
  {
    hide Integrity, HubAfter, Accepted;
  }

  // -------------------------------------------------------------- whole runs

  /** Over every run: an intervention past its time to live is at a further look if
      and only if every round since then served a command or took an undeclared
      code. */
  lemma {:induction false} OutlivesIff(cap: Capability, cfg: Config, inputs: seq<Instant>, states: seq<State>, a: nat,
                                       b: nat)
    requires Integrity(cap) && Behavior(cap, cfg, inputs, states) && a <= b < |states|
    requires states[a].phase.ParkLook? && states[a].now >= states[a].phase.ttl
    ensures var look := states[a].phase;
      StillOpen(states, a, b, look.at, look.ttl) && states[b].phase == look <==>
      KeptAlive(cap, cfg, inputs, states, a, b)
    decreases b - a
  {
    hide Integrity, Next, Wf, Serves, TakesUndeclared;
    if a + 1 <= b {
      LookGoesOn(cap, cfg, states[a], inputs[a]);
    }
    if a + 2 <= b {
      if states[a + 1].phase.ParkPop? {
        PopLooksAgainIff(cap, cfg, states[a + 1], inputs[a + 1]);
      } else {
        TakeLooksAgainIff(cap, cfg, states[a + 1], inputs[a + 1]);
      }
      OnlyWhere(cap, cfg, states[a + 1], inputs[a + 1]);
      if states[a + 2].phase == states[a].phase {
        OutlivesIff(cap, cfg, inputs, states, a + 2, b);
        StillOpenFrom(states, a, a + 2, b, states[a].phase.at, states[a].phase.ttl);
      } else if a + 3 <= b && states[a + 2].phase.ParkTake? {
        TakeLooksAgainIff(cap, cfg, states[a + 2], inputs[a + 2]);
        if states[a + 3].phase == states[a].phase {
          OutlivesIff(cap, cfg, inputs, states, a + 3, b);
          StillOpenFrom(states, a, a + 3, b, states[a].phase.at, states[a].phase.ttl);
        }
      }
    }
    if a + 2 < b {
      OnlyWhere(cap, cfg, states[a + 2], inputs[a + 2]);
    }
  }

  lemma OnlyWhere(cap: Capability, cfg: Config, s: State, t: Instant)
    ensures Serves(cfg, s, t) ==> s.phase.ParkPop?
    ensures TakesUndeclared(cap, cfg, s, t) ==> s.phase.ParkTake?
  {
  }

  lemma StillOpenFrom(states: seq<State>, a: nat, m: nat, b: nat, at: Option<string>, ttl: int)
    requires a <= m <= b < |states| && forall j :: a <= j < m ==> Open(states[j].phase, at, ttl)
    ensures StillOpen(states, a, b, at, ttl) <==> StillOpen(states, m, b, at, ttl)
  {
  }

  /** An intervention past its time to live leaves the parked loop in the first round
      that serves no command and takes no undeclared code; and ends the run when no
      decision was there to take. */
  lemma SilenceExpires(cap: Capability, cfg: Config, inputs: seq<Instant>, states: seq<State>, k: nat)
    requires Integrity(cap) && Behavior(cap, cfg, inputs, states) && k + 3 < |states|
    requires states[k].phase.ParkLook? && states[k].now >= states[k].phase.ttl
    requires !Serves(cfg, states[k + 1], inputs[k + 1])
    requires !TakesUndeclared(cap, cfg, states[k + 1], inputs[k + 1])
      && !TakesUndeclared(cap, cfg, states[k + 2], inputs[k + 2])
    ensures var take := if states[k + 1].phase.ParkTake? then k + 1 else k + 2;
      && states[take].phase.ParkTake?
      && (states[take + 1].phase.Releasing? || states[take + 1].phase.Ended?)
      && (Elapse(cfg, states[take], inputs[take]).hub.decision == NoDecision ==> states[take + 1].phase.Ended?)
  {
    hide Integrity, Next, Wf, Serves, TakesUndeclared;
    LookGoesOn(cap, cfg, states[k], inputs[k]);
    if states[k + 1].phase.ParkPop? {
      PopLooksAgainIff(cap, cfg, states[k + 1], inputs[k + 1]);
      TakeLooksAgainIff(cap, cfg, states[k + 2], inputs[k + 2]);
    } else {
      TakeLooksAgainIff(cap, cfg, states[k + 1], inputs[k + 1]);
    }
  }

  // --------------------------------------------- runs that outlive their time

  const CLICK := Command("click", "button", "OK", "")

  /** One round of the loop: a command served, or an undeclared code taken. */
  function Round(code: Option<string>): seq<Instant> {
    match code
    case None => [QUIET, Calling(Submit(CLICK))]
    case Some(c) => [QUIET, QUIET, Calling(Decide(Resolve, "op", "", c))]
  }

  function Rounds(code: Option<string>, n: nat): seq<Instant> {
    if n == 0 then [] else Round(code) + Rounds(code, n - 1)
  }

  /** A human holds the parked session, and nothing said is left to serve. */
  predicate Held(s: State) {
    s.phase.ParkLook? && s.hub.state == Human && s.hub.commands == [] && s.hub.decision == NoDecision
  }

  predicate Idling(s: State, r: State, phase: Phase) {
    r.phase == phase && r.hub == s.hub && r.now == s.now + 1
  }

  lemma LookQuiet(cap: Capability, cfg: Config, s: State)
    requires Integrity(cap) && Wf(cap, s) && Held(s)
    ensures Idling(s, Next(cap, cfg, s, QUIET), ParkPop(s.phase.at, s.phase.ttl))
  {
    hide Integrity;
    ElapseQuiet(cfg, s, QUIET);
  }

  lemma PopQuiet(cap: Capability, cfg: Config, s: State)
    requires Integrity(cap) && Wf(cap, s) && s.phase.ParkPop? && s.hub.commands == []
    ensures Idling(s, Next(cap, cfg, s, QUIET), ParkTake(s.phase.at, s.phase.ttl))
  {
    hide Integrity;
    ElapseQuiet(cfg, s, QUIET);
  }

  lemma PopServes(cap: Capability, cfg: Config, s: State)
    requires Integrity(cap) && Wf(cap, s) && s.phase.ParkPop? && cfg.attended.Some?
    requires s.hub.state == Human && s.hub.commands == [] && s.hub.decision == NoDecision
    ensures var r := Next(cap, cfg, s, Calling(Submit(CLICK)));
      Held(r) && r.phase == ParkLook(s.phase.at, s.phase.ttl) && r.now > s.now
  {
    hide Integrity;
    OneCall(cfg, s, Calling(Submit(CLICK)), Submit(CLICK));
  }

  lemma TakeRejects(cap: Capability, cfg: Config, s: State, code: string)
    requires Integrity(cap) && Wf(cap, s) && s.phase.ParkTake? && cfg.attended.Some? && code !in cap.outcomes
    requires s.hub.state == Human && s.hub.commands == []
    ensures var r := Next(cap, cfg, s, Calling(Decide(Resolve, "op", "", code)));
      Held(r) && r.phase == ParkLook(s.phase.at, s.phase.ttl) && r.now > s.now
  {
    hide Integrity;
    OneCall(cfg, s, Calling(Decide(Resolve, "op", "", code)), Decide(Resolve, "op", "", code));
  }

  /** Rounds that keep the intervention alive leave it open at every instant. */
  lemma {:induction false} RoundsStayOpen(cap: Capability, cfg: Config, inputs: seq<Instant>, states: seq<State>,
                                          a: nat, code: Option<string>, n: nat)
    requires Integrity(cap) && Behavior(cap, cfg, inputs, states) && a <= |inputs| && inputs[a..] == Rounds(code, n)
    requires Held(states[a]) && cfg.attended.Some? && (code.Some? ==> code.value !in cap.outcomes)
    ensures var look := states[a].phase; var b := |inputs|;
      StillOpen(states, a, b, look.at, look.ttl) && Held(states[b]) && states[b].phase == look
          && states[b].now >= states[a].now + n
    decreases n
  {
    hide Integrity, Next, Wf, Held;
    if n > 0 {
      var w := |Round(code)|;
      assert forall i :: 0 <= i < w ==> inputs[a + i] == inputs[a..][i] && inputs[a..][i] == Round(code)[i];
      assert inputs[a + w..] == inputs[a..][w..] && inputs[a..][w..] == Rounds(code, n - 1);
      RoundStaysOpen(cap, cfg, inputs, states, a, code);
      RoundsStayOpen(cap, cfg, inputs, states, a + w, code, n - 1);
      StillOpenFrom(states, a, a + w, |inputs|, states[a].phase.at, states[a].phase.ttl);
    } else {
      assert Open(states[a].phase, states[a].phase.at, states[a].phase.ttl) by { HeldIsOpen(states[a]); }
    }
  }

  lemma HeldIsOpen(s: State)
    requires Held(s)
    ensures s.phase.ParkLook? && Open(s.phase, s.phase.at, s.phase.ttl)
  {
  }

  lemma RoundStaysOpen(cap: Capability, cfg: Config, inputs: seq<Instant>, states: seq<State>, a: nat,
                       code: Option<string>)
    requires Integrity(cap) && Behavior(cap, cfg, inputs, states) && a + |Round(code)| <= |inputs|
    requires forall i :: 0 <= i < |Round(code)| ==> inputs[a + i] == Round(code)[i]
    requires Held(states[a]) && cfg.attended.Some? && (code.Some? ==> code.value !in cap.outcomes)
    ensures var look := states[a].phase; var r := states[a + |Round(code)|];
      && Held(r) && r.phase == look && r.now > states[a].now
      && forall j :: a <= j < a + |Round(code)| ==> Open(states[j].phase, look.at, look.ttl)
  {
    hide Integrity, Next, Wf;
    assert inputs[a] == QUIET;
    LookQuiet(cap, cfg, states[a]);
    match code
    case None =>
      assert inputs[a + 1] == Round(code)[1];
      PopServes(cap, cfg, states[a + 1]);
    case Some(c) =>
      assert inputs[a + 1] == Round(code)[1] && inputs[a + 2] == Round(code)[2];
      PopQuiet(cap, cfg, states[a + 1]);
      TakeRejects(cap, cfg, states[a + 2], c);
  }

  /** The operator asks for control at once, takes it, and sends a first command. */
  function Taking(): seq<Instant> {
    [QUIET, Calling(RequestControl("op")), QUIET, Calling(Take("op")), Calling(Submit(CLICK))]
  }

  lemma TakesControl(cap: Capability, cfg: Config, s: State)
    requires Integrity(cap) && Wf(cap, s) && Ready(cap, s) && s.index == 0 && s.escalations == 0 && CanAsk(cfg)
      && s.hub == INITIAL_HUB
    requires cap.steps != []
    ensures Held(Feed(cap, cfg, s, Taking()))
  {
    hide Integrity, Next, Wf, Held;
    var ask := Calling(RequestControl("op"));
    SnapshotQuiet(cap, cfg, s);
    var s1 := Next(cap, cfg, s, QUIET);
    RequestAsks(cap, cfg, s1);
    var s2 := Next(cap, cfg, s1, ask);
    HubParks(cap, cfg, s2);
    var s3 := Next(cap, cfg, s2, QUIET);
    TakeArrives(cap, cfg, s3);
    var s4 := Next(cap, cfg, s3, Calling(Take("op")));
    PopServes(cap, cfg, s4);
    FeedFour(cap, cfg, s, QUIET, ask, QUIET, Calling(Take("op")));
    FeedConcat(cap, cfg, s, [QUIET, ask, QUIET, Calling(Take("op"))], [Calling(Submit(CLICK))]);
    FeedOne(cap, cfg, s4, Calling(Submit(CLICK)));
    assert [QUIET, ask, QUIET, Calling(Take("op"))] + [Calling(Submit(CLICK))] == Taking();
  }

  lemma RequestAsks(cap: Capability, cfg: Config, s: State)
    requires Integrity(cap) && Wf(cap, s) && s.phase == Poll(false) && s.escalations == 0 && CanAsk(cfg)
      && s.hub == INITIAL_HUB
    ensures var r := Next(cap, cfg, s, Calling(RequestControl("op")));
      r.phase.Asking? && r.hub == Apply(s.hub, RequestControl("op"))
  {
    hide Integrity, FirstHit;
    OneCall(cfg, s, Calling(RequestControl("op")), RequestControl("op"));
  }

  /** The run is at the look `a`, past the time to live, and `n` instants or more
      later still at a look of the same intervention. */
  ghost predicate Outlives(states: seq<State>, a: nat, n: nat) {
    && a + n < |states|
    && states[a].phase.ParkLook? && states[a].now >= states[a].phase.ttl
    && StillOpen(states, a, |states| - 1, states[a].phase.at, states[a].phase.ttl)
    && Last(states).phase == states[a].phase
  }

  lemma {:induction false} RoundsConcat(code: Option<string>, m: nat, n: nat)
    ensures Rounds(code, m + n) == Rounds(code, m) + Rounds(code, n)
    ensures |Rounds(code, n)| >= n
  {
    assert |Round(code)| >= 2;
    hide Round;
    if m > 0 {
      RoundsConcat(code, m - 1, n);
      assert Round(code) + (Rounds(code, m - 1) + Rounds(code, n)) == Round(code) + Rounds(code, m - 1)
          + Rounds(code, n);
    } else if n > 0 {
      RoundsConcat(code, 0, n - 1);
    }
  }

  /** Whatever the time to live, some run stays parked arbitrarily long beyond it: on
      served commands alone, and, without any command, on undeclared codes alone. */
  lemma TalkOutlivesTheTtl(cap: Capability, cfg: Config, code: Option<string>, beyond: nat)
    returns (inputs: seq<Instant>, states: seq<State>, a: nat)
    requires Integrity(cap) && CanStart(cap, cfg) && CanAsk(cfg) && (code.Some? ==> code.value !in cap.outcomes)
    ensures Behavior(cap, cfg, inputs, states) && Outlives(states, a, beyond)
    ensures inputs[a..] == Rounds(code, beyond) && KeptAlive(cap, cfg, inputs, states, a, |inputs|)
  {
    hide Integrity, Next, Wf, CanStart, Initial, Taking, Behavior, Held, Begin, KeptAlive, Rounds, Feed, StillOpen;
    assert cap.steps != [] by { StepsExist(cap); }
    InitialWf(cap, cfg);
    var s0 := Initial(cap, cfg);
    Begins(cap, cfg);
    var s1 := Feed(cap, cfg, s0, Begin(cap));
    TakesControl(cap, cfg, s1);
    FeedConcat(cap, cfg, s0, Begin(cap), Taking());
    var opening := Begin(cap) + Taking();
    var s2 := Feed(cap, cfg, s0, opening);
    HeldIsOpen(s2);
    var gap := s2.phase.ttl - s2.now;
    var n: nat := if gap > 0 then gap else 0;
    inputs := opening + Rounds(code, n) + Rounds(code, beyond);
    states := FeedIsBehavior(cap, cfg, inputs);
    a := |opening| + |Rounds(code, n)|;
    assert inputs[..a] == opening + Rounds(code, n) && inputs[a..] == Rounds(code, beyond);
    PastTheTtl(cap, cfg, opening, code, n);
    StateIsFeed(cap, cfg, inputs, states, a);
    HeldIsOpen(states[a]);
    RoundsConcat(code, n, beyond);
    RoundsStayOpen(cap, cfg, inputs, states, a, code, beyond);
    OutlivesIff(cap, cfg, inputs, states, a, |inputs|);
  }

  /** `n` rounds of talk take a held session past a deadline `n` away. */
  lemma PastTheTtl(cap: Capability, cfg: Config, opening: seq<Instant>, code: Option<string>, n: nat)
    requires Integrity(cap) && Wf(cap, Initial(cap, cfg)) && CanAsk(cfg) && (code.Some? ==> code.value !in cap.outcomes)
    requires var s := Feed(cap, cfg, Initial(cap, cfg), opening); Held(s) && s.now + n >= s.phase.ttl
    ensures var s := Feed(cap, cfg, Initial(cap, cfg), opening + Rounds(code, n)); Held(s) && s.now >= s.phase.ttl
  {
    hide Integrity, Next, Wf, Initial, Held, Rounds, Behavior, StillOpen;
    var inputs := opening + Rounds(code, n);
    var states := FeedIsBehavior(cap, cfg, inputs);
    StateIsFeed(cap, cfg, inputs, states, |opening|);
    assert inputs[..|opening|] == opening && inputs[|opening|..] == Rounds(code, n);
    RoundsStayOpen(cap, cfg, inputs, states, |opening|, code, n);
  }

  /** A code no finite set of outcomes declares. */
  lemma {:induction false} SomeUndeclared(outcomes: set<string>) returns (code: string)
    ensures code !in outcomes && forall c :: c in outcomes ==> |c| < |code|
    decreases |outcomes|
  {
    if outcomes == {} {
      code := "";
    } else {
      var c :| c in outcomes;
      var shorter := SomeUndeclared(outcomes - {c});
      var pad := seq(|c| + 1, _ => 'x');
      code := shorter + pad;
    }
  }

  /** Exactly when a time to live can be outlived: whenever the run can reach its
      first step and there is an operator to ask. */
  lemma OutlivingIff(cap: Capability, cfg: Config, n: nat)
    requires Integrity(cap)
    ensures (exists inputs, states, a :: Behavior(cap, cfg, inputs, states) && Outlives(states, a, n))
      <==> CanStart(cap, cfg) && CanAsk(cfg)
  {
    hide Integrity, Next, Wf, CanStart, Behavior, Outlives;
    if CanStart(cap, cfg) && CanAsk(cfg) {
      var inputs, states, a := TalkOutlivesTheTtl(cap, cfg, None, n);
    }
    forall inputs, states, a: nat | Behavior(cap, cfg, inputs, states) && Outlives(states, a, n)
      ensures CanStart(cap, cfg) && CanAsk(cfg)
    {
      OutlivingNeeds(cap, cfg, inputs, states, a, n);
    }
  }

  lemma OutlivingNeeds(cap: Capability, cfg: Config, inputs: seq<Instant>, states: seq<State>, a: nat, n: nat)
    requires Integrity(cap) && Behavior(cap, cfg, inputs, states) && Outlives(states, a, n)
    ensures CanStart(cap, cfg) && CanAsk(cfg)
  {
    hide Integrity, Next, Wf, CanStart, DoubleFire.Inv, Behavior, StillOpen;
    if !CanStart(cap, cfg) {
      StaysIdle(cap, cfg, inputs, states, a);
    }
    if !CanAsk(cfg) {
      NeverParked(cap, cfg, inputs, states, a);
    }
  }

  lemma NeverParked(cap: Capability, cfg: Config, inputs: seq<Instant>, states: seq<State>, k: nat)
    requires Integrity(cap) && Behavior(cap, cfg, inputs, states) && k < |states| && !CanAsk(cfg)
    ensures !Parking(states[k].phase)
  {
    hide Integrity, Next, Wf;
    DoubleFire.Always(cap, cfg, inputs, states, k);
  }

  /** Without a single command, undeclared codes alone do it for every capability. */
  lemma CodesOutliveTheTtl(cap: Capability, cfg: Config, beyond: nat)
    returns (inputs: seq<Instant>, states: seq<State>, a: nat)
    requires Integrity(cap) && CanStart(cap, cfg) && CanAsk(cfg)
    ensures Behavior(cap, cfg, inputs, states) && Outlives(states, a, beyond)
    ensures forall k, call :: a <= k < |inputs| && call in inputs[k].calls ==> !call.Submit?
  {
    hide Integrity, Next, Wf, CanStart, Behavior, Outlives, KeptAlive;
    var code := SomeUndeclared(cap.outcomes);
    inputs, states, a := TalkOutlivesTheTtl(cap, cfg, Some(code), beyond);
    NoCommandIn(code, beyond);
    forall k, call | a <= k < |inputs| && call in inputs[k].calls ensures !call.Submit? {
      assert inputs[k] == inputs[a..][k - a];
    }
  }

  lemma {:induction false} NoCommandIn(code: string, n: nat)
    ensures forall t, call :: t in Rounds(Some(code), n) && call in t.calls ==> !call.Submit?
  {
    if n > 0 {
      NoCommandIn(code, n - 1);
    }
  }

  /** Served commands alone do it too. */
  lemma CommandsOutliveTheTtl(cap: Capability, cfg: Config, beyond: nat)
    returns (inputs: seq<Instant>, states: seq<State>, a: nat)
    requires Integrity(cap) && CanStart(cap, cfg) && CanAsk(cfg)
    ensures Behavior(cap, cfg, inputs, states) && Outlives(states, a, beyond)
    ensures forall k, call :: a <= k < |inputs| && call in inputs[k].calls ==> !call.Decide?
  {
    hide Integrity, Next, Wf, CanStart, Behavior, Outlives, KeptAlive;
    inputs, states, a := TalkOutlivesTheTtl(cap, cfg, None, beyond);
    NoDecisionIn(beyond);
    forall k, call | a <= k < |inputs| && call in inputs[k].calls ensures !call.Decide? {
      assert inputs[k] == inputs[a..][k - a];
    }
  }

  lemma {:induction false} NoDecisionIn(n: nat)
    ensures forall t, call :: t in Rounds(None, n) && call in t.calls ==> !call.Decide?
  {
    if n > 0 {
      NoDecisionIn(n - 1);
    }
  }
}
