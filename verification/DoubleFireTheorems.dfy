/** Exactly when a replay may fire a consequential action twice, and exactly when
    it may deny one it has seen. */
module DoubleFireTheorems {
  import opened Wrappers
  import opened Artifact
  import opened Escalation
  import opened Protocol
  import opened DoubleFire
  import opened Scripts
  import opened FirstStep
  import ResultSafety

  /** No run fires again a step it has seen dispatching. */
  ghost predicate NeverFiredTwice(cap: Capability, cfg: Config)
    requires Integrity(cap)
  {
    forall inputs, states :: Behavior(cap, cfg, inputs, states) ==> !FiredTwice(Last(states).log)
  }

  /** No run that has seen a consequential dispatch ends claiming that nothing
      happened. */
  ghost predicate NeverDenied(cap: Capability, cfg: Config)
    requires Integrity(cap)
  {
    forall inputs, states :: Behavior(cap, cfg, inputs, states) ==> !Denial(Last(states))
  }

  predicate Denial(s: State) {
    Seen(s.log) != {} && ResultSafety.SaysNothingHappened(s)
  }

  // ------------------------------------------------- a run that cannot start

  predicate Idle(s: State) {
    (s.phase.Starting? || s.phase.Ended?) && (forall e :: e in s.log ==> e.Console?)
  }

  lemma IdleNext(cap: Capability, cfg: Config, s: State, t: Instant)
    requires Integrity(cap) && Wf(cap, s) && Idle(s) && !CanStart(cap, cfg)
      && (s.phase.Starting? ==> !Refused(cap, cfg))
    ensures Idle(Next(cap, cfg, s, t)) && Next(cap, cfg, s, t).phase.Ended?
  {
    hide Integrity;
    var extra := Accepted(s.hub, t.calls);
    assert forall x :: x in s.log + extra ==> x in s.log || x in extra;
  }

  lemma {:induction false} StaysIdle(cap: Capability, cfg: Config, inputs: seq<Instant>, states: seq<State>, k: nat)
    requires Integrity(cap) && Behavior(cap, cfg, inputs, states) && k < |states| && !CanStart(cap, cfg)
    ensures Idle(states[k]) && (states[k].phase.Starting? ==> !Refused(cap, cfg))
  {
    hide Integrity, Next, Wf, Idle, CanStart;
    if k == 0 {
      assert Idle(Initial(cap, cfg)) by { IdleInitial(cap, cfg); }
    } else {
      StaysIdle(cap, cfg, inputs, states, k - 1);
      IdleNext(cap, cfg, states[k - 1], inputs[k - 1]);
    }
  }

  lemma IdleInitial(cap: Capability, cfg: Config)
    ensures Idle(Initial(cap, cfg))
  {
  }

  lemma IdleIsSafe(s: State)
    requires Idle(s)
    ensures !FiredTwice(s.log) && Seen(s.log) == {}
  {
    forall j | 0 <= j < |s.log| ensures !s.log[j].Consequential? {
      assert s.log[j] in s.log;
    }
  }

  // -------------------------------------------------------------- witnesses

  /** With two consequential steps and an operator who approves a paused run, the
      second one is fired twice. */
  lemma AttendedWitness(cap: Capability, cfg: Config, a: nat, b: nat) returns (inputs: seq<Instant>, states: seq<State>)
    requires Integrity(cap) && CanStart(cap, cfg) && CanAsk(cfg) && IsRisky(cap, a) && IsRisky(cap, b) && a < b
    ensures Behavior(cap, cfg, inputs, states) && FiredTwice(Last(states).log)
  {
    hide Integrity, Next, Wf, FiredTwice, Seen, IsRisky, Pass, CanStart, Initial;
    assert b < |cap.steps| by { RiskyInRange(cap, b); }
    InitialWf(cap, cfg);
    var s0 := Initial(cap, cfg);
    Begins(cap, cfg);
    var s1 := Feed(cap, cfg, s0, Begin(cap));
    WalkTo(cap, cfg, s1, b, {a});
    var s2 := Feed(cap, cfg, s1, Walk(0, b, {a}));
    FeedStrike(cap, cfg, s2, true);
    var s3 := Feed(cap, cfg, s2, Strike(true));
    ApprovalReturns(cap, cfg, s3);
    var s4 := Feed(cap, cfg, s3, Approval(b));
    SeenGrows(s3.log, s4.log);
    StrikeAgain(cap, cfg, s4);
    FeedConcat(cap, cfg, s0, Begin(cap), Walk(0, b, {a}));
    FeedConcat(cap, cfg, s0, Begin(cap) + Walk(0, b, {a}), Strike(true));
    FeedConcat(cap, cfg, s0, Begin(cap) + Walk(0, b, {a}) + Strike(true), Approval(b));
    FeedConcat(cap, cfg, s0, Begin(cap) + Walk(0, b, {a}) + Strike(true) + Approval(b), Strike(false));
    inputs := Begin(cap) + Walk(0, b, {a}) + Strike(true) + Approval(b) + Strike(false);
    states := FeedIsBehavior(cap, cfg, inputs);
  }

  lemma RiskyInRange(cap: Capability, i: nat)
    requires IsRisky(cap, i)
    ensures i < |cap.steps|
  {
  }

  /** Unattended, a recovery that restarts between two consequential steps fires
      the second one twice. */
  lemma UnattendedWitness(cap: Capability, cfg: Config, a: nat, b: nat, c: nat)
    returns (inputs: seq<Instant>, states: seq<State>)
    requires Integrity(cap) && CanStart(cap, cfg) && RestartsBetween(cap, a, b, c)
    ensures Behavior(cap, cfg, inputs, states) && FiredTwice(Last(states).log)
  {
    hide Integrity, Next, Wf, FiredTwice, Seen, Pass, CanStart, Initial, Armed, IsRisky;
    assert b < |cap.steps| && a < |cap.steps| by { RiskyInRange(cap, b); RiskyInRange(cap, a); }
    InitialWf(cap, cfg);
    ArmedAtCheckpoint(cap, c);
    var n := |cap.steps|;
    var r := IndexOf(cap.steps, cap.conditions[c].classify.resume.stepId);
    var s0 := Initial(cap, cfg);
    Begins(cap, cfg);
    var s1 := Feed(cap, cfg, s0, Begin(cap));
    WalkTo(cap, cfg, s1, n, {a, b});
    var s2 := Feed(cap, cfg, s1, Walk(0, n, {a, b}));
    Restarts(cap, cfg, s2, c);
    var s3 := Feed(cap, cfg, s2, Restart(cap, c));
    SeenGrows(s2.log, s3.log);
    WalkTo(cap, cfg, s3, b, {});
    var s4 := Feed(cap, cfg, s3, Walk(r, b, {}));
    SeenGrows(s3.log, s4.log);
    StrikeAgain(cap, cfg, s4);
    FeedConcat(cap, cfg, s0, Begin(cap), Walk(0, n, {a, b}));
    FeedConcat(cap, cfg, s0, Begin(cap) + Walk(0, n, {a, b}), Restart(cap, c));
    FeedConcat(cap, cfg, s0, Begin(cap) + Walk(0, n, {a, b}) + Restart(cap, c), Walk(r, b, {}));
    FeedConcat(cap, cfg, s0, Begin(cap) + Walk(0, n, {a, b}) + Restart(cap, c) + Walk(r, b, {}), Strike(false));
    inputs := Begin(cap) + Walk(0, n, {a, b}) + Restart(cap, c) + Walk(r, b, {}) + Strike(false);
    states := FeedIsBehavior(cap, cfg, inputs);
  }

  lemma ArmedAtCheckpoint(cap: Capability, c: nat)
    requires Integrity(cap) && c < |cap.conditions|
    ensures Armed(cap, c, |cap.steps|) && ConditionOk(cap, cap.conditions[c])
  {
  }

  /** A late dispatch observed while a recoverable condition interrupts a risky
      step is forgotten once the operator is asked: the run ends in a failure. */
  lemma DenialWitness(cap: Capability, cfg: Config, i: nat, c: nat) returns (inputs: seq<Instant>, states: seq<State>)
    requires Integrity(cap) && CanStart(cap, cfg) && CanAsk(cfg) && Interruptible(cap, i, c)
    ensures Behavior(cap, cfg, inputs, states) && Denial(Last(states))
  {
    hide Integrity, Next, Wf, Seen, Pass, CanStart, Initial, Armed, IsRisky;
    assert i < |cap.steps| by { RiskyInRange(cap, i); }
    InitialWf(cap, cfg);
    var s0 := Initial(cap, cfg);
    Begins(cap, cfg);
    var s1 := Feed(cap, cfg, s0, Begin(cap));
    WalkTo(cap, cfg, s1, i, {});
    var s2 := Feed(cap, cfg, s1, Walk(0, i, {}));
    FeedStrike(cap, cfg, s2, false);
    var s3 := Feed(cap, cfg, s2, Strike(false));
    Denies(cap, cfg, s3, c);
    FeedConcat(cap, cfg, s0, Begin(cap), Walk(0, i, {}));
    FeedConcat(cap, cfg, s0, Begin(cap) + Walk(0, i, {}), Strike(false));
    FeedConcat(cap, cfg, s0, Begin(cap) + Walk(0, i, {}) + Strike(false), Interruption(c));
    inputs := Begin(cap) + Walk(0, i, {}) + Strike(false) + Interruption(c);
    states := FeedIsBehavior(cap, cfg, inputs);
  }

  // --------------------------------------------------------------- theorems

  /** The engine forgets an observed dispatch in some run exactly when there is an
      operator to ask and a recovery may interrupt a risky step after its action. */
  lemma NeverDeniedIff(cap: Capability, cfg: Config)
    requires Integrity(cap)
    ensures NeverDenied(cap, cfg) <==> !CanStart(cap, cfg) || !Exposed(cap, cfg)
  {
    hide Integrity, Next, Wf, Seen, CanStart, Behavior, Exposed;
    if CanStart(cap, cfg) && Exposed(cap, cfg) {
      var i, c := ExposedAt(cap, cfg);
      var inputs, states := DenialWitness(cap, cfg, i, c);
    } else {
      forall inputs, states | Behavior(cap, cfg, inputs, states) ensures states != [] && !Denial(Last(states)) {
        BehaviorIsLong(cap, cfg, inputs, states);
        if !CanStart(cap, cfg) {
          StaysIdle(cap, cfg, inputs, states, |states| - 1);
          IdleIsSafe(Last(states));
        } else {
          NotDenied(cap, cfg, inputs, states);
        }
      }
    }
  }

  lemma BehaviorIsLong(cap: Capability, cfg: Config, inputs: seq<Instant>, states: seq<State>)
    requires Integrity(cap) && Behavior(cap, cfg, inputs, states)
    ensures states != [] && Wf(cap, Last(states))
  {
    hide Integrity, Next, Wf;
  }

  lemma ExposedAt(cap: Capability, cfg: Config) returns (i: nat, c: nat)
    requires Integrity(cap) && Exposed(cap, cfg)
    ensures Interruptible(cap, i, c) && CanAsk(cfg)
  {
    hide Integrity, Interruptible;
    i, c :| Interruptible(cap, i, c);
  }

  lemma NotDenied(cap: Capability, cfg: Config, inputs: seq<Instant>, states: seq<State>)
    requires Integrity(cap) && Behavior(cap, cfg, inputs, states) && states != [] && !Exposed(cap, cfg)
    ensures !Denial(Last(states))
  {
    hide Integrity, Next, Wf, Exposed, Guarded, Seen, Behavior, FiredTwice;
    DoubleFire.Always(cap, cfg, inputs, states, |states| - 1);
    if Last(states).phase.Ended? {
      ResultSafety.ResultsAreHonest(cap, cfg, inputs, states);
    }
  }

  lemma ForgettingWitness(cap: Capability, cfg: Config, i: nat, c: nat)
    returns (inputs: seq<Instant>, states: seq<State>)
    requires Integrity(cap) && CanStart(cap, cfg) && CanAsk(cfg) && Interruptible(cap, i, c) && i > 0
    ensures Behavior(cap, cfg, inputs, states) && FiredTwice(Last(states).log)
  {
    hide Integrity, Next, Wf, Seen, Pass, CanStart, Initial, Armed, IsRisky, FiredTwice;
    assert i < |cap.steps| by { RiskyInRange(cap, i); }
    InitialWf(cap, cfg);
    var s0 := Initial(cap, cfg);
    Begins(cap, cfg);
    var s1 := Feed(cap, cfg, s0, Begin(cap));
    WalkTo(cap, cfg, s1, i, {});
    var s2 := Feed(cap, cfg, s1, Walk(0, i, {}));
    FeedStrike(cap, cfg, s2, false);
    var s3 := Feed(cap, cfg, s2, Strike(false));
    Forgets(cap, cfg, s3, c);
    var s4 := Feed(cap, cfg, s3, LateApproval(i, c));
    StrikeAgain(cap, cfg, s4);
    FeedConcat(cap, cfg, s0, Begin(cap), Walk(0, i, {}));
    FeedConcat(cap, cfg, s0, Begin(cap) + Walk(0, i, {}), Strike(false));
    FeedConcat(cap, cfg, s0, Begin(cap) + Walk(0, i, {}) + Strike(false), LateApproval(i, c));
    FeedConcat(cap, cfg, s0, Begin(cap) + Walk(0, i, {}) + Strike(false) + LateApproval(i, c), Strike(false));
    inputs := Begin(cap) + Walk(0, i, {}) + Strike(false) + LateApproval(i, c) + Strike(false);
    states := FeedIsBehavior(cap, cfg, inputs);
  }

  /** A first step interrupted, approved as complete, and restarted from the checkpoint. */
  lemma ReturningWitness(cap: Capability, cfg: Config, c: nat, d: nat)
    returns (inputs: seq<Instant>, states: seq<State>)
    requires Integrity(cap) && CanStart(cap, cfg) && CanAsk(cfg) && Returns(cap, c, d)
    ensures Behavior(cap, cfg, inputs, states) && FiredTwice(Last(states).log)
  {
    hide Integrity, Next, Wf, Seen, Pass, CanStart, Initial, Armed, IsRisky, FiredTwice;
    assert cap.steps != [] by { StepsExist(cap); }
    InitialWf(cap, cfg);
    ArmedAtCheckpoint(cap, d);
    var s0 := Initial(cap, cfg);
    Begins(cap, cfg);
    var s1 := Feed(cap, cfg, s0, Begin(cap));
    FeedStrike(cap, cfg, s1, false);
    var s2 := Feed(cap, cfg, s1, Strike(false));
    Completes(cap, cfg, s2, c);
    var s3 := Feed(cap, cfg, s2, LateCompletion(c));
    Restarts(cap, cfg, s3, d);
    var s4 := Feed(cap, cfg, s3, Restart(cap, d));
    SeenGrows(s3.log, s4.log);
    StrikeAgain(cap, cfg, s4);
    FeedConcat(cap, cfg, s0, Begin(cap), Strike(false));
    FeedConcat(cap, cfg, s0, Begin(cap) + Strike(false), LateCompletion(c));
    FeedConcat(cap, cfg, s0, Begin(cap) + Strike(false) + LateCompletion(c), Restart(cap, d));
    FeedConcat(cap, cfg, s0, Begin(cap) + Strike(false) + LateCompletion(c) + Restart(cap, d), Strike(false));
    inputs := Begin(cap) + Strike(false) + LateCompletion(c) + Restart(cap, d) + Strike(false);
    states := FeedIsBehavior(cap, cfg, inputs);
  }

  /** Some run fires an unguarded or refirable capability twice. */
  lemma SomeRunFiresTwice(cap: Capability, cfg: Config) returns (inputs: seq<Instant>, states: seq<State>)
    requires Integrity(cap) && CanStart(cap, cfg) && (!Guarded(cap, cfg) || Refirable(cap, cfg))
    ensures Behavior(cap, cfg, inputs, states) && FiredTwice(Last(states).log)
  {
    hide Integrity, Next, Wf, Seen, CanStart, Behavior, FiredTwice, IsRisky, Interruptible, RestartsBetween, Returns;
    if !Guarded(cap, cfg) {
      if CanAsk(cfg) {
        var a: nat, b: nat :| IsRisky(cap, a) && IsRisky(cap, b) && a != b;
        inputs, states := AttendedWitness(cap, cfg, if a < b then a else b, if a < b then b else a);
      } else {
        var a: nat, b: nat, c: nat :| RestartsBetween(cap, a, b, c);
        inputs, states := UnattendedWitness(cap, cfg, a, b, c);
      }
    } else if exists i, c :: i > 0 && Interruptible(cap, i, c) {
      var i: nat, c: nat :| i > 0 && Interruptible(cap, i, c);
      inputs, states := ForgettingWitness(cap, cfg, i, c);
    } else {
      var c: nat, d: nat :| Returns(cap, c, d);
      inputs, states := ReturningWitness(cap, cfg, c, d);
    }
  }

  /** A guarded capability that is exposed but not refirable has its only
      consequential step first, and no way back to it. */
  lemma ExposedIsContained(cap: Capability, cfg: Config)
    requires Integrity(cap) && Guarded(cap, cfg) && !Refirable(cap, cfg) && Exposed(cap, cfg)
    ensures Contained(cap)
  {
    hide Integrity, Returns, Armed, IsRisky, Usable;
    var i: nat, c: nat :| Interruptible(cap, i, c);
  }

  /** Exactly when no run fires again a step it has seen dispatching: the
      capability cannot start, or it is guarded (at most one consequential step when
      an operator may hand the flow back, otherwise no recovery that restarts
      between two of them) and not refirable (no recovery interrupts a
      consequential step the flow can come back to). */
  lemma NeverFiredTwiceIff(cap: Capability, cfg: Config)
    requires Integrity(cap)
    ensures NeverFiredTwice(cap, cfg) <==> !CanStart(cap, cfg) || (Guarded(cap, cfg) && !Refirable(cap, cfg))
  {
    hide Integrity, Next, Wf, Seen, CanStart, Behavior, Exposed, FiredTwice, Guarded, Refirable, Contained;
    if CanStart(cap, cfg) && (!Guarded(cap, cfg) || Refirable(cap, cfg)) {
      var inputs, states := SomeRunFiresTwice(cap, cfg);
      BehaviorIsLong(cap, cfg, inputs, states);
    } else {
      forall inputs, states | Behavior(cap, cfg, inputs, states) ensures states != [] && !FiredTwice(Last(states).log) {
        BehaviorIsLong(cap, cfg, inputs, states);
        if !CanStart(cap, cfg) {
          StaysIdle(cap, cfg, inputs, states, |states| - 1);
          IdleIsSafe(Last(states));
        } else if Exposed(cap, cfg) {
          ExposedIsContained(cap, cfg);
          FirstStep.Always(cap, cfg, inputs, states, |states| - 1);
        } else {
          DoubleFire.Always(cap, cfg, inputs, states, |states| - 1);
        }
      }
    }
  }
}
