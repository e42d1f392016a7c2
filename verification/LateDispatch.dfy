/** Mutations in the browser's own log, seen by the run or not: those sent by the time
    a consequential action returns are never denied, later ones may be. */
module LateDispatch {
  import opened Wrappers
  import opened Artifact
  import opened Escalation
  import opened Protocol
  import opened DoubleFire
  import opened Scripts
  import DoubleFireTheorems
  import opened ResultSafety

  /** At instant `k` a consequential action returned, and a mutation stood in the log
      since the step's mark. */
  predicate SentByReturn(cap: Capability, inputs: seq<Instant>, states: seq<State>, k: nat) {
    && k < |inputs| && k < |states| && states[k].phase == Act && IsRisky(cap, states[k].index)
    && states[k].mark <= |states[k].dispatched|
    && Mutations(states[k].dispatched[states[k].mark..] + inputs[k].sent) != []
  }

  /** At instant `k` a mutation left the browser while a consequential step, its action
      returned, waited for its postconditions. */
  predicate SentLate(cap: Capability, inputs: seq<Instant>, states: seq<State>, k: nat) {
    && k < |inputs| && k < |states| && IsRisky(cap, states[k].index)
    && (states[k].phase == Check || states[k].phase == Poll(true) || states[k].phase == Refresh(true))
    && Mutations(inputs[k].sent) != []
  }

  // -------------------------------------------------------- by the action's return

  lemma {:induction false} HazardLasts(cap: Capability, cfg: Config, inputs: seq<Instant>, states: seq<State>, k: nat,
                                       n: nat)
    requires Integrity(cap) && Behavior(cap, cfg, inputs, states) && k <= n < |states| && states[k].hazard.Some?
    ensures states[n].hazard.Some?
    decreases n
  {
    hide Integrity, Next, Wf;
    if k < n {
      HazardLasts(cap, cfg, inputs, states, k, n - 1);
      HazardStays(cap, cfg, states[n - 1], inputs[n - 1]);
    }
  }

  /** Over every run, attended or not: a mutation sent by the time a consequential
      action returns is never denied. */
  lemma SentByReturnIsNeverDenied(cap: Capability, cfg: Config, inputs: seq<Instant>, states: seq<State>, k: nat)
    requires Integrity(cap) && Behavior(cap, cfg, inputs, states) && SentByReturn(cap, inputs, states, k)
    ensures !SaysNothingHappened(Last(states))
  {
    hide Integrity, Next, Wf, IsRisky, Mutations;
    ReturnRaisesHazard(cap, cfg, states[k], inputs[k]);
    HazardLasts(cap, cfg, inputs, states, k + 1, |states| - 1);
    if Last(states).phase.Ended? {
      ResultsAreHonest(cap, cfg, inputs, states);
    }
  }

  // ------------------------------------------------------------------------ later

  /** No run in which a mutation left late says that nothing happened. */
  ghost predicate LateIsNeverDenied(cap: Capability, cfg: Config)
    requires Integrity(cap)
  {
    forall inputs, states, k ::
      Behavior(cap, cfg, inputs, states) && SentLate(cap, inputs, states, k) ==> !SaysNothingHappened(Last(states))
  }

  /** The mutation leaves as the postconditions come to hold. */
  function Slipping(i: nat): Instant { Holding(i).(sent := [POST]) }

  lemma SlipPasses(cap: Capability, cfg: Config, s: State)
    requires Integrity(cap) && Wf(cap, s) && s.phase == Check && s.index < |cap.steps| && s.stale == {} && Calm(s.hub)
    requires s.hazard.None?
    ensures var r := Next(cap, cfg, s, Slipping(s.index)); Ready(cap, r) && r.index == s.index + 1 && r.hazard.None?
  {
    hide Integrity;
    ElapseQuiet(cfg, s, Slipping(s.index));
  }

  /** The checkpoint's time runs out on a page that cannot be read. */
  function Breaking(s: State): Instant {
    QUIET.(elapsed := if s.deadline > s.now then s.deadline - s.now else 0, usable := false)
  }

  lemma CheckpointBreaks(cap: Capability, cfg: Config, s: State)
    requires Integrity(cap) && Wf(cap, s) && s.phase == Poll(true) && Calm(s.hub) && s.hazard.None?
    ensures SaysNothingHappened(Next(cap, cfg, s, Breaking(s)))
  {
    hide Integrity, FirstHit;
    ElapseQuiet(cfg, s, Breaking(s));
    NoHit(cap, s.index, Suppressed(cap, s), 0);
  }

  /** The script up to the late dispatch, and the state it leads to. */
  lemma Slips(cap: Capability, cfg: Config, a: nat) returns (before: seq<Instant>, s: State)
    requires Integrity(cap) && CanStart(cap, cfg) && IsRisky(cap, a)
    ensures Wf(cap, Initial(cap, cfg)) && s == Feed(cap, cfg, Initial(cap, cfg), before)
    ensures s.phase == Check && s.index == a && s.stale == {} && Calm(s.hub) && s.hazard.None?
  {
    hide Integrity, Next, Wf, CanStart, Initial, IsRisky, Feed, Walk, Begin, Strike;
    assert a < |cap.steps| by { DoubleFireTheorems.RiskyInRange(cap, a); }
    InitialWf(cap, cfg);
    var s0 := Initial(cap, cfg);
    Begins(cap, cfg);
    var s1 := Feed(cap, cfg, s0, Begin(cap));
    WalkTo(cap, cfg, s1, a, {});
    var s2 := Feed(cap, cfg, s1, Walk(0, a, {}));
    FeedStrike(cap, cfg, s2, false);
    FeedConcat(cap, cfg, s0, Begin(cap), Walk(0, a, {}));
    FeedConcat(cap, cfg, s0, Begin(cap) + Walk(0, a, {}), Strike(false));
    before := Begin(cap) + Walk(0, a, {}) + Strike(false);
    s := Feed(cap, cfg, s0, before);
  }

  /** From the late dispatch to a failure at the checkpoint. */
  lemma SlipFails(cap: Capability, cfg: Config, s: State) returns (after: seq<Instant>)
    requires Integrity(cap) && Wf(cap, s) && s.phase == Check && s.index < |cap.steps| && s.stale == {} && Calm(s.hub)
    requires s.hazard.None?
    ensures after != [] && after[0] == Slipping(s.index) && SaysNothingHappened(Feed(cap, cfg, s, after))
  {
    hide Integrity, Next, Wf, Feed, Walk;
    var n := |cap.steps|;
    var slip := Slipping(s.index);
    SlipPasses(cap, cfg, s);
    var s1 := Next(cap, cfg, s, slip);
    WalkTo(cap, cfg, s1, n, {});
    var walk := Walk(s1.index, n, {});
    var s2 := Feed(cap, cfg, s1, walk);
    CheckpointUnmet(cap, cfg, s2);
    var s3 := Next(cap, cfg, s2, QUIET);
    CheckpointBreaks(cap, cfg, s3);
    FeedTwo(cap, cfg, s2, QUIET, Breaking(s3));
    FeedOne(cap, cfg, s, slip);
    FeedConcat(cap, cfg, s, [slip], walk);
    FeedConcat(cap, cfg, s, [slip] + walk, [QUIET, Breaking(s3)]);
    after := [slip] + walk + [QUIET, Breaking(s3)];
  }

  /** A consequential step whose postconditions hold as its mutation leaves: nothing is
      recorded, and a later failure is a plain one. */
  lemma LateWitness(cap: Capability, cfg: Config, a: nat) returns (inputs: seq<Instant>, states: seq<State>, k: nat)
    requires Integrity(cap) && CanStart(cap, cfg) && IsRisky(cap, a)
    ensures Behavior(cap, cfg, inputs, states) && SentLate(cap, inputs, states, k) && SaysNothingHappened(Last(states))
  {
    hide Integrity, Next, Wf, CanStart, Initial, IsRisky, Feed;
    assert a < |cap.steps| by { DoubleFireTheorems.RiskyInRange(cap, a); }
    var before, s := Slips(cap, cfg, a);
    var after := SlipFails(cap, cfg, s);
    inputs, k := before + after, |before|;
    states := FeedIsBehavior(cap, cfg, inputs);
    FeedConcat(cap, cfg, Initial(cap, cfg), before, after);
    StateIsFeed(cap, cfg, inputs, states, k);
    assert inputs[..k] == before && inputs[k] == after[0];
    assert Mutations([POST]) == [POST] by { assert [POST][1..] == []; }
  }

  /** Exactly when a run may deny a mutation that left after its action returned:
      whenever it can start and has a consequential step. */
  lemma LateIsNeverDeniedIff(cap: Capability, cfg: Config)
    requires Integrity(cap)
    ensures LateIsNeverDenied(cap, cfg) <==> !CanStart(cap, cfg) || !HasRisky(cap)
  {
    hide Integrity, Next, Wf, CanStart, Behavior, SaysNothingHappened;
    if CanStart(cap, cfg) && HasRisky(cap) {
      var a: nat :| a < |cap.steps| && cap.steps[a].risk == Risky;
      var inputs, states, k := LateWitness(cap, cfg, a);
      DoubleFireTheorems.BehaviorIsLong(cap, cfg, inputs, states);
    } else {
      forall inputs, states, k: nat | Behavior(cap, cfg, inputs, states)
        ensures !SentLate(cap, inputs, states, k) && states != []
      {
        DoubleFireTheorems.BehaviorIsLong(cap, cfg, inputs, states);
        if k < |states| && !CanStart(cap, cfg) {
          DoubleFireTheorems.StaysIdle(cap, cfg, inputs, states, k);
        }
      }
    }
  }
}
