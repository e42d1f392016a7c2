/** Where recoveries resume, what they ran before, and what a run that succeeds has
    seen of its steps. */
module Recoveries {
  import opened Wrappers
  import opened Artifact
  import opened Escalation
  import opened Protocol
  import opened Flow
  import opened Histories
  import opened Interventions
  import opened DoubleFire
  import opened Scripts
  import DoubleFireTheorems
  import Progress
  import ResultSafety

  // ------------------------------------------------------------------ resuming

  /** A recovery that is under way is from a recognized condition, and is to go on
      where that condition says. */
  predicate Aimed(cap: Capability, s: State) {
    Recuperating(s.phase) ==>
      && Aims(cap, s.phase.c, s.index, s.phase.resumeAt)
      && Armable(cap, s.phase.c, s.index) && cap.conditions[s.phase.c].maxFires > 0
  }

  lemma {:induction false} AlwaysAimed(cap: Capability, cfg: Config, inputs: seq<Instant>, states: seq<State>, k: nat)
    requires Integrity(cap) && Behavior(cap, cfg, inputs, states) && k < |states|
    ensures Aimed(cap, states[k])
  {
    hide Integrity, Next, Wf, Decides, Elapse, Aims, Armable, Counts;
    if k > 0 {
      AlwaysAimed(cap, cfg, inputs, states, k - 1);
      if states[k - 1].phase.Ended? {
        EndedStays(cap, cfg, inputs, states, k - 1);
      } else {
        RunMoves(cap, cfg, inputs, states, k - 1);
      }
    }
  }

  /** Over every run: when a recovery ends in a visit, the flow stands at the very step
      it left if the condition says to retry it, and else at the step it names. */
  lemma RecoveriesResume(cap: Capability, cfg: Config, inputs: seq<Instant>, states: seq<State>, k: nat)
    requires Integrity(cap) && Behavior(cap, cfg, inputs, states) && k < |inputs|
    requires Recuperating(states[k].phase) && InVisit(states[k + 1].phase)
    ensures var cond := cap.conditions[states[k].phase.c];
      && states[k].phase.c < |cap.conditions| && cond.classify.Recoverable?
      && Adds(states[k], states[k + 1], Visited(states[k + 1].index))
      && match cond.classify.resume
         case RetryCurrentStep => states[k + 1].index == states[k].index
         case RestartFrom(id) => states[k + 1].index < |cap.steps| && cap.steps[states[k + 1].index].id == id
  {
    hide Integrity, Next, Wf, Elapse, Evolves;
    AlwaysAimed(cap, cfg, inputs, states, k);
    RunMoves(cap, cfg, inputs, states, k);
    assert Wf(cap, states[k]);
  }

  /** Step `j` of the recovery from `c` was completed at `m`, and that recovery has been
      going on up to `k`. */
  ghost predicate Completed(inputs: seq<Instant>, states: seq<State>, m: nat, k: nat, c: nat, j: nat) {
    && m < k < |states| && m < |inputs|
    && states[m].phase.RecoverCheck? && states[m].phase.c == c && states[m].phase.k == j && inputs[m].recovered
    && forall i :: m < i < k ==> Recuperating(states[i].phase) && states[i].phase.c == c
  }

  lemma {:induction false} EarlierStepsCompleted(cap: Capability, cfg: Config, inputs: seq<Instant>, states: seq<State>,
                                                 k: nat, j: nat)
    returns (m: nat)
    requires Integrity(cap) && Behavior(cap, cfg, inputs, states) && k < |states|
    requires Recuperating(states[k].phase) && j < states[k].phase.k
    ensures Completed(inputs, states, m, k, states[k].phase.c, j)
  {
    hide Integrity, Next, Wf, Decides, Elapse, Aims, Armable, Counts;
    assert k > 0 by { NotAtFirst(cap, cfg); }
    if states[k - 1].phase.Ended? {
      EndedStays(cap, cfg, inputs, states, k - 1);
    }
    RunMoves(cap, cfg, inputs, states, k - 1);
    if states[k - 1].phase.RecoverCheck? && states[k].phase.RecoverAct? && j == states[k - 1].phase.k {
      m := k - 1;
    } else {
      m := EarlierStepsCompleted(cap, cfg, inputs, states, k - 1, j);
    }
  }

  lemma NotAtFirst(cap: Capability, cfg: Config)
    ensures !Recuperating(Initial(cap, cfg).phase)
  {
  }

  /** Over every run: a recovery that ends in a visit has completed every one of its
      condition's steps. */
  lemma RecoveriesRunInFull(cap: Capability, cfg: Config, inputs: seq<Instant>, states: seq<State>, k: nat, j: nat)
    returns (m: nat)
    requires Integrity(cap) && Behavior(cap, cfg, inputs, states) && k < |inputs|
    requires Recuperating(states[k].phase) && InVisit(states[k + 1].phase)
    requires states[k].phase.c < |cap.conditions| && cap.conditions[states[k].phase.c].classify.Recoverable?
    requires j < |cap.conditions[states[k].phase.c].classify.recovery|
    ensures Completed(inputs, states, m, k + 1, states[k].phase.c, j)
  {
    hide Integrity, Next, Wf, Elapse, Evolves, Said, Visits;
    RunMoves(cap, cfg, inputs, states, k);
    assert Wf(cap, states[k]);
    if j < states[k].phase.k {
      m := EarlierStepsCompleted(cap, cfg, inputs, states, k, j);
    } else {
      m := k;
    }
  }

  // --------------------------------------------------------------- fire caps

  /** A recoverable condition named `id` is recognized. */
  ghost predicate Hit(cap: Capability, cfg: Config, e: State, t: Instant, id: string) {
    && e.phase.Poll? && !Interrupted(cfg, e)
    && exists c: nat :: SpeaksFirst(cap, e, t, c) && c < |cap.conditions| && cap.conditions[c].classify.Recoverable?
                        && cap.conditions[c].id == id
  }

  /** How often that happened before instant `k`. */
  ghost function Hits(cap: Capability, cfg: Config, inputs: seq<Instant>, states: seq<State>, k: nat, id: string): nat
    requires k <= |inputs| && k <= |states|
  {
    if k == 0 then 0 else
      var hit := Hit(cap, cfg, Elapse(cfg, states[k - 1], inputs[k - 1]), inputs[k - 1], id);
      Hits(cap, cfg, inputs, states, k - 1, id) + if hit then 1 else 0
  }

  lemma OneSpeaksFirst(cap: Capability, e: State, t: Instant, c: nat, d: nat)
    requires SpeaksFirst(cap, e, t, c) && SpeaksFirst(cap, e, t, d)
    ensures c == d && c < |cap.conditions|
  {
  }

  lemma HitCounts(cap: Capability, cfg: Config, e: State, t: Instant, r: State, id: string)
    requires Wf(cap, e) && Decides(cap, cfg, e, t, r) && Evolves(cap, cfg, e, t, r)
    ensures Times(r, id) == Times(e, id) + if Hit(cap, cfg, e, t, id) then 1 else 0
  {
    hide Continues, SpeaksFirst, Decides, PollDecides;
    if e.phase.Poll? {
      PollCounts(cap, cfg, e, t, e.phase.acted, r, id);
    } else {
      assert r.fires == e.fires;
    }
  }

  lemma PollCounts(cap: Capability, cfg: Config, e: State, t: Instant, acted: bool, r: State, id: string)
    requires Wf(cap, e) && e.phase == Poll(acted) && Decides(cap, cfg, e, t, r)
    ensures Times(r, id) == Times(e, id) + if Hit(cap, cfg, e, t, id) then 1 else 0
  {
    hide Silent, SpeaksFirst, Said, RecoveryDecides, Dispatching;
    if !Interrupted(cfg, e) && !Silent(cap, e, t) {
      var c: nat :| SpeaksFirst(cap, e, t, c) && Recognized(cap, cfg, e, c, acted, r);
      forall d: nat | SpeaksFirst(cap, e, t, d) ensures d == c {
        OneSpeaksFirst(cap, e, t, c, d);
      }
      if cap.conditions[c].classify.Recoverable? {
        RecoveryCounts(cap, cfg, e, c, acted, r);
      }
    } else {
      if !Interrupted(cfg, e) {
        NobodySpeaks(cap, e, t);
      }
    }
  }

  lemma NobodySpeaks(cap: Capability, e: State, t: Instant)
    requires Silent(cap, e, t)
    ensures forall c: nat :: !SpeaksFirst(cap, e, t, c)
  {
    hide Stale;
  }

  /** The consequential step being visited has acted: it is never run again by itself. */
  predicate Finished(cap: Capability, s: State, acted: bool) {
    acted && s.index < |cap.steps| && cap.steps[s.index].risk == Risky
  }

  lemma RecoveryCounts(cap: Capability, cfg: Config, e: State, c: nat, acted: bool, r: State)
    requires c < |cap.conditions| && cap.conditions[c].classify.Recoverable?
    requires RecoveryDecides(cap, cfg, e, c, acted, r)
    ensures r.fires == e.fires[cap.conditions[c].id := Times(e, cap.conditions[c].id) + 1]
    ensures r.phase.RecoverAct? ==> r.phase.c == c && Times(e, cap.conditions[c].id) < cap.conditions[c].maxFires
    ensures Times(e, cap.conditions[c].id) >= cap.conditions[c].maxFires || Finished(cap, e, acted) ==>
      r.phase.Asking? || GoesWrong(r.phase)
    ensures e.hazard.None? && !Finished(cap, e, acted) ==>
      Times(e, cap.conditions[c].id) < cap.conditions[c].maxFires ==> r.phase.RecoverAct?
  {
    hide Aims, Dispatching;
  }

  /** Over every run: the fires of a name are the recognitions so far of the recoverable
      conditions that have it. */
  lemma {:induction false} FiresAreHits(cap: Capability, cfg: Config, inputs: seq<Instant>, states: seq<State>, k: nat,
                                        id: string)
    requires Integrity(cap) && Behavior(cap, cfg, inputs, states) && k < |states|
    ensures Times(states[k], id) == Hits(cap, cfg, inputs, states, k, id)
  {
    hide Integrity, Next, Wf, Decides, Elapse, Evolves, Hit;
    if k > 0 {
      FiresAreHits(cap, cfg, inputs, states, k - 1, id);
      var e := Elapse(cfg, states[k - 1], inputs[k - 1]);
      if states[k - 1].phase.Ended? {
        EndedStays(cap, cfg, inputs, states, k - 1);
        NoHit(cap, cfg, states[k - 1], inputs[k - 1], id);
      } else {
        RunMoves(cap, cfg, inputs, states, k - 1);
        HitCounts(cap, cfg, e, inputs[k - 1], states[k], id);
      }
    }
  }

  lemma NoHit(cap: Capability, cfg: Config, s: State, t: Instant, id: string)
    requires s.phase.Ended?
    ensures !Hit(cap, cfg, Elapse(cfg, s, t), t, id)
  {
    hide SpeaksFirst;
  }

  /** Over every run: a condition is recovered from while conditions of its name were
      recognized less often than it allows, unless a consequential step has just acted
      or is on record; after that it goes wrong, or an operator is asked. */
  lemma CapsAreKept(cap: Capability, cfg: Config, inputs: seq<Instant>, states: seq<State>, k: nat, c: nat)
    requires Integrity(cap) && Behavior(cap, cfg, inputs, states) && k < |inputs| && states[k].phase.Poll?
    requires c < |cap.conditions| && cap.conditions[c].classify.Recoverable?
    requires var e := Elapse(cfg, states[k], inputs[k]); !Interrupted(cfg, e) && SpeaksFirst(cap, e, inputs[k], c)
    ensures var r := states[k + 1]; var hits := Hits(cap, cfg, inputs, states, k, cap.conditions[c].id);
      && (r.phase.RecoverAct? ==> r.phase.c == c && hits < cap.conditions[c].maxFires)
      && (hits >= cap.conditions[c].maxFires || Finished(cap, states[k], states[k].phase.acted) ==>
            r.phase.Asking? || GoesWrong(r.phase))
      && (&& states[k].hazard.None? && hits < cap.conditions[c].maxFires
          && !Finished(cap, states[k], states[k].phase.acted) ==>
            r.phase.RecoverAct?)
  {
    hide Integrity, Next, Wf, Elapse, Evolves, Hits, SpeaksFirst, Silent, RecoveryDecides, Said;
    RunMoves(cap, cfg, inputs, states, k);
    FiresAreHits(cap, cfg, inputs, states, k, cap.conditions[c].id);
    var e, t, r := Elapse(cfg, states[k], inputs[k]), inputs[k], states[k + 1];
    if Silent(cap, e, t) {
      NobodySpeaks(cap, e, t);
      assert false;
    }
    var d: nat :| SpeaksFirst(cap, e, t, d) && Recognized(cap, cfg, e, d, e.phase.acted, r);
    OneSpeaksFirst(cap, e, t, c, d);
    RecoveryCounts(cap, cfg, e, c, e.phase.acted, r);
  }

  // ---------------------------------------------------------- nothing is skipped

  /** The postconditions of step `i` were seen holding before instant `k`, by a visit
      that was waiting for them. */
  ghost predicate SeenDone(inputs: seq<Instant>, states: seq<State>, k: nat, i: nat) {
    exists m :: 0 <= m < k && m < |states| && m < |inputs|
      && states[m].phase == Check && states[m].index == i && i in inputs[m].posts
  }

  /** No operator handed the flow back. */
  predicate NoHandback(s: State) {
    forall e :: e in s.log ==> !e.Released?
  }

  /** No recovery restarts beyond the step its condition is armed after. */
  ghost predicate SkipFree(cap: Capability)
    requires Integrity(cap)
  {
    forall c: nat :: !Skips(cap, c)
  }

  predicate Skips(cap: Capability, c: nat)
    requires Integrity(cap)
  {
    && Usable(cap, c) && cap.conditions[c].classify.resume.RestartFrom? && ConditionOk(cap, cap.conditions[c])
    && IndexOf(cap.steps, cap.conditions[c].armedAfter) < IndexOf(cap.steps, cap.conditions[c].classify.resume.stepId)
  }

  lemma AimsBack(cap: Capability, c: nat, here: nat, index: nat)
    requires Integrity(cap) && SkipFree(cap) && Aims(cap, c, here, index) && Armable(cap, c, here)
    requires cap.conditions[c].maxFires > 0
    ensures index <= here
  {
    if cap.conditions[c].classify.resume.RestartFrom? {
      assert ConditionOk(cap, cap.conditions[c]) && Usable(cap, c) && !Skips(cap, c);
      IndexOfUnique(cap.steps, index);
      var i :| 0 <= i <= here && i < |cap.steps| && cap.steps[i].id == cap.conditions[c].armedAfter;
      IndexOfUnique(cap.steps, i);
    }
  }

  /** Where a flow stands that nobody handed back, every earlier step was seen done. */
  lemma {:induction false} EarlierStepsSeen(cap: Capability, cfg: Config, inputs: seq<Instant>, states: seq<State>,
                                            k: nat)
    requires Integrity(cap) && Behavior(cap, cfg, inputs, states) && k < |states| && SkipFree(cap)
    requires NoHandback(states[k])
    ensures !states[k].phase.Scan? && forall i :: 0 <= i < states[k].index ==> SeenDone(inputs, states, k, i)
  {
    hide Integrity, Next, Wf, Elapse, Aims, Armable, Counts, Decides;
    if k > 0 {
      var s, r := states[k - 1], states[k];
      if s.phase.Ended? {
        EndedStays(cap, cfg, inputs, states, k - 1);
        EarlierStepsSeen(cap, cfg, inputs, states, k - 1);
      } else {
        RunMoves(cap, cfg, inputs, states, k - 1);
        LogsGrow(cap, cfg, inputs, states, k - 1);
        forall e | e in s.log ensures !e.Released? {
          var i :| 0 <= i < |s.log| && s.log[i] == e;
          assert r.log[i] == e;
        }
        EarlierStepsSeen(cap, cfg, inputs, states, k - 1);
        if r.index != s.index {
          Progress.MovesAreJustified(cap, cfg, inputs, states, k - 1);
          if s.phase.RecoverCheck? {
            AlwaysAimed(cap, cfg, inputs, states, k - 1);
            AimsBack(cap, s.phase.c, s.index, s.phase.resumeAt);
          }
        }
      }
      forall i | 0 <= i < r.index ensures SeenDone(inputs, states, k, i) {
        if i < s.index {
          SeenStays(inputs, states, k - 1, i);
        } else {
          assert s.phase == Check && s.index == i && i in inputs[k - 1].posts;
        }
      }
    }
  }

  lemma LogsGrow(cap: Capability, cfg: Config, inputs: seq<Instant>, states: seq<State>, k: nat)
    requires Integrity(cap) && Behavior(cap, cfg, inputs, states) && k < |inputs|
    ensures states[k].log <= states[k + 1].log
  {
    hide Integrity, Next, Wf, Elapse, Decides, Continues;
    if states[k].phase.Ended? {
      EndedStays(cap, cfg, inputs, states, k);
    } else {
      RunMoves(cap, cfg, inputs, states, k);
    }
  }

  lemma SeenStays(inputs: seq<Instant>, states: seq<State>, k: nat, i: nat)
    requires SeenDone(inputs, states, k, i)
    ensures SeenDone(inputs, states, k + 1, i)
  {
  }

  // -------------------------------------------------- the run that skips a step

  /** No run without a handback reports success past a step it has not seen done. */
  ghost predicate NeverSkips(cap: Capability, cfg: Config)
    requires Integrity(cap)
  {
    forall inputs, states, i :: Behavior(cap, cfg, inputs, states) ==> !SkippedTo(cap, inputs, states, i)
  }

  /** The run was never handed back and succeeded, and step `i` was not seen done. */
  ghost predicate SkippedTo(cap: Capability, inputs: seq<Instant>, states: seq<State>, i: nat) {
    && states != [] && Last(states).phase == Ended(Success) && NoHandback(Last(states))
    && i < |cap.steps| && !SeenDone(inputs, states, |states| - 1, i)
  }

  lemma NothingSkipped(cap: Capability, cfg: Config, inputs: seq<Instant>, states: seq<State>, i: nat)
    requires Integrity(cap) && Behavior(cap, cfg, inputs, states) && SkipFree(cap)
    ensures !SkippedTo(cap, inputs, states, i)
  {
    hide Integrity, Next, Wf, SeenDone, SkipFree;
    if SkippedTo(cap, inputs, states, i) {
      EarlierStepsSeen(cap, cfg, inputs, states, |states| - 1);
      ResultSafety.ResultsAreHonest(cap, cfg, inputs, states);
    }
  }

  lemma StartFires(cap: Capability, cfg: Config, s: State, c: nat)
    requires Integrity(cap) && Wf(cap, s) && s.phase == Poll(false) && s.stale == {} && Calm(s.hub)
      && s.index < |cap.steps|
    requires Usable(cap, c) && Armed(cap, c, s.index) && s.fires == map[] && s.hazard.None?
    requires cap.conditions[c].classify.resume.RestartFrom? && ConditionOk(cap, cap.conditions[c])
    ensures var r := Next(cap, cfg, s, Showing(c));
      && r.phase == RecoverAct(c, 0, IndexOf(cap.steps, cap.conditions[c].classify.resume.stepId))
      && r.hub == s.hub && r.hazard.None? && r.kept == s.kept && r.escalations == s.escalations
  {
    hide Integrity, FirstHit, Armed;
    ElapseQuiet(cfg, s, Showing(c));
    OnlyHit(cap, s.index, c, 0);
  }

  /** The outputs from `k` on, and the observer. */
  function Reading(cap: Capability, cfg: Config, k: nat): seq<Instant>
    decreases cap.outputs - k
  {
    if k < cap.outputs then [QUIET] + Reading(cap, cfg, k + 1) else if cfg.observes then [QUIET] else []
  }

  lemma {:induction false} ReadsOut(cap: Capability, cfg: Config, s: State, k: nat)
    requires Integrity(cap) && Wf(cap, s) && k <= cap.outputs && Reads(cap, cfg, s, s, k)
    ensures var r := Feed(cap, cfg, s, Reading(cap, cfg, k));
      r.phase == Ended(Success) && r.escalations == s.escalations
    decreases cap.outputs - k
  {
    hide Integrity;
    ElapseQuiet(cfg, s, QUIET);
    if k < cap.outputs {
      ReadsOut(cap, cfg, Next(cap, cfg, s, QUIET), k + 1);
      FeedOne(cap, cfg, s, QUIET);
      FeedConcat(cap, cfg, s, [QUIET], Reading(cap, cfg, k + 1));
    } else if cfg.observes {
      FeedOne(cap, cfg, s, QUIET);
    }
  }

  lemma CheckpointHolds(cap: Capability, cfg: Config, s: State)
    requires Integrity(cap) && Wf(cap, s) && Ready(cap, s) && s.index == |cap.steps|
    ensures var r := Next(cap, cfg, s, QUIET.(checkpoint := true));
      Reads(cap, cfg, r, r, 0) && r.escalations == s.escalations
  {
    hide Integrity;
    ElapseQuiet(cfg, s, QUIET.(checkpoint := true));
  }

  /** A recovery from `c` at the step it is armed after, and the walk from where it
      restarts to the checkpoint, to the outputs. */
  function Skipping(cap: Capability, cfg: Config, c: nat): seq<Instant>
    requires Integrity(cap) && Skips(cap, c)
  {
    var i := IndexOf(cap.steps, cap.conditions[c].armedAfter);
    var j := IndexOf(cap.steps, cap.conditions[c].classify.resume.stepId);
    Begin(cap) + Walk(0, i, {}) + [QUIET, Showing(c)] + Recovering(|cap.conditions[c].classify.recovery|)
    + Walk(j, |cap.steps|, {}) + [QUIET.(checkpoint := true)] + Reading(cap, cfg, 0)
  }

  /** The first half: to the recovery's first step. */
  lemma SkipStarts(cap: Capability, cfg: Config, c: nat) returns (s: State)
    requires Integrity(cap) && CanStart(cap, cfg) && Skips(cap, c)
    ensures Wf(cap, Initial(cap, cfg)) && Wf(cap, s)
    ensures var i := IndexOf(cap.steps, cap.conditions[c].armedAfter);
      s == Feed(cap, cfg, Initial(cap, cfg), Begin(cap) + Walk(0, i, {}) + [QUIET, Showing(c)])
    ensures s.phase == RecoverAct(c, 0, IndexOf(cap.steps, cap.conditions[c].classify.resume.stepId))
    ensures Calm(s.hub) && s.hazard.None? && s.kept == {} && s.escalations == 0
  {
    hide Integrity, Next, Wf, CanStart, Initial, Feed, Walk, Begin, Armed;
    var i := IndexOf(cap.steps, cap.conditions[c].armedAfter);
    InitialWf(cap, cfg);
    var s0 := Initial(cap, cfg);
    Scripts.Begins(cap, cfg);
    var s1 := Feed(cap, cfg, s0, Begin(cap));
    WalkTo(cap, cfg, s1, i, {});
    var s2 := Feed(cap, cfg, s1, Walk(0, i, {}));
    SnapshotQuiet(cap, cfg, s2);
    var s3 := Next(cap, cfg, s2, QUIET);
    assert Armed(cap, c, i) by { ArmedAfterIt(cap, c); }
    StartFires(cap, cfg, s3, c);
    FeedTwo(cap, cfg, s2, QUIET, Showing(c));
    FeedConcat(cap, cfg, s0, Begin(cap), Walk(0, i, {}));
    FeedConcat(cap, cfg, s0, Begin(cap) + Walk(0, i, {}), [QUIET, Showing(c)]);
    s := Next(cap, cfg, s3, Showing(c));
  }

  lemma ArmedAfterIt(cap: Capability, c: nat)
    requires Integrity(cap) && c < |cap.conditions|
    ensures ConditionOk(cap, cap.conditions[c]) && Armed(cap, c, IndexOf(cap.steps, cap.conditions[c].armedAfter))
  {
  }

  /** The second half: through the recovery, to the end. */
  lemma SkipEnds(cap: Capability, cfg: Config, s: State, c: nat, j: nat)
    requires Integrity(cap) && Wf(cap, s) && s.phase == RecoverAct(c, 0, j) && Calm(s.hub) && s.kept == {}
      && s.hazard.None?
    ensures var n := |cap.conditions[c].classify.recovery|;
      var r := Feed(cap, cfg, s, Recovering(n) + Walk(j, |cap.steps|, {}) + [QUIET.(checkpoint := true)]
          + Reading(cap, cfg, 0));
      r.phase == Ended(Success) && r.escalations == s.escalations
  {
    hide Integrity, Next, Feed, Walk, Recovering, Reading, Reads;
    var n := |cap.conditions[c].classify.recovery|;
    var done := QUIET.(checkpoint := true);
    Recovers(cap, cfg, s, c, 0, j);
    var s1 := Feed(cap, cfg, s, Recovering(n));
    WalkTo(cap, cfg, s1, |cap.steps|, {});
    var walk := Walk(j, |cap.steps|, {});
    var s2 := Feed(cap, cfg, s1, walk);
    CheckpointHolds(cap, cfg, s2);
    var s3 := Next(cap, cfg, s2, done);
    ReadsOut(cap, cfg, s3, 0);
    FeedConcat(cap, cfg, s, Recovering(n), walk);
    FeedConcat(cap, cfg, s, Recovering(n) + walk, [done]);
    FeedOne(cap, cfg, s2, done);
    FeedConcat(cap, cfg, s, Recovering(n) + walk + [done], Reading(cap, cfg, 0));
  }

  predicate PostsNothingAt(ts: seq<Instant>, i: nat) {
    forall t :: t in ts ==> i !in t.posts
  }

  lemma {:induction false} WalkPostsElsewhere(i: nat, j: nat, skipped: nat)
    requires i <= j && (skipped < i || skipped >= j)
    ensures PostsNothingAt(Walk(i, j, {}), skipped)
    decreases j - i
  {
    if i < j {
      WalkPostsElsewhere(i + 1, j, skipped);
    }
  }

  lemma {:induction false} RecoveringPostsNothing(n: nat, skipped: nat)
    ensures PostsNothingAt(Recovering(n), skipped)
  {
    if n > 0 {
      RecoveringPostsNothing(n - 1, skipped);
    }
  }

  lemma {:induction false} ReadingPostsNothing(cap: Capability, cfg: Config, k: nat, skipped: nat)
    ensures PostsNothingAt(Reading(cap, cfg, k), skipped)
    decreases cap.outputs - k
  {
    if k < cap.outputs {
      ReadingPostsNothing(cap, cfg, k + 1, skipped);
    }
  }

  lemma SkippingPostsNothing(cap: Capability, cfg: Config, c: nat)
    requires Integrity(cap) && Skips(cap, c)
    ensures PostsNothingAt(Skipping(cap, cfg, c), IndexOf(cap.steps, cap.conditions[c].armedAfter))
  {
    hide Walk, Recovering, Reading;
    var i := IndexOf(cap.steps, cap.conditions[c].armedAfter);
    WalkPostsElsewhere(0, i, i);
    WalkPostsElsewhere(IndexOf(cap.steps, cap.conditions[c].classify.resume.stepId), |cap.steps|, i);
    RecoveringPostsNothing(|cap.conditions[c].classify.recovery|, i);
    ReadingPostsNothing(cap, cfg, 0, i);
  }

  /** A recovery that restarts beyond its condition's step: a run that succeeds without
      that step. */
  lemma SkippingWitness(cap: Capability, cfg: Config, c: nat) returns (inputs: seq<Instant>, states: seq<State>)
    requires Integrity(cap) && CanStart(cap, cfg) && Skips(cap, c)
    ensures Behavior(cap, cfg, inputs, states)
    ensures SkippedTo(cap, inputs, states, IndexOf(cap.steps, cap.conditions[c].armedAfter))
  {
    hide Integrity, Next, Wf, CanStart, Initial, Feed, Walk, Begin, Recovering, Reading;
    var i := IndexOf(cap.steps, cap.conditions[c].armedAfter);
    var j := IndexOf(cap.steps, cap.conditions[c].classify.resume.stepId);
    var s := SkipStarts(cap, cfg, c);
    SkipEnds(cap, cfg, s, c, j);
    var x := Begin(cap) + Walk(0, i, {}) + [QUIET, Showing(c)];
    var y := Recovering(|cap.conditions[c].classify.recovery|) + Walk(j, |cap.steps|, {}) + [QUIET.(checkpoint := true)]
      + Reading(cap, cfg, 0);
    inputs := Skipping(cap, cfg, c);
    assert inputs == x + y;
    FeedConcat(cap, cfg, Initial(cap, cfg), x, y);
    states := FeedIsBehavior(cap, cfg, inputs);
    HandbacksFollowAsking(cap, cfg, inputs, states, |states| - 1);
    SkippingPostsNothing(cap, cfg, c);
    assert !SeenDone(inputs, states, |states| - 1, i);
  }

  /** Exactly when success without a handback means that every step was seen done: no
      usable recovery restarts beyond the step its condition is armed after. */
  lemma NeverSkipsIff(cap: Capability, cfg: Config)
    requires Integrity(cap)
    ensures NeverSkips(cap, cfg) <==> !CanStart(cap, cfg) || SkipFree(cap)
  {
    hide Integrity, Next, Wf, CanStart, Behavior, Skips, SkippedTo;
    if CanStart(cap, cfg) && !SkipFree(cap) {
      var c: nat :| Skips(cap, c);
      var inputs, states := SkippingWitness(cap, cfg, c);
    } else {
      forall inputs, states, i: nat | Behavior(cap, cfg, inputs, states) ensures !SkippedTo(cap, inputs, states, i) {
        if CanStart(cap, cfg) {
          NothingSkipped(cap, cfg, inputs, states, i);
        } else {
          NothingStarts(cap, cfg, inputs, states, i);
        }
      }
    }
  }

  lemma NothingStarts(cap: Capability, cfg: Config, inputs: seq<Instant>, states: seq<State>, i: nat)
    requires Integrity(cap) && Behavior(cap, cfg, inputs, states) && !CanStart(cap, cfg)
    ensures !SkippedTo(cap, inputs, states, i)
  {
    hide Integrity, Next, Wf, CanStart, Behavior;
    DoubleFireTheorems.BehaviorIsLong(cap, cfg, inputs, states);
    DoubleFireTheorems.StaysIdle(cap, cfg, inputs, states, |states| - 1);
    if Last(states).phase == Ended(Success) {
      var m := Progress.SuccessWasSeen(cap, cfg, inputs, states);
      DoubleFireTheorems.StaysIdle(cap, cfg, inputs, states, m);
    }
  }
}
