/** What a look at the page, an action or a handback leads to, over every run, in terms of
    what was read and of when the visit began. */
module Looks {
  import opened Wrappers
  import opened Artifact
  import opened Escalation
  import opened Protocol
  import opened Flow
  import opened Histories
  import opened Interventions

  /** When the visit under way at `k` has used up its budget. */
  function Over(cfg: Config, states: seq<State>, k: nat): int
    requires k < |states|
  {
    states[Since(states, k, IsVisit)].now + cfg.stepBudget
  }

  /** A visit to `index` began at `k`. */
  predicate Begun(states: seq<State>, k: nat, index: nat) {
    k < |states| && Happens(states, k, IsVisit) && states[k].index == index && InVisit(states[k].phase)
  }

  /** The run goes on with the same visit. */
  predicate StaysAt(s: State, r: State) {
    InVisit(r.phase) && r.index == s.index && r.deadline == s.deadline
  }

  /** Nothing new is recognized, and no operator waits for the session. */
  predicate Undisturbed(cap: Capability, cfg: Config, s: State, t: Instant) {
    var h := if cfg.attended.Some? then HubAfter(s.hub, t.calls) else s.hub;
    && !(cfg.attended.Some? && h.pauseRequested && h.state == Automation)
    && forall c :: 0 <= c < |cap.conditions| && c in t.matching && Armable(cap, c, s.index) ==>
         cap.conditions[c].classify.Answer? && cap.conditions[c].id in if s.index < |cap.steps| then s.stale else s.kept
  }

  lemma UndisturbedIs(cap: Capability, cfg: Config, s: State, t: Instant)
    ensures var e := Elapse(cfg, s, t); Undisturbed(cap, cfg, s, t) <==> !Interrupted(cfg, e) && Silent(cap, e, t)
  {
    hide HubAfter, Accepted, Armable;
    var e := Elapse(cfg, s, t);
    forall c: nat | c < |cap.conditions| ensures Speaks(cap, e, t, c) <==>
        && c in t.matching && Armable(cap, c, s.index)
        && !(cap.conditions[c].classify.Answer? && cap.conditions[c].id in if s.index < |cap.steps| then s.stale
          else s.kept)
    {
      assert e.index == s.index && e.stale == s.stale && e.kept == s.kept;
    }
  }

  /** Over every run: what it waits for is looked for again as long as the budget of its
      visit lasts and nothing comes between; and after that it goes wrong, or an operator
      is asked. */
  lemma BudgetsAreUsed(cap: Capability, cfg: Config, inputs: seq<Instant>, states: seq<State>, k: nat)
    requires Integrity(cap) && Behavior(cap, cfg, inputs, states) && k < |inputs|
    requires states[k].phase == Poll(true) && Undisturbed(cap, cfg, states[k], inputs[k])
    ensures var s, r := states[k], states[k + 1];
      if r.now < Over(cfg, states, k) then r.phase == Check && StaysAt(s, r) else r.phase.Asking? || GoesWrong(r.phase)
  {
    hide Integrity, Next, Wf, Elapse, Continues, Undisturbed, Silent, Interrupted, Said, Noting;
    EverythingIsTimed(cap, cfg, inputs, states, k);
    RunMoves(cap, cfg, inputs, states, k);
    UndisturbedIs(cap, cfg, states[k], inputs[k]);
    SaidIsWrong(cap);
  }

  lemma SaidIsWrong(cap: Capability)
    ensures forall s, at, late {:trigger Said(cap, s, at, late)} :: GoesWrong(Ended(Said(cap, s, at, late)))
  {
  }

  /** Over every run: a step whose postconditions hold is left for the next one, at once;
      a checkpoint that holds for the outputs; and otherwise the page is looked at. */
  lemma ChecksDecide(cap: Capability, cfg: Config, inputs: seq<Instant>, states: seq<State>, k: nat)
    requires Integrity(cap) && Behavior(cap, cfg, inputs, states) && k < |inputs| && states[k].phase == Check
    ensures var s, t, r := states[k], inputs[k], states[k + 1];
      if s.index < |cap.steps| && s.index in t.posts then Begun(states, k + 1, s.index + 1)
      else if s.index == |cap.steps| && t.checkpoint then
        r.phase == (if cap.outputs > 0 then Output(0) else if cfg.observes then Observe else Ended(Success))
      else (r.phase == Poll(true) || r.phase == Refresh(true)) && StaysAt(s, r)
  {
    hide Integrity, Next, Elapse, Evolves;
    RunMoves(cap, cfg, inputs, states, k);
  }

  /** Over every run: an action that lands is awaited; one that timed out on a safe step
      within its visit's budget is tried again, at once or after a look for its effect;
      anything else goes wrong, or an operator is asked. */
  lemma ActionsDecide(cap: Capability, cfg: Config, inputs: seq<Instant>, states: seq<State>, k: nat)
    requires Integrity(cap) && Behavior(cap, cfg, inputs, states) && k < |inputs| && states[k].phase == Act
    ensures var s, t, r := states[k], inputs[k], states[k + 1];
      && s.index < |cap.steps|
      && if t.attempt == Landed then r.phase == Check && StaysAt(s, r)
         else if t.attempt == TimedOut && cap.steps[s.index].risk == Safe && r.now < Over(cfg, states, k) then
           && StaysAt(s, r)
           && if cap.steps[s.index].probeable then r.phase == Probe
             else r.phase == Poll(false) || r.phase == Refresh(false)
         else r.phase.Asking? || GoesWrong(r.phase)
  {
    hide Integrity, Next, Elapse, Continues, Said, Dispatching;
    EverythingIsTimed(cap, cfg, inputs, states, k);
    RunMoves(cap, cfg, inputs, states, k);
    SaidIsWrong(cap);
  }

  /** Over every run: a timed-out action whose effect is there is not tried again. */
  lemma ProbesDecide(cap: Capability, cfg: Config, inputs: seq<Instant>, states: seq<State>, k: nat)
    requires Integrity(cap) && Behavior(cap, cfg, inputs, states) && k < |inputs| && states[k].phase == Probe
    ensures var s, t, r := states[k], inputs[k], states[k + 1];
      && StaysAt(s, r)
      && if s.index in t.posts then r.phase == Check else r.phase == Poll(false) || r.phase == Refresh(false)
  {
    hide Integrity, Next, Wf, Elapse, Evolves, Dispatching;
    RunMoves(cap, cfg, inputs, states, k);
  }

  predicate AnsweredBy(cap: Capability, c: nat, r: State) {
    && c < |cap.conditions| && cap.conditions[c].classify.Answer?
    && r.phase == Ended(BusinessOutcome(cap.conditions[c].classify.code, ByCondition(c)))
  }

  lemma SpeakerAnswers(cap: Capability, cfg: Config, e: State, t: Instant, acted: bool, r: State) returns (c: nat)
    requires Wf(cap, e) && e.phase == Poll(acted) && PollDecides(cap, cfg, e, t, acted, r)
    requires r.phase.Ended? && r.phase.result.BusinessOutcome?
    ensures SpeaksFirst(cap, e, t, c) && AnsweredBy(cap, c, r)
  {
    hide Silent, SpeaksFirst, Interrupted, Dispatching, RecoveryDecides;
    SaidIsWrong(cap);
    hide Said;
    c :| SpeaksFirst(cap, e, t, c) && Recognized(cap, cfg, e, c, acted, r);
    if cap.conditions[c].classify.Recoverable? {
      RecoveryNeverAnswers(cap, cfg, e, c, acted, r);
    }
  }

  lemma RecoveryNeverAnswers(cap: Capability, cfg: Config, e: State, c: nat, acted: bool, r: State)
    requires c < |cap.conditions| && cap.conditions[c].classify.Recoverable?
    requires RecoveryDecides(cap, cfg, e, c, acted, r)
    ensures !(r.phase.Ended? && r.phase.result.BusinessOutcome?)
  {
    hide Aims, Dispatching;
  }

  /** Over every run: an answer that is recognized ends it with its code, and of several
      that speak the first in the artifact's order does. */
  lemma AnswersEnd(cap: Capability, cfg: Config, inputs: seq<Instant>, states: seq<State>, k: nat)
    returns (c: nat)
    requires Integrity(cap) && Behavior(cap, cfg, inputs, states) && k < |inputs|
    requires states[k + 1].phase.Ended? && states[k + 1].phase.result.BusinessOutcome?
    requires states[k].phase.Poll?
    ensures AnsweredBy(cap, c, states[k + 1]) && c in inputs[k].matching && Armable(cap, c, states[k].index)
    ensures cap.conditions[c].id !in if states[k].index < |cap.steps| then states[k].stale else states[k].kept
    ensures forall d :: 0 <= d < c && d in inputs[k].matching && Armable(cap, d, states[k].index) ==>
      cap.conditions[d].classify.Answer?
      && cap.conditions[d].id in if states[k].index < |cap.steps| then states[k].stale else states[k].kept
  {
    hide Integrity, Next, Wf, Elapse, Evolves, Said, Armable, Dispatching, RecoveryDecides;
    RunMoves(cap, cfg, inputs, states, k);
    var e, t, r := Elapse(cfg, states[k], inputs[k]), inputs[k], states[k + 1];
    c := SpeakerAnswers(cap, cfg, e, t, e.phase.acted, r);
    forall d | 0 <= d < c && d in t.matching && Armable(cap, d, states[k].index)
      ensures cap.conditions[d].classify.Answer? && cap.conditions[d].id in Stale(cap, e)
    {
      assert !Speaks(cap, e, t, d);
    }
  }

  /** Over every run: a recovery's step is looked at until its own budget is over. */
  lemma RecoveriesWait(cap: Capability, cfg: Config, inputs: seq<Instant>, states: seq<State>, k: nat)
    requires Integrity(cap) && Behavior(cap, cfg, inputs, states) && k < |inputs| && states[k].phase.RecoverCheck?
    requires !inputs[k].recovered
    ensures var s, r := states[k], states[k + 1];
      if r.now < states[Since(states, k, IsRecovery)].now + cfg.stepBudget then r.phase == s.phase && r.index == s.index
      else r.phase.Asking? || GoesWrong(r.phase)
  {
    hide Integrity, Next, Elapse, Continues, Said, Visits;
    EverythingIsTimed(cap, cfg, inputs, states, k);
    RunMoves(cap, cfg, inputs, states, k);
    SaidIsWrong(cap);
  }

  /** A handed-back flow may not go on at `index`: that would fire the hazard again. */
  predicate Barred(s: State, index: nat) {
    s.hazard.Some? && index <= s.hazard.value.index
  }

  /** Over every run: a handed-back flow goes on at the checkpoint if that holds, else
      beyond the furthest step whose postconditions hold unless that is barred, and only
      if there is none where it was, unless that is a consequential step. */
  lemma HandbacksResume(cap: Capability, cfg: Config, inputs: seq<Instant>, states: seq<State>, k: nat)
    requires Integrity(cap) && Behavior(cap, cfg, inputs, states) && k < |inputs| && states[k].phase == Scan
    ensures var s, t, r := states[k], inputs[k], states[k + 1];
      && (t.checkpoint ==> Begun(states, k + 1, |cap.steps|))
      && (forall i: nat :: !t.checkpoint && Furthest(cap, t, i) ==>
            if Barred(s, i) then GoesWrong(r.phase) else Begun(states, k + 1, i))
      && (!t.checkpoint && (forall i :: 0 <= i < |cap.steps| ==> i !in t.posts) ==>
            if s.index < |cap.steps| && cap.steps[s.index].risk == Risky then GoesWrong(r.phase)
            else Begun(states, k + 1, s.index))
  {
    hide Integrity, Next, Wf, Elapse, Evolves, Said;
    RunMoves(cap, cfg, inputs, states, k);
    SaidIsWrong(cap);
    forall i: nat, j: nat | Furthest(cap, inputs[k], i) && Furthest(cap, inputs[k], j) ensures i == j {
      OneFurthest(cap, inputs[k], i, j);
    }
    assert Wf(cap, states[k]);
  }

  lemma OneFurthest(cap: Capability, t: Instant, i: nat, j: nat)
    requires Furthest(cap, t, i) && Furthest(cap, t, j)
    ensures i == j
  {
  }

  // ------------------------------------------- suppression at the checkpoint

  /** A step was left because its postconditions held. */
  predicate Passed(cap: Capability, e: State, t: Instant) {
    e.phase == Check && e.index < |cap.steps| && e.index in t.posts
  }

  /** The checkpoint looked at what it suppresses. */
  predicate LooksAgain(cap: Capability, s: State) {
    s.phase.Refresh? && s.index == |cap.steps|
  }

  /** Some condition of this name is showing. */
  predicate StillShows(cap: Capability, t: Instant, id: string) {
    exists c :: 0 <= c < |cap.conditions| && c in t.matching && Armable(cap, c, |cap.steps|)
        && cap.conditions[c].id == id
  }

  ghost predicate Carries(cap: Capability, e: State, t: Instant, r: State) {
    && (e.phase.Snapshot? || e.phase.Refresh? || r.stale == e.stale)
    && (LooksAgain(cap, e) ==>
          && r.stale == e.stale
          && forall id :: id in r.kept <==> id in e.kept && StillShows(cap, t, id))
    && (!LooksAgain(cap, e) ==> r.kept == if Passed(cap, e, t) then e.stale else e.kept)
  }

  lemma RefreshCarries(cap: Capability, cfg: Config, e: State, t: Instant, acted: bool, r: State)
    requires Wf(cap, e) && e.phase == Refresh(acted) && RefreshDecides(cap, e, t, acted, r)
    ensures Carries(cap, e, t, r)
  {
    hide Armable;
  }

  lemma FailsCarries(cap: Capability, cfg: Config, n: State, r: State, at: Option<string>, late: bool)
    ensures Fails(cap, cfg, n, r, at, late) ==> r.kept == n.kept && r.stale == n.stale
    ensures StepFails(cap, cfg, n, r) ==> r.kept == n.kept && r.stale == n.stale
  {
    hide Said, Dispatching;
  }

  lemma RecoveryCarries(cap: Capability, cfg: Config, e: State, c: nat, acted: bool, r: State)
    requires c < |cap.conditions| && cap.conditions[c].classify.Recoverable?
    requires RecoveryDecides(cap, cfg, e, c, acted, r)
    ensures r.kept == e.kept && r.stale == e.stale
  {
    hide Said, Aims, Dispatching;
  }

  lemma PollCarries(cap: Capability, cfg: Config, e: State, t: Instant, acted: bool, r: State)
    requires Wf(cap, e) && e.phase == Poll(acted) && PollDecides(cap, cfg, e, t, acted, r)
    ensures Carries(cap, e, t, r)
  {
    hide Said, Silent, SpeaksFirst, Interrupted, Fails, StepFails, RecoveryDecides;
    FailsCarries(cap, cfg, e, r, Here(cap, e), false);
    FailsCarries(cap, cfg, e, r, None, false);
    if !Interrupted(cfg, e) && !Silent(cap, e, t) {
      var c: nat :| SpeaksFirst(cap, e, t, c) && Recognized(cap, cfg, e, c, acted, r);
      if cap.conditions[c].classify.Recoverable? {
        RecoveryCarries(cap, cfg, e, c, acted, r);
      }
    }
  }

  lemma ActCarries(cap: Capability, cfg: Config, e: State, t: Instant, r: State)
    requires Wf(cap, e) && e.phase.Act? && ActDecides(cap, cfg, e, t, r)
    ensures Carries(cap, e, t, r)
  {
    hide StepFails, Dispatching;
    FailsCarries(cap, cfg, e.(log := e.log + [Attempted(e.index)]), r, None, false);
  }

  lemma CheckCarries(cap: Capability, cfg: Config, e: State, t: Instant, r: State)
    requires Wf(cap, e) && e.phase.Check? && CheckDecides(cap, cfg, e, t, r)
    ensures Carries(cap, e, t, r)
  {
  }

  lemma ParkCarries(cap: Capability, cfg: Config, e: State, t: Instant, r: State)
    requires Wf(cap, e) && Decides(cap, cfg, e, t, r) && (Parking(e.phase) || Recuperating(e.phase))
    ensures Carries(cap, e, t, r)
  {
    hide Said, Furthest;
  }

  lemma OthersCarry(cap: Capability, cfg: Config, e: State, t: Instant, r: State)
    requires Wf(cap, e) && Decides(cap, cfg, e, t, r)
    requires e.phase.Starting? || e.phase.Requires? || e.phase.Snapshot? || e.phase.Probe? || e.phase.Output?
      || e.phase.Observe? || e.phase.Ended?
    ensures Carries(cap, e, t, r)
  {
    hide Said, Dispatching, Armable;
  }

  lemma EveryInstantCarries(cap: Capability, cfg: Config, e: State, t: Instant, r: State)
    requires Wf(cap, e) && Decides(cap, cfg, e, t, r)
    ensures Carries(cap, e, t, r)
  {
    hide Carries, PollDecides, ActDecides, CheckDecides, RefreshDecides;
    match e.phase
    case Poll(acted) => PollCarries(cap, cfg, e, t, acted, r);
    case Act => ActCarries(cap, cfg, e, t, r);
    case Check => CheckCarries(cap, cfg, e, t, r);
    case Refresh(acted) => RefreshCarries(cap, cfg, e, t, acted, r);
    case _ =>
      if Parking(e.phase) || Recuperating(e.phase) {
        ParkCarries(cap, cfg, e, t, r);
      } else {
        OthersCarry(cap, cfg, e, t, r);
      }
  }

  /** Instant `m` is the one right after a step was left with its postconditions seen. */
  predicate JustPassed(cap: Capability, inputs: seq<Instant>, states: seq<State>, m: nat) {
    0 < m < |states| && m <= |inputs| && Passed(cap, states[m - 1], inputs[m - 1])
  }

  /** No look of the checkpoint between the two instants missed the name. */
  predicate ShownSince(cap: Capability, inputs: seq<Instant>, states: seq<State>, m: nat, k: nat, id: string) {
    forall j :: m <= j < k && j < |states| && j < |inputs| && LooksAgain(cap, states[j]) ==>
      StillShows(cap, inputs[j], id)
  }

  /** Over every run: what the checkpoint suppresses is what the step passed last was
      suppressing when it was left, and every look of the checkpoint since has seen. */
  lemma {:induction false} KeptIsExact(cap: Capability, cfg: Config, inputs: seq<Instant>, states: seq<State>, k: nat,
                                       id: string)
    requires Integrity(cap) && Behavior(cap, cfg, inputs, states) && k < |states|
    ensures var m := Latest(k, (m: nat) => JustPassed(cap, inputs, states, m));
      id in states[k].kept <==>
        m > 0 && m < |states| && id in states[m - 1].stale && ShownSince(cap, inputs, states, m, k, id)
  {
    hide Integrity, Next, Wf, Decides, Elapse, Evolves, Passed, LooksAgain, StillShows;
    if k > 0 {
      KeptIsExact(cap, cfg, inputs, states, k - 1, id);
      if states[k - 1].phase.Ended? {
        EndedStays(cap, cfg, inputs, states, k - 1);
        NeitherPassesNorLooks(cap, states[k - 1], inputs[k - 1]);
      } else {
        RunMoves(cap, cfg, inputs, states, k - 1);
        var e := Elapse(cfg, states[k - 1], inputs[k - 1]);
        EveryInstantCarries(cap, cfg, e, inputs[k - 1], states[k]);
        SameThere(cap, states[k - 1], e, inputs[k - 1]);
      }
    }
  }

  lemma NeitherPassesNorLooks(cap: Capability, s: State, t: Instant)
    requires s.phase.Ended?
    ensures !Passed(cap, s, t) && !LooksAgain(cap, s)
  {
  }

  lemma SameThere(cap: Capability, s: State, e: State, t: Instant)
    requires e.phase == s.phase && e.index == s.index
    ensures Passed(cap, e, t) == Passed(cap, s, t) && LooksAgain(cap, e) == LooksAgain(cap, s)
    ensures !(Passed(cap, s, t) && LooksAgain(cap, s))
  {
  }
}
