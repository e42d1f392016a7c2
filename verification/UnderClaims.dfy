/** Exactly when an executor may deny what it did to the server, and be blamed for
    it by the reconciler. */
module UnderClaims {
  import opened Wrappers
  import opened Characters
  import opened Artifact
  import opened Escalation
  import opened Protocol
  import opened Meridian
  import opened Network
  import opened Reconciler
  import opened DoubleFire
  import opened Scripts
  import opened Twin
  import DoubleFireTheorems
  import ResultSafety

  /** An ended run, alone on the server; a refusal shows on the page only when the
      server refused what the executor last posted. */
  ghost predicate Alone(cap: Capability, cfg: Config, inputs: seq<Instant>, states: seq<State>, world: World,
                        supervisors: set<string>)
    requires Integrity(cap)
  {
    && Behavior(cap, cfg, inputs, states) && Last(states).phase.Ended?
    && Situated(cap, inputs, states, world, supervisors) && RefusalsAnswerTheLastPost(cap, inputs, world)
  }

  /** An ended run that changed the server claims that it did not. */
  predicate Denies(states: seq<State>, world: World) {
    && states != [] && Last(states).phase.Ended? && world.stores != []
    && world.stores[|world.stores| - 1] != world.stores[0]
    && ClaimOf(Last(states).phase.result).Committed() == Some(false)
  }

  ghost predicate NeverDenies(cap: Capability, cfg: Config)
    requires Integrity(cap)
  {
    forall inputs, states, world, supervisors :: Alone(cap, cfg, inputs, states, world, supervisors) ==>
        !Denies(states, world)
  }

  /** On truthful readings the run is judged a mismatch, and not for claiming a
      success. */
  predicate Blamed(states: seq<State>, world: World, expected: ExpectedEffect, pre: Observation, post: Observation) {
    && states != [] && Last(states).phase.Ended? && world.stores != []
    && expected.fromStatus != expected.toStatus
    && Truthful(pre, expected, world.stores[0]) && Truthful(post, expected, world.stores[|world.stores| - 1])
    && Reconcile(expected, Some(pre), Some(post), ClaimOf(Last(states).phase.result)).verdict == EffectMismatch
    && !Last(states).phase.result.Success?
  }

  ghost predicate NeverBlamed(cap: Capability, cfg: Config)
    requires Integrity(cap)
  {
    forall inputs, states, world, supervisors, expected, pre, post ::
      Alone(cap, cfg, inputs, states, world, supervisors) ==> !Blamed(states, world, expected, pre, post)
  }

  ghost predicate HasAnswer(cap: Capability) {
    exists c :: IsAnswer(cap, c)
  }

  /** There is nothing to deny, or no outcome to deny it with: the run cannot start,
      nothing it could answer is declared, or it has too few consequential steps. An
      operator may speak after any post; a refusal on the page speaks of the last
      one, so it takes another one before. */
  ghost predicate Unambiguous(cap: Capability, cfg: Config) {
    || !CanStart(cap, cfg)
    || !HasAnswer(cap)
    || if CanAsk(cfg) then !HasRisky(cap) else forall a, b :: IsRisky(cap, a) && IsRisky(cap, b) ==> a == b
  }

  // --------------------------------------------------------------- unambiguous

  /** A run that never acts on a consequential step leaves the server alone. */
  lemma {:induction false} Undisturbed(cap: Capability, cfg: Config, inputs: seq<Instant>, states: seq<State>,
                                       world: World, supervisors: set<string>, k: nat)
    requires Integrity(cap) && Behavior(cap, cfg, inputs, states) && k < |states|
    requires Situated(cap, inputs, states, world, supervisors)
    requires forall i :: 0 <= i < k ==> !(states[i].phase == Act && IsRisky(cap, states[i].index))
    ensures |world.stores| == |states| && world.stores[k] == world.stores[0]
  {
    hide Integrity, Next, Wf, Behavior, Situated, IsRisky;
    Sizes(cap, inputs, states, world, supervisors);
    if k > 0 {
      Undisturbed(cap, cfg, inputs, states, world, supervisors, k - 1);
      PostingRaisesHazard(cap, cfg, inputs, states, world, supervisors, k - 1);
    }
  }

  lemma RiskyIs(cap: Capability, i: nat)
    requires IsRisky(cap, i)
    ensures HasRisky(cap)
  {
    assert cap.steps[i].risk == Risky;
  }

  lemma OutcomesAreAnswers(cap: Capability, code: string)
    requires Integrity(cap) && code in cap.outcomes
    ensures HasAnswer(cap)
  {
    var k :| 0 <= k < |cap.conditions| && cap.conditions[k].classify == Answer(code);
    assert IsAnswer(cap, k);
  }

  lemma StaysPut(cap: Capability, cfg: Config, inputs: seq<Instant>, states: seq<State>, k: nat)
    requires Integrity(cap) && Behavior(cap, cfg, inputs, states) && k < |states|
    requires !CanStart(cap, cfg) || !HasRisky(cap)
    ensures !(states[k].phase == Act && IsRisky(cap, states[k].index))
  {
    hide Integrity, Next, Wf, CanStart, HasRisky, IsRisky;
    if !CanStart(cap, cfg) {
      DoubleFireTheorems.StaysIdle(cap, cfg, inputs, states, k);
    } else if IsRisky(cap, states[k].index) {
      RiskyIs(cap, states[k].index);
    }
  }

  lemma UnambiguousNeverDenies(cap: Capability, cfg: Config, inputs: seq<Instant>, states: seq<State>, world: World,
                               supervisors: set<string>)
    requires Integrity(cap) && Unambiguous(cap, cfg) && Alone(cap, cfg, inputs, states, world, supervisors)
    ensures !Denies(states, world)
  {
    hide Integrity, Next, Wf, Behavior, Situated, RefusalsAnswerTheLastPost, RefusalsAreTrue, CanStart, CanAsk, IsRisky,
         HasRisky, HasAnswer;
    Sizes(cap, inputs, states, world, supervisors);
    if world.stores[|inputs|] != world.stores[0] {
      NeverUnderClaims(cap, cfg, inputs, states, world, supervisors);
      ResultSafety.ResultsAreHonest(cap, cfg, inputs, states);
      if !HasAnswer(cap) {
        if Last(states).phase.result.BusinessOutcome? {
          OutcomesAreAnswers(cap, Last(states).phase.result.code);
        }
      } else if !CanStart(cap, cfg) || !HasRisky(cap) {
        forall k | 0 <= k < |inputs| ensures !(states[k].phase == Act && IsRisky(cap, states[k].index)) {
          StaysPut(cap, cfg, inputs, states, k);
        }
        Undisturbed(cap, cfg, inputs, states, world, supervisors, |inputs|);
      } else {
        LastPostSuffices(cap, cfg, inputs, states, world, supervisors);
      }
    }
  }

  /** Who is blamed for anything but a claimed success has denied what it did. */
  lemma BlamedDenies(cap: Capability, cfg: Config, inputs: seq<Instant>, states: seq<State>, world: World,
                     supervisors: set<string>, expected: ExpectedEffect, pre: Observation, post: Observation)
    requires Integrity(cap) && Alone(cap, cfg, inputs, states, world, supervisors)
    requires Blamed(states, world, expected, pre, post)
    ensures Denies(states, world)
  {
    hide Integrity, Next, Wf, Behavior, Situated, RefusalsAnswerTheLastPost, Truthful, Reconcile;
    Sizes(cap, inputs, states, world, supervisors);
    VerdictsAreTrueOfTheServer(cap, cfg, inputs, states, world, supervisors, expected, pre, post);
  }

  // ------------------------------------------------------ the world of a script

  const TARGET := ExpectedEffect("1", "S", "ACTIVE", HOLD)

  const POSTING := Request("POST", "/members/1/hold/post", Some("op"), Some("t"), Some("t"), Some("S"), None)

  const OPEN := Store(map["1" := [Share("S", "ACTIVE")]], 1, [])

  const HELD := Store(map["1" := [Share("S", HOLD)]], 2, [Hold(1, "1", "S", None, "op")])

  lemma PostingHolds()
    ensures IsHoldPost(POSTING) && DispatchLog([POSTING], SESSION_PATHS) == [POST]
    ensures Serve(OPEN, {"op"}, [POSTING]) == HELD && Serve(HELD, {"op"}, [POSTING]) == HELD
  {
    var path := POSTING.path;
    assert path[..|MEMBERS|] == MEMBERS && path[|path| - |HOLD_POST|..] == HOLD_POST;
    assert path[|MEMBERS|..|path| - |HOLD_POST|] == "1" && '/' !in "1";
    assert HoldTarget(path) == Some("1");
    assert [POSTING][1..] == [];
    var shares := OPEN.members["1"];
    assert IndexOfShare(shares, "S") == Some(0) && shares[0 := Share("S", HOLD)] == [Share("S", HOLD)];
    assert OPEN.members["1" := [Share("S", HOLD)]] == HELD.members;
  }

  predicate Posts(t: Instant) { t.sent != [] }

  /** Something was posted before instant `k`. */
  predicate Posted(inputs: seq<Instant>, k: nat)
    requires k <= |inputs|
  {
    exists j :: 0 <= j < k && Posts(inputs[j])
  }

  function Sent(inputs: seq<Instant>): seq<seq<Request>> {
    seq(|inputs|, k requires 0 <= k < |inputs| => if Posts(inputs[k]) then [POSTING] else [])
  }

  function Stores(inputs: seq<Instant>): seq<Store> {
    seq(|inputs| + 1, k requires 0 <= k <= |inputs| => if Posted(inputs, k) then HELD else OPEN)
  }

  /** One share, open at first; every request arrives. */
  function WorldOf(inputs: seq<Instant>): World { World(Sent(inputs), Sent(inputs), Stores(inputs)) }

  /** Only the action of a consequential step posts. */
  predicate Fit(cap: Capability, s: State, t: Instant) {
    Posts(t) ==> t.sent == [POST] && s.phase == Act && IsRisky(cap, s.index)
  }

  ghost predicate Orderly(cap: Capability, inputs: seq<Instant>, states: seq<State>) {
    |states| == |inputs| + 1 && forall k :: 0 <= k < |inputs| ==> Fit(cap, states[k], inputs[k])
  }

  lemma WorldIsSituated(cap: Capability, inputs: seq<Instant>, states: seq<State>)
    requires Orderly(cap, inputs, states)
    ensures Situated(cap, inputs, states, WorldOf(inputs), {"op"})
  {
    hide IsRisky, Serve, DispatchLog, IsHoldPost;
    PostingHolds();
    var w := WorldOf(inputs);
    forall k | 0 <= k < |inputs|
      ensures inputs[k].sent == DispatchLog(w.sent[k], SESSION_PATHS)
      ensures w.stores[k + 1] == Serve(w.stores[k], {"op"}, w.delivered[k])
      ensures HasHoldPost(w.sent[k]) ==> states[k].phase == Act && IsRisky(cap, states[k].index)
    {
      assert Fit(cap, states[k], inputs[k]);
      NothingServed(w.stores[k]);
    }
  }

  lemma NothingServed(store: Store)
    ensures Serve(store, {"op"}, []) == store && DispatchLog([], SESSION_PATHS) == []
  {
  }

  // ------------------------------------------------------------------- scripts

  /** Every instant of `ts`, fed from `s` on, is fit. */
  predicate Tidy(cap: Capability, cfg: Config, s: State, ts: seq<Instant>)
    requires Integrity(cap) && Wf(cap, s)
    decreases |ts|
  {
    ts == [] || (Fit(cap, s, ts[0]) && Tidy(cap, cfg, Next(cap, cfg, s, ts[0]), ts[1..]))
  }

  lemma {:induction false} TidyConcat(cap: Capability, cfg: Config, s: State, a: seq<Instant>, b: seq<Instant>)
    requires Integrity(cap) && Wf(cap, s) && Tidy(cap, cfg, s, a) && Tidy(cap, cfg, Feed(cap, cfg, s, a), b)
    ensures Tidy(cap, cfg, s, a + b) && Feed(cap, cfg, s, a + b) == Feed(cap, cfg, Feed(cap, cfg, s, a), b)
    decreases |a|
  {
    hide Integrity, Wf, Next, Fit;
    FeedConcat(cap, cfg, s, a, b);
    if a == [] {
      assert a + b == b;
    } else {
      TidyConcat(cap, cfg, Next(cap, cfg, s, a[0]), a[1..], b);
      assert (a + b)[1..] == a[1..] + b;
    }
  }

  lemma {:induction false} SilentIsTidy(cap: Capability, cfg: Config, s: State, ts: seq<Instant>)
    requires Integrity(cap) && Wf(cap, s) && forall t :: t in ts ==> !Posts(t)
    ensures Tidy(cap, cfg, s, ts)
    decreases |ts|
  {
    hide Integrity, Wf, Next;
    if ts != [] {
      SilentIsTidy(cap, cfg, Next(cap, cfg, s, ts[0]), ts[1..]);
    }
  }

  lemma StrikeIsTidy(cap: Capability, cfg: Config, s: State, fire: bool)
    requires Integrity(cap) && Wf(cap, s) && Ready(cap, s) && s.index < |cap.steps| && (fire ==> IsRisky(cap, s.index))
    ensures Tidy(cap, cfg, s, Strike(fire))
  {
    hide Integrity, Wf, Next, IsRisky;
    SnapshotQuiet(cap, cfg, s);
    var s1 := Next(cap, cfg, s, QUIET);
    PollQuiet(cap, cfg, s1);
    var s2 := Next(cap, cfg, s1, QUIET);
    assert Tidy(cap, cfg, s2, [Acting(fire)]) by { OneIsTidy(cap, cfg, s2, Acting(fire)); }
    FeedTwo(cap, cfg, s, QUIET, QUIET);
    SilentIsTidy(cap, cfg, s, [QUIET, QUIET]);
    TidyConcat(cap, cfg, s, [QUIET, QUIET], [Acting(fire)]);
    assert [QUIET, QUIET] + [Acting(fire)] == Strike(fire);
  }

  lemma OneIsTidy(cap: Capability, cfg: Config, s: State, t: Instant)
    requires Integrity(cap) && Wf(cap, s) && Fit(cap, s, t)
    ensures Tidy(cap, cfg, s, [t])
  {
    hide Integrity, Wf, Next, Fit;
    assert [t][1..] == [];
  }

  lemma {:induction false} WalkIsTidy(cap: Capability, cfg: Config, s: State, j: nat, fires: set<nat>)
    requires Integrity(cap) && Wf(cap, s) && Ready(cap, s) && s.index <= j <= |cap.steps|
    requires forall i :: i in fires ==> IsRisky(cap, i)
    ensures Tidy(cap, cfg, s, Walk(s.index, j, fires))
    decreases j - s.index
  {
    hide Integrity, Wf, Next, IsRisky, Tidy, Strike;
    var i := s.index;
    if i == j {
      SilentIsTidy(cap, cfg, s, []);
    } else {
      var fire := i in fires;
      StrikeIsTidy(cap, cfg, s, fire);
      SilentIsTidy(cap, cfg, Feed(cap, cfg, s, Strike(fire)), [Holding(i)]);
      TidyConcat(cap, cfg, s, Strike(fire), [Holding(i)]);
      assert Strike(fire) + [Holding(i)] == Pass(i, fire) by { PassIs(i, fire); }
      PassStep(cap, cfg, s, fire);
      WalkIsTidy(cap, cfg, Feed(cap, cfg, s, Pass(i, fire)), j, fires);
      TidyConcat(cap, cfg, s, Pass(i, fire), Walk(i + 1, j, fires));
    }
  }

  lemma PassIs(i: nat, fire: bool)
    ensures Pass(i, fire) == Strike(fire) + [Holding(i)]
  {
  }

  lemma {:induction false} TidyIsOrderly(cap: Capability, cfg: Config, inputs: seq<Instant>, states: seq<State>, k: nat)
    requires Integrity(cap) && Behavior(cap, cfg, inputs, states) && k <= |inputs|
      && Tidy(cap, cfg, states[k], inputs[k..])
    ensures forall i :: k <= i < |inputs| ==> Fit(cap, states[i], inputs[i])
    decreases |inputs| - k
  {
    hide Integrity, Wf, Next, Fit;
    if k < |inputs| {
      assert inputs[k..][1..] == inputs[k + 1..];
      TidyIsOrderly(cap, cfg, inputs, states, k + 1);
    }
  }

  /** The run of a tidy script, in its world. */
  lemma TidyRuns(cap: Capability, cfg: Config, inputs: seq<Instant>) returns (states: seq<State>)
    requires Integrity(cap) && Wf(cap, Initial(cap, cfg)) && Tidy(cap, cfg, Initial(cap, cfg), inputs)
    ensures Behavior(cap, cfg, inputs, states) && Last(states) == Feed(cap, cfg, Initial(cap, cfg), inputs)
    ensures states != [] && Situated(cap, inputs, states, WorldOf(inputs), {"op"})
  {
    hide Integrity, Wf, Next, Fit, Tidy, Feed, Situated;
    states := FeedIsBehavior(cap, cfg, inputs);
    assert inputs[0..] == inputs;
    TidyIsOrderly(cap, cfg, inputs, states, 0);
    WorldIsSituated(cap, inputs, states);
  }

  predicate Blind(ts: seq<Instant>) {
    forall t :: t in ts ==> t.matching == {}
  }

  lemma {:induction false} WalkIsBlind(i: nat, j: nat, fires: set<nat>)
    requires i <= j
    ensures Blind(Walk(i, j, fires))
    decreases j - i
  {
    if i < j {
      WalkIsBlind(i + 1, j, fires);
    }
  }

  /** A walk past a firing step posts. */
  lemma {:induction false} WalkPosts(i: nat, j: nat, fires: set<nat>, a: nat)
    requires i <= a < j && a in fires
    ensures exists t :: t in Walk(i, j, fires) && Posts(t)
    decreases j - i
  {
    if i == a {
      assert Acting(true) in Pass(a, true) && Posts(Acting(true));
    } else {
      WalkPosts(i + 1, j, fires, a);
      var t :| t in Walk(i + 1, j, fires) && Posts(t);
      assert t in Walk(i, j, fires);
    }
  }

  /** A post in the first part of a script, and one in the second. */
  lemma PostsTwice(a: seq<Instant>, b: seq<Instant>, j: nat)
    requires (exists t :: t in a && Posts(t)) && (exists t :: t in b && Posts(t))
    requires j < |a + b| && Posts((a + b)[j]) && forall i :: j < i < |a + b| ==> !Posts((a + b)[i])
    ensures Posted(a + b, j)
  {
    var t :| t in a && Posts(t);
    var i :| 0 <= i < |a| && a[i] == t;
    assert (a + b)[i] == t;
    var u :| u in b && Posts(u);
    var k :| 0 <= k < |b| && b[k] == u;
    assert (a + b)[|a| + k] == u;
  }

  lemma HoldPostIs(inputs: seq<Instant>, k: nat)
    requires k < |inputs|
    ensures HasHoldPost(Sent(inputs)[k]) <==> Posts(inputs[k])
  {
    PostingHolds();
    if Posts(inputs[k]) {
      assert POSTING in Sent(inputs)[k];
    }
  }

  lemma PostedChanges(inputs: seq<Instant>)
    requires exists t :: t in inputs && Posts(t)
    ensures Stores(inputs)[|inputs|] == HELD && Stores(inputs)[0] == OPEN
  {
    var t :| t in inputs && Posts(t);
    var k :| 0 <= k < |inputs| && inputs[k] == t;
    assert Posts(inputs[k]);
  }

  lemma PostedStays(inputs: seq<Instant>, last: Instant, j: nat)
    requires j < |inputs| && Posted(inputs, j)
    ensures Posted(inputs + [last], j) && Posted(inputs + [last], j + 1)
  {
    hide Posts;
    var i :| 0 <= i < j && Posts(inputs[i]);
    assert (inputs + [last])[i] == inputs[i];
  }

  lemma OnlyLastShows(a: seq<Instant>, b: seq<Instant>, last: Instant, k: nat, c: nat)
    requires Blind(a) && Blind(b) && k < |a + b + [last]| && c in (a + b + [last])[k].matching
    ensures k == |a + b|
  {
  }

  /** Nothing on the page but at the very end, after two posts: refusals that show
      answer the last one. */
  lemma SecondIsRefused(a: seq<Instant>, b: seq<Instant>, last: Instant, cap: Capability)
    requires Blind(a) && Blind(b) && !Posts(last)
    requires (exists t :: t in a && Posts(t)) && (exists t :: t in b && Posts(t))
    ensures var inputs := a + b + [last]; RefusalsAnswerTheLastPost(cap, inputs, WorldOf(inputs))
  {
    hide IsAnswer, Posts, Blind, Posted, Sent;
    var inputs := a + b + [last];
    var w := WorldOf(inputs);
    forall k, c, j: nat | 0 <= k < |inputs| && IsAnswer(cap, c) && c in inputs[k].matching && LatestPosts(w, j, k)
      ensures w.stores[j + 1] == w.stores[j]
    {
      OnlyLastShows(a, b, last, k, c);
      forall i: nat | j <= i < |inputs| ensures HasHoldPost(w.delivered[i]) <==> Posts(inputs[i]) {
        HoldPostIs(inputs, i);
      }
      assert Posts(inputs[j]);
      assert j < |a + b| && (a + b)[j] == inputs[j];
      assert forall i :: 0 <= i < |a + b| ==> (a + b)[i] == inputs[i];
      PostsTwice(a, b, j);
      PostedStays(a + b, last, j);
    }
  }

  lemma BlindIsUnrefused(cap: Capability, inputs: seq<Instant>)
    requires Blind(inputs)
    ensures RefusalsAnswerTheLastPost(cap, inputs, WorldOf(inputs))
  {
  }

  // ----------------------------------------------------------------- witnesses

  /** Steps up to the second consequential one, and the rest of the flow. */
  function FirstHalf(cap: Capability, a: nat, b: nat): seq<Instant> { Begin(cap) + Walk(0, b, {a}) }

  function SecondHalf(b: nat, n: nat): seq<Instant>
    requires b <= n
  {
    Walk(b, n, {b}) + [QUIET]
  }

  /** The checkpoint does not hold, and an answer shows. */
  lemma RefusalEnds(cap: Capability, cfg: Config, s: State, c: nat)
    requires Integrity(cap) && Wf(cap, s) && Ready(cap, s) && s.index == |cap.steps| && IsAnswer(cap, c)
    ensures var r := Feed(cap, cfg, s, [QUIET, Showing(c)]); r.phase.Ended? && r.phase.result.BusinessOutcome?
    ensures Tidy(cap, cfg, s, [QUIET, Showing(c)])
  {
    hide Integrity, Wf, Next, Tidy, IsAnswer, Armed;
    assert Armed(cap, c, |cap.steps|) by { AnswerIsArmed(cap, c); }
    CheckpointUnmet(cap, cfg, s);
    AnswerShows(cap, cfg, Next(cap, cfg, s, QUIET), c);
    FeedTwo(cap, cfg, s, QUIET, Showing(c));
    SilentIsTidy(cap, cfg, s, [QUIET, Showing(c)]);
  }

  /** Both posts, and a refusal seen at the checkpoint. */
  lemma RefusedScript(cap: Capability, cfg: Config, a: nat, b: nat, c: nat)
    requires Integrity(cap) && CanStart(cap, cfg) && IsRisky(cap, a) && IsRisky(cap, b) && a < b && IsAnswer(cap, c)
    ensures b < |cap.steps| && Wf(cap, Initial(cap, cfg))
    ensures var s := Initial(cap, cfg); var inputs := FirstHalf(cap, a, b) + SecondHalf(b, |cap.steps|) + [Showing(c)];
      && Tidy(cap, cfg, s, inputs)
      && Feed(cap, cfg, s, inputs).phase.Ended? && Feed(cap, cfg, s, inputs).phase.result.BusinessOutcome?
  {
    hide Integrity, Next, Wf, CanStart, Initial, IsRisky, Armed, Feed, Tidy, Walk, Begin, IsAnswer;
    var n := |cap.steps|;
    assert b < n by { DoubleFireTheorems.RiskyInRange(cap, b); }
    InitialWf(cap, cfg);
    var s0 := Initial(cap, cfg);
    Begins(cap, cfg);
    var s1 := Feed(cap, cfg, s0, Begin(cap));
    WalkTo(cap, cfg, s1, b, {a});
    var s2 := Feed(cap, cfg, s1, Walk(0, b, {a}));
    WalkTo(cap, cfg, s2, n, {b});
    var s3 := Feed(cap, cfg, s2, Walk(b, n, {b}));
    RefusalEnds(cap, cfg, s3, c);
    BeginIsSilent(cap, cfg, s0);
    WalkIsTidy(cap, cfg, s1, b, {a});
    WalkIsTidy(cap, cfg, s2, n, {b});
    var x, y, z := FirstHalf(cap, a, b), Walk(b, n, {b}), [QUIET, Showing(c)];
    assert x + SecondHalf(b, n) + [Showing(c)] == x + y + z;
    TidyConcat(cap, cfg, s0, Begin(cap), Walk(0, b, {a}));
    TidyConcat(cap, cfg, s0, x, y);
    TidyConcat(cap, cfg, s0, x + y, z);
  }

  /** Two consequential steps and a declared answer: the first post commits, the
      second is refused, and the refusal shows at the checkpoint. */
  lemma RefusedWitness(cap: Capability, cfg: Config, a: nat, b: nat, c: nat)
    returns (inputs: seq<Instant>, states: seq<State>)
    requires Integrity(cap) && CanStart(cap, cfg) && IsRisky(cap, a) && IsRisky(cap, b) && a < b && IsAnswer(cap, c)
    ensures Alone(cap, cfg, inputs, states, WorldOf(inputs), {"op"}) && Denied(inputs, states)
  {
    hide Integrity, Next, Wf, CanStart, Initial, IsRisky, Feed, Tidy, FirstHalf, SecondHalf, Situated,
         RefusalsAnswerTheLastPost, IsAnswer, Behavior, Posts, Stores, Blind;
    RefusedScript(cap, cfg, a, b, c);
    var x, y := FirstHalf(cap, a, b), SecondHalf(b, |cap.steps|);
    inputs := x + y + [Showing(c)];
    states := TidyRuns(cap, cfg, inputs);
    HalvesPost(cap, a, b, |cap.steps|);
    assert !Posts(Showing(c)) by { Silence(c); }
    SecondIsRefused(x, y, Showing(c), cap);
    PostedSomewhere(x, y, Showing(c));
    PostedChanges(inputs);
  }

  /** The run changed the world of its script, and ended in an answer. */
  predicate Denied(inputs: seq<Instant>, states: seq<State>) {
    && Stores(inputs)[0] == OPEN && Stores(inputs)[|inputs|] == HELD
    && states != [] && Last(states).phase.Ended? && Last(states).phase.result.BusinessOutcome?
  }

  lemma AnswerIsArmed(cap: Capability, c: nat)
    requires Integrity(cap) && IsAnswer(cap, c)
    ensures Armed(cap, c, |cap.steps|)
  {
    DoubleFireTheorems.ArmedAtCheckpoint(cap, c);
  }

  lemma BeginIsSilent(cap: Capability, cfg: Config, s: State)
    requires Integrity(cap) && Wf(cap, s)
    ensures Tidy(cap, cfg, s, Begin(cap)) && Blind(Begin(cap))
  {
    hide Integrity, Wf, Next, Tidy;
    SilentIsTidy(cap, cfg, s, Begin(cap));
  }

  lemma Silence(c: nat)
    ensures !Posts(QUIET) && !Posts(Showing(c))
  {
  }

  lemma HalvesPost(cap: Capability, a: nat, b: nat, n: nat)
    requires a < b < n
    ensures var x, y := FirstHalf(cap, a, b), SecondHalf(b, n);
      Blind(x) && Blind(y) && (exists t :: t in x && Posts(t)) && (exists t :: t in y && Posts(t))
  {
    hide Walk, Posts;
    WalkIsBlind(0, b, {a});
    WalkIsBlind(b, n, {b});
    WalkPosts(0, b, {a}, a);
    WalkPosts(b, n, {b}, b);
    var t :| t in Walk(0, b, {a}) && Posts(t);
    var u :| u in Walk(b, n, {b}) && Posts(u);
    assert t in Begin(cap) + Walk(0, b, {a}) && u in Walk(b, n, {b}) + [QUIET];
  }

  lemma PostedSomewhere(x: seq<Instant>, y: seq<Instant>, last: Instant)
    requires exists t :: t in x && Posts(t)
    ensures exists t :: t in x + y + [last] && Posts(t)
  {
    hide Posts;
    var t :| t in x && Posts(t);
    assert t in x + y + [last];
  }

  /** One consequential step and an operator: the post commits, and the operator
      resolves the run with a declared outcome. */
  lemma ResolvedWitness(cap: Capability, cfg: Config, a: nat, c: nat) returns (inputs: seq<Instant>, states: seq<State>)
    requires Integrity(cap) && CanStart(cap, cfg) && CanAsk(cfg) && IsRisky(cap, a) && IsAnswer(cap, c)
    ensures Alone(cap, cfg, inputs, states, WorldOf(inputs), {"op"}) && Denied(inputs, states)
  {
    hide Integrity, Next, Wf, CanStart, CanAsk, Initial, IsRisky, Feed, Tidy, Walk, Begin, Situated,
         RefusalsAnswerTheLastPost, Behavior, Posts, Stores, Blind, Resolving, Strike;
    assert a < |cap.steps| by { DoubleFireTheorems.RiskyInRange(cap, a); }
    var code := cap.conditions[c].classify.code;
    assert code in cap.outcomes by { DoubleFireTheorems.ArmedAtCheckpoint(cap, c); }
    InitialWf(cap, cfg);
    var s0 := Initial(cap, cfg);
    Begins(cap, cfg);
    var s1 := Feed(cap, cfg, s0, Begin(cap));
    WalkTo(cap, cfg, s1, a, {});
    var s2 := Feed(cap, cfg, s1, Walk(0, a, {}));
    FeedStrike(cap, cfg, s2, true);
    var s3 := Feed(cap, cfg, s2, Strike(true));
    Resolves(cap, cfg, s3, code);
    BeginIsSilent(cap, cfg, s0);
    WalkIsTidy(cap, cfg, s1, a, {});
    StrikeIsTidy(cap, cfg, s2, true);
    ResolvingIsSilent(cap, cfg, s3, code);
    var x := Begin(cap) + Walk(0, a, {});
    inputs := x + Strike(true) + Resolving(code);
    TidyConcat(cap, cfg, s0, Begin(cap), Walk(0, a, {}));
    TidyConcat(cap, cfg, s0, x, Strike(true));
    TidyConcat(cap, cfg, s0, x + Strike(true), Resolving(code));
    states := TidyRuns(cap, cfg, inputs);
    WalkIsBlind(0, a, {});
    assert Blind(inputs) && exists t :: t in inputs && Posts(t)
        by { ResolvedIsBlind(Begin(cap), Walk(0, a, {}), code); }
    BlindIsUnrefused(cap, inputs);
    PostedChanges(inputs);
  }

  lemma ResolvingIsSilent(cap: Capability, cfg: Config, s: State, code: string)
    requires Integrity(cap) && Wf(cap, s)
    ensures Tidy(cap, cfg, s, Resolving(code))
  {
    hide Integrity, Wf, Next, Tidy;
    SilentIsTidy(cap, cfg, s, Resolving(code));
  }

  lemma ResolvedIsBlind(begin: seq<Instant>, walk: seq<Instant>, code: string)
    requires Blind(begin) && Blind(walk)
    ensures var inputs := begin + walk + Strike(true) + Resolving(code);
      Blind(inputs) && exists t :: t in inputs && Posts(t)
  {
    var inputs := begin + walk + Strike(true) + Resolving(code);
    assert Blind(Strike(true)) && Blind(Resolving(code));
    assert Acting(true) in Strike(true) && Acting(true) in inputs && Posts(Acting(true));
  }

  /** An ambiguous capability has a run that denies what it did. */
  lemma SomeRunDenies(cap: Capability, cfg: Config) returns (inputs: seq<Instant>, states: seq<State>)
    requires Integrity(cap) && !Unambiguous(cap, cfg)
    ensures Alone(cap, cfg, inputs, states, WorldOf(inputs), {"op"}) && Denied(inputs, states)
  {
    hide Integrity, CanStart, CanAsk, IsAnswer, IsRisky, Denied;
    var c: nat :| IsAnswer(cap, c);
    if CanAsk(cfg) {
      var a: nat :| 0 <= a < |cap.steps| && cap.steps[a].risk == Risky;
      assert IsRisky(cap, a) by { RiskyAt(cap, a); }
      inputs, states := ResolvedWitness(cap, cfg, a, c);
    } else {
      var a: nat, b: nat :| IsRisky(cap, a) && IsRisky(cap, b) && a != b;
      inputs, states := RefusedWitness(cap, cfg, if a < b then a else b, if a < b then b else a, c);
    }
  }

  lemma RiskyAt(cap: Capability, a: nat)
    requires a < |cap.steps| && cap.steps[a].risk == Risky
    ensures IsRisky(cap, a)
  {
  }

  // ------------------------------------------------------------------ theorems

  const BEFORE := Observation("1", [ShareStatus("S", "ACTIVE")], None)

  const AFTER := Observation("1", [ShareStatus("S", HOLD)], None)

  /** Truthful readings of the script's world, and what they are judged to show. */
  lemma DenialIsJudged(inputs: seq<Instant>, states: seq<State>)
    requires Denied(inputs, states)
    ensures Denies(states, WorldOf(inputs)) && Blamed(states, WorldOf(inputs), TARGET, BEFORE, AFTER)
  {
    hide Collateral;
    assert Strip("1") == "1";
  }

  /** Exactly when a run alone on the server, whose refusals answer its last post, may
      deny what it did: the capability can start, declares an answer, and has a
      consequential step with an operator to ask, or two of them without. */
  lemma NeverDeniesIff(cap: Capability, cfg: Config)
    requires Integrity(cap)
    ensures NeverDenies(cap, cfg) <==> Unambiguous(cap, cfg)
  {
    hide Integrity, Unambiguous, Alone, Denies, Denied;
    if Unambiguous(cap, cfg) {
      forall inputs, states, world, supervisors | Alone(cap, cfg, inputs, states, world, supervisors)
        ensures !Denies(states, world)
      {
        UnambiguousNeverDenies(cap, cfg, inputs, states, world, supervisors);
      }
    } else {
      var inputs, states := SomeRunDenies(cap, cfg);
      DenialIsJudged(inputs, states);
    }
  }

  /** Exactly then, too, every EFFECT_MISMATCH on truthful readings is a success the
      executor claimed and the server never committed. */
  lemma NeverBlamedIff(cap: Capability, cfg: Config)
    requires Integrity(cap)
    ensures NeverBlamed(cap, cfg) <==> Unambiguous(cap, cfg)
  {
    hide Integrity, Unambiguous, Alone, Denies, Denied, Blamed;
    if Unambiguous(cap, cfg) {
      forall inputs, states, world, supervisors, expected, pre,
          post | Alone(cap, cfg, inputs, states, world, supervisors)
        ensures !Blamed(states, world, expected, pre, post)
      {
        UnambiguousNeverDenies(cap, cfg, inputs, states, world, supervisors);
        if Blamed(states, world, expected, pre, post) {
          BlamedDenies(cap, cfg, inputs, states, world, supervisors, expected, pre, post);
        }
      }
    } else {
      var inputs, states := SomeRunDenies(cap, cfg);
      DenialIsJudged(inputs, states);
    }
  }
}
