/** Concrete runs, built instant by instant, for the witnesses of the
    impossibility half of the double-fire theorems. */
module Scripts {
  import opened Wrappers
  import opened Artifact
  import opened Escalation
  import opened Protocol
  import opened DoubleFire

  function Feed(cap: Capability, cfg: Config, s: State, ts: seq<Instant>): (r: State)
    requires Integrity(cap) && Wf(cap, s)
    ensures Wf(cap, r)
    decreases |ts|
  {
    if ts == [] then s else Feed(cap, cfg, Next(cap, cfg, s, ts[0]), ts[1..])
  }

  lemma {:induction false} FeedConcat(cap: Capability, cfg: Config, s: State, a: seq<Instant>, b: seq<Instant>)
    requires Integrity(cap) && Wf(cap, s)
    ensures Feed(cap, cfg, s, a + b) == Feed(cap, cfg, Feed(cap, cfg, s, a), b)
    decreases |a|
  {
    hide Integrity, Wf, Next;
    if a == [] {
      assert a + b == b;
    } else {
      FeedConcat(cap, cfg, Next(cap, cfg, s, a[0]), a[1..], b);
      assert (a + b)[1..] == a[1..] + b;
    }
  }

  lemma InitialWf(cap: Capability, cfg: Config)
    ensures Wf(cap, Initial(cap, cfg))
  {
  }

  /** Whatever instants are fed, some run does exactly that. */
  lemma {:induction false} FeedIsBehavior(cap: Capability, cfg: Config, ts: seq<Instant>) returns (states: seq<State>)
    requires Integrity(cap)
    ensures Behavior(cap, cfg, ts, states) && Last(states) == Feed(cap, cfg, Initial(cap, cfg), ts)
  {
    hide Integrity, Wf, Next;
    if ts == [] {
      InitialWf(cap, cfg);
      states := [Initial(cap, cfg)];
    } else {
      var n := |ts| - 1;
      states := FeedIsBehavior(cap, cfg, ts[..n]);
      var s := Last(states);
      Extend(cap, cfg, ts[..n], states, ts[n]);
      FeedConcat(cap, cfg, Initial(cap, cfg), ts[..n], [ts[n]]);
      assert ts[..n] + [ts[n]] == ts;
      assert [ts[n]][1..] == [];
      assert Feed(cap, cfg, s, [ts[n]]) == Feed(cap, cfg, Next(cap, cfg, s, ts[n]), []);
      states := states + [Next(cap, cfg, s, ts[n])];
    }
  }

  lemma FeedOne(cap: Capability, cfg: Config, s: State, t: Instant)
    requires Integrity(cap) && Wf(cap, s)
    ensures Feed(cap, cfg, s, [t]) == Next(cap, cfg, s, t)
  {
    hide Integrity, Wf, Next;
    assert [t][1..] == [];
  }

  /** Every state of a run is what its inputs so far feed the machine to. */
  lemma {:induction false} StateIsFeed(cap: Capability, cfg: Config, inputs: seq<Instant>, states: seq<State>, k: nat)
    requires Integrity(cap) && Behavior(cap, cfg, inputs, states) && k <= |inputs|
    ensures |states| == |inputs| + 1
    ensures Wf(cap, Initial(cap, cfg)) && states[k] == Feed(cap, cfg, Initial(cap, cfg), inputs[..k])
  {
    hide Integrity, Next, Wf;
    InitialWf(cap, cfg);
    if k > 0 {
      StateIsFeed(cap, cfg, inputs, states, k - 1);
      FeedConcat(cap, cfg, Initial(cap, cfg), inputs[..k - 1], [inputs[k - 1]]);
      FeedOne(cap, cfg, states[k - 1], inputs[k - 1]);
      assert inputs[..k - 1] + [inputs[k - 1]] == inputs[..k];
    }
  }

  // ------------------------------------------------------------- instants

  const QUIET := Instant(0, [], [], 0, true, {}, {}, false, false, {}, Landed, true)

  const POST := Dispatch("POST", "/members/1/hold/post", Mutation)

  function Acting(fire: bool): Instant { QUIET.(sent := if fire then [POST] else []) }

  function Holding(i: nat): Instant { QUIET.(posts := {i}) }

  function Showing(c: nat): Instant { QUIET.(matching := {c}) }

  function Calling(call: ConsoleCall): Instant { QUIET.(calls := [call]) }

  /** The operator console has asked for nothing. */
  predicate Calm(h: Hub) { h.state == Automation && !h.pauseRequested && h.commands == [] }

  lemma ElapseQuiet(cfg: Config, s: State, t: Instant)
    requires t.calls == []
    ensures Elapse(cfg, s, t) == s.(now := s.now + 1 + t.elapsed, dispatched := s.dispatched + t.sent,
      blocked := s.blocked + t.blocked)
  {
    assert s.log + Accepted(s.hub, t.calls) == s.log;
  }

  // ------------------------------------------------------ passing one step

  lemma SnapshotQuiet(cap: Capability, cfg: Config, s: State)
    requires Integrity(cap) && Wf(cap, s) && s.phase.Snapshot?
    ensures var r := Next(cap, cfg, s, QUIET);
      r == s.(now := s.now + 1, stale := {}, gone := r.gone, mark := |s.dispatched|, blockMark := s.blocked,
          phase := Poll(false))
  {
    hide Integrity;
    ElapseQuiet(cfg, s, QUIET);
    assert s.dispatched + [] == s.dispatched;
    assert ArmedAnswers(cap, s.index) * {} == {};
  }

  lemma {:induction false} NoHit(cap: Capability, index: nat, suppressed: set<string>, from: nat)
    requires Integrity(cap) && from <= |cap.conditions|
    ensures FirstHit(cap, index, suppressed, {}, from) == None
    decreases |cap.conditions| - from
  {
    hide Integrity, Armed;
    if from < |cap.conditions| {
      NoHit(cap, index, suppressed, from + 1);
    }
  }

  lemma {:induction false} OnlyHit(cap: Capability, index: nat, c: nat, from: nat)
    requires Integrity(cap) && from <= c < |cap.conditions| && Armed(cap, c, index)
    ensures FirstHit(cap, index, {}, {c}, from) == Some(c)
    decreases |cap.conditions| - from
  {
    hide Integrity, Armed;
    if from < c {
      OnlyHit(cap, index, c, from + 1);
    }
  }

  lemma PollQuiet(cap: Capability, cfg: Config, s: State)
    requires Integrity(cap) && Wf(cap, s) && s.phase == Poll(false) && Calm(s.hub)
    ensures Next(cap, cfg, s, QUIET) == s.(now := s.now + 1, phase := Act)
  {
    hide Integrity, FirstHit;
    ElapseQuiet(cfg, s, QUIET);
    assert s.dispatched + [] == s.dispatched;
    NoHit(cap, s.index, Suppressed(cap, s), 0);
  }

  lemma ActLands(cap: Capability, cfg: Config, s: State, fire: bool)
    requires Integrity(cap) && Wf(cap, s) && s.phase == Act && s.mark == |s.dispatched|
    ensures var r := Next(cap, cfg, s, Acting(fire));
      && r.phase == Check && r.index == s.index && r.hub == s.hub && r.fires == s.fires && r.stale == s.stale
      && r.kept == s.kept
      && r.escalations == s.escalations && s.log + [Attempted(s.index)] <= r.log
      && r.mark == s.mark && r.dispatched == s.dispatched + (if fire then [POST] else []) && r.blocked == s.blocked
      && r.blockMark == s.blockMark
      && (fire && IsRisky(cap, s.index) ==> Consequential(s.index, s.mark) in r.log)
      && r.hazard.Some? == (s.hazard.Some? || (fire && IsRisky(cap, s.index)))
      && (r.hazard.Some? ==> r.hazard.value.index == if s.hazard.Some? then s.hazard.value.index else s.index)
  {
    hide Integrity;
    ElapseQuiet(cfg, s, Acting(fire));
    var sent := if fire then [POST] else [];
    assert (s.dispatched + sent)[s.mark..] == sent;
    assert fire ==> Mutations(sent) == [POST] by {
      assert [POST][1..] == [];
    }
  }

  lemma CheckHolds(cap: Capability, cfg: Config, s: State)
    requires Integrity(cap) && Wf(cap, s) && s.phase == Check && s.index < |cap.steps|
    ensures Next(cap, cfg, s, Holding(s.index)) == EnterAt(cap, cfg, s.(now := s.now + 1, kept := s.stale), s.index + 1)
  {
    hide Integrity;
    ElapseQuiet(cfg, s, Holding(s.index));
    assert s.dispatched + [] == s.dispatched;
  }

  /** Ready to be visited at `s.index`: a step, or the checkpoint. */
  predicate Ready(cap: Capability, s: State) {
    && Calm(s.hub)
    && s.phase == (if s.index < |cap.steps| then Snapshot else Check)
    && (s.index == |cap.steps| ==> s.kept == {})
  }

  function Pass(i: nat, fire: bool): seq<Instant> { [QUIET, QUIET, Acting(fire), Holding(i)] }

  lemma FeedFour(cap: Capability, cfg: Config, s: State, a: Instant, b: Instant, c: Instant, d: Instant)
    requires Integrity(cap) && Wf(cap, s)
    ensures Feed(cap, cfg, s, [a, b, c, d])
      == Next(cap, cfg, Next(cap, cfg, Next(cap, cfg, Next(cap, cfg, s, a), b), c), d)
  {
    hide Integrity, Wf, Next;
    FeedConcat(cap, cfg, s, [a], [b, c, d]);
    FeedConcat(cap, cfg, Next(cap, cfg, s, a), [b], [c, d]);
    FeedConcat(cap, cfg, Next(cap, cfg, Next(cap, cfg, s, a), b), [c], [d]);
    assert [a] + [b, c, d] == [a, b, c, d] && [b] + [c, d] == [b, c, d] && [c] + [d] == [c, d];
  }

  /** What passing over steps leaves alone, and what it records. */
  predicate Passed(cap: Capability, s: State, r: State) {
    && r.hub == s.hub && r.fires == s.fires && r.escalations == s.escalations && s.log <= r.log
    && (s.hazard.Some? ==> r.hazard.Some? && r.hazard.value.index == s.hazard.value.index)
    && (s.kept == {} ==> r.kept == {})
  }

  lemma PassStep(cap: Capability, cfg: Config, s: State, fire: bool)
    requires Integrity(cap) && Wf(cap, s) && Ready(cap, s) && s.index < |cap.steps|
    ensures var r := Feed(cap, cfg, s, Pass(s.index, fire));
      && Ready(cap, r) && r.index == s.index + 1 && Passed(cap, s, r)
      && (fire && IsRisky(cap, s.index) ==> s.index in Seen(r.log))
      && (s.hazard.None? && !(fire && IsRisky(cap, s.index)) ==> r.hazard.None?)
      && (s.hazard.None? && fire && IsRisky(cap, s.index) ==> r.hazard.Some? && r.hazard.value.index == s.index)
  {
    hide Integrity, Next, IsRisky, Wf;
    FeedFour(cap, cfg, s, QUIET, QUIET, Acting(fire), Holding(s.index));
    SnapshotQuiet(cap, cfg, s);
    var s1 := Next(cap, cfg, s, QUIET);
    PollQuiet(cap, cfg, s1);
    var s2 := Next(cap, cfg, s1, QUIET);
    ActLands(cap, cfg, s2, fire);
    var s3 := Next(cap, cfg, s2, Acting(fire));
    CheckHolds(cap, cfg, s3);
    var r := Next(cap, cfg, s3, Holding(s.index));
    assert s3.log <= r.log;
    if fire && IsRisky(cap, s.index) {
      var e := Consequential(s2.index, s2.mark);
      assert e in r.log && e.Consequential?;
    }
  }

  /** Pass over the steps from `i` up to `j`, sending from those in `fires`. */
  function Walk(i: nat, j: nat, fires: set<nat>): seq<Instant>
    requires i <= j
    decreases j - i
  {
    if i == j then [] else Pass(i, i in fires) + Walk(i + 1, j, fires)
  }

  lemma {:induction false} WalkTo(cap: Capability, cfg: Config, s: State, j: nat, fires: set<nat>)
    requires Integrity(cap) && Wf(cap, s) && Ready(cap, s) && s.index <= j <= |cap.steps|
    ensures var r := Feed(cap, cfg, s, Walk(s.index, j, fires));
      && Ready(cap, r) && r.index == j && Passed(cap, s, r)
      && (forall i :: i in fires && s.index <= i < j && IsRisky(cap, i) ==> i in Seen(r.log))
      && (s.hazard.None? && (forall i :: i in fires ==> i >= j) ==> r.hazard.None?)
      && (forall a ::
            a in fires && s.index <= a < j && IsRisky(cap, a) && s.hazard.None? && (forall i :: i in fires ==> i >= a)
            ==> r.hazard.Some? && r.hazard.value.index == a)
    decreases j - s.index
  {
    hide Integrity, Next, IsRisky, Wf, Seen, Pass;
    if s.index < j {
      var m := Feed(cap, cfg, s, Pass(s.index, s.index in fires));
      PassStep(cap, cfg, s, s.index in fires);
      WalkTo(cap, cfg, m, j, fires);
      FeedConcat(cap, cfg, s, Pass(s.index, s.index in fires), Walk(s.index + 1, j, fires));
      var r := Feed(cap, cfg, s, Walk(s.index, j, fires));
      SeenGrows(m.log, r.log);
    }
  }

  lemma SeenGrows(a: seq<Event>, b: seq<Event>)
    requires a <= b
    ensures Seen(a) <= Seen(b)
  {
    forall e | e in a ensures e in b {
      var k :| 0 <= k < |a| && a[k] == e;
      assert b[k] == e;
    }
  }

  // ------------------------------------------------------------ beginning

  function Begin(cap: Capability): seq<Instant> {
    if cap.requirements == {} then [QUIET] else [QUIET, QUIET.(satisfied := cap.requirements)]
  }

  lemma Begins(cap: Capability, cfg: Config)
    requires Integrity(cap) && CanStart(cap, cfg)
    ensures var r := Feed(cap, cfg, Initial(cap, cfg), Begin(cap));
      && Ready(cap, r) && r.index == 0 && r.hazard.None? && r.fires == map[] && r.escalations == 0
      && r.hub == INITIAL_HUB && r.kept == {}
  {
    hide Integrity;
    var s := Initial(cap, cfg);
    assert cap.steps != [] by { StepsExist(cap); }
    ElapseQuiet(cfg, s, QUIET);
    assert s.dispatched + [] == s.dispatched;
    if cap.requirements == {} {
      FeedOne(cap, cfg, s, QUIET);
    } else {
      var meet := QUIET.(satisfied := cap.requirements);
      var s1 := Next(cap, cfg, s, QUIET);
      ElapseQuiet(cfg, s1, meet);
      FeedConcat(cap, cfg, s, [QUIET], [meet]);
      assert [QUIET] + [meet] == [QUIET, meet];
      FeedOne(cap, cfg, s, QUIET);
      FeedOne(cap, cfg, s1, meet);
    }
  }

  lemma StepsExist(cap: Capability)
    requires Integrity(cap)
    ensures cap.steps != []
  {
  }

  // ------------------------------------------------------ firing a step again

  function Strike(fire: bool): seq<Instant> { [QUIET, QUIET, Acting(fire)] }

  lemma FeedStrike(cap: Capability, cfg: Config, s: State, fire: bool)
    requires Integrity(cap) && Wf(cap, s) && Ready(cap, s) && s.index < |cap.steps|
    ensures var r := Feed(cap, cfg, s, Strike(fire));
      && r.phase == Check && r.index == s.index && r.stale == {} && r.kept == s.kept && Passed(cap, s, r)
      && s.log + [Attempted(s.index)] <= r.log
      && (fire && IsRisky(cap, s.index) ==> s.index in Seen(r.log) && r.hazard.Some?)
      && (s.hazard.None? && !fire ==> r.hazard.None? && r.mark == |r.dispatched| && r.blocked == r.blockMark)
  {
    hide Integrity, Next, IsRisky, Wf;
    SnapshotQuiet(cap, cfg, s);
    var s1 := Next(cap, cfg, s, QUIET);
    PollQuiet(cap, cfg, s1);
    var s2 := Next(cap, cfg, s1, QUIET);
    ActLands(cap, cfg, s2, fire);
    FeedOne(cap, cfg, s, QUIET);
    FeedOne(cap, cfg, s1, QUIET);
    FeedOne(cap, cfg, s2, Acting(fire));
    FeedConcat(cap, cfg, s, [QUIET], [QUIET, Acting(fire)]);
    FeedConcat(cap, cfg, s1, [QUIET], [Acting(fire)]);
    assert [QUIET] + [QUIET, Acting(fire)] == Strike(fire) && [QUIET] + [Acting(fire)] == [QUIET, Acting(fire)];
    var r := Next(cap, cfg, s2, Acting(fire));
    if fire && IsRisky(cap, s.index) {
      var e := Consequential(s2.index, s2.mark);
      assert e in r.log && e.Consequential?;
    }
  }

  lemma StrikeAgain(cap: Capability, cfg: Config, s: State)
    requires Integrity(cap) && Wf(cap, s) && Ready(cap, s) && s.index < |cap.steps| && s.index in Seen(s.log)
    ensures FiredTwice(Feed(cap, cfg, s, Strike(false)).log)
  {
    hide Integrity, Next, Wf;
    FeedStrike(cap, cfg, s, false);
    var r := Feed(cap, cfg, s, Strike(false));
    var e :| e in s.log && e.Consequential? && e.index == s.index;
    var j :| 0 <= j < |s.log| && s.log[j] == e;
    var k := |s.log|;
    assert (s.log + [Attempted(s.index)])[k] == Attempted(s.index);
    assert r.log[j] == e && r.log[k] == Attempted(s.index);
  }

  lemma {:induction false} FrontierOnly(i: nat, n: nat)
    requires i < n
    ensures Frontier({i}, n) == Some(i + 1)
  {
    if n - 1 != i {
      FrontierOnly(i, n - 1);
    }
  }

  /** The hub parks, the operator approves, and control goes back to automation. */
  function Approving(): seq<Instant> {
    [QUIET, Calling(Decide(Approve, "op", "", "")), QUIET, QUIET]
  }

  /** The operator pauses the run after a risky action and approves it as it is. */
  function Approval(b: nat): seq<Instant>
    requires b > 0
  {
    [Calling(RequestControl("op")), QUIET] + Approving() + [Holding(b - 1)]
  }

  lemma OneCall(cfg: Config, s: State, t: Instant, call: ConsoleCall)
    requires t.calls == [call] && cfg.attended.Some? && Accepts(s.hub.state, call)
    ensures Elapse(cfg, s, t) == s.(now := s.now + 1 + t.elapsed, dispatched := s.dispatched + t.sent,
      blocked := s.blocked + t.blocked,
                                    hub := Apply(s.hub, call), log := s.log + [Console(call)])
  {
    assert [call][1..] == [];
    assert Accepted(s.hub, [call]) == [Console(call)] + Accepted(Apply(s.hub, call), []);
    assert HubAfter(s.hub, [call]) == HubAfter(Apply(s.hub, call), []);
  }

  /** `r` is later than `s`, at the same step, under the same hazard. */
  predicate Later(s: State, r: State) {
    r.index == s.index && r.hazard == s.hazard && r.kept == s.kept && s.log <= r.log
  }

  lemma PauseArrives(cap: Capability, cfg: Config, s: State)
    requires Integrity(cap) && Wf(cap, s) && s.phase == Check && s.index < |cap.steps| && s.stale == {} && Calm(s.hub)
      && CanAsk(cfg)
    ensures var r := Next(cap, cfg, s, Calling(RequestControl("op")));
      Later(s, r) && r.phase == Poll(true) && r.escalations == s.escalations
          && r.hub == Apply(s.hub, RequestControl("op"))
  {
    hide Integrity;
    OneCall(cfg, s, Calling(RequestControl("op")), RequestControl("op"));
  }

  lemma PauseAsks(cap: Capability, cfg: Config, s: State)
    requires Integrity(cap) && Wf(cap, s) && s.phase == Poll(true) && s.escalations == 0 && CanAsk(cfg)
      && PauseDue(cfg, s)
    ensures var r := Next(cap, cfg, s, QUIET); Later(s, r) && r.phase.Asking? && r.hub == s.hub
  {
    hide Integrity, FirstHit;
    ElapseQuiet(cfg, s, QUIET);
  }

  lemma HubParks(cap: Capability, cfg: Config, s: State)
    requires Integrity(cap) && Wf(cap, s) && s.phase.Asking?
    ensures var r := Next(cap, cfg, s, QUIET);
      && Later(s, r) && r.phase.ParkLook? && r.hub == Parked(s.hub) && r.fires == s.fires
      && r.blocked == s.blocked && r.blockMark == s.blockMark
  {
    hide Integrity;
    ElapseQuiet(cfg, s, QUIET);
  }

  lemma ApprovalArrives(cap: Capability, cfg: Config, s: State)
    requires Integrity(cap) && Wf(cap, s) && s.phase.ParkLook? && s.hub.state == Paused && cfg.attended.Some?
    ensures var call := Decide(Approve, "op", "", ""); var r := Next(cap, cfg, s, Calling(call));
      Later(s, r) && r.phase.ParkTake? && r.hub == Apply(s.hub, call) && r.fires == s.fires
  {
    hide Integrity;
    OneCall(cfg, s, Calling(Decide(Approve, "op", "", "")), Decide(Approve, "op", "", ""));
  }

  lemma ApprovalTaken(cap: Capability, cfg: Config, s: State)
    requires Integrity(cap) && Wf(cap, s) && s.phase.ParkTake? && s.hub.decision == Approve
    ensures var r := Next(cap, cfg, s, QUIET);
      Later(s, r) && r.phase.Releasing? && r.hub == s.hub.(decision := NoDecision) && r.fires == s.fires
  {
    hide Integrity;
    ElapseQuiet(cfg, s, QUIET);
  }

  lemma ControlReturns(cap: Capability, cfg: Config, s: State)
    requires Integrity(cap) && Wf(cap, s) && s.phase.Releasing?
    ensures var r := Next(cap, cfg, s, QUIET);
      Later(s, r) && r.phase.Scan? && r.hub == Resumed(s.hub) && r.fires == s.fires
  {
    hide Integrity;
    ElapseQuiet(cfg, s, QUIET);
  }

  /** An intervention approved as it is leaves the flow at its scan. */
  lemma Approves(cap: Capability, cfg: Config, s: State)
    requires Integrity(cap) && Wf(cap, s) && s.phase.Asking? && s.hub.commands == [] && CanAsk(cfg)
    ensures var r := Feed(cap, cfg, s, Approving()); Later(s, r) && r.phase.Scan? && Calm(r.hub) && r.fires == s.fires
  {
    hide Integrity, Wf, Next;
    var ts := Approving();
    HubParks(cap, cfg, s);
    var s1 := Next(cap, cfg, s, ts[0]);
    ApprovalArrives(cap, cfg, s1);
    var s2 := Next(cap, cfg, s1, ts[1]);
    ApprovalTaken(cap, cfg, s2);
    var s3 := Next(cap, cfg, s2, ts[2]);
    ControlReturns(cap, cfg, s3);
    FeedFour(cap, cfg, s, ts[0], ts[1], ts[2], ts[3]);
  }

  lemma ScanReturns(cap: Capability, cfg: Config, s: State)
    requires Integrity(cap) && Wf(cap, s) && s.phase.Scan? && 0 < s.index < |cap.steps| && Calm(s.hub)
    requires s.hazard.Some? ==> s.hazard.value.index < s.index
    ensures var r := Next(cap, cfg, s, Holding(s.index - 1)); Later(s, r) && Ready(cap, r)
  {
    hide Integrity;
    ElapseQuiet(cfg, s, Holding(s.index - 1));
    FrontierOnly(s.index - 1, |cap.steps|);
  }

  lemma ApprovalReturns(cap: Capability, cfg: Config, s: State)
    requires Integrity(cap) && Wf(cap, s) && s.phase == Check && 0 < s.index < |cap.steps| && s.stale == {}
      && Calm(s.hub)
    requires CanAsk(cfg) && s.escalations == 0 && (s.hazard.Some? ==> s.hazard.value.index < s.index)
    ensures var r := Feed(cap, cfg, s, Approval(s.index)); Ready(cap, r) && r.index == s.index && s.log <= r.log
  {
    hide Integrity, Wf, Next, Ready, Approving;
    PauseArrives(cap, cfg, s);
    var s1 := Next(cap, cfg, s, Calling(RequestControl("op")));
    PauseAsks(cap, cfg, s1);
    var s2 := Next(cap, cfg, s1, QUIET);
    Approves(cap, cfg, s2);
    var s3 := Feed(cap, cfg, s2, Approving());
    ScanReturns(cap, cfg, s3);
    FeedAround(cap, cfg, s, Calling(RequestControl("op")), QUIET, Approving(), Holding(s.index - 1));
  }

  /** Two instants, a stretch, and one more. */
  lemma FeedAround(cap: Capability, cfg: Config, s: State, a: Instant, b: Instant, ts: seq<Instant>, c: Instant)
    requires Integrity(cap) && Wf(cap, s)
    ensures Feed(cap, cfg, s, [a, b] + ts + [c])
      == Next(cap, cfg, Feed(cap, cfg, Next(cap, cfg, Next(cap, cfg, s, a), b), ts), c)
  {
    hide Integrity, Wf, Next;
    FeedTwo(cap, cfg, s, a, b);
    FeedConcat(cap, cfg, s, [a, b] + ts, [c]);
    FeedConcat(cap, cfg, s, [a, b], ts);
    FeedOne(cap, cfg, Feed(cap, cfg, s, [a, b] + ts), c);
  }

  lemma FeedTwo(cap: Capability, cfg: Config, s: State, a: Instant, b: Instant)
    requires Integrity(cap) && Wf(cap, s)
    ensures Feed(cap, cfg, s, [a, b]) == Next(cap, cfg, Next(cap, cfg, s, a), b)
  {
    hide Integrity, Wf, Next;
    FeedConcat(cap, cfg, s, [a], [b]);
    FeedOne(cap, cfg, s, a);
    FeedOne(cap, cfg, Next(cap, cfg, s, a), b);
    assert [a] + [b] == [a, b];
  }

  // ----------------------------------------------------- restarting unattended

  lemma CheckpointUnmet(cap: Capability, cfg: Config, s: State)
    requires Integrity(cap) && Wf(cap, s) && Ready(cap, s) && s.index == |cap.steps|
    ensures Next(cap, cfg, s, QUIET) == s.(now := s.now + 1, phase := Poll(true))
  {
    hide Integrity;
    ElapseQuiet(cfg, s, QUIET);
    assert s.dispatched + [] == s.dispatched;
  }

  lemma ConditionFires(cap: Capability, cfg: Config, s: State, c: nat)
    requires Integrity(cap) && Wf(cap, s) && s.phase == Poll(true) && s.index == |cap.steps| && s.kept == {}
      && Calm(s.hub)
    requires Usable(cap, c) && Armed(cap, c, s.index) && Fires(s, cap.conditions[c].id) < cap.conditions[c].maxFires
    requires cap.conditions[c].classify.resume.RestartFrom?
      && Names(cap.steps, cap.conditions[c].classify.resume.stepId)
    requires !Forbidden(s.hazard, IndexOf(cap.steps, cap.conditions[c].classify.resume.stepId))
    ensures var r := Next(cap, cfg, s, Showing(c));
      && r.phase == RecoverAct(c, 0, IndexOf(cap.steps, cap.conditions[c].classify.resume.stepId))
      && r.hub == s.hub && s.log <= r.log && r.hazard == s.hazard && r.kept == {}
  {
    hide Integrity, FirstHit, Armed;
    ElapseQuiet(cfg, s, Showing(c));
    OnlyHit(cap, s.index, c, 0);
  }

  function Recovering(n: nat): seq<Instant> {
    if n == 0 then [] else [QUIET, QUIET.(recovered := true)] + Recovering(n - 1)
  }

  lemma RecoverOne(cap: Capability, cfg: Config, s: State, c: nat, k: nat, r: nat)
    requires Integrity(cap) && Wf(cap, s) && s.phase == RecoverAct(c, k, r) && Calm(s.hub) && s.kept == {}
    ensures var q := Next(cap, cfg, Next(cap, cfg, s, QUIET), QUIET.(recovered := true));
      && q.hub == s.hub && s.log <= q.log && q.kept == {} && q.escalations == s.escalations && q.hazard == s.hazard
      && if k + 1 < |cap.conditions[c].classify.recovery| then q.phase == RecoverAct(c, k + 1, r)
         else Ready(cap, q) && q.index == r
  {
    hide Integrity;
    ElapseQuiet(cfg, s, QUIET);
    var s1 := Next(cap, cfg, s, QUIET);
    ElapseQuiet(cfg, s1, QUIET.(recovered := true));
  }

  lemma {:induction false} Recovers(cap: Capability, cfg: Config, s: State, c: nat, k: nat, r: nat)
    requires Integrity(cap) && Wf(cap, s) && s.phase == RecoverAct(c, k, r) && Calm(s.hub) && s.kept == {}
    ensures var q := Feed(cap, cfg, s, Recovering(|cap.conditions[c].classify.recovery| - k));
      Ready(cap, q) && q.index == r && s.log <= q.log && q.escalations == s.escalations && q.hazard == s.hazard
    decreases |cap.conditions[c].classify.recovery| - k
  {
    hide Integrity, Next, Ready;
    var n := |cap.conditions[c].classify.recovery| - k;
    var t := QUIET.(recovered := true);
    var s1 := Next(cap, cfg, s, QUIET);
    var s2 := Next(cap, cfg, s1, t);
    RecoverOne(cap, cfg, s, c, k, r);
    FeedConcat(cap, cfg, s, [QUIET, t], Recovering(n - 1));
    FeedConcat(cap, cfg, s, [QUIET], [t]);
    FeedOne(cap, cfg, s, QUIET);
    FeedOne(cap, cfg, s1, t);
    assert [QUIET] + [t] == [QUIET, t];
    if n > 1 {
      Recovers(cap, cfg, s2, c, k + 1, r);
    }
  }

  function Restart(cap: Capability, c: nat): seq<Instant>
    requires Usable(cap, c)
  {
    [QUIET, Showing(c)] + Recovering(|cap.conditions[c].classify.recovery|)
  }

  lemma Restarts(cap: Capability, cfg: Config, s: State, c: nat)
    requires Integrity(cap) && Wf(cap, s) && Ready(cap, s) && s.index == |cap.steps|
    requires Usable(cap, c) && Armed(cap, c, s.index) && Fires(s, cap.conditions[c].id) < cap.conditions[c].maxFires
    requires cap.conditions[c].classify.resume.RestartFrom?
      && Names(cap.steps, cap.conditions[c].classify.resume.stepId)
    requires !Forbidden(s.hazard, IndexOf(cap.steps, cap.conditions[c].classify.resume.stepId))
    ensures var q := Feed(cap, cfg, s, Restart(cap, c));
      Ready(cap, q) && q.index == IndexOf(cap.steps, cap.conditions[c].classify.resume.stepId) && s.log <= q.log
  {
    hide Integrity, Next, Wf, Armed;
    CheckpointUnmet(cap, cfg, s);
    var s1 := Next(cap, cfg, s, QUIET);
    ConditionFires(cap, cfg, s1, c);
    var s2 := Next(cap, cfg, s1, Showing(c));
    Recovers(cap, cfg, s2, c, 0, IndexOf(cap.steps, cap.conditions[c].classify.resume.stepId));
    FeedConcat(cap, cfg, s, [QUIET, Showing(c)], Recovering(|cap.conditions[c].classify.recovery|));
    FeedConcat(cap, cfg, s, [QUIET], [Showing(c)]);
    FeedOne(cap, cfg, s, QUIET);
    FeedOne(cap, cfg, s1, Showing(c));
    assert [QUIET] + [Showing(c)] == [QUIET, Showing(c)];
  }

  // ------------------------------------------------- an observation denied

  /** The dispatch shows up late, a recoverable condition interrupts the wait,
      the operator takes control and aborts. */
  function Interruption(c: nat): seq<Instant> {
    [Acting(true), Showing(c)] + Aborting()
  }

  /** The hub parks, the operator takes control and aborts. */
  function Aborting(): seq<Instant> {
    [QUIET, Calling(Take("op")), Calling(Decide(Abort, "op", "", "")), QUIET]
  }

  lemma LateDispatch(cap: Capability, cfg: Config, s: State)
    requires Integrity(cap) && Wf(cap, s) && s.phase == Check && s.index < |cap.steps| && s.stale == {}
      && s.mark == |s.dispatched|
    ensures Next(cap, cfg, s, Acting(true))
      == s.(now := s.now + 1, dispatched := s.dispatched + [POST], phase := Poll(true))
  {
    hide Integrity;
    ElapseQuiet(cfg, s, Acting(true));
  }

  lemma LateInterruption(cap: Capability, cfg: Config, s: State, c: nat)
    requires Integrity(cap) && Wf(cap, s) && s.phase == Poll(true) && s.stale == {} && Calm(s.hub) && CanAsk(cfg)
      && s.escalations == 0
    requires Interruptible(cap, s.index, c) && s.fires == map[] && s.mark + 1 == |s.dispatched|
      && s.dispatched[s.mark] == POST
    ensures var r := Next(cap, cfg, s, Showing(c));
      && r.phase.Asking? && Later(s, r) && r.hub == s.hub && s.index in Seen(r.log)
      && r.fires == map[cap.conditions[c].id := 1]
      && r.blocked == s.blocked && r.blockMark == s.blockMark
  {
    hide Integrity, FirstHit, Armed;
    ElapseQuiet(cfg, s, Showing(c));
    OnlyHit(cap, s.index, c, 0);
    assert s.dispatched + [] == s.dispatched;
    assert s.dispatched[s.mark..] == [POST];
    assert Mutations([POST]) == [POST] by { assert [POST][1..] == []; }
    var e := Consequential(s.index, s.mark);
    assert e in Next(cap, cfg, s, Showing(c)).log && e.Consequential?;
  }

  lemma TakeArrives(cap: Capability, cfg: Config, s: State)
    requires Integrity(cap) && Wf(cap, s) && s.phase.ParkLook? && s.hub.state == Paused && cfg.attended.Some?
    ensures var r := Next(cap, cfg, s, Calling(Take("op")));
      r.phase.ParkPop? && r.hub == Apply(s.hub, Take("op")) && Later(s, r) && r.blocked == s.blocked
          && r.blockMark == s.blockMark
  {
    hide Integrity;
    OneCall(cfg, s, Calling(Take("op")), Take("op"));
  }

  lemma DecisionArrives(cap: Capability, cfg: Config, s: State, d: Decision, code: string)
    requires Integrity(cap) && Wf(cap, s) && s.phase.ParkPop? && s.hub.state == Human && s.hub.commands == []
      && cfg.attended.Some?
    requires d == Abort || d == Resolve
    ensures var call := Decide(d, "op", "", code); var r := Next(cap, cfg, s, Calling(call));
      r.phase.ParkTake? && r.hub == Apply(s.hub, call) && Later(s, r) && r.blocked == s.blocked
          && r.blockMark == s.blockMark
  {
    hide Integrity;
    OneCall(cfg, s, Calling(Decide(d, "op", "", code)), Decide(d, "op", "", code));
  }

  lemma AbortTaken(cap: Capability, cfg: Config, s: State)
    requires Integrity(cap) && Wf(cap, s) && s.phase.ParkTake? && s.hub.decision == Abort && s.hazard.None?
      && s.blocked == s.blockMark
    ensures var r := Next(cap, cfg, s, QUIET); r.phase.Ended? && r.phase.result.Failure? && s.log <= r.log
  {
    hide Integrity;
    ElapseQuiet(cfg, s, QUIET);
  }

  lemma Aborts(cap: Capability, cfg: Config, s: State)
    requires Integrity(cap) && Wf(cap, s) && s.phase.Asking? && s.hub.commands == [] && cfg.attended.Some?
    requires s.hazard.None? && s.blocked == s.blockMark
    ensures var r := Feed(cap, cfg, s, Aborting()); r.phase.Ended? && r.phase.result.Failure? && s.log <= r.log
  {
    hide Integrity, Wf, Next;
    var ts := Aborting();
    HubParks(cap, cfg, s);
    var s1 := Next(cap, cfg, s, ts[0]);
    TakeArrives(cap, cfg, s1);
    var s2 := Next(cap, cfg, s1, ts[1]);
    DecisionArrives(cap, cfg, s2, Abort, "");
    var s3 := Next(cap, cfg, s2, ts[2]);
    AbortTaken(cap, cfg, s3);
    FeedFour(cap, cfg, s, ts[0], ts[1], ts[2], ts[3]);
  }

  lemma Denies(cap: Capability, cfg: Config, s: State, c: nat)
    requires Integrity(cap) && Wf(cap, s) && s.phase == Check && s.index < |cap.steps| && s.stale == {} && Calm(s.hub)
      && CanAsk(cfg)
    requires s.escalations == 0 && Interruptible(cap, s.index, c) && s.fires == map[] && s.mark == |s.dispatched|
    requires s.hazard.None? && s.blocked == s.blockMark
    ensures var r := Feed(cap, cfg, s, Interruption(c)); r.phase.Ended? && r.phase.result.Failure? && Seen(r.log) != {}
  {
    hide Integrity, Next, Wf, Seen, Interruptible, Aborting;
    LateDispatch(cap, cfg, s);
    var s1 := Next(cap, cfg, s, Acting(true));
    LateInterruption(cap, cfg, s1, c);
    var s2 := Next(cap, cfg, s1, Showing(c));
    Aborts(cap, cfg, s2);
    FeedTwo(cap, cfg, s, Acting(true), Showing(c));
    FeedConcat(cap, cfg, s, [Acting(true), Showing(c)], Aborting());
    SeenGrows(s2.log, Feed(cap, cfg, s, Interruption(c)).log);
  }

  /** The dispatch shows up late, a recoverable condition interrupts the wait,
      the operator approves the run as it is. */
  function LateApproval(i: nat, c: nat): seq<Instant>
    requires i > 0
  {
    [Acting(true), Showing(c)] + Approving() + [Holding(i - 1)]
  }

  lemma Forgets(cap: Capability, cfg: Config, s: State, c: nat)
    requires Integrity(cap) && Wf(cap, s) && s.phase == Check && 0 < s.index < |cap.steps| && s.stale == {}
      && Calm(s.hub) && CanAsk(cfg)
    requires s.escalations == 0 && Interruptible(cap, s.index, c) && s.fires == map[] && s.mark == |s.dispatched|
      && s.hazard.None?
    ensures var r := Feed(cap, cfg, s, LateApproval(s.index, c));
      Ready(cap, r) && r.index == s.index && s.index in Seen(r.log)
  {
    hide Integrity, Next, Wf, Seen, Interruptible, Ready, Approving;
    LateDispatch(cap, cfg, s);
    var s1 := Next(cap, cfg, s, Acting(true));
    LateInterruption(cap, cfg, s1, c);
    var s2 := Next(cap, cfg, s1, Showing(c));
    Approves(cap, cfg, s2);
    var s3 := Feed(cap, cfg, s2, Approving());
    ScanReturns(cap, cfg, s3);
    FeedAround(cap, cfg, s, Acting(true), Showing(c), Approving(), Holding(s.index - 1));
    SeenGrows(s2.log, Feed(cap, cfg, s, LateApproval(s.index, c)).log);
  }

  /** As `LateApproval`, but the checkpoint already holds when the flow is handed back. */
  function LateCompletion(c: nat): seq<Instant> {
    [Acting(true), Showing(c)] + Approving() + [QUIET.(checkpoint := true)]
  }

  lemma ScanCompletes(cap: Capability, cfg: Config, s: State)
    requires Integrity(cap) && Wf(cap, s) && s.phase.Scan? && Calm(s.hub) && s.kept == {}
    ensures var r := Next(cap, cfg, s, QUIET.(checkpoint := true));
      Ready(cap, r) && r.index == |cap.steps| && r.hazard == s.hazard && r.fires == s.fires && s.log <= r.log
  {
    hide Integrity;
    ElapseQuiet(cfg, s, QUIET.(checkpoint := true));
  }

  lemma Completes(cap: Capability, cfg: Config, s: State, c: nat)
    requires Integrity(cap) && Wf(cap, s) && s.phase == Check && s.index < |cap.steps| && s.stale == {} && s.kept == {}
    requires Calm(s.hub) && CanAsk(cfg) && s.escalations == 0 && s.fires == map[] && s.mark == |s.dispatched|
      && s.hazard.None?
    requires Interruptible(cap, s.index, c)
    ensures var r := Feed(cap, cfg, s, LateCompletion(c));
      Ready(cap, r) && r.index == |cap.steps| && s.index in Seen(r.log) && r.hazard.None?
          && r.fires == map[cap.conditions[c].id := 1]
  {
    hide Integrity, Next, Wf, Seen, Interruptible, Ready, Approving;
    LateDispatch(cap, cfg, s);
    var s1 := Next(cap, cfg, s, Acting(true));
    LateInterruption(cap, cfg, s1, c);
    var s2 := Next(cap, cfg, s1, Showing(c));
    Approves(cap, cfg, s2);
    var s3 := Feed(cap, cfg, s2, Approving());
    ScanCompletes(cap, cfg, s3);
    FeedAround(cap, cfg, s, Acting(true), Showing(c), Approving(), QUIET.(checkpoint := true));
    SeenGrows(s2.log, Feed(cap, cfg, s, LateCompletion(c)).log);
  }

  // --------------------------------------------------------- ends in an answer

  lemma AnswerShows(cap: Capability, cfg: Config, s: State, c: nat)
    requires Integrity(cap) && Wf(cap, s) && s.phase == Poll(true) && s.index == |cap.steps| && s.kept == {}
      && Calm(s.hub)
    requires IsAnswer(cap, c) && Armed(cap, c, s.index)
    ensures var r := Next(cap, cfg, s, Showing(c)); r.phase.Ended? && r.phase.result.BusinessOutcome?
  {
    hide Integrity, FirstHit, Armed;
    ElapseQuiet(cfg, s, Showing(c));
    OnlyHit(cap, s.index, c, 0);
  }

  /** The operator pauses the run, takes control and resolves it with `code`. */
  function Resolving(code: string): seq<Instant> {
    [Calling(RequestControl("op")), QUIET]
        + [QUIET, Calling(Take("op")), Calling(Decide(Resolve, "op", "", code)), QUIET]
  }

  lemma ResolutionTaken(cap: Capability, cfg: Config, s: State)
    requires Integrity(cap) && Wf(cap, s) && s.phase.ParkTake? && s.hub.decision == Resolve
      && s.hub.code in cap.outcomes
    ensures var r := Next(cap, cfg, s, QUIET); r.phase.Ended? && r.phase.result.BusinessOutcome?
  {
    hide Integrity;
    ElapseQuiet(cfg, s, QUIET);
  }

  lemma Resolves(cap: Capability, cfg: Config, s: State, code: string)
    requires Integrity(cap) && Wf(cap, s) && s.phase == Check && s.index < |cap.steps| && s.stale == {} && Calm(s.hub)
    requires CanAsk(cfg) && s.escalations == 0 && code in cap.outcomes
    ensures var r := Feed(cap, cfg, s, Resolving(code)); r.phase.Ended? && r.phase.result.BusinessOutcome?
  {
    hide Integrity, Wf, Next;
    var ask := Calling(RequestControl("op"));
    var decide := Calling(Decide(Resolve, "op", "", code));
    PauseArrives(cap, cfg, s);
    var s1 := Next(cap, cfg, s, ask);
    PauseAsks(cap, cfg, s1);
    var s2 := Next(cap, cfg, s1, QUIET);
    HubParks(cap, cfg, s2);
    var s3 := Next(cap, cfg, s2, QUIET);
    TakeArrives(cap, cfg, s3);
    var s4 := Next(cap, cfg, s3, Calling(Take("op")));
    DecisionArrives(cap, cfg, s4, Resolve, code);
    var s5 := Next(cap, cfg, s4, decide);
    ResolutionTaken(cap, cfg, s5);
    FeedTwo(cap, cfg, s, ask, QUIET);
    FeedFour(cap, cfg, s2, QUIET, Calling(Take("op")), decide, QUIET);
    FeedConcat(cap, cfg, s, [ask, QUIET], [QUIET, Calling(Take("op")), decide, QUIET]);
  }
}
