/** Idempotent invocation: any number of callers, interleaved, and at most one
    engine run behind every idempotency key. */
module Invocations {
  import opened Wrappers

  type Key = (string, string)  // capability name and idempotency key

  /** What a run reported; a caller's parameter error is not a run; anything else that
      the engine, or the building of the run's envelope, raises escapes the invocation
      before the record is written. */
  datatype Outcome = Reported(result: string, status: nat) | InvalidParams | Escaped

  datatype Envelope = Envelope(run: nat, runDir: Option<string>, result: string)

  datatype Recorded = Recorded(envelope: Envelope, status: nat)

  datatype Reply = UnknownCapability | BadParams | ServerError | Answer(recorded: Recorded, replay: bool)

  datatype Request = Request(name: string, key: string)

  function KeyOf(r: Request): Key { (r.name, r.key) }

  // -------------------------------------------------------- one at a time

  /** The engine the service owns. Its script says, run by run, whether a run
      directory was made and what the run reported. */
  class Runner {
    const script: nat -> (Option<string>, Outcome)
    var runs: nat
    var lastRunDir: Option<string>

    constructor (script: nat -> (Option<string>, Outcome))
      ensures this.script == script && runs == 0 && lastRunDir == None
    {
      this.script, runs, lastRunDir := script, 0, None;
    }

    /** Per-run attribution is cleared first: a refused run has no directory. */
    method Run() returns (outcome: Outcome)
      modifies this
      ensures runs == old(runs) + 1 && (lastRunDir, outcome) == script(old(runs))
    {
      lastRunDir := None;
      var (dir, reported) := script(runs);
      lastRunDir, outcome := dir, reported;
      runs := runs + 1;
    }
  }

  /** What the critical section does with the record and the engine's next run. */
  function Section(completed: map<Key, Recorded>, r: Request, run: nat, dir: Option<string>,
                   outcome: Outcome): (map<Key, Recorded>, Reply, bool)
  {
    if r.key != "" && KeyOf(r) in completed then (completed, Answer(completed[KeyOf(r)], true), false)
    else if outcome.InvalidParams? then (completed, BadParams, true)
    else if outcome.Escaped? then (completed, ServerError, true)
    else
      var recorded := Recorded(Envelope(run, dir, outcome.result), outcome.status);
      (if r.key != "" then completed[KeyOf(r) := recorded] else completed, Answer(recorded, false), true)
  }

  class Service {
    const engine: Runner
    var completed: map<Key, Recorded>

    constructor (engine: Runner)
      ensures this.engine == engine && completed == map[]
    {
      this.engine, completed := engine, map[];
    }

    /** The critical section: the check, the run and the record. */
    method Invoke(r: Request) returns (reply: Reply)
      modifies this, engine
      ensures var known := r.key != "" && (r.name, r.key) in old(completed);
        && engine.runs == old(engine.runs) + (if known then 0 else 1)
        && (known ==> reply == Answer(old(completed)[(r.name, r.key)], true) && completed == old(completed))
        && (!known ==>
              match engine.script(old(engine.runs))
              case (_, InvalidParams) => reply == BadParams && completed == old(completed)
              case (_, Escaped) => reply == ServerError && completed == old(completed)
              case (dir, Reported(result, status)) =>
                && reply == Answer(Recorded(Envelope(old(engine.runs), dir, result), status), false)
                && completed ==
                   if r.key == "" then old(completed) else old(completed)[(r.name, r.key) := reply.recorded])
      ensures var (dir, outcome) := engine.script(old(engine.runs));
        var (record, answer, ran) := Section(old(completed), r, old(engine.runs), dir, outcome);
        completed == record && reply == answer && engine.runs == old(engine.runs) + if ran then 1 else 0
    {
      if r.key != "" && KeyOf(r) in completed {
        return Answer(completed[KeyOf(r)], true);
      }
      var run := engine.runs;
      var outcome := engine.Run();
      if outcome.InvalidParams? {
        return BadParams;
      }
      if outcome.Escaped? {
        return ServerError;
      }
      var recorded := Recorded(Envelope(run, engine.lastRunDir, outcome.result), outcome.status);
      if r.key != "" {
        completed := completed[KeyOf(r) := recorded];
      }
      reply := Answer(recorded, false);
    }
  }

  // ------------------------------------------------------- many at a time

  /** Where one invocation stands. Everything from `Holding` to `Reporting` is
      inside the critical section. */
  datatype Stage =
    | Waiting                        // for the lock
    | Holding                        // the lock, nothing checked yet
    | Running(run: nat)              // the engine works for this invocation
    | Reporting(run: nat, outcome: Outcome)
    | Replied(reply: Reply)

  datatype Invocation = Invocation(request: Request, stage: Stage)

  /** One engine run: for whom, and what became of it. */
  datatype RunRecord = RunRecord(caller: nat, dir: Option<string>, outcome: Option<Outcome>)

  datatype State = State(
    completed: map<Key, Recorded>,
    lock: Option<nat>,
    callers: seq<Invocation>,
    runs: seq<RunRecord>,
    lastRunDir: Option<string>)

  const IDLE := State(map[], None, [], [], None)

  /** One step of one thread, and what the world adds to it. */
  datatype Action =
    | Arrive(request: Request, known: bool)
    | Acquire(caller: nat)
    | Check(caller: nat)                                   // replay the record, or start a run
    | MakeDir(caller: nat, dir: string)                    // the run makes its directory
    | Finish(caller: nat, outcome: Outcome)
    | Record(caller: nat)                                  // build the envelope, record it, release

  predicate Stands(s: State, caller: nat) {
    caller < |s.callers|
  }

  function At(s: State, caller: nat): Stage
    requires Stands(s, caller)
  {
    s.callers[caller].stage
  }

  predicate Inside(stage: Stage) {
    stage.Holding? || stage.Running? || stage.Reporting?
  }

  function Move(s: State, caller: nat, stage: Stage): State
    requires Stands(s, caller)
  {
    s.(callers := s.callers[caller := s.callers[caller].(stage := stage)])
  }

  /** A step that is not enabled does nothing. */
  function Step(s: State, a: Action): State {
    match a
    case Arrive(r, known) =>
      s.(callers := s.callers + [Invocation(r, if known then Waiting else Replied(UnknownCapability))])
    case Acquire(c) =>
      if Stands(s, c) && At(s, c).Waiting? && s.lock.None? then Move(s, c, Holding).(lock := Some(c)) else s
    case Check(c) =>
      if !(Stands(s, c) && At(s, c).Holding?) then s
      else
        var r := s.callers[c].request;
        if r.key != "" && KeyOf(r) in s.completed then
          Move(s, c, Replied(Answer(s.completed[KeyOf(r)], true))).(lock := None)
        else
          Move(s, c, Running(|s.runs|)).(runs := s.runs + [RunRecord(c, None, None)], lastRunDir := None)
    case MakeDir(c, dir) =>
      if Stands(s, c) && At(s, c).Running? && At(s, c).run < |s.runs| then
        var run := At(s, c).run;
        s.(runs := s.runs[run := s.runs[run].(dir := Some(dir))], lastRunDir := Some(dir))
      else s
    case Finish(c, outcome) =>
      if Stands(s, c) && At(s, c).Running? && At(s, c).run < |s.runs| then
        var run := At(s, c).run;
        Move(s, c, Reporting(run, outcome)).(runs := s.runs[run := s.runs[run].(outcome := Some(outcome))])
      else s
    case Record(c) =>
      if !(Stands(s, c) && At(s, c).Reporting?) then s
      else
        var r := s.callers[c].request;
        match At(s, c).outcome
        case InvalidParams => Move(s, c, Replied(BadParams)).(lock := None)
        case Escaped => Move(s, c, Replied(ServerError)).(lock := None)
        case Reported(result, status) =>
          var recorded := Recorded(Envelope(At(s, c).run, s.lastRunDir, result), status);
          Move(s, c, Replied(Answer(recorded, false))).(
            lock := None,
            completed := if r.key != "" then s.completed[KeyOf(r) := recorded] else s.completed)
  }

  function After(actions: seq<Action>): State {
    if actions == [] then IDLE else Step(After(actions[..|actions| - 1]), actions[|actions| - 1])
  }

  // -------------------------------------------------------------- invariant

  /** Run `run` reported a result for `key`. */
  predicate ResultFor(s: State, run: nat, key: Key) {
    run < |s.runs| && s.runs[run].outcome.Some? && s.runs[run].outcome.value.Reported?
    && Stands(s, s.runs[run].caller) && s.callers[s.runs[run].caller].request == Request(key.0, key.1)
  }

  /** The envelope is the one of its own run, whose directory it names. */
  predicate Own(s: State, recorded: Recorded) {
    && recorded.envelope.run < |s.runs|
    && var run := s.runs[recorded.envelope.run];
    run.outcome == Some(Reported(recorded.envelope.result, recorded.status)) && run.dir == recorded.envelope.runDir
  }

  /** What holds of one caller. */
  predicate CallerOk(s: State, c: nat)
    requires Stands(s, c)
  {
    var r := s.callers[c].request;
    match At(s, c)
    case Waiting => s.lock != Some(c)
    case Holding => s.lock == Some(c)
    case Running(run) =>
      && s.lock == Some(c) && (r.key != "" ==> KeyOf(r) !in s.completed)
      && run == |s.runs| - 1 && s.runs[run] == RunRecord(c, s.lastRunDir, None)
    case Reporting(run, outcome) =>
      && s.lock == Some(c) && (r.key != "" ==> KeyOf(r) !in s.completed)
      && run == |s.runs| - 1 && s.runs[run] == RunRecord(c, s.lastRunDir, Some(outcome))
    case Replied(reply) =>
      && s.lock != Some(c)
      && (reply.Answer? ==> Own(s, reply.recorded))
      && (reply.Answer? && r.key != "" ==> KeyOf(r) in s.completed && s.completed[KeyOf(r)] == reply.recorded)
  }

  /** What holds of one run: it is done and its result is on the record, or its
      caller is still inside. */
  predicate RunOk(s: State, run: nat)
    requires run < |s.runs|
  {
    var c := s.runs[run].caller;
    && Stands(s, c)
    && match s.runs[run].outcome
       case None => At(s, c) == Running(run)
       case Some(InvalidParams) => true
       case Some(Escaped) => true
       case Some(outcome) =>
         var key := KeyOf(s.callers[c].request);
         key.1 == "" || At(s, c) == Reporting(run, outcome)
             || (key in s.completed && s.completed[key].envelope.run == run)
  }

  ghost predicate Inv(s: State) {
    && (s.lock.Some? ==> Stands(s, s.lock.value) && Inside(At(s, s.lock.value)))
    && (forall c :: 0 <= c < |s.callers| ==> CallerOk(s, c))
    && (forall run :: 0 <= run < |s.runs| ==> RunOk(s, run))
    && (forall key :: key in s.completed ==> Own(s, s.completed[key]))
  }

  /** A finished run's envelope stays its own. */
  lemma OwnStays(s: State, a: Action, recorded: Recorded)
    requires Inv(s) && Own(s, recorded)
    ensures Own(Step(s, a), recorded)
  {
    var actor := Actor(s, a);
    assert Stands(s, actor) ==> CallerOk(s, actor);
  }

  /** The thread that takes the step, where there is one. */
  function Actor(s: State, a: Action): nat {
    if a.Arrive? then |s.callers| else a.caller
  }

  lemma CallerStays(s: State, a: Action, c: nat)
    requires Inv(s) && Stands(Step(s, a), c)
    ensures CallerOk(Step(s, a), c)
  {
    var actor := Actor(s, a);
    hide Own;
    assert Stands(s, actor) ==> CallerOk(s, actor);
    assert Stands(s, c) ==> CallerOk(s, c);
    var n := Step(s, a);
    if At(n, c).Replied? && At(n, c).reply.Answer? {
      RepliesOwn(s, a, c);
    }
  }

  lemma RepliesOwn(s: State, a: Action, c: nat)
    requires Inv(s) && Stands(Step(s, a), c) && At(Step(s, a), c).Replied? && At(Step(s, a), c).reply.Answer?
    ensures Own(Step(s, a), At(Step(s, a), c).reply.recorded)
  {
    assert Stands(s, c) ==> CallerOk(s, c);
    var recorded := At(Step(s, a), c).reply.recorded;
    if Own(s, recorded) {
      OwnStays(s, a, recorded);
    }
  }

  lemma RecordStays(s: State, a: Action, key: Key)
    requires Inv(s) && key in Step(s, a).completed
    ensures Own(Step(s, a), Step(s, a).completed[key])
  {
    var actor := Actor(s, a);
    assert Stands(s, actor) ==> CallerOk(s, actor);
    if key in s.completed {
      OwnStays(s, a, s.completed[key]);
    }
  }

  lemma RunStays(s: State, a: Action, run: nat)
    requires Inv(s) && run < |Step(s, a).runs|
    ensures RunOk(Step(s, a), run)
  {
    hide Own;
    var actor := Actor(s, a);
    assert Stands(s, actor) ==> CallerOk(s, actor);
    assert run < |s.runs| ==> RunOk(s, run);
  }

  lemma LockStays(s: State, a: Action)
    requires Inv(s)
    ensures var n := Step(s, a); n.lock.Some? ==> Stands(n, n.lock.value) && Inside(At(n, n.lock.value))
  {
    var actor := Actor(s, a);
    assert Stands(s, actor) ==> CallerOk(s, actor);
  }

  lemma StepKeeps(s: State, a: Action)
    requires Inv(s)
    ensures Inv(Step(s, a))
  {
    hide Step, CallerOk, RunOk, Own;
    var n := Step(s, a);
    LockStays(s, a);
    forall c | 0 <= c < |n.callers| ensures CallerOk(n, c) {
      CallerStays(s, a, c);
    }
    forall run | 0 <= run < |n.runs| ensures RunOk(n, run) {
      RunStays(s, a, run);
    }
    forall key | key in n.completed ensures Own(n, n.completed[key]) {
      RecordStays(s, a, key);
    }
  }

  lemma {:induction false} Always(actions: seq<Action>)
    ensures Inv(After(actions))
  {
    hide Step, Inv;
    if actions == [] {
      assert Inv(IDLE) by { IdleIsFine(); }
    } else {
      Always(actions[..|actions| - 1]);
      StepKeeps(After(actions[..|actions| - 1]), actions[|actions| - 1]);
    }
  }

  lemma IdleIsFine()
    ensures Inv(IDLE)
  {
  }

  /** For every interleaving of any number of invocations and every non-empty key:
      at most one engine run ever reports a result for it. */
  lemma AtMostOneRunPerKey(actions: seq<Action>, key: Key, a: nat, b: nat)
    requires key.1 != "" && ResultFor(After(actions), a, key) && ResultFor(After(actions), b, key)
    ensures a == b
  {
    hide After;
    Always(actions);
    var s := After(actions);
    assert RunOk(s, a) && RunOk(s, b);
    assert CallerOk(s, s.runs[a].caller) && CallerOk(s, s.runs[b].caller);
  }

  /** Every answer carries the envelope and status of a run that reported them, with
      that run's own directory or none; and all answers for a non-empty key, first
      or replayed, carry the same ones. */
  lemma AnswersAgree(actions: seq<Action>, c: nat, d: nat)
    requires var s := After(actions);
      && Stands(s, c) && At(s, c).Replied? && At(s, c).reply.Answer?
      && Stands(s, d) && At(s, d).Replied? && At(s, d).reply.Answer?
    ensures Own(After(actions), At(After(actions), c).reply.recorded)
    ensures var s := After(actions);
      s.callers[c].request == s.callers[d].request && s.callers[c].request.key != "" ==>
        At(s, c).reply.recorded == At(s, d).reply.recorded
  {
    hide After;
    Always(actions);
    assert CallerOk(After(actions), c) && CallerOk(After(actions), d);
  }

  // ------------------------------------------------------- whose answer it is

  /** Run `run` was made for a caller that asked for this name with this key. */
  predicate MadeFor(s: State, run: nat, name: string, key: string) {
    && run < |s.runs| && Stands(s, s.runs[run].caller)
    && s.callers[s.runs[run].caller].request == Request(name, key)
  }

  /** The answer to `c` is that of its own run; a replay is that of another caller's,
      who asked for the same name with the same key. */
  predicate Attributed(s: State, c: nat)
    requires Stands(s, c)
  {
    var r := s.callers[c].request;
    match At(s, c)
    case Replied(Answer(recorded, replay)) =>
      && MadeFor(s, recorded.envelope.run, r.name, r.key)
      && (if replay then r.key != "" && s.runs[recorded.envelope.run].caller != c
          else s.runs[recorded.envelope.run].caller == c)
    case _ => true
  }

  /** Only a caller that has reached the engine has a run. */
  predicate RunnerOk(s: State, run: nat)
    requires run < |s.runs|
  {
    && Stands(s, s.runs[run].caller)
    && !At(s, s.runs[run].caller).Waiting? && !At(s, s.runs[run].caller).Holding?
  }

  ghost predicate Ascribed(s: State) {
    && (forall key :: key in s.completed ==> key.1 != "" && MadeFor(s, s.completed[key].envelope.run, key.0, key.1))
    && (forall c :: 0 <= c < |s.callers| ==> Attributed(s, c))
    && (forall run :: 0 <= run < |s.runs| ==> RunnerOk(s, run))
  }

  lemma MadeStays(s: State, a: Action, run: nat, name: string, key: string)
    requires MadeFor(s, run, name, key)
    ensures MadeFor(Step(s, a), run, name, key) && Step(s, a).runs[run].caller == s.runs[run].caller
  {
  }

  lemma RunnersStay(s: State, a: Action, run: nat)
    requires Inv(s) && Ascribed(s) && run < |Step(s, a).runs|
    ensures RunnerOk(Step(s, a), run)
  {
    hide Own, RunOk, MadeFor, Attributed;
    assert run < |s.runs| ==> RunnerOk(s, run);
  }

  lemma RecordsStay(s: State, a: Action, key: Key)
    requires Inv(s) && Ascribed(s) && key in Step(s, a).completed
    ensures key.1 != "" && MadeFor(Step(s, a), Step(s, a).completed[key].envelope.run, key.0, key.1)
  {
    hide Own, RunOk, Attributed;
    var actor := Actor(s, a);
    assert Stands(s, actor) ==> CallerOk(s, actor);
    if key in s.completed && Step(s, a).completed[key] == s.completed[key] {
      MadeStays(s, a, s.completed[key].envelope.run, key.0, key.1);
    }
  }

  lemma AnswersStay(s: State, a: Action, c: nat)
    requires Inv(s) && Ascribed(s) && Stands(Step(s, a), c)
    ensures Attributed(Step(s, a), c)
  {
    hide Own, RunOk;
    var actor := Actor(s, a);
    assert Stands(s, actor) ==> CallerOk(s, actor);
    if Stands(s, c) {
      assert Attributed(s, c);
      var r := s.callers[c].request;
      if At(s, c).Replied? && At(s, c).reply.Answer? {
        MadeStays(s, a, At(s, c).reply.recorded.envelope.run, r.name, r.key);
      } else if At(s, c).Holding? && (r.name, r.key) in s.completed {
        var run := s.completed[(r.name, r.key)].envelope.run;
        assert MadeFor(s, run, r.name, r.key) && RunnerOk(s, run);
      }
    }
  }

  lemma {:induction false} AlwaysAscribed(actions: seq<Action>)
    ensures Ascribed(After(actions))
  {
    hide Step, Inv, MadeFor, Attributed, RunnerOk;
    if actions != [] {
      var s, a := After(actions[..|actions| - 1]), actions[|actions| - 1];
      AlwaysAscribed(actions[..|actions| - 1]);
      Always(actions[..|actions| - 1]);
      var n := Step(s, a);
      forall key | key in n.completed ensures key.1 != "" && MadeFor(n, n.completed[key].envelope.run, key.0, key.1) {
        RecordsStay(s, a, key);
      }
      forall c | 0 <= c < |n.callers| ensures Attributed(n, c) {
        AnswersStay(s, a, c);
      }
      forall run | 0 <= run < |n.runs| ensures RunnerOk(n, run) {
        RunnersStay(s, a, run);
      }
    }
  }

  /** Over every interleaving: an answer carries the envelope of a run made for the
      same name, its caller's own run, or for a replay that of another caller with the
      same non-empty key. */
  lemma AnswersAreAttributed(actions: seq<Action>, c: nat)
    requires var s := After(actions); Stands(s, c) && At(s, c).Replied? && At(s, c).reply.Answer?
    ensures var s := After(actions); var reply := At(s, c).reply; var run := reply.recorded.envelope.run;
      && run < |s.runs| && Stands(s, s.runs[run].caller)
      && s.callers[s.runs[run].caller].request.name == s.callers[c].request.name
      && (reply.replay <==> s.runs[run].caller != c)
      && (reply.replay ==> s.callers[s.runs[run].caller].request.key == s.callers[c].request.key != "")
  {
    hide After;
    AlwaysAscribed(actions);
    assert Attributed(After(actions), c);
  }

  /** Over every interleaving, a caller that comes to its check is answered from the
      record exactly if some run for the same name and the same non-empty key has
      reported; and then with what that run reported. Otherwise a run is made for it. */
  lemma ReplayedIff(actions: seq<Action>, c: nat)
    requires Stands(After(actions), c) && At(After(actions), c).Holding?
    ensures var s := After(actions); var r := s.callers[c].request; var n := Step(s, Check(c));
      if r.key != "" && exists run: nat :: ResultFor(s, run, (r.name, r.key)) then
        n.runs == s.runs && exists run: nat ::
          && ResultFor(s, run, (r.name, r.key))
          && var reported := s.runs[run].outcome.value;
             At(n, c) == Replied(Answer(
               Recorded(Envelope(run, s.runs[run].dir, reported.result), reported.status), true))
      else At(n, c) == Running(|s.runs|) && n.runs == s.runs + [RunRecord(c, None, None)]
  {
    hide After;
    var s := After(actions);
    var r := s.callers[c].request;
    var key := (r.name, r.key);
    Always(actions);
    AlwaysAscribed(actions);
    assert CallerOk(s, c);
    if key in s.completed {
      var run := s.completed[key].envelope.run;
      assert Own(s, s.completed[key]) && MadeFor(s, run, r.name, r.key) && ResultFor(s, run, key);
    }
    if run: nat :| ResultFor(s, run, key) {
      assert RunOk(s, run) && CallerOk(s, s.runs[run].caller);
    }
  }

  /** Uninterrupted, the steps of one invocation are the critical section: a replay
      of the record, or a run from its start to its record. */
  lemma AloneIsSection(s: State, c: nat, dir: Option<string>, outcome: Outcome)
    requires s.lock.None? && Stands(s, c) && At(s, c).Waiting?
    ensures var r := s.callers[c].request;
      var (record, reply, ran) := Section(s.completed, r, |s.runs|, dir, outcome);
      var s1 := Step(Step(s, Acquire(c)), Check(c));
      var end := if ran then RunAlone(s1, c, dir, outcome) else s1;
      && end.completed == record && Stands(end, c) && At(end, c) == Replied(reply) && end.lock.None?
      && |end.runs| == |s.runs| + if ran then 1 else 0
  {
    var r := s.callers[c].request;
    var s1 := Step(Step(s, Acquire(c)), Check(c));
    if !(r.key != "" && KeyOf(r) in s.completed) {
      RunAloneIs(s1, c, dir, outcome);
    }
  }

  function RunAlone(s: State, c: nat, dir: Option<string>, outcome: Outcome): State {
    var s1 := if dir.Some? then Step(s, MakeDir(c, dir.value)) else s;
    Step(Step(s1, Finish(c, outcome)), Record(c))
  }

  lemma RunAloneIs(s: State, c: nat, dir: Option<string>, outcome: Outcome)
    requires Stands(s, c) && At(s, c).Running? && At(s, c).run == |s.runs| - 1 && s.lastRunDir.None?
    ensures var end := RunAlone(s, c, dir, outcome); var r := s.callers[c].request;
      && Stands(end, c) && end.lock.None? && |end.runs| == |s.runs|
      && match outcome
         case InvalidParams => end.completed == s.completed && At(end, c) == Replied(BadParams)
         case Escaped => end.completed == s.completed && At(end, c) == Replied(ServerError)
         case Reported(result, status) =>
           var recorded := Recorded(Envelope(At(s, c).run, dir, result), status);
           At(end, c) == Replied(Answer(recorded, false))
           && end.completed == if r.key != "" then s.completed[KeyOf(r) := recorded] else s.completed
  {
  }
}
