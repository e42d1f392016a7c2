/** The planner's conversation with the model: which messages it sends, what it
    counts, and how it ends. */
module Planner {
  import opened Wrappers

  /** What becomes of a proposed action on the live page: executed and recorded as a
      step, refused or failed, or executed without an effect that can be recorded. */
  datatype Effect = Acted | Rejected | Unrecordable

  datatype Tool = Act(effect: Effect) | Done | Report(code: string) | StuckOrUnknown

  /** A tool call of the model; `parses` says its arguments were valid JSON. */
  datatype Call = Call(id: string, parses: bool, tool: Tool)

  datatype Message = System | User | Assistant(ids: seq<string>) | ToolResult(id: string)

  datatype Ending =
    | DoneCalled | OutcomeReported | Stuck     // a tool call ended the run
    | TooManyInvalid
    | ActedPastBudget                          // acted again after the grace turn
    | DistillationFailed                       // an exception left the loop
    | GuardFailed                              // the loop's own bound was reached

  datatype Limits = Limits(maxSteps: nat, maxInvalid: nat, outcomes: set<string>)

  datatype Run = Run(messages: seq<Message>, llmCalls: nat, steps: nat, invalid: nat, grace: bool,
      ending: Option<Ending>)

  const OPENING := Run([System, User, User], 0, 0, 0, false, None)

  predicate Guard(limits: Limits, r: Run) {
    r.llmCalls < limits.maxSteps + limits.maxInvalid + 1
  }

  function Said(r: Run, ms: seq<Message>): Run { r.(messages := r.messages + ms) }

  function Ended(r: Run, ending: Ending): Run { r.(ending := Some(ending)) }

  /** Count an invalid proposal; too many end the run. */
  function Counted(limits: Limits, r: Run): Run {
    r.(invalid := r.invalid + 1, ending := if r.invalid + 1 >= limits.maxInvalid then Some(TooManyInvalid)
        else r.ending)
  }

  function Ids(calls: seq<Call>): seq<string> {
    seq(|calls|, i requires 0 <= i < |calls| => calls[i].id)
  }

  function Results(ids: seq<string>): seq<Message> {
    seq(|ids|, i requires 0 <= i < |ids| => ToolResult(ids[i]))
  }

  /** One turn of the model and what the planner makes of it. */
  function Turn(limits: Limits, r: Run, calls: seq<Call>): Run {
    var r1 := Said(r, [Assistant(Ids(calls))]).(llmCalls := r.llmCalls + 1);
    if calls == [] then
      var r2 := Counted(limits, r1);
      if r2.ending.Some? then r2 else Said(r2, [User])
    else if |calls| > 1 then Said(Counted(limits, r1), Results(Ids(calls)))
    else OneCall(limits, r1, calls[0])
  }

  function OneCall(limits: Limits, r: Run, call: Call): Run {
    var answered := Said(r, [ToolResult(call.id)]);
    if !call.parses then Counted(limits, answered)
    else
      match call.tool
      case Act(effect) =>
        if r.steps >= limits.maxSteps then if r.grace then Ended(answered, ActedPastBudget)
            else answered.(grace := true)
        else
          (match effect
           case Acted => Said(answered.(steps := r.steps + 1), [User])
           case Rejected => var r2 := Counted(limits, answered); if r2.ending.Some? then r2 else Said(r2, [User])
           case Unrecordable => Ended(r, DistillationFailed))
      case Done => Ended(answered, DoneCalled)
      case Report(code) => if code in limits.outcomes then Ended(answered, OutcomeReported)
          else Counted(limits, answered)
      case StuckOrUnknown => Ended(answered, Stuck)
  }

  /** The conversation after `n` turns of the model, or when it ended. */
  function Play(limits: Limits, model: nat -> seq<Call>, n: nat): Run {
    if n == 0 then OPENING else
      var r := Play(limits, model, n - 1);
      if r.ending.Some? then r
      else if Guard(limits, r) then Turn(limits, r, model(n - 1))
      else Ended(r, GuardFailed)
  }

  /** The planner at work: the loop over the model's turns. */
  class Conversation {
    const limits: Limits
    var messages: seq<Message>
    var llmCalls: nat
    var steps: nat
    var invalid: nat
    var grace: bool
    ghost var prompts: seq<seq<Message>>  // what the model was shown, call by call

    function View(ending: Option<Ending>): Run
      reads this
    {
      Run(messages, llmCalls, steps, invalid, grace, ending)
    }

    constructor (limits: Limits)
      ensures this.limits == limits && View(None) == OPENING && prompts == []
    {
      this.limits := limits;
      messages, llmCalls, steps, invalid, grace, prompts := [System, User, User], 0, 0, 0, false, [];
    }

    method Invalid() returns (exhausted: bool)
      modifies this`invalid
      ensures View(if exhausted then Some(TooManyInvalid) else None) == Counted(limits, old(View(None)))
    {
      invalid := invalid + 1;
      exhausted := invalid >= limits.maxInvalid;
    }

    method Answer(id: string)
      modifies this`messages
      ensures View(None) == Said(old(View(None)), [ToolResult(id)])
    {
      messages := messages + [ToolResult(id)];
    }

    /** Every one of several tool calls is answered, none is executed. */
    method AnswerAll(calls: seq<Call>)
      modifies this`messages
      ensures View(None) == Said(old(View(None)), Results(Ids(calls)))
    {
      for i := 0 to |calls|
        invariant View(None) == Said(old(View(None)), Results(Ids(calls))[..i])
      {
        Answer(calls[i].id);
        assert Results(Ids(calls))[..i + 1] == Results(Ids(calls))[..i] + [ToolResult(calls[i].id)];
      }
      assert Results(Ids(calls))[..|calls|] == Results(Ids(calls));
    }

    /** Serve a turn with exactly one well-formed call. */
    method ServeCall(call: Call) returns (ending: Option<Ending>)
      requires call.parses
      modifies this`messages, this`invalid, this`steps, this`grace
      ensures View(ending) == OneCall(limits, old(View(None)), call)
    {
      ending := None;
      match call.tool
      case Act(effect) =>
        if steps >= limits.maxSteps {
          Answer(call.id);
          if grace {
            return Some(ActedPastBudget);
          }
          grace := true;
          return;
        }
        if effect == Unrecordable {
          return Some(DistillationFailed);
        }
        if effect == Rejected {
          var exhausted := Invalid();
          Answer(call.id);
          if exhausted {
            return Some(TooManyInvalid);
          }
        } else {
          steps := steps + 1;
          Answer(call.id);
        }
        messages := messages + [User];
      case Done =>
        Answer(call.id);
        ending := Some(DoneCalled);
      case Report(code) =>
        if code !in limits.outcomes {
          var exhausted := Invalid();
          Answer(call.id);
          if exhausted {
            ending := Some(TooManyInvalid);
          }
          return;
        }
        Answer(call.id);
        ending := Some(OutcomeReported);
      case StuckOrUnknown =>
        Answer(call.id);
        ending := Some(Stuck);
    }

    /** One reply of the model. */
    method ServeTurn(calls: seq<Call>) returns (ending: Option<Ending>)
      modifies this`messages, this`invalid, this`steps, this`grace, this`llmCalls
      ensures View(ending) == Turn(limits, old(View(None)), calls)
    {
      llmCalls := llmCalls + 1;
      messages := messages + [Assistant(Ids(calls))];
      ending := None;
      if calls == [] {
        var exhausted := Invalid();
        if exhausted {
          return Some(TooManyInvalid);
        }
        messages := messages + [User];
        return;
      }
      if |calls| > 1 {
        var exhausted := Invalid();
        AnswerAll(calls);
        return if exhausted then Some(TooManyInvalid) else None;
      }
      if !calls[0].parses {
        var exhausted := Invalid();
        Answer(calls[0].id);
        return if exhausted then Some(TooManyInvalid) else None;
      }
      ending := ServeCall(calls[0]);
    }

    method Loop(model: nat -> seq<Call>) returns (ending: Ending)
      requires View(None) == OPENING && prompts == []
      modifies this
      ensures exists n: nat :: Play(limits, model, n) == View(Some(ending))
      ensures llmCalls == |prompts| && forall p :: p in prompts ==> Pending(p) == Some([])
      ensures limits.maxInvalid > 0 ==> ending != GuardFailed
    {
      hide Turn, Pending;
      var n: nat := 0;
      while llmCalls < limits.maxSteps + limits.maxInvalid + 1
        invariant View(None) == Play(limits, model, n) && llmCalls == n == |prompts|
        invariant forall p :: p in prompts ==> Pending(p) == Some([])
      {
        EveryPromptIsComplete(limits, model, n);
        prompts := prompts + [messages];
        var end := ServeTurn(model(n));
        TurnCounts(limits, Play(limits, model, n), model(n));
        n := n + 1;
        assert View(end) == Play(limits, model, n);
        if end.Some? {
          BoundedAt(limits, model, n);
          return end.value;
        }
      }
      assert Play(limits, model, n + 1) == View(Some(GuardFailed));
      BoundedAt(limits, model, n + 1);
      ending := GuardFailed;
    }
  }

  // ------------------------------------------------------- the tool protocol

  /** The tool calls still to be answered, in order; None once a message came out
      of turn: anything but the next answer while one is due, or an answer to
      nothing. */
  function Pending(ms: seq<Message>): Option<seq<string>> {
    if ms == [] then Some([])
    else
      var due := Pending(ms[..|ms| - 1]);
      if due.None? then None
      else
        match ms[|ms| - 1]
        case ToolResult(id) => if due.value != [] && due.value[0] == id then Some(due.value[1..]) else None
        case Assistant(ids) => if due.value == [] then Some(ids) else None
        case _ => if due.value == [] then Some([]) else None
  }

  lemma PendingAppend(ms: seq<Message>, m: Message)
    requires Pending(ms).Some?
    ensures m == User && Pending(ms) == Some([]) ==> Pending(ms + [m]) == Some([])
    ensures m.Assistant? && Pending(ms) == Some([]) ==> Pending(ms + [m]) == Some(m.ids)
    ensures m.ToolResult? && Pending(ms).value != [] && Pending(ms).value[0] == m.id ==>
      Pending(ms + [m]) == Some(Pending(ms).value[1..])
  {
    assert (ms + [m])[..|ms|] == ms;
  }

  lemma {:induction false} AnswersComplete(ms: seq<Message>, ids: seq<string>)
    requires Pending(ms) == Some(ids)
    ensures Pending(ms + Results(ids)) == Some([])
    decreases |ids|
  {
    if ids == [] {
      assert ms + Results(ids) == ms;
    } else {
      PendingAppend(ms, ToolResult(ids[0]));
      AnswersComplete(ms + [ToolResult(ids[0])], ids[1..]);
      assert ms + [ToolResult(ids[0])] + Results(ids[1..]) == ms + Results(ids);
    }
  }

  lemma LastMessage(ms: seq<Message>)
    requires ms != [] && Pending(ms).Some?
    ensures var due := Pending(ms[..|ms| - 1]);
      && due.Some?
      && (due.value != [] ==> ms[|ms| - 1] == ToolResult(due.value[0]) && Pending(ms).value == due.value[1..])
      && (ms[|ms| - 1].Assistant? ==> Pending(ms).value == ms[|ms| - 1].ids)
  {
  }

  /** As far as the transcript goes, the messages after `i` answer `ids` in order. */
  predicate Follows(ms: seq<Message>, i: nat, ids: seq<string>) {
    forall m :: i < m < |ms| && m <= i + |ids| ==> ms[m] == ToolResult(ids[m - i - 1])
  }

  /** Every assistant message is followed at once by the answers to exactly its own
      tool calls, as far as the transcript goes. */
  lemma {:induction false} AnsweredAtOnce(ms: seq<Message>, i: nat)
    requires Pending(ms).Some? && i < |ms| && ms[i].Assistant?
    ensures Follows(ms, i, ms[i].ids)
    ensures |ms| - i - 1 < |ms[i].ids| ==> Pending(ms).value == ms[i].ids[|ms| - i - 1..]
    decreases |ms|
  {
    hide Pending, Follows;
    LastMessage(ms);
    if i + 1 < |ms| {
      AnsweredAtOnce(ms[..|ms| - 1], i);
      FollowsOn(ms, i);
    } else {
      assert Follows(ms, i, ms[i].ids) by { FollowsNothing(ms, i); }
    }
  }

  lemma FollowsNothing(ms: seq<Message>, i: nat)
    requires i + 1 == |ms| && ms[i].Assistant?
    ensures Follows(ms, i, ms[i].ids)
  {
  }

  lemma FollowsOn(ms: seq<Message>, i: nat)
    requires i + 1 < |ms| && ms[i].Assistant? && Pending(ms).Some? && Pending(ms[..|ms| - 1]).Some?
    requires var init, ids := ms[..|ms| - 1], ms[i].ids;
      && Follows(init, i, ids)
      && (|init| - i - 1 < |ids| ==>
            Pending(init).value == ids[|init| - i - 1..] && ms[|ms| - 1] == ToolResult(Pending(init).value[0])
            && Pending(ms).value == Pending(init).value[1..])
    ensures Follows(ms, i, ms[i].ids)
    ensures |ms| - i - 1 < |ms[i].ids| ==> Pending(ms).value == ms[i].ids[|ms| - i - 1..]
  {
    hide Pending;
    var init, ids := ms[..|ms| - 1], ms[i].ids;
    forall m | i < m < |ms| && m <= i + |ids| ensures ms[m] == ToolResult(ids[m - i - 1]) {
      if m < |init| {
        assert init[m] == ms[m];
      }
    }
  }

  /** What a complete transcript means: every tool call of every assistant message
      is answered, right after it and in order. */
  lemma CompleteMeans(ms: seq<Message>, i: nat)
    requires Pending(ms) == Some([]) && i < |ms| && ms[i].Assistant?
    ensures i + |ms[i].ids| < |ms| && ms[i + 1..i + 1 + |ms[i].ids|] == Results(ms[i].ids)
  {
    hide Pending;
    AnsweredAtOnce(ms, i);
  }

  // -------------------------------------------------------------- accounting

  /** The turn that ended the run by a tool call is counted nowhere else. */
  predicate Closing(ending: Option<Ending>) {
    ending.Some? && ending.value !in {TooManyInvalid, GuardFailed}
  }

  /** Every model call is a recorded step, an invalid proposal, the grace turn or
      the call that ended the run; and the transcript is complete. */
  predicate Balanced(limits: Limits, r: Run) {
    && r.llmCalls == r.steps + r.invalid + (if r.grace then 1 else 0) + (if Closing(r.ending) then 1 else 0)
    && r.steps <= limits.maxSteps && (r.grace ==> r.steps == limits.maxSteps)
    && (r.ending.None? || r.ending == Some(GuardFailed) ==> r.invalid == 0 || r.invalid < limits.maxInvalid)
    && (r.ending != Some(DistillationFailed) ==> Pending(r.messages) == Some([]))
  }

  lemma TurnCounts(limits: Limits, r: Run, calls: seq<Call>)
    ensures Turn(limits, r, calls).llmCalls == r.llmCalls + 1
    ensures r.ending.None? ==> Turn(limits, r, calls).ending != Some(GuardFailed)
  {
  }

  lemma SaysComplete(ms: seq<Message>, ids: seq<string>)
    requires Pending(ms) == Some([])
    ensures Pending(ms + [Assistant(ids)]) == Some(ids)
    ensures Pending(ms + [Assistant(ids)] + Results(ids)) == Some([])
    ensures Pending(ms + [Assistant(ids)] + Results(ids) + [User]) == Some([])
  {
    hide Pending;
    PendingAppend(ms, Assistant(ids));
    AnswersComplete(ms + [Assistant(ids)], ids);
    PendingAppend(ms + [Assistant(ids)] + Results(ids), User);
  }

  lemma TurnKeepsBalance(limits: Limits, r: Run, calls: seq<Call>)
    requires Balanced(limits, r) && r.ending.None?
    ensures Balanced(limits, Turn(limits, r, calls))
  {
    hide Pending;
    var ids := Ids(calls);
    SaysComplete(r.messages, ids);
    if calls == [] {
      assert r.messages + [Assistant(ids)] + Results(ids) == r.messages + [Assistant(ids)];
    } else if |calls| == 1 {
      assert Results(ids) == [ToolResult(calls[0].id)];
    }
  }

  lemma {:induction false} AlwaysBalanced(limits: Limits, model: nat -> seq<Call>, n: nat)
    ensures Balanced(limits, Play(limits, model, n))
  {
    hide Turn, Pending;
    if n == 0 {
      OpeningIsComplete();
    } else {
      AlwaysBalanced(limits, model, n - 1);
      var r := Play(limits, model, n - 1);
      if r.ending.None? && Guard(limits, r) {
        TurnKeepsBalance(limits, r, model(n - 1));
      }
    }
  }

  lemma OpeningIsComplete()
    ensures Pending(OPENING.messages) == Some([])
  {
    assert OPENING.messages == ([] + [System]) + [User] + [User];
    assert ([] + [System])[..0] == [];
    PendingAppend([] + [System], User);
    PendingAppend([] + [System] + [User], User);
  }

  /** At every call to the model, whatever the model replied before, every earlier
      tool call has been answered at once and exactly. */
  lemma {:induction false} EveryPromptIsComplete(limits: Limits, model: nat -> seq<Call>, n: nat)
    requires Play(limits, model, n).ending.None?
    ensures Pending(Play(limits, model, n).messages) == Some([])
  {
    hide Play, Pending;
    AlwaysBalanced(limits, model, n);
  }

  /** Every model call is accounted for, at every head of the loop and at the end. */
  lemma {:induction false} EveryCallIsAccountedFor(limits: Limits, model: nat -> seq<Call>, n: nat)
    ensures var r := Play(limits, model, n);
      r.llmCalls == r.steps + r.invalid + (if r.grace then 1 else 0) + (if Closing(r.ending) then 1 else 0)
  {
    hide Play, Pending;
    AlwaysBalanced(limits, model, n);
  }

  lemma {:induction false} GuardHolds(limits: Limits, model: nat -> seq<Call>, n: nat)
    requires limits.maxInvalid > 0
    ensures Play(limits, model, n).ending.None? ==> Guard(limits, Play(limits, model, n))
    ensures Play(limits, model, n).ending != Some(GuardFailed)
  {
    hide Turn, Pending;
    AlwaysBalanced(limits, model, n);
    if n > 0 {
      GuardHolds(limits, model, n - 1);
      TurnCounts(limits, Play(limits, model, n - 1), model(n - 1));
    }
  }

  lemma BoundedAt(limits: Limits, model: nat -> seq<Call>, n: nat)
    ensures limits.maxInvalid > 0 ==> Play(limits, model, n).ending != Some(GuardFailed)
  {
    hide Play;
    if limits.maxInvalid > 0 {
      GuardHolds(limits, model, n);
    }
  }

  // ------------------------------------------------------ what a turn is worth

  /** The reply is one call that can be read. */
  predicate Proper(calls: seq<Call>) {
    |calls| == 1 && calls[0].parses
  }

  /** An action is asked for, with steps left to spend. */
  predicate InBudget(limits: Limits, r: Run, calls: seq<Call>) {
    Proper(calls) && calls[0].tool.Act? && r.steps < limits.maxSteps
  }

  predicate PastBudget(limits: Limits, r: Run, calls: seq<Call>) {
    Proper(calls) && calls[0].tool.Act? && r.steps >= limits.maxSteps
  }

  /** Nothing a run can use: no single readable call, a code that was not declared, or
      an action the page refused. */
  predicate Wasted(limits: Limits, r: Run, calls: seq<Call>) {
    || !Proper(calls)
    || (calls[0].tool.Report? && calls[0].tool.code !in limits.outcomes)
    || (InBudget(limits, r, calls) && calls[0].tool.effect == Rejected)
  }

  /** How a turn ends the run, if it does. */
  predicate Ends(limits: Limits, r: Run, calls: seq<Call>, ending: Option<Ending>) {
    match ending
    case None => true
    case Some(DoneCalled) => Proper(calls) && calls[0].tool == Done
    case Some(OutcomeReported) => Proper(calls) && calls[0].tool.Report? && calls[0].tool.code in limits.outcomes
    case Some(Stuck) => Proper(calls) && calls[0].tool == StuckOrUnknown
    case Some(TooManyInvalid) => Wasted(limits, r, calls) && r.invalid + 1 >= limits.maxInvalid
    case Some(ActedPastBudget) => PastBudget(limits, r, calls) && r.grace
    case Some(DistillationFailed) => InBudget(limits, r, calls) && calls[0].tool.effect == Unrecordable
    case Some(GuardFailed) => false
  }

  /** What the model is told next: every call of its turn is answered, in order; a
      correction or the new page follows, unless the run is over. */
  predicate Told(limits: Limits, r: Run, calls: seq<Call>, s: Run) {
    var answered := r.messages + [Assistant(Ids(calls))]
      + if s.ending == Some(DistillationFailed) then [] else Results(Ids(calls));
    s.messages == answered + if s.ending.None? && (calls == [] || InBudget(limits, r, calls)) then [User] else []
  }

  lemma TurnMeans(limits: Limits, r: Run, calls: seq<Call>)
    requires r.ending.None?
    ensures var s := Turn(limits, r, calls);
      && s.llmCalls == r.llmCalls + 1
      && s.steps == r.steps + (if InBudget(limits, r, calls) && calls[0].tool.effect == Acted then 1 else 0)
      && s.invalid == r.invalid + (if Wasted(limits, r, calls) then 1 else 0)
      && s.grace == (r.grace || PastBudget(limits, r, calls))
      && Ends(limits, r, calls, s.ending)
      && (s.ending.None? ==>
            forall e :: e != GuardFailed ==> !Ends(limits, r, calls, Some(e)))
      && Told(limits, r, calls, s)
  {
    if |calls| == 1 {
      assert Results(Ids(calls)) == [ToolResult(calls[0].id)];
    } else if calls == [] {
      assert Results(Ids(calls)) == [];
    }
  }

  /** The conversation was over after turn `k`, in the way that turn asked for. */
  predicate EndedAt(limits: Limits, model: nat -> seq<Call>, k: nat, end: Run) {
    var r := Play(limits, model, k);
    && r.ending.None?
    && if r.llmCalls >= limits.maxSteps + limits.maxInvalid + 1 then end == r.(ending := Some(GuardFailed))
       else end.ending.Some? && Ends(limits, r, model(k), end.ending) && Told(limits, r, model(k), end)
  }

  /** Over every conversation: it ends by a turn whose call asks for that ending; an
      outcome that is reported was declared. */
  lemma {:induction false} EndingsAreEarned(limits: Limits, model: nat -> seq<Call>, n: nat) returns (k: nat)
    requires Play(limits, model, n).ending.Some?
    ensures k < n && EndedAt(limits, model, k, Play(limits, model, n))
  {
    hide Turn, Ends, Told;
    assert n > 0;
    var r := Play(limits, model, n - 1);
    if r.ending.Some? {
      k := EndingsAreEarned(limits, model, n - 1);
    } else {
      k := n - 1;
      TurnMeans(limits, r, model(k));
    }
  }

  /** No conversation, whatever the model says, reaches the loop's own bound. */
  ghost predicate BoundNeverReached(limits: Limits) {
    forall model, n :: Play(limits, model, n).ending != Some(GuardFailed)
  }

  /** A model that only ever acts, successfully. */
  function Eager(n: nat): seq<Call> { [Call("", true, Act(Acted))] }

  lemma {:induction false} EagerPlays(limits: Limits, n: nat)
    requires limits.maxInvalid == 0 && n <= limits.maxSteps
    ensures var r := Play(limits, Eager, n); r.ending.None? && r.llmCalls == r.steps == n && !r.grace
  {
    if n > 0 {
      EagerPlays(limits, n - 1);
    }
  }

  /** Every run ends at one of the loop's explicit returns exactly when at least one
      invalid proposal is allowed for. With none, a model that acts to the end of the
      step budget and once more meets the loop's bound instead of an answer. */
  lemma BoundNeverReachedIff(limits: Limits)
    ensures BoundNeverReached(limits) <==> limits.maxInvalid > 0
  {
    hide Turn, Play;
    if limits.maxInvalid > 0 {
      forall model, n: nat ensures Play(limits, model, n).ending != Some(GuardFailed) {
        GuardHolds(limits, model, n);
      }
    } else {
      EagerPlays(limits, limits.maxSteps);
      EagerFails(limits);
    }
  }

  lemma EagerFails(limits: Limits)
    requires limits.maxInvalid == 0
    requires var r := Play(limits, Eager, limits.maxSteps);
      r.ending.None? && r.llmCalls == r.steps == limits.maxSteps && !r.grace
    ensures Play(limits, Eager, limits.maxSteps + 2).ending == Some(GuardFailed)
  {
    var n := limits.maxSteps;
    assert Play(limits, Eager, n + 1) == Turn(limits, Play(limits, Eager, n), Eager(n));
  }
}
