# Verification of the replay engine and the verified run

A Dafny model of an automation engine that replays recorded capabilities against a legacy console, with proofs about
whole runs. `dafny verify dfyconfig.toml` checks everything.

## What is modelled

**The replay engine and its control token.** `Protocol` is one replay run as a state machine: an index loop over steps
and a checkpoint, fed one *instant* at a time with whatever the world answers: how far the clock moved, what the operator
console asked, what left the browser, which recognizers and postconditions hold, how an attempted action ended. Every
branch of the engine's flow is a branch of `Next`; `Behavior` is any finite prefix of any run. `Engine` is the same
engine as an object whose methods update `hub`, `hazard`, `dispatchMark` and `blockedMark`, with the loops and early exits
of the source; every method is proved to leave the object describing a state of the machine and the machine exactly one
continuation ahead, so `ReplayEngine.Run` refines the machine and inherits every theorem about it. `Escalation` is the
hub both threads share, as a value and as a class.

Theorems over every run: `HazardSafety` (nothing up to a recorded hazard is tried again), `ResultSafety` (what a result
says really happened), `DoubleFire`, `FirstStep`, `Scripts` and `DoubleFireTheorems` (exactly when a consequential action
can be fired twice, exactly when an observed dispatch can be denied, with the runs that do it), `Freshness` (a business
outcome is fresh), `Control` (one owner of the session at every moment), `Progress` (attempts, moves and success),
`Bounds` (how many visits), `KeepAlive` (how long an intervention lasts), `LateDispatch` (mutations in the browser's own log).

What each instant decides is said a second time, in `Flow`, as a relation over the readings, the clock and the artifact
alone, and proved of the machine phase by phase. On it rest laws that speak of a run's history instead of the machine's
own fields: `Histories` (to which instant a deadline, a mark or a count goes back), `Recoveries` (where a recovery
resumes, what it ran before, how often it may), `Looks` (what a look, an action or a handback leads to, and what the
checkpoint suppresses), `Interventions` (when the operator is asked, how long the run waits, in which order commands
run), `Bookends` (entry requirements, outputs, the demanded review, and how what goes wrong is named).

**The verified run.** `Meridian` is the system of record and its one consequential handler; `Network` the verifier's
read-only guard and the fault injector; `Reconciler` the judgment; `Twin` the orchestration and the end-to-end theorem
that composes engine, browser, server and reconciler over a timeline of durable state; `UnderClaims` says exactly when the
executor may deny what it did.

**The hash-chained trace.** `Trace` has the writer, the seal and the verification. The hash is an uninterpreted injective
function that is never the empty text, and serialization is one that survives a round trip on one line (`Sound`) and, where a cut-short line is joined, one that
nothing but white space can precede (`Unjoinable`), as JSON is.

**Smaller cores.** `Money` (parser, printer, sanitizer), `Identity` (boundary search), `Planner` (the conversation with
the model), `Invocations` (the idempotency critical section), `Ladder` (locator resolution). `Artifact` is the capability
contract reduced to what the engine branches on, `Characters` text helpers, `Wrappers` an option type.

## What the proofs found

- The run keeps only its first consequential action as hazard (src/hands/replay.py:613-617), so a second consequential
  step can be fired twice after a handback or a restart between the two. `NeverFiredTwiceIff` gives the exact condition.
- The mark that a dispatch was seen when a recovery interrupts a risky step (src/hands/replay.py:822-837) is dropped when
  an operator is asked: the run may end as a plain failure, or fire the step again. `NeverDeniedIff` is exact.
- A recovery may restart at a step beyond the one its condition is armed after: the artifact only checks that the step
  exists (src/hands/artifact.py:466-467) and the engine goes where it says (src/hands/replay.py:837-841). A run can then
  end in success, with no operator involved, without ever having seen a step's postconditions. `NeverSkipsIff` says exactly
  for which capabilities no run does.
- The docstring of the parked loop says an unanswered intervention expires (src/hands/replay.py:1043-1045). Past its time
  to live it stays open exactly while every round serves a command or takes an undeclared outcome code, each of which goes
  back to the top of the loop without asking the clock (src/hands/replay.py:1053-1064): `OutlivesIff`. Some run outlives
  any excess exactly when the capability can start and there is an operator to ask: `OutlivingIff`.
- `verify_chain` promises False for an unparseable line, but only a decode error is caught (src/hands/trace.py:122-126):
  JSON that is not an object, an integer of too many digits and nesting that is too deep make it raise. A seal nested too
  deep does as well (src/hands/trace.py:56-67).
- An emitted field named `seq` or `prev` overwrites the record's own (src/hands/trace.py:170-176), and the log never
  verifies again: `OverwrittenSeqBreaks`. Such a field can come from outside the engine: an event from the page is emitted
  field by field (src/hands/replay.py:271-273).
- Reopening is said never to fork the chain (src/hands/trace.py:155-156). On a file whose last line was cut short the next
  record joins what is left of that line, and the log never verifies again: after any use it verifies exactly when it was
  chained before, no field overwrote a record's place, and its last line was whole or nothing was written
  (`AnyLogVerifiesIff`). A lost line feed after the last record is enough (`LostLineFeedBreaks`).
- A mutation that leaves after its consequential action returned is recorded only if the step then fails or is interrupted: a run may end as
  a plain failure although its browser sent it, whenever it can start and has a consequential step
  (`LateIsNeverDeniedIff`). One that left by the time the action returned is never denied (`SentByReturnIsNeverDenied`).
- With an invalid-proposal budget of zero the planner's loop can reach its own bound (src/hands/planner.py:289, 414).
- A business outcome is a claim that nothing was done (src/hands/reconcile.py:92-101). When refusals answer only the
  executor's last post, a run may commit with its first post, be refused with its second, and deny both; with an operator
  to ask, one post and a resolution do. `NeverDeniesIff` says exactly for which capabilities no run does, and
  `NeverBlamedIff` that these are the ones for which EFFECT_MISMATCH always means a success that was never committed.

## Model

| member | source | states |
|---|---|---|
| HazardSafety.NeverRefiresUpToHazard | src/hands/replay.py:603-618 | over every run, once a hazard is raised at step h no step at or before h is tried again, through any recoveries, pauses, approvals and handbacks; only a risky step raises one and a run raises at most one |
| DoubleFireTheorems.NeverFiredTwiceIff | src/hands/replay.py:785-857 | no run tries again a step it has seen dispatching a mutation, if and only if the capability cannot start, or it is guarded (one consequential step when an operator may hand back, else no restart between two) and not refirable |
| DoubleFireTheorems.NeverDeniedIff | src/hands/replay.py:818-837 | no run that saw a consequential dispatch ends in failure, policy violation or unmet precondition, if and only if it cannot start or no recovery may interrupt a risky step while there is an operator to ask |
| DoubleFireTheorems.AttendedWitness | src/hands/replay.py:1115-1159 | with two consequential steps and an operator who approves a paused run as it is, a run that fires the second one twice |
| DoubleFireTheorems.UnattendedWitness | src/hands/replay.py:838-857 | unattended, with a recovery that restarts between two consequential steps, a run that fires the second one twice |
| DoubleFireTheorems.DenialWitness | src/hands/replay.py:818-837 | a run that saw a late dispatch while a recovery interrupted the risky step and ends in a plain failure |
| DoubleFireTheorems.ForgettingWitness | src/hands/replay.py:818-837 | the same run, approved instead of aborted, fires the step again |
| DoubleFireTheorems.ReturningWitness | src/hands/replay.py:838-857 | when the only consequential step is the first, interrupted and approved as complete, a restart from the checkpoint fires it again |
| DoubleFire.Always | src/hands/replay.py:838-857 | for a capability no recovery of which interrupts a risky step while an operator may be asked: every step seen dispatching is remembered, and a guarded flow stands beyond all of them |
| FirstStep.Always | src/hands/replay.py:1115-1159 | with the first step the only consequential one and no way back to it, it is never tried again after it was seen dispatching |
| ResultSafety.ResultsAreHonest | src/hands/replay.py:291-395 | a run with a hazard ends in success, a business outcome or unresolved; every unresolved is dispatched and backed by a mutation logged after some risky step's mark; business outcomes carry a declared code; an unmet precondition means nothing was tried |
| ResultSafety.SignOnNeverUnresolved | src/hands/replay.py:591-601 | a run whose only non-GET requests are sign-on posts never ends unresolved |
| LateDispatch.SentByReturnIsNeverDenied | src/hands/replay.py:603-618 | over every run: a mutation in the browser's log by the time a consequential action returns is never followed by a failure, policy violation or unmet precondition |
| LateDispatch.LateIsNeverDeniedIff | src/hands/replay.py:533-589 | no run denies a mutation that left after its action returned, if and only if it cannot start or has no consequential step |
| LateDispatch.LateWitness | src/hands/replay.py:533-589 | a run whose consequential step's postconditions hold as its mutation leaves, and which then fails plainly at the checkpoint |
| Freshness.OutcomesAreFresh | src/hands/replay.py:549-556 | a business outcome a recognizer raised in a step visit comes from a condition armed there that the engine looked at, and saw not matching, at some instant since the visit began |
| Freshness.SuppressionIsExact | src/hands/replay.py:905-928 | with distinct condition ids, a step visit suppresses an armed outcome if and only if no look at it in this visit found it not matching |
| Control.OneOwner | src/hands/escalation.py:97-166 | under every interleaving of console calls: steps and recoveries act only in automation, commands run only while a human holds the session, only the engine takes it back, every decision consumed was submitted since the last park, and one that needs a human follows a take in the same intervention |
| Control.DecisionsBelongToTheirIntervention | src/hands/replay.py:1046-1074 | for every consumed decision the park it belongs to, the call that submitted it in between, and for abort, resolve and handback a take in between |
| Bounds.VisitsAreBounded | src/hands/replay.py:440-486 | at most (1 + escalation budget + sum of fire caps) times (steps + 1) visits in any run |
| Bounds.FireUsesSlack | src/hands/replay.py:797-817 | a fire within its condition's cap uses up at least one unit of the capability's total slack |
| Progress.RiskyStepsActOnceAVisit | src/hands/replay.py:630-677 | every attempt is at the step being visited, and a risky step is tried at most once a visit |
| Progress.MovesAreJustified | src/hands/replay.py:440-486 | the flow changes its index only by one past seen postconditions, to a completed recovery's resume point, or after a handback to the checkpoint seen holding or one past the furthest step seen complete |
| Progress.SuccessWasSeen | src/hands/replay.py:1178-1210 | a run that reports success saw the checkpoint hold and only read afterwards |
| KeepAlive.OutlivesIff | src/hands/replay.py:1046-1074 | over every run, an intervention past its time to live is at a further look if and only if every round since then served a command or took an undeclared outcome code |
| KeepAlive.OutlivingIff | src/hands/replay.py:1043-1045 | for any excess, some run keeps an intervention open that much beyond its time to live, if and only if the capability can start and there is an operator to ask |
| KeepAlive.PopLooksAgainIff | src/hands/replay.py:1053-1058 | after asking for a command the loop looks again exactly when there is one |
| KeepAlive.TakeLooksAgainIff | src/hands/replay.py:1059-1073 | past the time to live, after asking for a decision the loop looks again exactly when the code taken is undeclared, and without a decision the run ends |
| KeepAlive.SilenceExpires | src/hands/replay.py:1056-1074 | past its time to live an intervention leaves the loop in the first round that serves no command and takes no undeclared code |
| KeepAlive.CommandsOutliveTheTtl | src/hands/replay.py:1053-1058 | for any time to live and any excess there is a run, with no decision submitted past the deadline, still parked that much beyond it |
| KeepAlive.CodesOutliveTheTtl | src/hands/replay.py:1059-1064 | the same with no command submitted past the deadline, on undeclared codes alone, whatever the capability declares |
| Flow.ReactDecides | src/hands/replay.py:426-1263 | for every phase and every instant, what the machine does next is what the readings, the clock and the artifact call for, said without the machine's own helpers |
| Histories.EverythingIsTimed | src/hands/replay.py:533-589 | over every run: a visit's deadline is its first instant's clock and the step budget, a recovery step's is counted from its action, the requirements' from the start, and an intervention's from its park |
| Histories.MarksAreTaken | src/hands/replay.py:553-560 | over every run: dispatches are counted from the snapshot of the current visit on, blocked traffic from there or from the start of the checkpoint |
| Recoveries.RecoveriesResume | src/hands/replay.py:837-857 | over every run: a recovery that ends in a visit stands at the very step it left if the condition says to retry it, and else at the step it names |
| Recoveries.RecoveriesRunInFull | src/hands/replay.py:859-903 | over every run: a recovery that ends in a visit has completed every one of its condition's steps |
| Recoveries.FiresAreHits | src/hands/replay.py:797-806 | over every run: a name's fires are the recognitions so far of the recoverable conditions that have it |
| Recoveries.CapsAreKept | src/hands/replay.py:797-817 | over every run: while nothing consequential is on record a condition is recovered from exactly as long as its name was recognized less often than its cap and no consequential step has just acted; past the cap, or after such an action, the run goes wrong or asks an operator |
| Recoveries.NeverSkipsIff | src/hands/replay.py:837-841 | no run without a handback succeeds past a step it has not seen done, if and only if the capability cannot start or no usable recovery restarts beyond the step its condition is armed after |
| Recoveries.SkippingWitness | src/hands/artifact.py:466-467 | with such a recovery, a run without a handback that succeeds and never saw that step's postconditions hold |
| Looks.BudgetsAreUsed | src/hands/replay.py:715-747 | over every run: undisturbed, what is awaited is looked for again until the budget of its visit is over, and not beyond |
| Looks.ChecksDecide | src/hands/replay.py:715-747 | over every run: postconditions that hold move on to the next step at once, a checkpoint that holds to the outputs, whatever else is showing |
| Looks.ActionsDecide | src/hands/replay.py:620-677 | over every run: a landed action is awaited, a safe step's timeout within its visit's budget is tried again, anything else goes wrong or is asked about |
| Looks.AnswersEnd | src/hands/replay.py:749-783 | over every run: an answer recognized ends the run with its own code, was armed, showing and not suppressed, and everything before it in the artifact that was showing was a suppressed answer |
| Looks.RecoveriesWait | src/hands/replay.py:859-903 | over every run: a recovery step is looked at until the budget counted from its action is over, and not beyond |
| Looks.HandbacksResume | src/hands/replay.py:1115-1159 | over every run: a handed-back flow goes on at a checkpoint that holds, else beyond the furthest step seen complete unless that would fire the hazard again, else where it was unless that is a consequential step |
| Looks.KeptIsExact | src/hands/replay.py:905-928 | over every run: the checkpoint suppresses exactly what the step passed last was suppressing when it was left and every look of the checkpoint since has seen |
| Interventions.WaitsUntilDue | src/hands/replay.py:1046-1074 | over every run: with no decision to take a parked run looks again exactly until its time to live after the park is over, and then ends |
| Interventions.NoDecisionMeansDue | src/hands/replay.py:1068-1074 | over every run: an intervention that ends without taking a decision ends the run, with no decision pending and not before its time to live after the park is over |
| Interventions.DecisionsAreFollowed | src/hands/replay.py:1059-1067 | over every run: what each decision taken leads to, whatever the clock says |
| Interventions.CountedAreParked | src/hands/replay.py:945-1031 | over every run: the interventions counted are the parks so far and the one being asked for |
| Interventions.FailuresAreAsked | src/hands/replay.py:945-1031 | over every run: a failed visit or recovery ends the run only without an operator or with the budget of parks spent, and an operator is asked only within it |
| Interventions.ActionsFollowSilence | src/hands/replay.py:630-641 | over every run: an action follows at once on a look that found nothing new to recognize and no operator waiting |
| Interventions.CommandsRunInOrder | src/hands/escalation.py:114-145 | over every run: the commands given are the commands run and those still queued, in one order |
| Bookends.StepsFollowRequirements | src/hands/replay.py:511-531 | over every run: no step is visited before the page could be read and every entry requirement was seen holding |
| Bookends.RequirementsDecide | src/hands/replay.py:511-531 | over every run: requirements not yet seen are waited for until their budget, counted from the start, is over, and then the run ends as an unmet precondition |
| Bookends.ReviewIsRequired | src/hands/replay.py:228-244 | a run ends in the demand for a review exactly if one is required, there is no operator, some step is consequential and the capability is not validly reviewed; and then nothing happened |
| Bookends.SuccessReadEverything | src/hands/replay.py:1212-1263 | over every run: success has read every output, and the observer if there is one |
| Bookends.WhatGoesWrongIsNamed | src/hands/replay.py:291-395 | over every run: after a hazard what goes wrong is unresolved and names its step; else unresolved names the step being visited, whose dispatch is on record; policy violation exactly for traffic blocked since the mark |
| Bookends.FailuresNameTheirPlace | src/hands/replay.py:291-395 | over every run: a plain failure of a visit or a recovery, while the browser can be used, is reported at the step or recovery step it happened at, or at none for the checkpoint |
| Protocol.PassIsOneInstant | src/hands/replay.py:715-747 | however the clock, the console and the traffic move between the readings of a pass, the engine stands where one instant with those readings puts it |
| Engine.ReplayEngine.Run | src/hands/replay.py:210-405 | the object's run is a run of the machine that ends in the returned result, and it keeps the promises: no refire up to the hazard, one owner, bounded visits, an honest result |
| Engine.ReplayEngine.Execute | src/hands/replay.py:426-509 | requirements, steps, checkpoint and outputs, each ending where the machine does |
| Engine.ReplayEngine.RunSteps | src/hands/replay.py:434-486 | the index loop terminates, and leaves the machine at the outputs or at the end its signal names |
| Engine.ReplayEngine.CheckRequires | src/hands/replay.py:511-531 | entry requirements are met within their budget or the run ends as an unmet precondition |
| Engine.ReplayEngine.RunStep | src/hands/replay.py:533-589 | a visit is snapshot, act, note, await, with its own suppression, and leaves fires, escalations and the loop's suppression alone |
| Engine.ReplayEngine.NoteHazard | src/hands/replay.py:603-618 | only a risky step with a mutation since its mark records a hazard, and only the first of a run is kept |
| Engine.ReplayEngine.AttemptOnce | src/hands/replay.py:642-677 | one attempt; tried again only for a safe step that timed out within budget and whose effect is not already there |
| Engine.ReplayEngine.ActWithRetries | src/hands/replay.py:620-677 | recognizers are polled before every attempt, and the attempts end in a landed action, a failure or a signal |
| Engine.ReplayEngine.AwaitPost | src/hands/replay.py:715-747 | satisfied postconditions win over a recognizer matching at the same time; the wait ends with the budget |
| Engine.ReplayEngine.PollRecognizers | src/hands/replay.py:749-783 | the operator's pause first, then the first armed recognizer in artifact order |
| Engine.ReplayEngine.CheckRecognizers | src/hands/conditions.py:127-150 | the first armed match that is not a suppressed business outcome |
| Engine.ReplayEngine.RefreshSuppression | src/hands/replay.py:905-928 | suppression keeps exactly what is still matching |
| Engine.ReplayEngine.HandleRecovery | src/hands/replay.py:785-857 | counted fires, no automatic re-run of a risky step after its action, no resume at or before the hazard; a completed one resumes at the current step or at the named one |
| Engine.ReplayEngine.RunRecovery | src/hands/replay.py:859-903 | recovery steps in order, one attempt each with a bounded wait, no recognizers |
| Engine.ReplayEngine.MaybeEscalate | src/hands/replay.py:945-1031 | a failure becomes an intervention within budget, and the operator's decision becomes an end or a resume point |
| Engine.ReplayEngine.ParkAndWait | src/hands/replay.py:1033-1074 | the parked loop runs commands only for a human and returns a declared decision, or expiry only past its deadline |
| Engine.ReplayEngine.ScanForResume | src/hands/replay.py:1115-1159 | checkpoint first, then one past the furthest completed step if beyond the hazard, else the current step unless it is risky |
| Engine.ReplayEngine.VerifyCheckpoint | src/hands/replay.py:1178-1210 | the checkpoint is polled to its budget with every condition armed |
| Engine.ReplayEngine.ExtractOutputs | src/hands/replay.py:1212-1263 | every output and the observer are read, or the run fails |
| Engine.ReplayEngine.Classify | src/hands/replay.py:291-395 | hazard, then the failure's own mark, then traffic blocked since the mark, then failure |
| Escalation.EscalationHub.RequestControl | src/hands/escalation.py:97-104 | the whole new state of the hub |
| Escalation.EscalationHub.Take | src/hands/escalation.py:106-112 | accepted exactly when paused; a refused call changes nothing |
| Escalation.EscalationHub.SubmitCommand | src/hands/escalation.py:114-119 | accepted exactly while a human holds control, queued last |
| Escalation.EscalationHub.Decide | src/hands/escalation.py:121-134 | approve only when paused, handback, abort and resolve only under a human |
| Escalation.EscalationHub.Park | src/hands/escalation.py:136-141 | pauses and forgets any earlier decision |
| Escalation.EscalationHub.PopCommand | src/hands/escalation.py:143-145 | the oldest command, if any |
| Escalation.EscalationHub.TakeDecision | src/hands/escalation.py:147-151 | the decision is handed over once |
| Escalation.EscalationHub.RecordHumanAction | src/hands/escalation.py:153-160 | recorded only while a human holds control |
| Escalation.EscalationHub.ResumeAutomation | src/hands/escalation.py:162-166 | control back to automation, the queue of commands kept |
| Reconciler.CollectChanges | src/hands/reconcile.py:156-164 | the list built by the loop is exact: each share other than the target whose status differs, once, in order of id |
| Reconciler.CollateralIsExact | src/hands/reconcile.py:156-164 | the specification function the loop computes is exact in both directions, with the last row of a share deciding |
| Reconciler.VerdictsAreTrueOfTheWindow | src/hands/reconcile.py:194-265 | with truthful reads and any other actors: committed means a move into the target status inside the window, not committed means equal ends, a mismatch means a definite claim the ends contradict |
| Reconciler.JudgmentIsExact | src/hands/reconcile.py:167-265 | for every effect, pair of images and claim: verdict, retry advice, reason, what both images say of the target, the time between them, and every other share that reads differently, all in terms of the rows |
| Reconciler.NeverRoundedUp | src/hands/reconcile.py:194-258 | a verdict is given exactly on sufficient evidence; removing an image leaves only UNVERIFIABLE |
| Reconciler.UnresolvedIsResolved | src/hands/reconcile.py:92-101 | an unresolved executor is never contradicted and is resolved to what a true claim would have given |
| Meridian.Server.HoldPost | fixture/meridian.py:362-393 | each answer exactly under its own guards; a hold changes one row and the journal, every refusal nothing |
| Meridian.OnlyPermittedHolds | fixture/meridian.py:362-393 | over any sequence of requests each one places exactly the hold it asks for, if and only if a signed-on supervisor posted it to the member's hold page with the session's token, for a share that exists and is not on hold |
| Meridian.HoldsAreAskedFor | fixture/meridian.py:384-390 | over any sequence of requests every hold journaled since was asked for by one of them under all of these guards |
| Meridian.JournalIsGroundTruth | fixture/meridian.py:384-390 | whatever requests arrive, the journal is the whole difference in durable state, no share is held twice and confirmation numbers are consecutive |
| Network.ReadOnlyGuard.Intercept | src/hands/verifier.py:171-179 | everything but a GET or a POST to a session-establishment path is aborted and recorded |
| Network.VerifierNeverWrites | src/hands/verifier.py:160-179 | nothing a verifier's browser sends through the guard changes durable state |
| Network.ReadingsAreClean | src/hands/verifier.py:220-242 | a reading is reported exactly if the replay succeeded with one and the browser tried to write nothing, and then durable state is untouched |
| Network.DispatchLogIs | src/hands/surface.py:238-247 | the browser's log is every request but a GET, sign-on told apart by its exact path |
| Network.HoldPostsAreMutations | src/hands/surface.py:238-247 | a browser that sends a hold post logs a mutation |
| Network.FaultInjector.Intercept | src/hands/chaos.py:129-212 | for the mode's own or a caller's pattern, which requests a mode handles, which it still forwards, and that a one-shot fault fires once |
| Network.FaultsOnlyDrop | src/hands/chaos.py:140-212 | no fault adds to what the server sees; forwarding modes change nothing there, a one-shot fault of the others drops exactly the first targeted request, if there is one |
| Twin.RunTwin | src/hands/twin.py:118-256 | executed exactly when the pre-image's first row of the target shows the starting status; a refused run touches neither browser nor post-image; an executed one reports verdict, target, damage and window as its two images and the engine's own result give them |
| Twin.NeverUnderClaims | src/hands/twin.py:163-204 | a run that changed the server ends in success, unresolved or a business outcome, and denies the change exactly by the last; with no operator to ask and refusals true of the whole run not even so |
| UnderClaims.NeverDeniesIff | src/hands/twin.py:163-204 | with refusals that answer the last post, no run that changed the server denies it, if and only if it cannot start, or no answer is declared, or there is no consequential step (at most one when there is no operator to ask) |
| UnderClaims.NeverBlamedIff | src/hands/reconcile.py:225-248 | exactly under the same condition every EFFECT_MISMATCH on truthful readings is a claimed success |
| UnderClaims.RefusedWitness | src/hands/replay.py:749-783 | with two consequential steps and an answer, a run whose first post commits, whose second is refused, and which ends in that answer |
| UnderClaims.ResolvedWitness | src/hands/replay.py:945-1031 | with one consequential step and an operator, a run whose post commits and which is resolved with a declared outcome |
| Twin.LastPostSuffices | src/hands/twin.py:163-204 | with one consequential step, refusals that answer the last post are true of the whole run |
| Twin.OnlyOneActionPosts | src/hands/replay.py:603-618 | with one consequential step, at most one action of a run ever posts |
| Twin.VerdictsAreTrueOfTheJournal | src/hands/reconcile.py:194-258 | between any two moments of the server, whoever acted and whatever is claimed: VERIFIED_COMMITTED says the hold was journaled in between, VERIFIED_NOT_COMMITTED that it was not, EFFECT_MISMATCH that the claim is definite and wrong |
| Twin.VerdictsAreTrueOfTheServer | src/hands/twin.py:163-204 | end to end, for every run alone on the server: each verdict is true of the journal; EFFECT_MISMATCH blames a success that was not committed or a business outcome that was, and only the first with no operator to ask and refusals true of the whole run |
| Twin.RetryCannotDoubleFire | src/hands/reconcile.py:240-258 | whatever the executor claims and whatever requests reached the server from whatever actors: when a retry is advised, no hold on the target was journaled since the first reading |
| Trace.VerifyChain | src/hands/trace.py:101-135 | intact exactly when every line is a record of its place and of the hash of the line before it, a readable seal has the number of lines and the last hash, and a kept anchor is that hash; raises exactly when a chained prefix is followed by a line on which decoding, or asking for a field, raises anything but a decode error, or the chain holds and reading the seal raises |
| Trace.BreaksSeparate | src/hands/trace.py:114-118 | the lines of a file are those before a break and those after it; with `OneLineIs` this is every file |
| Trace.SameTipSameLines | src/hands/trace.py:114-135 | two chains with the same tip have the same lines |
| Trace.SealedLogsAreEqual | src/hands/trace.py:101-135 | two logs that verify against the same sealed or anchored tip have identical non-blank lines |
| Trace.UnsealedPrefixesVerify | src/hands/trace.py:107-112 | without a seal every prefix of a verifying log verifies; with the log's own seal no proper prefix does |
| Trace.Writer.constructor | src/hands/trace.py:154-167 | opening continues the count and the tip of an existing log |
| Trace.Writer.Emit | src/hands/trace.py:169-182 | one record appended with the writer's place, the hash before it and the caller's fields, which win; the tail keeps the latest; a closed writer changes nothing |
| Trace.Writer.Close | src/hands/trace.py:189-200 | the seal holds the count and the tip |
| Trace.UseKeepsChain | src/hands/trace.py:154-182 | on any directory whose lines are whole, any sequence of open, emit, close and reopen counts every record and keeps the chain exactly while no field overwrites a record's place |
| Trace.ClosedLogsVerify | src/hands/trace.py:189-200 | on any directory whose lines are whole, after each close the seal holds the count of all lines and the hash of the last, and the log verifies exactly when it was chained before and no field overwrote `seq` or `prev` |
| Trace.AnyLogVerifiesIff | src/hands/trace.py:154-200 | from a file whose last line is whole or cut short, after any use that ends in a close: the log verifies if and only if it was chained before, no field overwrote a record's place, and the last line was whole or nothing was written |
| Trace.OneVisitVerifiesIff | src/hands/trace.py:154-200 | from any file at all, after opening, one record in its place and closing: the log verifies if and only if it was chained and ended in a line break |
| Trace.ReopeningHealsBlank | src/hands/trace.py:154-200 | behind a last line of nothing but white space one visit leaves a log that does not verify, and reopening and closing once more makes it verify exactly when it was chained before |
| Trace.CutShortBreaks | src/hands/trace.py:157-182 | on a file whose last line was cut short the first record written breaks the chain for good, through any later use |
| Trace.LostLineFeedBreaks | src/hands/trace.py:157-182 | a log that verifies with only its last line feed missing verifies after a further use exactly when that wrote nothing |
| Trace.StaleSealIsBroken | src/hands/trace.py:128-135 | a record written after reopening a sealed log breaks verification until the next close |
| Trace.OverwrittenSeqBreaks | src/hands/trace.py:169-182 | one record emitted with a field `seq` other than its place: the closed and sealed log does not verify |
| Trace.AppendJoinsTornLine | src/hands/trace.py:157-179 | the lines of any file before and after a further record: every earlier line stays and the record joins what is left of the last |
| Money.Parse | src/hands/values.py:58-84 | the parser's reassignments compute the specification the laws below are about |
| Money.AcceptedExactly | src/hands/values.py:51-55 | a cleaned text is accepted exactly when its whole part is plain digits or groups of three, with or without a dotted run of digits |
| Money.SignedExactly | src/hands/values.py:58-84 | for every text: it parses exactly if it is, undressed, a US number in parentheses, with a leading or a trailing minus, or without, and it is worth that number, negated if there is any sign |
| Money.NegationRounds | src/hands/values.py:84 | negation keeps 28 digits: it rounds to the nearest multiple of the least power of ten that leaves no more, the even one of two |
| Money.RoundTrip | src/hands/values.py:58-84 | parsing the printed text of a signed amount in cents gives it back, exactly when it is not negative or negation need not round beyond 28 digits |
| Money.WithCommasIs | fixture/app.py:93-95 | printed thousands are correctly grouped and spell the number once the commas are dropped |
| Money.SanitizerKeepsMeaning | src/hands/api.py:109-127 | a currency text is sanitized to a pure number that parses to the same money value |
| Money.OnlyCurrencyIsSanitized | src/hands/api.py:109-127 | for every value: a sensitive or undeclared parameter is left alone, a text written as currency in the one accepted way loses its dressing, any other only its surrounding white space |
| Money.SanitizerIsIdempotent | src/hands/api.py:115-127 | sanitizing twice is sanitizing once, for every value, sensitive or not |
| Identity.BoundIsToken | src/hands/values.py:87-95 | for an alphanumeric value the boundary search succeeds exactly when the value is one of the maximal alphanumeric tokens of the text |
| Planner.Conversation.Loop | src/hands/planner.py:276-414 | the loop plays the specified conversation; every prompt it sends has all earlier tool calls answered; it ends at an explicit return when an invalid proposal is allowed for |
| Planner.Conversation.ServeTurn | src/hands/planner.py:289-412 | one reply of the model, with all its corrective paths |
| Planner.EveryPromptIsComplete | src/hands/planner.py:299-345 | at every call to the model, whatever it replied before, every tool call has been answered |
| Planner.CompleteMeans | src/hands/planner.py:574-575 | a complete transcript answers each assistant message's own tool calls right after it, in order |
| Planner.EveryCallIsAccountedFor | src/hands/planner.py:289-427 | model calls = steps + invalid proposals + grace turn + the call that ended the run |
| Planner.TurnMeans | src/hands/planner.py:289-427 | for every turn: whether it is a step, a wasted proposal, the grace turn or an ending follows from what was called, exactly, and every call is answered before the next prompt |
| Planner.EndingsAreEarned | src/hands/planner.py:331-414 | over every conversation: it ends by a turn whose call asks for that ending, and an outcome that is reported was declared |
| Planner.BoundNeverReachedIff | src/hands/planner.py:289-414 | no conversation reaches the loop's own bound, if and only if at least one invalid proposal is allowed for |
| Invocations.Service.Invoke | src/hands/api.py:195-222 | the critical section: replay what is recorded for this name and key, or run, report and record under both; a parameter error and a run that raises anything else leave the record alone |
| Invocations.AnswersAreAttributed | src/hands/api.py:192-222 | over every interleaving: an answer carries the envelope of a run made for the same name, the caller's own run, or for a replay another caller's with the same non-empty key |
| Invocations.ReplayedIff | src/hands/api.py:192-194 | over every interleaving: at its check a caller is answered as a replay exactly if a run for the same name and non-empty key has reported, with what it reported, and otherwise a run is made for it |
| Invocations.AtMostOneRunPerKey | src/hands/api.py:159-222 | for any interleaving of any number of invocations, at most one engine run reports a result per capability and non-empty key |
| Invocations.AnswersAgree | src/hands/api.py:195-222 | every answer carries the envelope of a run that reported it, with that run's directory or none, and all answers for a key carry the same |
| Invocations.AloneIsSection | src/hands/api.py:195-222 | uninterrupted, the interleaved steps are the critical section |
| Ladder.Resolve | src/hands/surface.py:334-356 | the loop over the rungs computes the first rung with any match, refused unless it is one |
| Ladder.ResolutionMeans | src/hands/surface.py:334-443 | for every page and ladder: the first rung that matches anything decides, matches being said per relation (cells, inputs, enclosing table), and an element is taken only if it is the only match and fits |
| Ladder.KeepInnermost | src/hands/surface.py:544-567 | the nested loops keep exactly the matches that contain no other |
| Ladder.NearestMatches | src/hands/surface.py:418-443 | the scoring loop returns exactly the candidates tied with the nearest |
| Ladder.OrderNeverDecides | src/hands/surface.py:334-356 | on a page with its elements in another document order every ladder resolves alike or is refused alike |
| Ladder.ResolvedByMargin | src/hands/surface.py:418-443 | a geometric match is returned only if every other qualifying candidate is more than 0.75 farther |
| Ladder.InnermostIs | src/hands/surface.py:544-567 | the innermost of some matches is some match, none of them contains another, and every match dropped contains one that is kept |
| Ladder.AppendedRungs | src/hands/surface.py:334-356 | appended rungs change nothing but a result of not found |

## Left out

- Engine.ReplayEngine.Run: proves termination only for a console that at some point stops sending commands and decisions to resolve with an undeclared code (`Settles`), because a run kept alive for ever does not end; any other calls may go on for ever, and the machine itself has no such assumption.
- Engine.ReplayEngine.CheckRequires: one pass of readings is one instant; each reading is free, so nothing is assumed to hold together, and what moves between the readings adds up to that instant (`PassIsOneInstant`).
- Engine.ReplayEngine.AwaitPost: likewise, one poll is one instant.
- Engine.ReplayEngine.ScanForResume: likewise, one scan is one instant.
- Control.OneOwner: says nothing about who decided, because the operator's name can be overwritten between a decision and its pickup, and nothing about which intervention a queued command was meant for.
- HazardSafety.NeverRefiresUpToHazard: is about recorded hazards; what goes unrecorded is the subject of `LateDispatch`.
- Twin.VerdictsAreTrueOfTheServer: assumes what it names in `Situated` (no other actor, hold posts only from a consequential action and logged when it returns); without it `VerdictsAreTrueOfTheJournal` holds.
- Trace.AnyLogVerifiesIff: leaves out files that end in white space after their last line break, which the writer never leaves: one visit to them is `OneVisitVerifiesIff`, and reopening once more makes the log verify again (`ReopeningHealsBlank`). A seal that cannot be written is not modelled.
- Network.FaultInjector.Intercept: a caller's pattern without the member group, and a third-party mode without its third party, raise in the source; neither is modelled.
- Meridian.Server.HoldPost: the test-only reset, and the pages other than the hold post, which only read or change the session.
- Reconciler: the hash of the inputs, the report texts and the rounding of the window to milliseconds.
- The browser, frames, accessibility trees, screenshots, HTTP servers, HTML and cookies: what they answer is the environment's.
- Observation of the share table from its cells, and the subprocess that runs the verifier: a reading is the environment's.
- Parameter validation, which raises before a run begins, and masking of sensitive values.
- Load-time checks of region and parameter references, and the signing of a risk review: `reviewValid` is an input.
- The model client, prompts, the recording of steps from a live page and their postconditions.
- Ladder.ResolutionMeans: assumes that a page lists each element once and that containment is a strict order, as on a page.
- Interventions.DecisionsAreFollowed: says of an abort only that the run goes on to no success and no business outcome; what it is then called is `Bookends.WhatGoesWrongIsNamed`.
- Invocations.Service.Invoke: an exception while the envelope is built (src/hands/api.py:206-219) is not told apart from one the run raises: both escape before the record is written.
- The request payload of an invocation and the durability of its record across restarts.
- Dashboard, chatbot, command line receipts and evaluation scripts: formatting and data.
