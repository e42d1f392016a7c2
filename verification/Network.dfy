/** What stands between a browser and the server: the verifier's read-only guard
    and the fault injector of the experiments. */
module Network {
  import opened Wrappers
  import opened Characters
  import opened Protocol
  import opened Meridian
  import opened Reconciler

  /** Exact path equality with a session-establishment path. */
  predicate IsSessionEstablishment(r: Request, paths: set<string>) {
    r.path in paths
  }

  const SESSION_PATHS: set<string> := {"/signon"}

  /** The browser's own record of what it sent: every request but a GET. */
  function DispatchLog(sent: seq<Request>, paths: set<string>): seq<Dispatch> {
    if sent == [] then []
    else
      (if sent[0].method_ == "GET" then []
       else [Dispatch(sent[0].method_, sent[0].path,
           if IsSessionEstablishment(sent[0], paths) then Protocol.Kind.Session else Mutation)])
      + DispatchLog(sent[1..], paths)
  }

  /** No session-establishment path is the hold handler's. */
  predicate Separate(paths: set<string>) {
    forall p :: p in paths ==> HoldTarget(p).None?
  }

  lemma SignOnIsSeparate()
    ensures Separate(SESSION_PATHS)
  {
  }

  lemma {:induction false} HoldPostsAreMutations(sent: seq<Request>, paths: set<string>)
    requires Separate(paths) && exists r :: r in sent && IsHoldPost(r)
    ensures Mutations(DispatchLog(sent, paths)) != []
  {
    hide HoldTarget;
    var d := DispatchLog(sent, paths);
    if IsHoldPost(sent[0]) {
      assert d[0].kind == Mutation;
    } else {
      var r :| r in sent && IsHoldPost(r);
      assert r in sent[1..];
      HoldPostsAreMutations(sent[1..], paths);
      assert sent[0].method_ == "GET" ==> d == DispatchLog(sent[1..], paths);
      assert sent[0].method_ != "GET" ==> d[1..] == DispatchLog(sent[1..], paths);
    }
  }

  /** What the browser's own record holds: every request but a GET, sign-on told apart
      from everything else. */
  lemma {:induction false} DispatchLogIs(sent: seq<Request>, paths: set<string>)
    ensures forall d :: d in DispatchLog(sent, paths) <==>
      exists i :: 0 <= i < |sent| && sent[i].method_ != "GET"
        && d == Dispatch(sent[i].method_, sent[i].path,
                         if sent[i].path in paths then Protocol.Kind.Session else Mutation)
  {
    if sent != [] {
      DispatchLogIs(sent[1..], paths);
      var rest := sent[1..];
      assert forall i :: 0 < i < |sent| ==> sent[i] == rest[i - 1];
      assert forall i :: 0 <= i < |rest| ==> rest[i] == sent[i + 1];
    }
  }

  // ------------------------------------------------------------ the guard

  predicate Allowed(r: Request, paths: set<string>) {
    r.method_ == "GET" || (r.method_ == "POST" && IsSessionEstablishment(r, paths))
  }

  function Passing(sent: seq<Request>, paths: set<string>): seq<Request> {
    if sent == [] then []
    else (if Allowed(sent[0], paths) then [sent[0]] else []) + Passing(sent[1..], paths)
  }

  /** Aborts and records whatever a read-only observer may not send. */
  class ReadOnlyGuard {
    const allowPaths: set<string>
    var violations: seq<Request>

    constructor (allowPaths: set<string>)
      ensures this.allowPaths == allowPaths && violations == []
    {
      this.allowPaths, violations := allowPaths, [];
    }

    /** True when the guard dealt with the request itself. */
    method Intercept(r: Request) returns (handled: bool)
      modifies this
      ensures handled <==> r.method_ != "GET" && !(r.method_ == "POST" && r.path in allowPaths)
      ensures handled == !Allowed(r, allowPaths)
      ensures violations == old(violations) + if handled then [r] else []
    {
      if r.method_ == "GET" {
        return false;
      }
      if r.method_ == "POST" && IsSessionEstablishment(r, allowPaths) {
        return false;
      }
      violations := violations + [r];
      return true;
    }
  }

  /** Nothing a verifier's browser sends through the guard changes durable state. */
  lemma {:induction false} VerifierNeverWrites(store: Store, supervisors: set<string>, sent: seq<Request>,
                                               paths: set<string>)
    requires Separate(paths)
    ensures Serve(store, supervisors, Passing(sent, paths)) == store
    decreases |sent|
  {
    hide HoldTarget;
    if sent != [] {
      VerifierNeverWrites(store, supervisors, sent[1..], paths);
      if Allowed(sent[0], paths) {
        assert Passing(sent, paths)[0] == sent[0] && Passing(sent, paths)[1..] == Passing(sent[1..], paths);
        assert !IsHoldPost(sent[0]);
      } else {
        assert Passing(sent, paths) == Passing(sent[1..], paths);
      }
    }
  }

  /** The verifier's report: a reading only from a successful replay that tried to
      write nothing. */
  datatype Report = Report(observation: Option<Observation>, violations: seq<Request>) {
    predicate Ok() { observation.Some? }
  }

  function Reported(result: Result, observed: Option<Observation>, violations: seq<Request>): Report {
    Report(if result.Success? && violations == [] then observed else None, violations)
  }

  /** What the guard records of what the verifier's browser tries to send. */
  function Violations(sent: seq<Request>, paths: set<string>): seq<Request> {
    if sent == [] then []
    else (if Allowed(sent[0], paths) then [] else [sent[0]]) + Violations(sent[1..], paths)
  }

  lemma {:induction false} NoViolations(sent: seq<Request>, paths: set<string>)
    ensures Violations(sent, paths) == [] <==>
      forall r :: r in sent ==> r.method_ == "GET" || (r.method_ == "POST" && r.path in paths)
    ensures Violations(sent, paths) == [] ==> Passing(sent, paths) == sent
  {
    if sent != [] {
      NoViolations(sent[1..], paths);
      assert sent == [sent[0]] + sent[1..];
    }
  }

  /** A reading is reported exactly if the replay succeeded with one and the browser
      tried to write nothing; and then the server served everything it sent, and holds
      what it held before. */
  lemma ReadingsAreClean(store: Store, supervisors: set<string>, sent: seq<Request>, paths: set<string>, result: Result,
                         observed: Option<Observation>)
    requires Separate(paths)
    ensures var report := Reported(result, observed, Violations(sent, paths));
      && (report.Ok() <==>
            && result.Success? && observed.Some?
            && forall r :: r in sent ==> r.method_ == "GET" || (r.method_ == "POST" && r.path in paths))
      && (report.Ok() ==> report.observation == observed && Serve(store, supervisors, sent) == store)
  {
    hide Serve, HoldTarget;
    NoViolations(sent, paths);
    VerifierNeverWrites(store, supervisors, sent, paths);
  }

  // -------------------------------------------------------- fault injection

  datatype Mode =
    | CommitWithLostAck | NoCommitWithLostAck | FalseSuccess | VerifierFailure
    | CommitWithCorruptAck | CommitWithCorruptOutput | ThirdPartyMutation

  /** How many digits `s` ends in. */
  function TrailingDigits(s: string): (n: nat)
    ensures n <= |s|
  {
    if s == [] || !IsDigit(s[|s| - 1]) then 0 else 1 + TrailingDigits(s[..|s| - 1])
  }

  predicate EndsWith(s: string, tail: string) {
    |tail| <= |s| && s[|s| - |tail|..] == tail
  }

  /** `path` ends in `/members/<digits>` followed by `tail`. */
  predicate MemberPath(path: string, tail: string) {
    EndsWith(path, tail)
    && var head := path[..|path| - |tail|];
    var n := TrailingDigits(head);
    n > 0 && EndsWith(head[..|head| - n], MEMBERS)
  }

  predicate Digits(s: string) {
    s != [] && forall i :: 0 <= i < |s| ==> IsDigit(s[i])
  }

  lemma {:induction false} TrailingIs(head: string, digits: string)
    requires Digits(digits) && (head != [] ==> !IsDigit(head[|head| - 1]))
    ensures TrailingDigits(head + digits) == |digits|
    decreases |digits|
  {
    hide IsDigit;
    var s := head + digits;
    assert s[|s| - 1] == digits[|digits| - 1] && s[..|s| - 1] == head + digits[..|digits| - 1];
    if |digits| > 1 {
      TrailingIs(head, digits[..|digits| - 1]);
    } else {
      assert s[..|s| - 1] == head;
    }
  }

  lemma {:induction false} TrailingAreDigits(s: string)
    ensures var n := TrailingDigits(s); n > 0 ==> Digits(s[|s| - n..])
  {
    hide IsDigit;
    var n := TrailingDigits(s);
    if n > 0 {
      var init := s[..|s| - 1];
      TrailingAreDigits(init);
      assert s[|s| - n..] == init[|init| - (n - 1)..] + [s[|s| - 1]];
    }
  }

  predicate Spells(path: string, front: string, digits: string, tail: string) {
    path == front + "/members/" + digits + tail && Digits(digits)
  }

  /** A member's path: anything, the members page, a number, the tail. */
  ghost predicate IsMemberPath(path: string, tail: string) {
    exists front, digits :: Spells(path, front, digits, tail)
  }

  lemma MemberPathSpells(path: string, tail: string)
    requires MemberPath(path, tail)
    ensures IsMemberPath(path, tail)
  {
    hide IsDigit, Digits;
    var head := path[..|path| - |tail|];
    var n := TrailingDigits(head);
    TrailingAreDigits(head);
    var stem := head[..|head| - n];
    var front := stem[..|stem| - |MEMBERS|];
    assert stem == front + MEMBERS && head == stem + head[|head| - n..] && path == head + tail;
    assert Spells(path, front, head[|head| - n..], tail);
  }

  lemma SpelledIsMemberPath(path: string, front: string, digits: string, tail: string)
    requires Spells(path, front, digits, tail)
    ensures MemberPath(path, tail)
  {
    hide IsDigit, Digits;
    var stem := front + MEMBERS;
    assert path == stem + digits + tail;
    assert path[..|path| - |tail|] == stem + digits && path[|path| - |tail|..] == tail;
    assert digits != [] by { DigitsAreSome(digits); }
    assert !IsDigit(stem[|stem| - 1]) by { SlashIsNoDigit(); }
    TrailingIs(stem, digits);
    assert (stem + digits)[..|stem|] == stem && stem[|stem| - |MEMBERS|..] == MEMBERS;
  }

  lemma DigitsAreSome(s: string)
    requires Digits(s)
    ensures s != []
  {
  }

  lemma MemberPathIs(path: string, tail: string)
    ensures MemberPath(path, tail) <==> IsMemberPath(path, tail)
  {
    hide MemberPath, Spells;
    if MemberPath(path, tail) {
      MemberPathSpells(path, tail);
    }
    if front, digits :| Spells(path, front, digits, tail) {
      SpelledIsMemberPath(path, front, digits, tail);
    }
  }

  lemma SlashIsNoDigit()
    ensures !IsDigit('/')
  {
    DigitsAreClear();
  }

  /** The paths a caller's pattern accepts. */
  type Pattern = string -> bool

  /** The record of a member for the verifier's mode, the hold post for the others. */
  function DefaultPattern(mode: Mode): Pattern {
    path => MemberPath(path, if mode == VerifierFailure then "" else HOLD_POST)
  }

  /** The request the mode's fault applies to. */
  predicate Targeted(mode: Mode, target: Pattern, r: Request) {
    r.method_ == (if mode == VerifierFailure then "GET" else "POST") && target(r.path)
  }

  /** The real request still goes to the real server; only its answer is altered. */
  predicate Forwards(mode: Mode) {
    mode == CommitWithLostAck || mode == CommitWithCorruptAck || mode == CommitWithCorruptOutput
  }

  predicate Strikes(mode: Mode, target: Pattern, once: bool, fired: nat, r: Request) {
    !(once && fired > 0) && Targeted(mode, target, r)
  }

  /** The requests that reach the server. */
  function Delivered(mode: Mode, target: Pattern, once: bool, fired: nat, sent: seq<Request>): seq<Request>
    decreases |sent|
  {
    if sent == [] then []
    else if Strikes(mode, target, once, fired, sent[0]) then
      (if Forwards(mode) then [sent[0]] else []) + Delivered(mode, target, once, fired + 1, sent[1..])
    else [sent[0]] + Delivered(mode, target, once, fired, sent[1..])
  }

  class FaultInjector {
    const mode: Mode
    const target: Pattern
    const once: bool
    var fired: seq<Request>
    var thirdParty: nat  // calls to the other actor of ThirdPartyMutation

    /** One fault for the executor-side modes, an outage for the verifier's, unless
        the caller says otherwise. */
    constructor (mode: Mode, target: Option<Pattern>, once: Option<bool>)
      ensures this.mode == mode && this.target == target.GetOr(DefaultPattern(mode))
      ensures this.once == once.GetOr(mode != VerifierFailure) && fired == [] && thirdParty == 0
      ensures target.None? ==>
        forall path :: this.target(path) <==> IsMemberPath(path, if mode == VerifierFailure then "" else "/hold/post")
    {
      this.mode := mode;
      this.target := target.GetOr(DefaultPattern(mode));
      this.once := if once.Some? then once.value else mode != VerifierFailure;
      fired, thirdParty := [], 0;
      forall path
        ensures DefaultPattern(mode)(path) <==> IsMemberPath(path, if mode == VerifierFailure then "" else "/hold/post")
      {
        MemberPathIs(path, if mode == VerifierFailure then "" else HOLD_POST);
      }
    }

    /** True when the injector dealt with the request; `forwarded` when it still
        sent it to the server. */
    method Intercept(r: Request) returns (handled: bool, forwarded: bool)
      modifies this
      ensures handled <==>
        && !(once && old(fired) != []) && target(r.path)
        && r.method_ == if mode == VerifierFailure then "GET" else "POST"
      ensures forwarded <==>
        handled && mode in {CommitWithLostAck, CommitWithCorruptAck, CommitWithCorruptOutput}
      ensures handled == Strikes(mode, target, once, |old(fired)|, r) && forwarded == (handled && Forwards(mode))
      ensures fired == old(fired) + if handled then [r] else []
      ensures thirdParty == old(thirdParty) + if handled && mode == ThirdPartyMutation then 1 else 0
    {
      if once && fired != [] {
        return false, false;
      }
      if !Targeted(mode, target, r) {
        return false, false;
      }
      match mode {
        case CommitWithLostAck => forwarded := true;
        case CommitWithCorruptAck => forwarded := true;
        case CommitWithCorruptOutput => forwarded := true;
        case ThirdPartyMutation => forwarded := false; thirdParty := thirdParty + 1;
        case NoCommitWithLostAck => forwarded := false;
        case FalseSuccess => forwarded := false;
        case VerifierFailure => forwarded := false;
      }
      fired := fired + [r];
      handled := true;
    }
  }

  lemma {:induction false} DeliveredWereSent(mode: Mode, target: Pattern, once: bool, fired: nat, sent: seq<Request>)
    ensures forall r :: r in Delivered(mode, target, once, fired, sent) ==> r in sent
    decreases |sent|
  {
    hide Targeted;
    if sent != [] {
      DeliveredWereSent(mode, target, once, fired, sent[1..]);
      DeliveredWereSent(mode, target, once, fired + 1, sent[1..]);
    }
  }

  lemma {:induction false} DeliveredAsSent(mode: Mode, target: Pattern, once: bool, fired: nat, sent: seq<Request>)
    requires Forwards(mode) || (once && fired > 0)
    ensures Delivered(mode, target, once, fired, sent) == sent
    decreases |sent|
  {
    hide Targeted;
    if sent != [] {
      DeliveredAsSent(mode, target, once, fired, sent[1..]);
      DeliveredAsSent(mode, target, once, fired + 1, sent[1..]);
      assert sent == [sent[0]] + sent[1..];
    }
  }

  /** Request `i` is the first one the fault applies to. */
  predicate FirstTarget(mode: Mode, target: Pattern, sent: seq<Request>, i: int) {
    0 <= i < |sent| && Targeted(mode, target, sent[i]) && forall j :: 0 <= j < i ==> !Targeted(mode, target, sent[j])
  }

  lemma {:induction false} FirstIsDropped(mode: Mode, target: Pattern, sent: seq<Request>, i: nat)
    requires !Forwards(mode) && FirstTarget(mode, target, sent, i)
    ensures Delivered(mode, target, true, 0, sent) == sent[..i] + sent[i + 1..]
    decreases i
  {
    hide Targeted;
    var rest := sent[1..];
    if i == 0 {
      DeliveredAsSent(mode, target, true, 1, rest);
    } else {
      assert forall j :: 0 <= j < |rest| ==> rest[j] == sent[j + 1];
      FirstIsDropped(mode, target, rest, i - 1);
      assert [sent[0]] + (rest[..i - 1] + rest[i..]) == sent[..i] + sent[i + 1..];
    }
  }

  lemma {:induction false} NothingIsDropped(mode: Mode, target: Pattern, once: bool, sent: seq<Request>)
    requires forall j :: 0 <= j < |sent| ==> !Targeted(mode, target, sent[j])
    ensures Delivered(mode, target, once, 0, sent) == sent
    decreases |sent|
  {
    hide Targeted;
    if sent != [] {
      var rest := sent[1..];
      assert forall j :: 0 <= j < |rest| ==> rest[j] == sent[j + 1];
      NothingIsDropped(mode, target, once, rest);
      assert sent == [sent[0]] + rest;
    }
  }

  /** A fault never adds to what the server sees. A mode that forwards leaves the
      server's view as sent; a one-shot fault of the others drops the first targeted
      request, if there is one, and nothing else. */
  lemma FaultsOnlyDrop(mode: Mode, target: Pattern, once: bool, fired: nat, sent: seq<Request>)
    ensures var d := Delivered(mode, target, once, fired, sent);
      && (forall r :: r in d ==> r in sent)
      && (Forwards(mode) || (once && fired > 0) ==> d == sent)
      && (once && fired == 0 && !Forwards(mode) ==>
            && (forall i :: FirstTarget(mode, target, sent, i) ==> d == sent[..i] + sent[i + 1..])
            && ((forall i :: 0 <= i < |sent| ==> !Targeted(mode, target, sent[i])) ==> d == sent))
  {
    hide Targeted, Delivered, Forwards;
    DeliveredWereSent(mode, target, once, fired, sent);
    if Forwards(mode) || (once && fired > 0) {
      DeliveredAsSent(mode, target, once, fired, sent);
    } else if once && fired == 0 {
      forall i | FirstTarget(mode, target, sent, i)
        ensures Delivered(mode, target, once, fired, sent) == sent[..i] + sent[i + 1..]
      {
        FirstIsDropped(mode, target, sent, i);
      }
      if forall i :: 0 <= i < |sent| ==> !Targeted(mode, target, sent[i]) {
        NothingIsDropped(mode, target, once, sent);
      }
    }
  }
}
