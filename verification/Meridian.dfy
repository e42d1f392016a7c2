/** The system of record: member shares, and the one handler that changes them. */
module Meridian {
  import opened Wrappers

  datatype Share = Share(shareId: string, status: string)

  /** One applied hold, as the server journals it. */
  datatype Hold = Hold(cn: nat, member: string, shareId: string, reason: Option<string>, operator: string)

  /** An HTTP request with the parts of its session and form the hold flow uses. */
  datatype Request = Request(
    method_: string,
    path: string,
    operator: Option<string>,
    token: Option<string>,        // the session's
    formToken: Option<string>,
    share: Option<string>,
    reason: Option<string>)

  datatype Answer = SignOn | BackToRecord | StaleToken | UnknownShare | AlreadyOnHold | Applied(cn: nat) | OtherPage

  datatype Store = Store(members: map<string, seq<Share>>, cn: nat, holds: seq<Hold>)

  const HOLD := "HOLD"

  function IndexOfShare(shares: seq<Share>, id: string): (r: Option<nat>)
    ensures r.Some? ==>
      r.value < |shares| && shares[r.value].shareId == id
      && (forall i :: 0 <= i < r.value ==> shares[i].shareId != id)
    ensures r.None? ==> forall i :: 0 <= i < |shares| ==> shares[i].shareId != id
  {
    if shares == [] then None
    else if shares[0].shareId == id then Some(0)
    else match IndexOfShare(shares[1..], id) case Some(i) => Some(i + 1) case None => None
  }

  function StatusOf(store: Store, member: string, id: string): Option<string> {
    if member !in store.members then None
    else match IndexOfShare(store.members[member], id)
         case Some(i) => Some(store.members[member][i].status)
         case None => None
  }

  /** The hold handler: `/members/<number>/hold/post`. */
  function Post(store: Store, supervisors: set<string>, number: string, r: Request): (Store, Answer) {
    if r.operator.None? then (store, SignOn)
    else if number !in store.members || r.operator.value !in supervisors then (store, BackToRecord)
    else if r.formToken != r.token then (store, StaleToken)
    else
      var shares := store.members[number];
      var found := if r.share.None? then None else IndexOfShare(shares, r.share.value);
      if found.None? then (store, UnknownShare)
      else if shares[found.value].status == HOLD then (store, AlreadyOnHold)
      else
        (Store(store.members[number := shares[found.value := shares[found.value].(status := HOLD)]], store.cn + 1,
               store.holds + [Hold(store.cn, number, r.share.value, r.reason, r.operator.value)]), Applied(store.cn))
  }

  const MEMBERS := "/members/"
  const HOLD_POST := "/hold/post"

  /** The member number in the path of a hold post. */
  function HoldTarget(path: string): Option<string> {
    if |path| <= |MEMBERS| + |HOLD_POST| || path[..|MEMBERS|] != MEMBERS
        || path[|path| - |HOLD_POST|..] != HOLD_POST then None
    else
      var number := path[|MEMBERS|..|path| - |HOLD_POST|];
      if '/' in number then None else Some(number)
  }

  predicate IsHoldPost(r: Request) {
    r.method_ == "POST" && HoldTarget(r.path).Some?
  }

  /** Every other page reads, or changes only the session. */
  function Handle(store: Store, supervisors: set<string>, r: Request): (Store, Answer) {
    if IsHoldPost(r) then Post(store, supervisors, HoldTarget(r.path).value, r) else (store, OtherPage)
  }

  function Serve(store: Store, supervisors: set<string>, requests: seq<Request>): Store
    decreases |requests|
  {
    if requests == [] then store else Serve(Handle(store, supervisors, requests[0]).0, supervisors, requests[1..])
  }

  class Server {
    const supervisors: set<string>
    var members: map<string, seq<Share>>
    var cn: nat
    var holds: seq<Hold>

    function View(): Store
      reads this
    {
      Store(members, cn, holds)
    }

    constructor (members: map<string, seq<Share>>, supervisors: set<string>)
      ensures View() == Store(members, 480001, []) && this.supervisors == supervisors
    {
      this.members, this.supervisors, cn, holds := members, supervisors, 480001, [];
    }

    /** The consequential action: state changes here and only here. */
    method HoldPost(number: string, r: Request) returns (answer: Answer)
      modifies this
      ensures (View(), answer) == Post(old(View()), supervisors, number, r)
      ensures Answered(old(View()), supervisors, number, r, answer)
      ensures if answer.Applied? then Held(old(View()), number, r, View()) else View() == old(View())
    {
      PostIsExact(View(), supervisors, number, r);
      if r.operator.None? {
        return SignOn;
      }
      if number !in members || r.operator.value !in supervisors {
        return BackToRecord;
      }
      if r.formToken != r.token {
        return StaleToken;
      }
      var shares := members[number];
      var found := if r.share.None? then None else IndexOfShare(shares, r.share.value);
      if found.None? {
        return UnknownShare;
      }
      if shares[found.value].status == HOLD {
        return AlreadyOnHold;
      }
      members := members[number := shares[found.value := shares[found.value].(status := HOLD)]];
      answer := Applied(cn);
      holds := holds + [Hold(cn, number, r.share.value, r.reason, r.operator.value)];
      cn := cn + 1;
    }
  }

  // ------------------------------------------------ who may change what, and how

  /** Row `i` is the first of the share. */
  predicate FirstRow(shares: seq<Share>, id: string, i: int) {
    0 <= i < |shares| && shares[i].shareId == id && forall j :: 0 <= j < i ==> shares[j].shareId != id
  }

  /** A signed-on supervisor, on the record of a known member. */
  predicate Entitled(store: Store, supervisors: set<string>, number: string, r: Request) {
    r.operator.Some? && r.operator.value in supervisors && number in store.members
  }

  /** Every condition under which a hold is placed: an entitled operator, the session's
      own form, and a share of the member that is not on hold. */
  predicate MayHold(store: Store, supervisors: set<string>, number: string, r: Request) {
    && Entitled(store, supervisors, number, r)
    && r.formToken == r.token && r.share.Some?
    && exists i :: 0 <= i < |store.members[number]| && FirstRow(store.members[number], r.share.value, i)
                   && store.members[number][i].status != "HOLD"
  }

  /** The answer, guard by guard. */
  predicate Answered(store: Store, supervisors: set<string>, number: string, r: Request, answer: Answer) {
    && answer != OtherPage
    && (answer == SignOn <==> r.operator.None?)
    && (answer == BackToRecord <==> r.operator.Some? && !Entitled(store, supervisors, number, r))
    && (answer == StaleToken <==> Entitled(store, supervisors, number, r) && r.formToken != r.token)
    && (answer == UnknownShare <==>
          && Entitled(store, supervisors, number, r) && r.formToken == r.token
          && forall s :: s in store.members[number] ==> r.share != Some(s.shareId))
    && (answer.Applied? <==> MayHold(store, supervisors, number, r))
    && (answer.Applied? ==> answer.cn == store.cn)
  }

  /** One hold is placed and journaled; nothing else changes. */
  ghost predicate Held(store: Store, number: string, r: Request, after: Store) {
    && r.operator.Some? && r.share.Some?
    && after.cn == store.cn + 1
    && after.holds == store.holds + [Hold(store.cn, number, r.share.value, r.reason, r.operator.value)]
    && after.members.Keys == store.members.Keys && number in store.members
    && (forall m :: m in store.members && m != number ==> after.members[m] == store.members[m])
    && |after.members[number]| == |store.members[number]|
    && forall i :: 0 <= i < |store.members[number]| ==>
         after.members[number][i] ==
           if FirstRow(store.members[number], r.share.value, i) then Share(r.share.value, "HOLD")
           else store.members[number][i]
  }

  /** For every request: what the handler answers, and what it then changes. */
  lemma PostIsExact(store: Store, supervisors: set<string>, number: string, r: Request)
    ensures var (after, answer) := Post(store, supervisors, number, r);
      && Answered(store, supervisors, number, r, answer)
      && if answer.Applied? then Held(store, number, r, after) else after == store
  {
    if Entitled(store, supervisors, number, r) && r.formToken == r.token && r.share.Some? {
      var shares, found := store.members[number], IndexOfShare(store.members[number], r.share.value);
      if found.Some? {
        assert FirstRow(shares, r.share.value, found.value) && shares[found.value] in shares;
        assert forall i :: FirstRow(shares, r.share.value, i) ==> i == found.value;
      }
    }
  }

  /** A hold post is a POST to the hold page of one member, and nothing else is. */
  lemma TargetIs(path: string, number: string)
    ensures HoldTarget(path) == Some(number) <==>
      path == "/members/" + number + "/hold/post" && number != "" && '/' !in number
  {
    var whole := "/members/" + number + "/hold/post";
    if HoldTarget(path) == Some(number) {
      assert path == path[..9] + path[9..|path| - 10] + path[|path| - 10..];
    }
    if path == whole {
      assert path[..9] == "/members/" && path[|path| - 10..] == "/hold/post" && path[9..|path| - 10] == number;
    }
  }

  /** A POST to the hold page of `number` that the handler may act on. */
  predicate Permitted(store: Store, supervisors: set<string>, r: Request, number: string) {
    && r.method_ == "POST" && r.path == "/members/" + number + "/hold/post" && number != "" && '/' !in number
    && MayHold(store, supervisors, number, r)
  }

  lemma {:induction false} ServeAppend(store: Store, supervisors: set<string>, requests: seq<Request>, r: Request)
    ensures Serve(store, supervisors, requests + [r])
      == Handle(Serve(store, supervisors, requests), supervisors, r).0
    decreases |requests|
  {
    if requests == [] {
      assert requests + [r] == [r];
    } else {
      assert (requests + [r])[0] == requests[0] && (requests + [r])[1..] == requests[1..] + [r];
      ServeAppend(Handle(store, supervisors, requests[0]).0, supervisors, requests[1..], r);
    }
  }

  lemma HandleIsExact(store: Store, supervisors: set<string>, r: Request)
    ensures var after := Handle(store, supervisors, r).0;
      && (forall number :: Permitted(store, supervisors, r, number) ==> Held(store, number, r, after))
      && ((forall number :: !Permitted(store, supervisors, r, number)) ==> after == store)
  {
    hide HoldTarget, Post, MayHold, Held, Answered;
    forall number ensures HoldTarget(r.path) == Some(number) <==>
        r.path == "/members/" + number + "/hold/post" && number != "" && '/' !in number
    {
      TargetIs(r.path, number);
    }
    if IsHoldPost(r) {
      var number := HoldTarget(r.path).value;
      AppliedIs(store, supervisors, number, r);
      assert HoldTarget(r.path) == Some(number);
      assert Permitted(store, supervisors, r, number) <==> MayHold(store, supervisors, number, r);
    }
  }

  lemma AppliedIs(store: Store, supervisors: set<string>, number: string, r: Request)
    ensures var (after, answer) := Post(store, supervisors, number, r);
      if MayHold(store, supervisors, number, r) then Held(store, number, r, after) else after == store
  {
    hide Post, MayHold, Held;
    PostIsExact(store, supervisors, number, r);
  }

  /** Over any sequence of requests: each one places exactly the hold it asks for if it
      is permitted where it arrives, and otherwise changes nothing. */
  lemma OnlyPermittedHolds(store: Store, supervisors: set<string>, requests: seq<Request>, k: nat)
    requires k < |requests|
    ensures var before, after := Serve(store, supervisors, requests[..k]), Serve(store, supervisors, requests[..k + 1]);
      && (forall number :: Permitted(before, supervisors, requests[k], number) ==>
        Held(before, number, requests[k], after))
      && ((forall number :: !Permitted(before, supervisors, requests[k], number)) ==> after == before)
  {
    var before, r := Serve(store, supervisors, requests[..k]), requests[k];
    assert requests[..k + 1] == requests[..k] + [r];
    ServeAppend(store, supervisors, requests[..k], r);
    HandleIsExact(before, supervisors, r);
  }

  /** The request behind a journal entry: a supervisor's own form for that share. */
  predicate AskedFor(r: Request, supervisors: set<string>, h: Hold) {
    && r.method_ == "POST" && r.path == "/members/" + h.member + "/hold/post" && h.member != "" && '/' !in h.member
    && r.operator == Some(h.operator) && h.operator in supervisors
    && r.formToken == r.token && r.share == Some(h.shareId) && r.reason == h.reason
  }

  /** Over any sequence of requests, from whatever actors: every hold journaled since
      was asked for by one of them, under all the handler's guards. */
  lemma {:induction false} HoldsAreAskedFor(start: Store, supervisors: set<string>, requests: seq<Request>, k: nat,
                                            i: nat)
    requires k <= |requests| && |start.holds| <= i < |Serve(start, supervisors, requests[..k]).holds|
    ensures var journal := Serve(start, supervisors, requests[..k]).holds;
      exists j :: 0 <= j < k && AskedFor(requests[j], supervisors, journal[i])
  {
    hide Serve, Handle;
    if k == 0 {
      ServeNothing(start, supervisors, requests[..0]);
      assert false;
    } else {
      OnlyPermittedHolds(start, supervisors, requests, k - 1);
      var r := requests[k - 1];
      var before, after := Serve(start, supervisors, requests[..k - 1]), Serve(start, supervisors, requests[..k]);
      if number :| Permitted(before, supervisors, r, number) {
        assert Held(before, number, r, after);
        if i == |before.holds| {
          assert AskedFor(r, supervisors, after.holds[i]);
        } else {
          HoldsAreAskedFor(start, supervisors, requests, k - 1, i);
          assert after.holds[i] == before.holds[i];
        }
      } else {
        HoldsAreAskedFor(start, supervisors, requests, k - 1, i);
      }
    }
  }

  lemma ServeNothing(start: Store, supervisors: set<string>, requests: seq<Request>)
    requires requests == []
    ensures Serve(start, supervisors, requests) == start
  {
  }

  /** What a share reads is its first row. */
  lemma StatusIs(store: Store, member: string, id: string)
    ensures StatusOf(store, member, id).None? <==>
      member !in store.members || forall s :: s in store.members[member] ==> s.shareId != id
    ensures StatusOf(store, member, id).Some? ==>
      exists i :: FirstRow(store.members[member], id, i)
          && StatusOf(store, member, id) == Some(store.members[member][i].status)
  {
    if member in store.members && IndexOfShare(store.members[member], id).Some? {
      var i := IndexOfShare(store.members[member], id).value;
      assert FirstRow(store.members[member], id, i) && store.members[member][i] in store.members[member];
    }
  }

  // ------------------------------------------------------------ the journal

  predicate Journaled(holds: seq<Hold>, member: string, id: string) {
    exists i :: 0 <= i < |holds| && holds[i].member == member && holds[i].shareId == id
  }

  function Since(start: Store, now: Store): seq<Hold>
    requires start.holds <= now.holds
  {
    now.holds[|start.holds|..]
  }

  ghost predicate Unchanged(start: Store, now: Store, added: seq<Hold>, member: string, id: string) {
    StatusOf(now, member, id) == if Journaled(added, member, id) then Some(HOLD) else StatusOf(start, member, id)
  }

  /** The journal is the whole difference between two moments of the store: a
      share reads HOLD because it did at the start or because one journaled hold
      put it there; no share is held twice; confirmation numbers are consecutive. */
  ghost predicate Ledger(start: Store, now: Store) {
    && start.holds <= now.holds
    && var added := Since(start, now);
    && now.cn == start.cn + |added|
    && now.members.Keys == start.members.Keys
    && (forall i :: 0 <= i < |added| ==>
          added[i].cn == start.cn + i && StatusOf(start, added[i].member, added[i].shareId) !in {None, Some(HOLD)})
    && (forall i, j :: 0 <= i < j < |added| ==>
      (added[i].member, added[i].shareId) != (added[j].member, added[j].shareId))
    && (forall member, id :: Unchanged(start, now, added, member, id))
  }

  lemma PostChangesOne(store: Store, supervisors: set<string>, number: string, r: Request, member: string, id: string)
    requires Post(store, supervisors, number, r).1.Applied?
    ensures var after := Post(store, supervisors, number, r).0;
      && r.share.Some? && StatusOf(store, number, r.share.value) !in {None, Some(HOLD)}
      && StatusOf(after, member, id) == if (member, id) == (number, r.share.value) then Some(HOLD)
        else StatusOf(store, member, id)
  {
    var shares := store.members[number];
    var i := IndexOfShare(shares, r.share.value).value;
    var after := shares[i := shares[i].(status := HOLD)];
    assert forall k :: 0 <= k < |shares| ==> after[k].shareId == shares[k].shareId;
    if member == number {
      assert IndexOfShare(after, id) == IndexOfShare(shares, id);
    }
  }

  lemma HandleKeepsLedger(start: Store, now: Store, supervisors: set<string>, r: Request)
    requires Ledger(start, now)
    ensures Ledger(start, Handle(now, supervisors, r).0)
  {
    var (after, answer) := Handle(now, supervisors, r);
    if answer.Applied? {
      var number := HoldTarget(r.path).value;
      var added := Since(start, now);
      var entry := Hold(now.cn, number, r.share.value, r.reason, r.operator.value);
      PostChangesOne(now, supervisors, number, r, number, r.share.value);
      assert Since(start, after) == added + [entry];
      assert Unchanged(start, now, added, number, r.share.value);
      forall member, id ensures Unchanged(start, after, added + [entry], member, id) {
        assert Unchanged(start, now, added, member, id);
        PostChangesOne(now, supervisors, number, r, member, id);
        AppendJournal(added, entry, member, id);
      }
      assert !Journaled(added, number, r.share.value);
    }
  }

  lemma AppendJournal(holds: seq<Hold>, entry: Hold, member: string, id: string)
    ensures Journaled(holds + [entry], member, id)
      <==> Journaled(holds, member, id) || (entry.member == member && entry.shareId == id)
  {
    var l := holds + [entry];
    if Journaled(holds, member, id) {
      var i :| 0 <= i < |holds| && holds[i].member == member && holds[i].shareId == id;
      assert l[i] == holds[i];
    }
    assert l[|holds|] == entry;
  }

  /** Whatever requests arrive, from whatever actors, the journal accounts for
      every difference in durable state. */
  lemma {:induction false} JournalIsGroundTruth(start: Store, now: Store, supervisors: set<string>,
                                                requests: seq<Request>)
    requires Ledger(start, now)
    ensures Ledger(start, Serve(now, supervisors, requests))
    decreases |requests|
  {
    hide Ledger;
    if requests != [] {
      HandleKeepsLedger(start, now, supervisors, requests[0]);
      JournalIsGroundTruth(start, Handle(now, supervisors, requests[0]).0, supervisors, requests[1..]);
    }
  }

  lemma LedgerStarts(store: Store)
    ensures Ledger(store, store)
  {
    assert Since(store, store) == [];
    forall member, id ensures Unchanged(store, store, [], member, id) {
    }
  }
}
