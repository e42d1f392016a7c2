/** The reconciler: a judgment over two observations of durable state and the
    executor's claim. */
module Reconciler {
  import opened Wrappers
  import opened Characters

  datatype Verdict = VerifiedCommitted | VerifiedNotCommitted | EffectMismatch | Unverifiable

  datatype ExpectedEffect = ExpectedEffect(member: string, shareId: string, fromStatus: string, toStatus: string)

  datatype ShareStatus = ShareStatus(shareId: string, status: string)

  /** One reading of a member's share table. `observedAt` is its time in
      milliseconds, when the recorded text is a time at all. */
  datatype Observation = Observation(member: string, shares: seq<ShareStatus>, observedAt: Option<int>) {
    function StatusOf(id: string): Option<string> {
      FirstStatus(shares, id)
    }
  }

  /** The first row of a share wins. */
  function FirstStatus(shares: seq<ShareStatus>, id: string): Option<string> {
    if shares == [] then None
    else if shares[0].shareId == id then Some(shares[0].status)
    else FirstStatus(shares[1..], id)
  }

  datatype Kind =
    | SuccessKind | BusinessOutcomeKind | UnresolvedKind | FailureKind | PreconditionFailedKind | PolicyViolationKind

  /** What the executor claims: it did, it did not, or it refuses to say. */
  datatype ExecutorClaim = ExecutorClaim(kind: Kind, dispatched: Option<bool>, detail: Option<string>) {
    function Committed(): Option<bool> {
      if kind == SuccessKind then Some(true) else if kind == UnresolvedKind then None else Some(false)
    }
  }

  datatype Reason =
    | NoImages | NoPreImage | NoPostImage | PreIdentityMismatch | PostIdentityMismatch
    | TargetAbsentBefore | TargetAbsentAfter | NotStartingState | ClaimedNotCommitted
    | ObservedChange | ClaimedSuccess | ObservedUnchanged | NoRule

  datatype Change = Change(shareId: string, before: Option<string>, after: Option<string>)

  datatype Reconciliation = Reconciliation(
    verdict: Verdict,
    reason: Reason,
    retryEligible: bool,
    executorClaim: Option<bool>,
    executorKind: Kind,
    targetPre: Option<string>,
    targetPost: Option<string>,
    collateral: seq<Change>,
    windowMs: Option<int>)

  // ------------------------------------------------------------- text order

  /** Lexicographic order on code points. */
  predicate Before(a: string, b: string) {
    if b == [] then false
    else if a == [] then true
    else a[0] < b[0] || (a[0] == b[0] && Before(a[1..], b[1..]))
  }

  lemma {:induction false} BeforeIsTotal(a: string, b: string)
    ensures Before(a, b) || Before(b, a) || a == b
    ensures !(Before(a, b) && Before(b, a))
  {
    if a != [] && b != [] && a[0] == b[0] {
      BeforeIsTotal(a[1..], b[1..]);
      assert a == [a[0]] + a[1..] && b == [b[0]] + b[1..];
    }
  }

  lemma {:induction false} BeforeIsTransitive(a: string, b: string, c: string)
    requires Before(a, b) && Before(b, c)
    ensures Before(a, c)
  {
    if a != [] && a[0] == b[0] == c[0] {
      BeforeIsTransitive(a[1..], b[1..], c[1..]);
    }
  }

  /** Where the texts part, the smaller one has ended or has the smaller character. */
  predicate PartsAt(a: string, b: string, k: int) {
    0 <= k <= |a| && k < |b| && a[..k] == b[..k] && (k == |a| || a[k] < b[k])
  }

  lemma {:induction false} BeforeIs(a: string, b: string)
    ensures Before(a, b) <==> exists k :: PartsAt(a, b, k)
  {
    if a == [] || b == [] || a[0] != b[0] {
      assert PartsAt(a, b, 0) <==> Before(a, b);
    } else {
      BeforeIs(a[1..], b[1..]);
      if k :| PartsAt(a[1..], b[1..], k) {
        assert a[..k + 1] == [a[0]] + a[1..][..k] && b[..k + 1] == [b[0]] + b[1..][..k];
        assert PartsAt(a, b, k + 1);
      }
      if k :| PartsAt(a, b, k) {
        assert a[1..][..k - 1] == a[..k][1..] && b[1..][..k - 1] == b[..k][1..];
        assert PartsAt(a[1..], b[1..], k - 1);
      }
    }
  }

  predicate Least(keys: set<string>, k: string) {
    k in keys && forall j :: j in keys ==> j == k || Before(k, j)
  }

  lemma {:induction false} HasLeast(keys: set<string>) returns (k: string)
    requires keys != {}
    ensures Least(keys, k)
    decreases |keys|
  {
    k :| k in keys;
    if keys - {k} != {} {
      var m := HasLeast(keys - {k});
      BeforeIsTotal(k, m);
      if Before(m, k) {
        k := m;
      } else {
        forall j | j in keys && j != k ensures Before(k, j) {
          if j != m { BeforeIsTransitive(k, m, j); }
        }
      }
    }
  }

  lemma LeastIsUnique(keys: set<string>, a: string, b: string)
    requires Least(keys, a) && Least(keys, b)
    ensures a == b
  {
    BeforeIsTotal(a, b);
  }

  lemma LeastExists(keys: set<string>)
    requires keys != {}
    ensures exists k :: k in keys && Least(keys, k)
    ensures forall a, b :: Least(keys, a) && Least(keys, b) ==> a == b
  {
    var k := HasLeast(keys);
    forall a, b | Least(keys, a) && Least(keys, b) ensures a == b {
      LeastIsUnique(keys, a, b);
    }
  }

  function Sorted(keys: set<string>): (s: seq<string>)
    ensures forall k :: k in s <==> k in keys
    ensures forall i, j :: 0 <= i < j < |s| ==> Before(s[i], s[j])
  {
    if keys == {} then [] else
      LeastExists(keys);
      var k :| k in keys && Least(keys, k);
      [k] + Sorted(keys - {k})
  }

  // ------------------------------------------------------------- collateral

  /** Later rows of a share overwrite earlier ones. */
  function Table(shares: seq<ShareStatus>, target: string): map<string, string> {
    if shares == [] then map[]
    else
      var rest := Table(shares[..|shares| - 1], target);
      var last := shares[|shares| - 1];
      if last.shareId == target then rest else rest[last.shareId := last.status]
  }

  function Entry(table: map<string, string>, id: string): Option<string> {
    if id in table then Some(table[id]) else None
  }

  /** The last row of a share. */
  function LastStatus(shares: seq<ShareStatus>, id: string): Option<string> {
    if shares == [] then None
    else if shares[|shares| - 1].shareId == id then Some(shares[|shares| - 1].status)
    else LastStatus(shares[..|shares| - 1], id)
  }

  lemma {:induction false} TableIsLastStatus(shares: seq<ShareStatus>, target: string, id: string)
    ensures Entry(Table(shares, target), id) == if id == target then None else LastStatus(shares, id)
  {
    if shares != [] {
      TableIsLastStatus(shares[..|shares| - 1], target, id);
    }
  }

  /** Whether a change is on the list exactly when a share other than the target
      reads differently, in the order of share ids. */
  ghost predicate ExactChanges(changes: seq<Change>, before: seq<ShareStatus>, after: seq<ShareStatus>, target: string)
  {
    && (forall i, j :: 0 <= i < j < |changes| ==> Before(changes[i].shareId, changes[j].shareId))
    && (forall c :: c in changes <==>
          c.shareId != target && c.before == LastStatus(before, c.shareId) && c.after == LastStatus(after, c.shareId)
              && c.before != c.after)
  }

  function Differences(keys: seq<string>, before: map<string, string>, after: map<string, string>): seq<Change> {
    if keys == [] then []
    else
      var k := keys[|keys| - 1];
      Differences(keys[..|keys| - 1], before, after)
      + if Entry(before, k) != Entry(after, k) then [Change(k, Entry(before, k), Entry(after, k))] else []
  }

  function Collateral(pre: Observation, post: Observation, target: string): seq<Change> {
    var before, after := Table(pre.shares, target), Table(post.shares, target);
    Differences(Sorted(before.Keys + after.Keys), before, after)
  }

  method ReadTable(shares: seq<ShareStatus>, target: string) returns (table: map<string, string>)
    ensures table == Table(shares, target)
  {
    table := map[];
    for i := 0 to |shares|
      invariant table == Table(shares[..i], target)
    {
      assert shares[..i + 1][..i] == shares[..i];
      if shares[i].shareId != target {
        table := table[shares[i].shareId := shares[i].status];
      }
    }
    assert shares[..|shares|] == shares;
  }

  /** The changes of shares other than the target. */
  method CollectChanges(pre: Observation, post: Observation, target: string) returns (changes: seq<Change>)
    ensures changes == Collateral(pre, post, target)
    ensures ExactChanges(changes, pre.shares, post.shares, target)
  {
    hide Before, ExactChanges;
    var before := ReadTable(pre.shares, target);
    var after := ReadTable(post.shares, target);
    var keys := Sorted(before.Keys + after.Keys);
    changes := [];
    for i := 0 to |keys|
      invariant changes == Differences(keys[..i], before, after)
    {
      assert keys[..i + 1][..i] == keys[..i];
      var b, a := Entry(before, keys[i]), Entry(after, keys[i]);
      if b != a {
        changes := changes + [Change(keys[i], b, a)];
      }
    }
    assert keys[..|keys|] == keys;
    CollateralIsExact(pre, post, target);
  }

  lemma {:induction false} DifferencesAre(keys: seq<string>, before: map<string, string>, after: map<string, string>)
    requires forall i, j :: 0 <= i < j < |keys| ==> Before(keys[i], keys[j])
    ensures forall i, j :: 0 <= i < j < |Differences(keys, before, after)|
              ==> Before(Differences(keys, before, after)[i].shareId, Differences(keys, before, after)[j].shareId)
    ensures forall c :: c in Differences(keys, before, after) <==>
              c.shareId in keys && c.before == Entry(before, c.shareId) && c.after == Entry(after, c.shareId)
                  && c.before != c.after
  {
    if keys != [] {
      var n := |keys| - 1;
      DifferencesAre(keys[..n], before, after);
      assert keys == keys[..n] + [keys[n]];
      var d := Differences(keys[..n], before, after);
      forall i | 0 <= i < |d| ensures Before(d[i].shareId, keys[n]) {
        assert d[i] in d && d[i].shareId in keys[..n];
      }
    }
  }

  /** The collateral list names exactly the shares other than the target whose
      status differs between the images, each once, in order. */
  lemma CollateralIsExact(pre: Observation, post: Observation, target: string)
    ensures ExactChanges(Collateral(pre, post, target), pre.shares, post.shares, target)
  {
    var before, after := Table(pre.shares, target), Table(post.shares, target);
    var keys := Sorted(before.Keys + after.Keys);
    DifferencesAre(keys, before, after);
    forall c: Change
      ensures c in Differences(keys, before, after) <==>
        c.shareId != target && c.before == LastStatus(pre.shares, c.shareId)
        && c.after == LastStatus(post.shares, c.shareId) && c.before != c.after
    {
      TableIsLastStatus(pre.shares, target, c.shareId);
      TableIsLastStatus(post.shares, target, c.shareId);
    }
  }

  // -------------------------------------------------------------- judgment

  predicate IdentityOk(expected: ExpectedEffect, image: Observation) {
    Strip(image.member) == Strip(expected.member)
  }

  function WindowMs(pre: Option<Observation>, post: Option<Observation>): Option<int> {
    if pre.None? || post.None? || pre.value.observedAt.None? || post.value.observedAt.None? then None
    else Some(post.value.observedAt.value - pre.value.observedAt.value)
  }

  function Reconcile(expected: ExpectedEffect, pre: Option<Observation>, post: Option<Observation>,
                     executor: ExecutorClaim): Reconciliation
  {
    var claim := executor.Committed();
    var window := WindowMs(pre, post);
    var u := (reason: Reason, before: Option<string>, after: Option<string>, collateral: seq<Change>) =>
      Reconciliation(Unverifiable, reason, false, claim, executor.kind, before, after, collateral, window);
    if pre.None? && post.None? then u(NoImages, None, None, [])
    else if pre.None? then u(NoPreImage, None, None, [])
    else if post.None? then u(NoPostImage, pre.value.StatusOf(expected.shareId), None, [])
    else if !IdentityOk(expected, pre.value) then u(PreIdentityMismatch, None, None, [])
    else if !IdentityOk(expected, post.value) then u(PostIdentityMismatch, None, None, [])
    else
      var before, after := pre.value.StatusOf(expected.shareId), post.value.StatusOf(expected.shareId);
      var collateral := Collateral(pre.value, post.value, expected.shareId);
      if before.None? then u(TargetAbsentBefore, None, after, collateral)
      else if after.None? then u(TargetAbsentAfter, before, None, collateral)
      else if before.value != expected.fromStatus then u(NotStartingState, before, after, collateral)
      else if after.value == expected.toStatus then
        if claim == Some(false) then
          Reconciliation(EffectMismatch, ClaimedNotCommitted, false, claim, executor.kind, before, after, collateral,
              window)
        else
          Reconciliation(VerifiedCommitted, ObservedChange, false, claim, executor.kind, before, after, collateral,
              window)
      else if after.value == expected.fromStatus then
        if claim == Some(true) then
          Reconciliation(EffectMismatch, ClaimedSuccess, false, claim, executor.kind, before, after, collateral, window)
        else
          Reconciliation(VerifiedNotCommitted, ObservedUnchanged, executor.kind != BusinessOutcomeKind, claim,
              executor.kind,
                         before, after, collateral, window)
      else u(NoRule, before, after, collateral)
  }

  // --------------------------------------------- the judgment, row by row

  /** What the first row of the share says, if there is one. */
  ghost predicate ReadsFirst(shares: seq<ShareStatus>, id: string, status: Option<string>) {
    match status
    case None => forall i :: 0 <= i < |shares| ==> shares[i].shareId != id
    case Some(v) =>
      exists i :: 0 <= i < |shares| && shares[i] == ShareStatus(id, v) && forall j :: 0 <= j < i ==>
          shares[j].shareId != id
  }

  /** What the last row of the share says, if there is one. */
  ghost predicate ReadsLast(shares: seq<ShareStatus>, id: string, status: Option<string>) {
    match status
    case None => forall i :: 0 <= i < |shares| ==> shares[i].shareId != id
    case Some(v) =>
      exists i :: 0 <= i < |shares| && shares[i] == ShareStatus(id, v)
                  && forall j :: i < j < |shares| ==> shares[j].shareId != id
  }

  /** The list names every share but the target whose last rows differ between the
      images, with what they say, and no other; each once, in the order of their ids. */
  ghost predicate AllDamage(changes: seq<Change>, before: seq<ShareStatus>, after: seq<ShareStatus>, target: string) {
    && (forall i, j :: 0 <= i < j < |changes| ==> Before(changes[i].shareId, changes[j].shareId))
    && (forall c :: c in changes <==>
          && c.shareId != target && c.before != c.after
          && ReadsLast(before, c.shareId, c.before) && ReadsLast(after, c.shareId, c.after))
  }

  /** Both images are there, and are of the expected member. */
  predicate Comparable(expected: ExpectedEffect, pre: Option<Observation>, post: Option<Observation>) {
    && pre.Some? && post.Some?
    && Strip(pre.value.member) == Strip(expected.member) && Strip(post.value.member) == Strip(expected.member)
  }

  /** What the images say of the target, of everything else, and of the time between. */
  ghost predicate Reports(expected: ExpectedEffect, pre: Option<Observation>, post: Option<Observation>,
                          r: Reconciliation)
  {
    && (if Comparable(expected, pre, post) then
          && ReadsFirst(pre.value.shares, expected.shareId, r.targetPre)
          && ReadsFirst(post.value.shares, expected.shareId, r.targetPost)
          && AllDamage(r.collateral, pre.value.shares, post.value.shares, expected.shareId)
        else
          && r.collateral == [] && r.targetPost == None
          && if pre.Some? && post.None? then ReadsFirst(pre.value.shares, expected.shareId, r.targetPre)
            else r.targetPre == None)
    && (match r.windowMs
        case Some(ms) => pre.Some? && post.Some? && pre.value.observedAt.Some? && post.value.observedAt.Some?
          && post.value.observedAt.value == pre.value.observedAt.value + ms
        case None => pre.None? || post.None? || pre.value.observedAt.None? || post.value.observedAt.None?)
  }

  /** The verdict, from what is reported of the target and what the executor claims. */
  predicate Rules(expected: ExpectedEffect, comparable: bool, kind: Kind, r: Reconciliation) {
    var told := comparable && r.targetPre == Some(expected.fromStatus);
    var moved := told && r.targetPost == Some(expected.toStatus);
    var stayed := told && !moved && r.targetPost == Some(expected.fromStatus);
    && r.executorKind == kind
    && (r.executorClaim == if kind == SuccessKind then Some(true) else if kind == UnresolvedKind then None
      else Some(false))
    && (r.verdict == VerifiedCommitted <==> moved && (kind == SuccessKind || kind == UnresolvedKind))
    && (r.verdict == VerifiedNotCommitted <==> stayed && kind != SuccessKind)
    && (r.verdict == EffectMismatch <==>
          (moved && kind != SuccessKind && kind != UnresolvedKind) || (stayed && kind == SuccessKind))
    && (r.retryEligible <==> stayed && kind != SuccessKind && kind != BusinessOutcomeKind)
  }

  /** The reason given is the first one there is. */
  predicate Explains(expected: ExpectedEffect, pre: Option<Observation>, post: Option<Observation>, r: Reconciliation) {
    match r.reason
    case NoImages => pre.None? && post.None?
    case NoPreImage => pre.None? && post.Some?
    case NoPostImage => pre.Some? && post.None?
    case PreIdentityMismatch => pre.Some? && post.Some? && Strip(pre.value.member) != Strip(expected.member)
    case PostIdentityMismatch =>
      && pre.Some? && post.Some? && Strip(pre.value.member) == Strip(expected.member)
      && Strip(post.value.member) != Strip(expected.member)
    case TargetAbsentBefore => Comparable(expected, pre, post) && r.targetPre == None
    case TargetAbsentAfter => Comparable(expected, pre, post) && r.targetPre != None && r.targetPost == None
    case NotStartingState =>
      Comparable(expected, pre, post) && r.targetPre !in {None, Some(expected.fromStatus)} && r.targetPost != None
    case NoRule =>
      && Comparable(expected, pre, post) && r.targetPre == Some(expected.fromStatus)
      && r.targetPost !in {None, Some(expected.fromStatus), Some(expected.toStatus)}
    case ObservedChange => r.verdict == VerifiedCommitted
    case ObservedUnchanged => r.verdict == VerifiedNotCommitted
    case ClaimedSuccess => r.verdict == EffectMismatch && r.executorClaim == Some(true)
    case ClaimedNotCommitted => r.verdict == EffectMismatch && r.executorClaim == Some(false)
  }

  lemma {:induction false} FirstStatusIs(shares: seq<ShareStatus>, id: string)
    ensures ReadsFirst(shares, id, FirstStatus(shares, id))
  {
    if shares != [] && shares[0].shareId != id {
      FirstStatusIs(shares[1..], id);
      var rest := shares[1..];
      assert forall i :: 1 <= i < |shares| ==> shares[i] == rest[i - 1];
      if v :| FirstStatus(rest, id) == Some(v) {
        var i :| 0 <= i < |rest| && rest[i] == ShareStatus(id, v) && forall j :: 0 <= j < i ==> rest[j].shareId != id;
        assert shares[i + 1] == ShareStatus(id, v);
      }
    } else if shares != [] {
      assert shares[0] == ShareStatus(id, shares[0].status);
    }
  }

  predicate LastRow(shares: seq<ShareStatus>, id: string, i: int) {
    0 <= i < |shares| && shares[i].shareId == id && forall j :: i < j < |shares| ==> shares[j].shareId != id
  }

  lemma {:induction false} LastStatusIsRow(shares: seq<ShareStatus>, id: string)
    ensures match LastStatus(shares, id)
            case None => forall i :: 0 <= i < |shares| ==> shares[i].shareId != id
            case Some(v) => exists i :: LastRow(shares, id, i) && shares[i].status == v
  {
    if shares != [] {
      var last := |shares| - 1;
      var init := shares[..last];
      LastStatusIsRow(init, id);
      assert forall i :: 0 <= i < last ==> init[i] == shares[i];
      if shares[last].shareId == id {
        assert LastRow(shares, id, last);
      } else if v :| LastStatus(init, id) == Some(v) {
        var i :| LastRow(init, id, i) && init[i].status == v;
        assert LastRow(shares, id, i);
      }
    }
  }

  lemma LastStatusIs(shares: seq<ShareStatus>, id: string)
    ensures forall s :: ReadsLast(shares, id, s) <==> s == LastStatus(shares, id)
  {
    hide LastStatus;
    LastStatusIsRow(shares, id);
    if v :| LastStatus(shares, id) == Some(v) {
      var i :| LastRow(shares, id, i) && shares[i].status == v;
      assert shares[i] == ShareStatus(id, v);
      assert forall k :: LastRow(shares, id, k) ==> k == i;
    }
  }

  lemma DamageIs(changes: seq<Change>, before: seq<ShareStatus>, after: seq<ShareStatus>, target: string)
    requires ExactChanges(changes, before, after, target)
    ensures AllDamage(changes, before, after, target)
  {
    hide Before, ReadsLast, LastStatus;
    forall c: Change ensures c in changes <==>
        && c.shareId != target && c.before != c.after
        && ReadsLast(before, c.shareId, c.before) && ReadsLast(after, c.shareId, c.after)
    {
      LastStatusIs(before, c.shareId);
      LastStatusIs(after, c.shareId);
    }
  }

  /** For every effect, image and claim: the verdict, its reason, and everything it
      reports of the images, damage to other shares included. */
  lemma JudgmentIsExact(expected: ExpectedEffect, pre: Option<Observation>, post: Option<Observation>,
                        executor: ExecutorClaim)
    ensures var r := Reconcile(expected, pre, post, executor);
      && Reports(expected, pre, post, r) && Explains(expected, pre, post, r)
      && Rules(expected, Comparable(expected, pre, post), executor.kind, r)
  {
    hide Strip, Collateral, AllDamage, ReadsFirst, FirstStatus;
    if pre.Some? {
      FirstStatusIs(pre.value.shares, expected.shareId);
    }
    if pre.Some? && post.Some? {
      FirstStatusIs(post.value.shares, expected.shareId);
      CollateralIsExact(pre.value, post.value, expected.shareId);
      DamageIs(Collateral(pre.value, post.value, expected.shareId), pre.value.shares, post.value.shares,
          expected.shareId);
    }
  }

  // --------------------------------------------------------------- theorems

  /** Status of the target over time, in a world other actors may change too;
      None where the record or the share does not exist. */
  type Timeline = seq<Option<string>>

  /** The image read the target truthfully at moment `k`. */
  predicate Read(image: Observation, target: string, world: Timeline, k: nat) {
    k < |world| && image.StatusOf(target) == world[k]
  }

  /** A move into the target status happened at moment `k`. */
  predicate Moved(expected: ExpectedEffect, world: Timeline, k: nat) {
    k + 1 < |world| && world[k] != Some(expected.toStatus) && world[k + 1] == Some(expected.toStatus)
  }

  lemma {:induction false} SomeMove(expected: ExpectedEffect, world: Timeline, a: nat, b: nat) returns (k: nat)
    requires a <= b < |world| && world[a] != Some(expected.toStatus) && world[b] == Some(expected.toStatus)
    ensures a <= k < b && Moved(expected, world, k)
    decreases b
  {
    if world[b - 1] == Some(expected.toStatus) {
      k := SomeMove(expected, world, a, b - 1);
    } else {
      k := b - 1;
    }
  }

  /** With truthful reads and any other actors: a verdict of committed means some
      change into the target status happened inside the window, a verdict of not
      committed means both ends of the window show the starting status, and a
      mismatch means a definite claim the two ends contradict. The window bounds
      the statement: neither says whose change it was. */
  lemma VerdictsAreTrueOfTheWindow(expected: ExpectedEffect, pre: Observation, post: Observation,
                                   executor: ExecutorClaim, world: Timeline, a: nat, b: nat)
    requires expected.fromStatus != expected.toStatus && a <= b
    requires Read(pre, expected.shareId, world, a) && Read(post, expected.shareId, world, b)
    ensures var v := Reconcile(expected, Some(pre), Some(post), executor).verdict;
      && (v == VerifiedCommitted ==>
            executor.Committed() != Some(false) && exists k :: a <= k < b && Moved(expected, world, k))
      && (v == VerifiedNotCommitted ==>
        executor.Committed() != Some(true) && world[a] == world[b] == Some(expected.fromStatus))
      && (v == EffectMismatch ==>
            if executor.Committed() == Some(true) then world[a] == world[b] == Some(expected.fromStatus)
            else executor.Committed() == Some(false) && exists k :: a <= k < b && Moved(expected, world, k))
  {
    hide Strip, Collateral, Sorted, Before;
    if world[a] == Some(expected.fromStatus) && world[b] == Some(expected.toStatus) {
      var k := SomeMove(expected, world, a, b);
    }
  }

  /** The evidence supports a verdict: both images, of the right record, showing
      the target in its starting state and then in a state the rules cover. */
  predicate Sufficient(expected: ExpectedEffect, pre: Option<Observation>, post: Option<Observation>) {
    && pre.Some? && post.Some? && IdentityOk(expected, pre.value) && IdentityOk(expected, post.value)
    && pre.value.StatusOf(expected.shareId) == Some(expected.fromStatus)
    && post.value.StatusOf(expected.shareId) in {Some(expected.fromStatus), Some(expected.toStatus)}
  }

  /** A verdict is given exactly on sufficient evidence; taking an image away can
      only turn it into an unverifiable one. */
  lemma NeverRoundedUp(expected: ExpectedEffect, pre: Option<Observation>, post: Option<Observation>,
                       executor: ExecutorClaim)
    ensures Reconcile(expected, pre, post, executor).verdict != Unverifiable <==> Sufficient(expected, pre, post)
    ensures Reconcile(expected, None, post, executor).verdict == Unverifiable
    ensures Reconcile(expected, pre, None, executor).verdict == Unverifiable
  {
    hide Strip, Collateral, Sorted, Before;
  }

  /** An executor that refuses to say is never contradicted, and on sufficient
      evidence is resolved to what a definite and true claim would have given. */
  lemma UnresolvedIsResolved(expected: ExpectedEffect, pre: Option<Observation>, post: Option<Observation>,
                             executor: ExecutorClaim, other: ExecutorClaim)
    requires executor.kind == UnresolvedKind
    ensures var v := Reconcile(expected, pre, post, executor).verdict;
      && v != EffectMismatch
      && (Reconcile(expected, pre, post, other).verdict in {v, EffectMismatch})
      && (expected.fromStatus != expected.toStatus && Sufficient(expected, pre, post) ==>
            (v == VerifiedCommitted <==> post.value.StatusOf(expected.shareId) == Some(expected.toStatus)))
  {
    hide Strip, Collateral, Sorted, Before;
  }
}
