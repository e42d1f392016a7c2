/** Locator ladders: which element a target resolves to, and why document order
    never decides. */
module Ladder {
  import opened Wrappers

  datatype Element = Element(id: nat)

  datatype Box = Box(x: real, y: real, width: real, height: real) {
    function Right(): real { x + width }
    function Bottom(): real { y + height }
  }

  datatype Anchor =
    RoleRung(role: string, name: string) | LabelRung(text: string) | TextRung(text: string) | CssRung(css: string)

  datatype Relation = CellRight | NearestInputRight | ContainerOf

  datatype Rung = Direct(anchor: Anchor) | Relative(anchor: Anchor, relation: Relation)

  /** The live page: what is visible, in document order, where, and inside what. */
  datatype Page = Page(
    visible: Anchor -> seq<Element>,
    cells: seq<Element>,
    inputs: seq<Element>,
    box: Element -> Option<Box>,
    table: Element -> seq<Element>,      // the visible nearest enclosing table, if any
    contains: (Element, Element) -> bool, // strictly
    fits: Element -> bool)               // the element meets the target's fingerprint

  /** Containment on a page is a strict order. */
  ghost predicate Nested(page: Page) {
    && (forall a :: !page.contains(a, a))
    && (forall a, b, c :: page.contains(a, b) && page.contains(b, c) ==> page.contains(a, c))
  }

  // ----------------------------------------------------------------- filters

  function Filter(s: seq<Element>, p: Element -> bool): seq<Element> {
    if s == [] then [] else Filter(s[..|s| - 1], p) + if p(s[|s| - 1]) then [s[|s| - 1]] else []
  }

  lemma {:induction false} FilterCounts(s: seq<Element>, p: Element -> bool, e: Element)
    ensures multiset(Filter(s, p))[e] == if p(e) then multiset(s)[e] else 0
  {
    if s != [] {
      FilterCounts(s[..|s| - 1], p, e);
      assert s == s[..|s| - 1] + [s[|s| - 1]];
    }
  }

  lemma FilterIn(s: seq<Element>, p: Element -> bool, e: Element)
    ensures e in Filter(s, p) <==> e in s && p(e)
  {
    FilterCounts(s, p, e);
    assert e in multiset(Filter(s, p)) <==> e in Filter(s, p);
    assert e in multiset(s) <==> e in s;
  }

  lemma FilterPermutes(a: seq<Element>, b: seq<Element>, p: Element -> bool, q: Element -> bool)
    requires multiset(a) == multiset(b) && forall e :: e in a ==> p(e) == q(e)
    ensures multiset(Filter(a, p)) == multiset(Filter(b, q))
  {
    forall e ensures multiset(Filter(a, p))[e] == multiset(Filter(b, q))[e] {
      FilterCounts(a, p, e);
      FilterCounts(b, q, e);
      assert e in multiset(a) <==> e in a;
    }
  }

  lemma SameSize(a: seq<Element>, b: seq<Element>)
    requires multiset(a) == multiset(b)
    ensures |a| == |b| && (|a| == 1 ==> a == b) && forall e :: e in a <==> e in b
  {
    assert |multiset(a)| == |a| && |multiset(b)| == |b|;
    if |a| == 1 {
      assert a == [a[0]] && b == [b[0]];
      assert a[0] in multiset(b);
    }
    forall e ensures e in a <==> e in b {
      assert e in multiset(a) <==> e in a;
      assert e in multiset(b) <==> e in b;
    }
  }

  // --------------------------------------------------------------- innermost

  predicate HoldsNone(page: Page, matches: seq<Element>, e: Element) {
    forall o :: o in matches ==> !page.contains(e, o)
  }

  /** The matches that contain no other match. */
  function Innermost(page: Page, matches: seq<Element>): seq<Element> {
    if |matches| <= 1 then matches else Filter(matches, e => HoldsNone(page, matches, e))
  }

  method ContainsOther(page: Page, matches: seq<Element>, i: nat) returns (r: bool)
    requires Nested(page) && i < |matches|
    ensures r == !HoldsNone(page, matches, matches[i])
  {
    for j := 0 to |matches|
      invariant forall k :: 0 <= k < j ==> !page.contains(matches[i], matches[k])
    {
      if i != j && page.contains(matches[i], matches[j]) {
        return true;
      }
      assert i == j ==> !page.contains(matches[i], matches[j]);
    }
    return false;
  }

  method KeepInnermost(page: Page, matches: seq<Element>) returns (keep: seq<Element>)
    requires Nested(page)
    ensures keep == Innermost(page, matches)
  {
    hide HoldsNone;
    if |matches| <= 1 {
      return matches;
    }
    keep := [];
    for i := 0 to |matches|
      invariant keep == Filter(matches[..i], e => HoldsNone(page, matches, e))
    {
      assert matches[..i + 1][..i] == matches[..i];
      var containsOther := ContainsOther(page, matches, i);
      if !containsOther {
        keep := keep + [matches[i]];
      }
    }
    assert matches[..|matches|] == matches;
  }

  /** Somewhere below every match is an innermost one. */
  lemma {:induction false} SomeInnermost(page: Page, matches: seq<Element>, candidates: set<Element>)
    returns (e: Element)
    requires Nested(page) && candidates != {} && forall c :: c in candidates ==> c in matches
    ensures e in candidates && forall c :: c in candidates ==> !page.contains(e, c)
    decreases |candidates|
  {
    assert exists c :: c in candidates;
    e :| e in candidates;
    if exists c :: c in candidates && page.contains(e, c) {
      var below := set c | c in candidates && page.contains(e, c);
      var c :| c in candidates && page.contains(e, c);
      assert c in below && below < candidates by { assert e !in below; }
      SmallerSet(below, candidates);
      e := SomeInnermost(page, matches, below);
    }
  }

  lemma SmallerSet(a: set<Element>, b: set<Element>)
    requires a < b
    ensures |a| < |b|
  {
    var rest := b - a;
    assert b == a + rest && |b| == |a| + |rest|;
    assert rest != {};
  }

  /** Keeping the innermost matches of some keeps at least one, and none of those
      kept contains another; every match dropped contains one that is kept. */
  lemma InnermostIs(page: Page, matches: seq<Element>)
    requires Nested(page)
    ensures matches != [] ==> Innermost(page, matches) != []
    ensures forall a, b :: a in Innermost(page, matches) && b in Innermost(page, matches) ==> !page.contains(a, b)
    ensures forall e :: e in matches && e !in Innermost(page, matches) ==>
      exists k :: k in Innermost(page, matches) && page.contains(e, k)
  {
    var p := e => HoldsNone(page, matches, e);
    var all := set e | e in matches;
    if |matches| > 1 {
      forall e ensures e in Innermost(page, matches) <==> e in matches && HoldsNone(page, matches, e) {
        FilterIn(matches, p, e);
      }
      assert matches[0] in all;
      var least := SomeInnermost(page, matches, all);
      assert least in Innermost(page, matches);
      forall e | e in matches && e !in Innermost(page, matches)
        ensures exists k :: k in Innermost(page, matches) && page.contains(e, k)
      {
        var below := set c | c in matches && page.contains(e, c);
        var o :| o in matches && page.contains(e, o);
        assert o in below;
        var k := SomeInnermost(page, matches, below);
        assert HoldsNone(page, matches, k);
      }
    }
  }

  // ---------------------------------------------------------------- relative

  function Min(a: real, b: real): real { if a < b then a else b }

  function Max(a: real, b: real): real { if a > b then a else b }

  /** On the anchor's row, to its right. */
  predicate Qualifies(page: Page, anchor: Box, e: Element) {
    page.box(e).Some?
    && var b := page.box(e).value;
    Min(anchor.Bottom(), b.Bottom()) - Max(anchor.y, b.y) >= 0.5 * Min(anchor.height, b.height)
        && b.x >= anchor.Right() - 1.0
  }

  function Distance(page: Page, anchor: Box, e: Element): real
    requires Qualifies(page, anchor, e)
  {
    page.box(e).value.x - anchor.Right()
  }

  predicate Nearest(page: Page, anchor: Box, candidates: seq<Element>, e: Element) {
    Qualifies(page, anchor, e) && e in candidates
    && forall o :: o in candidates && Qualifies(page, anchor, o) ==>
      Distance(page, anchor, e) - Distance(page, anchor, o) <= 0.75
  }

  /** The nearest qualifying candidates, ties within 0.75 included. */
  function NearestOf(page: Page, anchor: Box, candidates: seq<Element>): seq<Element> {
    Filter(candidates, e => Nearest(page, anchor, candidates, e))
  }

  function Candidates(page: Page, relation: Relation): seq<Element> {
    if relation == CellRight then page.cells else page.inputs
  }

  datatype Matches = Found(elements: seq<Element>) | AmbiguousAnchor

  function AnchorMatches(page: Page, anchor: Anchor): seq<Element> {
    if anchor.TextRung? then Innermost(page, page.visible(anchor)) else page.visible(anchor)
  }

  function RungMatches(page: Page, rung: Rung): Matches {
    match rung
    case Direct(anchor) => Found(AnchorMatches(page, anchor))
    case Relative(anchor, relation) =>
      var anchors := AnchorMatches(page, anchor);
      if anchors == [] then Found([])
      else if |anchors| > 1 then AmbiguousAnchor
      else if relation == ContainerOf then Found(page.table(anchors[0]))
      else if page.box(anchors[0]).None? then Found([])
      else Found(NearestOf(page, page.box(anchors[0]).value, Candidates(page, relation)))
  }

  /** Score the qualifying candidates and find the best distance. */
  method Score(page: Page, anchor: Box, candidates: seq<Element>) returns (scored: seq<Element>, best: Option<real>)
    ensures scored == Filter(candidates, e => Qualifies(page, anchor, e))
    ensures best.None? ==> forall k :: 0 <= k < |candidates| ==> !Qualifies(page, anchor, candidates[k])
    ensures best.Some? ==> BestSoFar(page, anchor, candidates, |candidates|, best.value)
  {
    hide Qualifies;
    scored, best := [], None;
    for i := 0 to |candidates|
      invariant scored == Filter(candidates[..i], e => Qualifies(page, anchor, e))
      invariant best.None? ==> forall k :: 0 <= k < i ==> !Qualifies(page, anchor, candidates[k])
      invariant best.Some? ==> BestSoFar(page, anchor, candidates, i, best.value)
    {
      assert candidates[..i + 1][..i] == candidates[..i];
      if Qualifies(page, anchor, candidates[i]) {
        var d := Distance(page, anchor, candidates[i]);
        scored := scored + [candidates[i]];
        best := if best.None? || d < best.value then Some(d) else best;
      }
    }
    assert candidates[..|candidates|] == candidates;
  }

  /** Keep every candidate that ties with the best: a tie is left for the caller to
      refuse. */
  method NearestMatches(page: Page, anchor: Box, candidates: seq<Element>) returns (nearest: seq<Element>)
    ensures nearest == NearestOf(page, anchor, candidates)
  {
    hide Qualifies, Nearest, BestSoFar;
    var scored, best := Score(page, anchor, candidates);
    nearest := [];
    if best.None? {
      NoneNear(page, anchor, candidates);
      return;
    }
    for i := 0 to |scored|
      invariant nearest == Filter(scored[..i], e => Nearest(page, anchor, candidates, e))
    {
      assert scored[..i + 1][..i] == scored[..i];
      FilterIn(candidates, e => Qualifies(page, anchor, e), scored[i]);
      NearBest(page, anchor, candidates, best.value, scored[i]);
      if Distance(page, anchor, scored[i]) - best.value <= 0.75 {
        nearest := nearest + [scored[i]];
      }
    }
    assert scored[..|scored|] == scored;
    NearestQualify(page, anchor, candidates);
    FilterTwice(candidates, e => Qualifies(page, anchor, e), e => Nearest(page, anchor, candidates, e));
  }

  lemma NearestQualify(page: Page, anchor: Box, candidates: seq<Element>)
    ensures forall e :: Nearest(page, anchor, candidates, e) ==> Qualifies(page, anchor, e)
  {
    hide Qualifies;
  }

  ghost predicate BestSoFar(page: Page, anchor: Box, candidates: seq<Element>, n: nat, best: real)
    requires n <= |candidates|
  {
    && (forall k :: 0 <= k < n && Qualifies(page, anchor, candidates[k]) ==>
      best <= Distance(page, anchor, candidates[k]))
    && (exists k ::
          0 <= k < n && Qualifies(page, anchor, candidates[k])
          && best == Distance(page, anchor, candidates[k]))
  }

  lemma NoneNear(page: Page, anchor: Box, candidates: seq<Element>)
    requires forall k :: 0 <= k < |candidates| ==> !Qualifies(page, anchor, candidates[k])
    ensures NearestOf(page, anchor, candidates) == []
  {
    hide Qualifies;
    var all := NearestOf(page, anchor, candidates);
    if all != [] {
      FilterIn(candidates, e => Nearest(page, anchor, candidates, e), all[0]);
      assert false;
    }
  }

  lemma NearBest(page: Page, anchor: Box, candidates: seq<Element>, best: real, e: Element)
    requires BestSoFar(page, anchor, candidates, |candidates|, best) && e in candidates && Qualifies(page, anchor, e)
    ensures Nearest(page, anchor, candidates, e) <==> Distance(page, anchor, e) - best <= 0.75
  {
    hide Qualifies;
  }

  lemma {:induction false} FilterTwice(s: seq<Element>, p: Element -> bool, q: Element -> bool)
    requires forall e :: e in s && q(e) ==> p(e)
    ensures Filter(Filter(s, p), q) == Filter(s, q)
  {
    if s != [] {
      var init, last := s[..|s| - 1], s[|s| - 1];
      FilterTwice(init, p, q);
      assert last in s;
      if p(last) {
        assert (Filter(init, p) + [last])[..|Filter(init, p)|] == Filter(init, p);
      } else {
        assert Filter(s, p) == Filter(init, p);
      }
    }
  }

  // ---------------------------------------------------------------- resolve

  datatype Resolution = Resolved(element: Element, rung: nat) | NotFound | Ambiguous | FingerprintMismatch

  /** The first rung with any match decides; more than one match is refused. */
  function ResolveFrom(page: Page, ladder: seq<Rung>, i: nat): Resolution
    requires i <= |ladder|
    decreases |ladder| - i
  {
    if i == |ladder| then NotFound
    else
      match RungMatches(page, ladder[i])
      case AmbiguousAnchor => Ambiguous
      case Found(es) =>
        if es == [] then ResolveFrom(page, ladder, i + 1)
        else if |es| > 1 then Ambiguous
        else if !page.fits(es[0]) then FingerprintMismatch
        else Resolved(es[0], i)
  }

  method Resolve(page: Page, ladder: seq<Rung>) returns (r: Resolution)
    ensures r == ResolveFrom(page, ladder, 0)
  {
    hide RungMatches;
    for i := 0 to |ladder|
      invariant ResolveFrom(page, ladder, 0) == ResolveFrom(page, ladder, i)
    {
      var matches := RungMatches(page, ladder[i]);
      if matches.AmbiguousAnchor? {
        return Ambiguous;
      }
      if matches.elements != [] {
        if |matches.elements| > 1 {
          return Ambiguous;
        }
        if !page.fits(matches.elements[0]) {
          return FingerprintMismatch;
        }
        return Resolved(matches.elements[0], i);
      }
    }
    return NotFound;
  }

  // ------------------------------------------- what each rung matches

  /** No element is listed twice. */
  ghost predicate Once(s: seq<Element>) {
    forall e :: multiset(s)[e] <= 1
  }

  ghost predicate ListedOnce(page: Page) {
    && (forall a :: Once(page.visible(a))) && Once(page.cells) && Once(page.inputs) && (forall a :: Once(page.table(a)))
  }

  /** Visible for the anchor; for a text, the innermost of them. */
  predicate Anchored(page: Page, anchor: Anchor, e: Element) {
    && e in page.visible(anchor)
    && (anchor.TextRung? ==> forall o :: o in page.visible(anchor) ==> !page.contains(e, o))
  }

  ghost predicate SoleAnchor(page: Page, anchor: Anchor, a: Element) {
    Anchored(page, anchor, a) && forall x :: Anchored(page, anchor, x) ==> x == a
  }

  /** The boxes share at least `depth` of the vertical axis, and are that deep. */
  predicate Overlap(a: Box, b: Box, depth: real) {
    && a.height >= depth && b.height >= depth
    && a.y + a.height - b.y >= depth && b.y + b.height - a.y >= depth
  }

  /** To the right of the box, sharing half the height of one of the two. */
  predicate RightOf(page: Page, anchor: Box, e: Element) {
    && page.box(e).Some?
    && var b := page.box(e).value;
       (Overlap(anchor, b, 0.5 * anchor.height) || Overlap(anchor, b, 0.5 * b.height))
       && b.x >= anchor.x + anchor.width - 1.0
  }

  /** One of `listed` to the right of the box, and no other of them nearer by more than
      the margin. */
  predicate NextTo(page: Page, anchor: Box, listed: seq<Element>, e: Element) {
    && e in listed && RightOf(page, anchor, e)
    && forall o :: o in listed && RightOf(page, anchor, o) ==> page.box(e).value.x <= page.box(o).value.x + 0.75
  }

  /** What a rung stands for: the anchor itself, the table around it, or the nearest
      cells or inputs to its right. */
  ghost predicate Matched(page: Page, rung: Rung, e: Element) {
    match rung
    case Direct(anchor) => Anchored(page, anchor, e)
    case Relative(anchor, ContainerOf) => exists a :: SoleAnchor(page, anchor, a) && e in page.table(a)
    case Relative(anchor, CellRight) =>
      exists a :: SoleAnchor(page, anchor, a) && page.box(a).Some? && NextTo(page, page.box(a).value, page.cells, e)
    case Relative(anchor, NearestInputRight) =>
      exists a :: SoleAnchor(page, anchor, a) && page.box(a).Some? && NextTo(page, page.box(a).value, page.inputs, e)
  }

  /** Two elements could be the anchor the rung starts from. */
  ghost predicate TwoAnchors(page: Page, rung: Rung) {
    rung.Relative? && exists a, b :: a != b && Anchored(page, rung.anchor, a) && Anchored(page, rung.anchor, b)
  }

  lemma FilterOnce(s: seq<Element>, p: Element -> bool)
    requires Once(s)
    ensures Once(Filter(s, p))
  {
    forall e ensures multiset(Filter(s, p))[e] <= 1 {
      FilterCounts(s, p, e);
    }
  }

  lemma TwoListed(s: seq<Element>)
    requires Once(s) && |s| > 1
    ensures s[0] != s[1]
  {
    assert s == [s[0], s[1]] + s[2..];
    assert multiset(s)[s[0]] <= 1;
  }

  lemma AnchorIs(page: Page, anchor: Anchor)
    requires Nested(page) && ListedOnce(page)
    ensures var found := AnchorMatches(page, anchor);
      && Once(found) && (forall e :: e in found <==> Anchored(page, anchor, e))
      && (|found| == 1 ==> SoleAnchor(page, anchor, found[0]))
      && (|found| > 1 ==> found[0] != found[1])
  {
    var all, found := page.visible(anchor), AnchorMatches(page, anchor);
    assert Once(all);
    if anchor.TextRung? && |all| > 1 {
      FilterOnce(all, e => HoldsNone(page, all, e));
      forall e ensures e in found <==> Anchored(page, anchor, e) {
        FilterIn(all, e => HoldsNone(page, all, e), e);
      }
    }
    if |found| > 1 {
      TwoListed(found);
    }
  }

  lemma QualifiesIs(page: Page, anchor: Box, e: Element)
    ensures Qualifies(page, anchor, e) <==> RightOf(page, anchor, e)
    ensures Qualifies(page, anchor, e) ==> page.box(e).Some?
    ensures Qualifies(page, anchor, e) ==>
      Distance(page, anchor, e) == page.box(e).value.x - (anchor.x + anchor.width)
  {
  }

  lemma NearestIs(page: Page, anchor: Box, listed: seq<Element>)
    requires Once(listed)
    ensures Once(NearestOf(page, anchor, listed))
    ensures forall e :: e in NearestOf(page, anchor, listed) <==> NextTo(page, anchor, listed, e)
  {
    hide Qualifies, RightOf;
    var p := e => Nearest(page, anchor, listed, e);
    FilterOnce(listed, p);
    forall e ensures e in NearestOf(page, anchor, listed) <==> NextTo(page, anchor, listed, e) {
      FilterIn(listed, p, e);
      forall o ensures Qualifies(page, anchor, o) <==> RightOf(page, anchor, o) {
        QualifiesIs(page, anchor, o);
      }
      if e in listed && RightOf(page, anchor, e) {
        NearestIsNext(page, anchor, listed, e);
      }
    }
  }

  lemma NearestIsNext(page: Page, anchor: Box, listed: seq<Element>, e: Element)
    requires e in listed && RightOf(page, anchor, e)
    ensures Nearest(page, anchor, listed, e) <==> NextTo(page, anchor, listed, e)
  {
    hide Qualifies, RightOf;
    QualifiesIs(page, anchor, e);
    forall o ensures Qualifies(page, anchor, o) <==> RightOf(page, anchor, o)
      ensures Qualifies(page, anchor, o) ==> page.box(o).Some?
      ensures Qualifies(page, anchor, o) ==>
        Distance(page, anchor, o) == page.box(o).value.x - (anchor.x + anchor.width)
    {
      QualifiesIs(page, anchor, o);
    }
  }

  /** What a rung is found to match is what it stands for. */
  lemma RungIs(page: Page, rung: Rung)
    requires Nested(page) && ListedOnce(page)
    ensures var m := RungMatches(page, rung);
      && (m.AmbiguousAnchor? <==> TwoAnchors(page, rung))
      && (m.Found? ==> Once(m.elements) && forall e :: e in m.elements <==> Matched(page, rung, e))
      && (m.AmbiguousAnchor? ==> forall e :: !Matched(page, rung, e))
  {
    hide AnchorMatches, Anchored, NearestOf, NextTo;
    AnchorIs(page, rung.anchor);
    if rung.Relative? {
      var anchors := AnchorMatches(page, rung.anchor);
      if |anchors| == 1 && page.box(anchors[0]).Some? {
        NearestIs(page, page.box(anchors[0]).value, page.cells);
        NearestIs(page, page.box(anchors[0]).value, page.inputs);
      }
      if |anchors| > 1 {
        assert Anchored(page, rung.anchor, anchors[0]) && Anchored(page, rung.anchor, anchors[1]);
      }
      if a, b :| a != b && Anchored(page, rung.anchor, a) && Anchored(page, rung.anchor, b) {
        assert a in anchors && b in anchors;
      }
    }
  }

  /** The rung matches nothing, and has not two anchors. */
  ghost predicate Idle(page: Page, rung: Rung) {
    !TwoAnchors(page, rung) && forall e :: !Matched(page, rung, e)
  }

  /** The rung matches `e` and nothing else. */
  ghost predicate OnlyMatch(page: Page, rung: Rung, e: Element) {
    Matched(page, rung, e) && forall x :: Matched(page, rung, x) ==> x == e
  }

  /** What resolution means, from rung `i` on. */
  ghost predicate Means(page: Page, ladder: seq<Rung>, i: nat, r: Resolution) {
    match r
    case NotFound => forall k :: i <= k < |ladder| ==> Idle(page, ladder[k])
    case Resolved(e, n) =>
      && i <= n < |ladder| && OnlyMatch(page, ladder[n], e) && page.fits(e)
      && forall k :: i <= k < n ==> Idle(page, ladder[k])
    case FingerprintMismatch =>
      exists n, e :: i <= n < |ladder| && OnlyMatch(page, ladder[n], e) && !page.fits(e)
                     && forall k :: i <= k < n ==> Idle(page, ladder[k])
    case Ambiguous =>
      exists n :: i <= n < |ladder| && (forall k :: i <= k < n ==> Idle(page, ladder[k])) && Several(page, ladder[n])
  }

  /** More than one element could be meant. */
  ghost predicate Several(page: Page, rung: Rung) {
    TwoAnchors(page, rung) || exists a, b :: a != b && Matched(page, rung, a) && Matched(page, rung, b)
  }

  /** For every page and ladder: the first rung that matches anything decides; it is
      taken only if it matches one element, and that one fits. */
  lemma {:induction false} ResolutionMeans(page: Page, ladder: seq<Rung>, i: nat)
    requires Nested(page) && ListedOnce(page) && i <= |ladder|
    ensures Means(page, ladder, i, ResolveFrom(page, ladder, i))
    decreases |ladder| - i
  {
    hide RungMatches, Matched, TwoAnchors, Nested, ListedOnce;
    if i < |ladder| {
      RungIs(page, ladder[i]);
      ResolutionMeans(page, ladder, i + 1);
      var m := RungMatches(page, ladder[i]);
      if m.Found? && |m.elements| > 1 {
        TwoListed(m.elements);
        assert m.elements[0] in m.elements && m.elements[1] in m.elements;
      }
      if m.Found? && |m.elements| == 1 {
        assert m.elements[0] in m.elements;
        assert OnlyMatch(page, ladder[i], m.elements[0]);
      }
    }
  }

  // --------------------------------------------------------------- theorems

  /** The same page with its elements in another document order. */
  ghost predicate Reordered(p: Page, q: Page) {
    && (forall a :: multiset(p.visible(a)) == multiset(q.visible(a)))
    && multiset(p.cells) == multiset(q.cells) && multiset(p.inputs) == multiset(q.inputs)
    && p.box == q.box && p.table == q.table && p.contains == q.contains && p.fits == q.fits
  }

  lemma InnermostPermutes(p: Page, q: Page, a: seq<Element>, b: seq<Element>)
    requires p.contains == q.contains && multiset(a) == multiset(b)
    ensures multiset(Innermost(p, a)) == multiset(Innermost(q, b))
  {
    SameSize(a, b);
    if |a| > 1 {
      FilterPermutes(a, b, e => HoldsNone(p, a, e), e => HoldsNone(q, b, e));
    }
  }

  lemma AnchorPermutes(p: Page, q: Page, anchor: Anchor)
    requires Reordered(p, q)
    ensures multiset(AnchorMatches(p, anchor)) == multiset(AnchorMatches(q, anchor))
  {
    InnermostPermutes(p, q, p.visible(anchor), q.visible(anchor));
  }

  lemma NearestPermutes(p: Page, q: Page, box: Box, a: seq<Element>, b: seq<Element>)
    requires p.box == q.box && multiset(a) == multiset(b)
    ensures multiset(NearestOf(p, box, a)) == multiset(NearestOf(q, box, b))
  {
    SameSize(a, b);
    assert forall e :: Qualifies(p, box, e) == Qualifies(q, box, e);
    assert forall e :: Nearest(p, box, a, e) == Nearest(q, box, b, e);
    FilterPermutes(a, b, e => Nearest(p, box, a, e), e => Nearest(q, box, b, e));
  }

  lemma RungPermutes(p: Page, q: Page, rung: Rung)
    requires Reordered(p, q)
    ensures var m, n := RungMatches(p, rung), RungMatches(q, rung);
      m.Found? == n.Found? && (m.Found? ==> multiset(m.elements) == multiset(n.elements))
  {
    hide NearestOf, AnchorMatches;
    AnchorPermutes(p, q, rung.anchor);
    var anchors := AnchorMatches(p, rung.anchor);
    SameSize(anchors, AnchorMatches(q, rung.anchor));
    if rung.Relative? && |anchors| == 1 && rung.relation != ContainerOf && p.box(anchors[0]).Some? {
      NearestPermutes(p, q, p.box(anchors[0]).value, Candidates(p, rung.relation), Candidates(q, rung.relation));
    }
  }

  /** Document order never decides: on a page with its elements reordered, every
      ladder resolves to the same element by the same rung, or is refused alike. */
  lemma {:induction false} OrderNeverDecides(p: Page, q: Page, ladder: seq<Rung>, i: nat)
    requires Reordered(p, q) && i <= |ladder|
    ensures ResolveFrom(p, ladder, i) == ResolveFrom(q, ladder, i)
    decreases |ladder| - i
  {
    hide RungMatches;
    if i < |ladder| {
      OrderNeverDecides(p, q, ladder, i + 1);
      RungPermutes(p, q, ladder[i]);
      var m, n := RungMatches(p, ladder[i]), RungMatches(q, ladder[i]);
      if m.Found? {
        SameSize(m.elements, n.elements);
      }
    }
  }

  /** A geometric match is resolved only by a clear margin: every other qualifying
      candidate is more than 0.75 farther from the anchor. */
  lemma ResolvedByMargin(page: Page, ladder: seq<Rung>, i: nat, e: Element)
    requires i < |ladder| && ladder[i].Relative? && ladder[i].relation != ContainerOf
      && ResolveFrom(page, ladder, i) == Resolved(e, i)
    ensures |AnchorMatches(page, ladder[i].anchor)| == 1 && page.box(AnchorMatches(page, ladder[i].anchor)[0]).Some?
    ensures var anchor := page.box(AnchorMatches(page, ladder[i].anchor)[0]).value;
      var candidates := Candidates(page, ladder[i].relation);
      && e in candidates && Qualifies(page, anchor, e)
      && forall o :: o in candidates && o != e && Qualifies(page, anchor, o) ==>
        Distance(page, anchor, o) > Distance(page, anchor, e) + 0.75
  {
    hide Qualifies, AnchorMatches;
    ResolvedHere(page, ladder, i, e);
    var anchor := page.box(AnchorMatches(page, ladder[i].anchor)[0]).value;
    var candidates := Candidates(page, ladder[i].relation);
    var p := x => Nearest(page, anchor, candidates, x);
    assert NearestOf(page, anchor, candidates) == [e];
    FilterIn(candidates, p, e);
    forall o | o in candidates && o != e && Qualifies(page, anchor, o)
      ensures Distance(page, anchor, o) > Distance(page, anchor, e) + 0.75
    {
      FilterIn(candidates, p, o);
      NotNearest(page, anchor, candidates, e, o);
    }
  }

  /** If `o` is not among the nearest and `e` is the only one that is, `o` is farther
      than the margin. */
  lemma NotNearest(page: Page, anchor: Box, candidates: seq<Element>, e: Element, o: Element)
    requires NearestOf(page, anchor, candidates) == [e] && e in candidates && o in candidates
    requires Qualifies(page, anchor, e) && Qualifies(page, anchor, o) && !Nearest(page, anchor, candidates, o)
    ensures Distance(page, anchor, o) > Distance(page, anchor, e) + 0.75
  {
    hide Qualifies;
    var closest := Closest(page, anchor, candidates, e);
    assert Nearest(page, anchor, candidates, closest);
    FilterIn(candidates, x => Nearest(page, anchor, candidates, x), closest);
    assert closest == e;
  }

  lemma {:induction false} Closest(page: Page, anchor: Box, candidates: seq<Element>, e: Element) returns (c: Element)
    requires e in candidates && Qualifies(page, anchor, e)
    ensures c in candidates && Qualifies(page, anchor, c)
    ensures forall o :: o in candidates && Qualifies(page, anchor, o) ==>
      Distance(page, anchor, c) <= Distance(page, anchor, o)
    decreases |candidates|
  {
    hide Qualifies;
    var init, last := candidates[..|candidates| - 1], candidates[|candidates| - 1];
    assert candidates == init + [last];
    if exists x :: x in init && Qualifies(page, anchor, x) {
      var x :| x in init && Qualifies(page, anchor, x);
      c := Closest(page, anchor, init, x);
      if Qualifies(page, anchor, last) && Distance(page, anchor, last) < Distance(page, anchor, c) {
        c := last;
      }
    } else {
      c := last;
    }
  }

  lemma ResolvedHere(page: Page, ladder: seq<Rung>, i: nat, e: Element)
    requires i < |ladder| && ResolveFrom(page, ladder, i) == Resolved(e, i)
    ensures RungMatches(page, ladder[i]) == Found([e])
  {
    hide RungMatches;
    var m := RungMatches(page, ladder[i]);
    if m.Found? && m.elements == [] {
      LaterRung(page, ladder, i + 1);
    }
  }

  lemma {:induction false} LaterRung(page: Page, ladder: seq<Rung>, i: nat)
    requires i <= |ladder|
    ensures ResolveFrom(page, ladder, i).Resolved? ==> ResolveFrom(page, ladder, i).rung >= i
    decreases |ladder| - i
  {
    hide RungMatches;
    if i < |ladder| {
      LaterRung(page, ladder, i + 1);
    }
  }

  /** Rungs appended to a ladder change nothing but a failure to find anything. */
  lemma {:induction false} AppendedRungs(page: Page, ladder: seq<Rung>, more: seq<Rung>, i: nat)
    requires i <= |ladder|
    ensures ResolveFrom(page, ladder + more, i) ==
      if ResolveFrom(page, ladder, i) == NotFound then ResolveFrom(page, ladder + more, |ladder|)
                                                   else ResolveFrom(page, ladder, i)
    decreases |ladder| - i
  {
    hide RungMatches;
    if i < |ladder| {
      AppendedRungs(page, ladder, more, i + 1);
      assert (ladder + more)[i] == ladder[i];
    }
  }
}
