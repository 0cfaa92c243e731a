// The element query language: which elements of a tree a predicate selects, and
// when it resolves to one.
module Dsl {
  import opened Common
  import opened Compaction
  import opened Tree

  datatype Hint = TopHalf | BottomHalf | LeftHalf | RightHalf | Center

  // A predicate's own field constraints; "" asks nothing. A regular expression
  // is the set of strings it matches.
  datatype FieldSpec = FieldSpec(
    text: string, textContains: string, regex: Option<string -> bool>, role: string, accessibilityId: string, bounds: Option<Hint>)

  datatype Direction = LeftOf | RightOf | Above | Below

  datatype Pred = Pred(fields: FieldSpec, index: Option<nat>, near: Option<Near>, parentOf: Option<Pred>)

  datatype Near = Near(pred: Pred, direction: Direction, maxDistance: real)

  // ---------- one element ----------

  predicate InBounds(x: real, y: real, r: Frame, hint: Hint) {
    match hint
    case TopHalf => y < r.y + r.h / 2.0
    case BottomHalf => y >= r.y + r.h / 2.0
    case LeftHalf => x < r.x + r.w / 2.0
    case RightHalf => x >= r.x + r.w / 2.0
    case Center =>
      r.x + r.w / 4.0 <= x < r.x + 3.0 * r.w / 4.0 && r.y + r.h / 4.0 <= y < r.y + 3.0 * r.h / 4.0
  }

  /** The halves split a region at its middle lines: a point is in exactly one of top
      and bottom, of left and right; a corner is where its name says; and the middle
      of the region is in its centre, its upper and left edges are not. */
  lemma HalvesSplit(x: real, y: real, r: Frame)
    ensures InBounds(x, y, r, TopHalf) <==> !InBounds(x, y, r, BottomHalf)
    ensures InBounds(x, y, r, LeftHalf) <==> !InBounds(x, y, r, RightHalf)
    ensures r.w > 0.0 && r.h > 0.0 ==>
      && InBounds(r.x, r.y, r, TopHalf) && InBounds(r.x, r.y, r, LeftHalf)
      && InBounds(r.x + r.w, r.y + r.h, r, BottomHalf) && InBounds(r.x + r.w, r.y + r.h, r, RightHalf)
      && InBounds(r.x + r.w / 2.0, r.y + r.h / 2.0, r, Center) && !InBounds(r.x, y, r, Center) && !InBounds(x, r.y, r, Center)
  {
  }

  predicate MatchesFields(f: FieldSpec, n: Elem, region: Option<Frame>) {
    && (f.role != "" ==> n.own.role == f.role)
    && (f.accessibilityId != "" ==> n.own.identifier == f.accessibilityId)
    && (f.text != "" ==> n.own.labelText == f.text || n.own.value == f.text)
    && (f.textContains != "" ==> Contains(n.own.labelText, f.textContains) || Contains(n.own.value, f.textContains))
    && (f.regex.Some? ==> f.regex.value(n.own.labelText) || f.regex.value(n.own.value))
    && (f.bounds.Some? ==>
         && region.Some? && HasArea(n.own.frame)
         && InBounds(CenterX(n.own.frame.value), CenterY(n.own.frame.value), region.value, f.bounds.value))
  }

  predicate Constrained(f: FieldSpec) {
    f.text != "" || f.textContains != "" || f.regex.Some? || f.role != "" || f.accessibilityId != "" || f.bounds.Some?
  }

  // The device viewport, else the box around all framed elements.
  function Region(f: FieldSpec, walk: seq<Elem>, viewport: Option<Frame>): Option<Frame> {
    if f.bounds.None? then None else if viewport.Some? then viewport else Box(walk)
  }

  function Box(walk: seq<Elem>): Option<Frame> {
    if walk == [] then None
    else
      var u, n := Box(walk[..|walk| - 1]), walk[|walk| - 1].own.frame;
      if !HasArea(n) then u else if u.None? then n else Some(Around(u.value, n.value))
  }

  function Around(u: Frame, n: Frame): Frame {
    var x1, y1 := Min(u.x, n.x), Min(u.y, n.y);
    Frame(x1, y1, Max(u.x + u.w, n.x + n.w) - x1, Max(u.y + u.h, n.y + n.h) - y1)
  }

  function Min(a: real, b: real): real { if a < b then a else b }
  function Max(a: real, b: real): real { if a < b then b else a }

  predicate SpansOverlap(p1: real, l1: real, p2: real, l2: real) {
    p1 < p2 + l2 && p2 < p1 + l1
  }

  // c lies in the direction of the anchor, level with it, and close enough.
  predicate IsNear(c: Elem, anchor: Elem, near: Near) {
    && c.id != anchor.id && anchor.own.frame.Some? && HasArea(c.own.frame)
    && var a, f := anchor.own.frame.value, c.own.frame.value;
       var dx, dy := CenterX(f) - CenterX(a), CenterY(f) - CenterY(a);
       && (match near.direction
           case LeftOf => dx < 0.0 && SpansOverlap(f.y, f.h, a.y, a.h)
           case RightOf => dx > 0.0 && SpansOverlap(f.y, f.h, a.y, a.h)
           case Above => dy < 0.0 && SpansOverlap(f.x, f.w, a.x, a.w)
           case Below => dy > 0.0 && SpansOverlap(f.x, f.w, a.x, a.w))
       && (near.maxDistance > 0.0 ==> dx * dx + dy * dy <= near.maxDistance * near.maxDistance)
  }

  // ---------- descendants and parents ----------

  // Some strict descendant of n has an id in ids.
  predicate ContainsAny(n: Elem, ids: set<nat>) {
    exists c :: c in n.children && (c.id in ids || ContainsAny(c, ids))
  }

  predicate HasChild(p: Elem, id: nat) {
    exists c :: c in p.children && c.id == id
  }

  // The parent of an element, looked up in a walk.
  function ParentIn(walk: seq<Elem>, id: nat): Option<Elem> {
    if walk == [] then None
    else if HasChild(walk[|walk| - 1], id) then Some(walk[|walk| - 1])
    else ParentIn(walk[..|walk| - 1], id)
  }

  // The parents of the elements of s with an id in ids, each once, in the order
  // in which their first such child comes.
  function DirectParents(s: seq<Elem>, ids: set<nat>, walk: seq<Elem>): seq<Elem> {
    if s == [] then []
    else
      var before, last := DirectParents(s[..|s| - 1], ids, walk), s[|s| - 1];
      var p := ParentIn(walk, last.id);
      if last.id in ids && p.Some? && p.value !in before then before + [p.value] else before
  }

  // ---------- candidates and resolution ----------

  datatype Candidates = These(list: seq<Elem>) | NoAnchor | ManyAnchors

  datatype Resolution = Hit(elem: Elem) | NoMatch | Ambiguous

  function FieldTest(f: FieldSpec, region: Option<Frame>): Elem -> bool {
    n => MatchesFields(f, n, region)
  }

  function AncestorTest(f: FieldSpec, region: Option<Frame>, ids: set<nat>): Elem -> bool {
    n => MatchesFields(f, n, region) && ContainsAny(n, ids)
  }

  function NearTest(anchor: Elem, near: Near): Elem -> bool {
    n => IsNear(n, anchor, near)
  }

  function Indexed(list: seq<Elem>, index: Option<nat>): seq<Elem> {
    if index.None? then list else if index.value >= |list| then [] else [list[index.value]]
  }

  function IdsOf(list: seq<Elem>): (ids: set<nat>)
    ensures forall i :: i in ids <==> exists x :: x in list && x.id == i
  {
    set x | x in list :: x.id
  }

  function ParentsOf(f: FieldSpec, walk: seq<Elem>, desc: seq<Elem>, region: Option<Frame>): seq<Elem> {
    if desc == [] then []
    else if Constrained(f) then Keep(walk, AncestorTest(f, region, IdsOf(desc)))
    else DirectParents(walk, IdsOf(desc), walk)
  }

  function FindCandidates(d: Pred, nodes: seq<Elem>, viewport: Option<Frame>): Candidates
    decreases d, 0
  {
    var walk := Walk(nodes);
    var region := Region(d.fields, walk, viewport);
    var found :=
      if d.parentOf.None? then These(Keep(walk, FieldTest(d.fields, region)))
      else
        var desc := FindCandidates(d.parentOf.value, nodes, viewport);
        if !desc.These? then desc
        else These(ParentsOf(d.fields, walk, Indexed(desc.list, d.parentOf.value.index), region));
    if d.near.None? || !found.These? then found
    else
      match Resolve(d.near.value.pred, nodes, viewport)
      case NoMatch => NoAnchor
      case Ambiguous => ManyAnchors
      case Hit(anchor) => These(Keep(found.list, NearTest(anchor, d.near.value)))
  }

  function Resolve(d: Pred, nodes: seq<Elem>, viewport: Option<Frame>): Resolution
    decreases d, 1
  {
    match FindCandidates(d, nodes, viewport)
    case NoAnchor => NoMatch
    case ManyAnchors => Ambiguous
    case These(list) =>
      if d.index.Some? then
        if d.index.value >= |list| then NoMatch else Hit(list[d.index.value])
      else if list == [] then NoMatch
      else if |list| == 1 then Hit(list[0])
      else Ambiguous
  }

  // ---------- the loops ----------

  /** The walk that collects matches. */
  method CollectMatches(nodes: seq<Elem>, test: Elem -> bool) returns (cands: seq<Elem>)
    ensures cands == Keep(Walk(nodes), test)
  {
    var walk := Walk(nodes);
    cands := [];
    var i := 0;
    while i < |walk|
      invariant i <= |walk| && cands == Keep(walk[..i], test)
    {
      assert walk[..i + 1][..i] == walk[..i];
      if test(walk[i]) {
        cands := cands + [walk[i]];
      }
      i := i + 1;
    }
    assert walk[..i] == walk;
  }

  /** The child-to-parent map of the whole tree. */
  method BuildParentMap(nodes: seq<Elem>) returns (parents: map<nat, Elem>)
    ensures forall id :: (id in parents <==> ParentIn(Walk(nodes), id).Some?)
    ensures forall id :: id in parents ==> ParentIn(Walk(nodes), id) == Some(parents[id])
  {
    var walk := Walk(nodes);
    parents := map[];
    var i := 0;
    while i < |walk|
      invariant i <= |walk|
      invariant forall id :: Entry(parents, id) == ParentIn(walk[..i], id)
    {
      assert walk[..i + 1][..i] == walk[..i];
      ghost var before := parents;
      var kids := walk[i].children;
      var j := 0;
      while j < |kids|
        invariant j <= |kids|
        invariant forall id :: Entry(parents, id) == if AmongFirst(kids, j, id) then Some(walk[i]) else Entry(before, id)
      {
        AmongNext(kids, j);
        ghost var was := parents;
        parents := parents[kids[j].id := walk[i]];
        forall id ensures Entry(parents, id) == if AmongFirst(kids, j + 1, id) then Some(walk[i]) else Entry(before, id) {
          assert Entry(was, id) == if AmongFirst(kids, j, id) then Some(walk[i]) else Entry(before, id);
        }
        j := j + 1;
      }
      assert forall id :: AmongFirst(kids, j, id) <==> HasChild(walk[i], id);
      i := i + 1;
    }
    assert walk[..i] == walk;
    assert forall id :: Entry(parents, id) == ParentIn(walk, id);
  }

  ghost predicate AmongFirst(kids: seq<Elem>, n: nat, id: nat)
    requires n <= |kids|
  {
    exists k :: 0 <= k < n && kids[k].id == id
  }

  lemma AmongNext(kids: seq<Elem>, n: nat)
    requires n < |kids|
    ensures forall id :: AmongFirst(kids, n + 1, id) <==> AmongFirst(kids, n, id) || kids[n].id == id
  {
    forall id | AmongFirst(kids, n, id) || kids[n].id == id ensures AmongFirst(kids, n + 1, id) {
      if AmongFirst(kids, n, id) {
        var k :| 0 <= k < n && kids[k].id == id;
        assert kids[k].id == id;
      }
    }
  }

  ghost function Entry(m: map<nat, Elem>, id: nat): Option<Elem> {
    if id in m then Some(m[id]) else None
  }

  /** The walk that collects direct parents with a set of those seen. */
  method CollectParents(nodes: seq<Elem>, ids: set<nat>) returns (cands: seq<Elem>)
    ensures cands == DirectParents(Walk(nodes), ids, Walk(nodes))
  {
    var walk := Walk(nodes);
    var parents := BuildParentMap(nodes);
    var seen: set<Elem> := {};
    cands := [];
    var i := 0;
    while i < |walk|
      invariant i <= |walk| && cands == DirectParents(walk[..i], ids, walk)
      invariant forall x :: x in seen <==> x in cands
    {
      assert walk[..i + 1][..i] == walk[..i];
      var n := walk[i];
      if n.id in ids && n.id in parents && parents[n.id] !in seen {
        seen := seen + {parents[n.id]};
        cands := cands + [parents[n.id]];
      }
      i := i + 1;
    }
    assert walk[..i] == walk;
  }

  // ---------- what the pieces mean ----------

  lemma {:induction false} ContainsAnyMeans(nodes: seq<Elem>, ids: set<nat>)
    ensures (exists c :: c in nodes && (c.id in ids || ContainsAny(c, ids))) <==> exists m :: m in Walk(nodes) && m.id in ids
  {
    if nodes != [] {
      var h, t := nodes[0], nodes[1..];
      ContainsAnyMeans(h.children, ids);
      ContainsAnyMeans(t, ids);
      assert nodes == [h] + t;
      assert Walk(nodes) == [h] + Walk(h.children) + Walk(t);
    }
  }

  // c is a child of p and is asked for.
  ghost predicate MatchedChild(c: Elem, p: Elem, ids: set<nat>) {
    c.id in ids && c in p.children
  }

  lemma {:induction false} ParentInMeans(walk: seq<Elem>, id: nat)
    ensures ParentIn(walk, id).Some? ==> ParentIn(walk, id).value in walk && HasChild(ParentIn(walk, id).value, id)
    ensures ParentIn(walk, id).None? ==> forall p :: p in walk ==> !HasChild(p, id)
  {
    if walk != [] {
      assert walk == walk[..|walk| - 1] + [walk[|walk| - 1]];
      ParentInMeans(walk[..|walk| - 1], id);
    }
  }

  // In a proper tree the lookup finds the one parent.
  lemma ParentInIsParent(nodes: seq<Elem>, c: Elem, p: Elem)
    requires Proper(nodes) && c in Walk(nodes)
    ensures ParentIn(Walk(nodes), c.id) == Some(p) <==> p in Walk(nodes) && c in p.children
  {
    var walk := Walk(nodes);
    ParentInMeans(walk, c.id);
    ProperWalk(nodes);
    var found := ParentIn(walk, c.id);
    if c in p.children {
      assert HasChild(p, c.id);
    }
    if found.Some? {
      var d :| d in found.value.children && d.id == c.id;
      ChildInWalk(nodes, found.value, d);
      SameIdSameElem(walk, c, d);
      if p in walk && c in p.children {
        OneParent(nodes, p, found.value, c);
      }
    }
  }

  // Parents come in the order of their first matched child: every matched child
  // of a later one is behind some matched child of each earlier one.
  ghost predicate ByFirstChild(r: seq<Elem>, s: seq<Elem>, ids: set<nat>) {
    forall i, j, k :: 0 <= i < j < |r| && 0 <= k < |s| && MatchedChild(s[k], r[j], ids) ==> MatchedBefore(s, k, r[i], ids)
  }

  ghost predicate MatchedBefore(s: seq<Elem>, k: nat, p: Elem, ids: set<nat>) {
    exists l :: 0 <= l < k <= |s| && MatchedChild(s[l], p, ids)
  }

  ghost predicate ExactlyParents(r: seq<Elem>, s: seq<Elem>, ids: set<nat>, nodes: seq<Elem>) {
    forall p :: p in r <==> p in Walk(nodes) && exists k :: 0 <= k < |s| && MatchedChild(s[k], p, ids)
  }

  lemma {:induction false} DirectParentsMeans(s: seq<Elem>, ids: set<nat>, nodes: seq<Elem>)
    requires Proper(nodes) && forall x :: x in s ==> x in Walk(nodes)
    ensures ExactlyParents(DirectParents(s, ids, Walk(nodes)), s, ids, nodes)
    ensures ByFirstChild(DirectParents(s, ids, Walk(nodes)), s, ids)
    ensures NoRepeats(DirectParents(s, ids, Walk(nodes)))
  {
    if s != [] {
      var front, last := s[..|s| - 1], s[|s| - 1];
      DirectParentsMeans(front, ids, nodes);
      assert s == front + [last];
      var before := DirectParents(front, ids, Walk(nodes));
      forall p ensures ParentIn(Walk(nodes), last.id) == Some(p) <==> p in Walk(nodes) && last in p.children {
        ParentInIsParent(nodes, last, p);
      }
      ParentsGrow(front, last, before, DirectParents(s, ids, Walk(nodes)), ids, nodes, ParentIn(Walk(nodes), last.id));
    }
  }

  // One more element of the walk, whose parent is p if it has one.
  ghost predicate Grows(before: seq<Elem>, after: seq<Elem>, last: Elem, ids: set<nat>, nodes: seq<Elem>, p: Option<Elem>) {
    && (forall q :: p == Some(q) <==> q in Walk(nodes) && last in q.children)
    && after == if last.id in ids && p.Some? && p.value !in before then before + [p.value] else before
  }

  lemma ParentsGrow(s: seq<Elem>, last: Elem, before: seq<Elem>, after: seq<Elem>, ids: set<nat>, nodes: seq<Elem>, p: Option<Elem>)
    requires Grows(before, after, last, ids, nodes, p)
    requires ExactlyParents(before, s, ids, nodes) && ByFirstChild(before, s, ids) && NoRepeats(before)
    ensures ExactlyParents(after, s + [last], ids, nodes) && ByFirstChild(after, s + [last], ids) && NoRepeats(after)
  {
    hide ExactlyParents, ByFirstChild, NoRepeats;
    ExactlyGrows(s, last, before, after, ids, nodes, p);
    OrderGrows(s, last, before, after, ids, nodes, p);
    if after != before {
      NoRepeatsAppend(before, p.value);
    }
  }

  lemma OrderGrows(s: seq<Elem>, last: Elem, before: seq<Elem>, after: seq<Elem>, ids: set<nat>, nodes: seq<Elem>, p: Option<Elem>)
    requires Grows(before, after, last, ids, nodes, p)
    requires ExactlyParents(before, s, ids, nodes) && ByFirstChild(before, s, ids)
    ensures ByFirstChild(after, s + [last], ids)
  {
    hide ExactlyParents, Grows, MatchedChild, MatchedBefore;
    var t := s + [last];
    forall i, j, k | 0 <= i < j < |after| && 0 <= k < |t| && MatchedChild(t[k], after[j], ids)
      ensures MatchedBefore(t, k, after[i], ids)
    {
      EarlierChild(s, last, before, after, ids, nodes, p, i, j, k);
    }
  }

  lemma ExactlyGrows(s: seq<Elem>, last: Elem, before: seq<Elem>, after: seq<Elem>, ids: set<nat>, nodes: seq<Elem>, p: Option<Elem>)
    requires Grows(before, after, last, ids, nodes, p) && ExactlyParents(before, s, ids, nodes)
    ensures ExactlyParents(after, s + [last], ids, nodes)
  {
    var t := s + [last];
    forall q ensures q in after <==> q in Walk(nodes) && exists k :: 0 <= k < |t| && MatchedChild(t[k], q, ids) {
      if k :| 0 <= k < |s| && MatchedChild(s[k], q, ids) {
        assert MatchedChild(t[k], q, ids);
      }
      if MatchedChild(last, q, ids) {
        assert MatchedChild(t[|s|], q, ids);
      }
    }
  }

  lemma EarlierChild(s: seq<Elem>, last: Elem, before: seq<Elem>, after: seq<Elem>, ids: set<nat>, nodes: seq<Elem>, p: Option<Elem>, i: nat, j: nat, k: nat)
    requires Grows(before, after, last, ids, nodes, p)
    requires ExactlyParents(before, s, ids, nodes) && ByFirstChild(before, s, ids)
    requires i < j < |after| && k <= |s| && MatchedChild((s + [last])[k], after[j], ids)
    ensures MatchedBefore(s + [last], k, after[i], ids)
  {
    hide Walk, MatchedChild;
    var t := s + [last];
    assert after[i] == before[i] && after[i] in before;
    var l: int;
    if k < |s| {
      assert MatchedChild(s[k], after[j], ids);
      assert j < |before| && MatchedBefore(s, k, before[i], ids);
      l :| 0 <= l < k && MatchedChild(s[l], before[i], ids);
    } else {
      l :| 0 <= l < |s| && MatchedChild(s[l], after[i], ids);
    }
    assert t[l] == s[l];
  }

  // ---------- what candidates mean ----------

  lemma {:induction false} NobodyContainsNothing(walk: seq<Elem>, f: FieldSpec, region: Option<Frame>, ids: set<nat>)
    requires ids == {}
    ensures Keep(walk, AncestorTest(f, region, ids)) == []
  {
    if walk != [] {
      NobodyContainsNothing(walk[..|walk| - 1], f, region, ids);
      ContainsAnyMeans(walk[|walk| - 1].children, ids);
    }
  }

  /** The plain form and the form with field constraints are the depth-first
      filter of the tree: by the fields alone, or by the fields and having a
      strict descendant among those asked for. */
  lemma FilterForms(d: Pred, nodes: seq<Elem>, viewport: Option<Frame>, x: Elem)
    requires Proper(nodes) && d.near.None?
    requires d.parentOf.Some? ==> FindCandidates(d.parentOf.value, nodes, viewport).These?
    ensures var region := Region(d.fields, Walk(nodes), viewport);
      d.parentOf.None? ==>
        && FindCandidates(d, nodes, viewport) == These(Keep(Walk(nodes), FieldTest(d.fields, region)))
        && (x in FindCandidates(d, nodes, viewport).list <==> x in Walk(nodes) && MatchesFields(d.fields, x, region))
    ensures d.parentOf.Some? && Constrained(d.fields) ==>
      var region := Region(d.fields, Walk(nodes), viewport);
      var asked := Indexed(FindCandidates(d.parentOf.value, nodes, viewport).list, d.parentOf.value.index);
      && FindCandidates(d, nodes, viewport) == These(Keep(Walk(nodes), AncestorTest(d.fields, region, IdsOf(asked))))
      && (AncestorTest(d.fields, region, IdsOf(asked))(x) <==>
           MatchesFields(d.fields, x, region) && exists m :: m in Walk(x.children) && m.id in IdsOf(asked))
      && (x in FindCandidates(d, nodes, viewport).list <==>
           x in Walk(nodes) && MatchesFields(d.fields, x, region) && exists m :: m in Walk(x.children) && m.id in IdsOf(asked))
  {
    var region := Region(d.fields, Walk(nodes), viewport);
    if d.parentOf.None? {
      KeepFacts(Walk(nodes), FieldTest(d.fields, region));
    } else if Constrained(d.fields) {
      var asked := Indexed(FindCandidates(d.parentOf.value, nodes, viewport).list, d.parentOf.value.index);
      KeepFacts(Walk(nodes), AncestorTest(d.fields, region, IdsOf(asked)));
      ContainsAnyMeans(x.children, IdsOf(asked));
      if asked == [] {
        NobodyContainsNothing(Walk(nodes), d.fields, region, IdsOf(asked));
      }
      assert ContainsAny(x, IdsOf(asked)) <==> exists m :: m in Walk(x.children) && m.id in IdsOf(asked);
    }
  }

  /** Without field constraints the candidates are exactly the direct parents of
      those asked for, ordered by their first such child. */
  lemma DirectParentForm(d: Pred, nodes: seq<Elem>, viewport: Option<Frame>)
    requires Proper(nodes) && d.near.None? && d.parentOf.Some? && !Constrained(d.fields)
    requires FindCandidates(d.parentOf.value, nodes, viewport).These?
    ensures var asked := Indexed(FindCandidates(d.parentOf.value, nodes, viewport).list, d.parentOf.value.index);
      var found := FindCandidates(d, nodes, viewport);
      && found.These?
      && ExactlyParents(found.list, Walk(nodes), IdsOf(asked), nodes)
      && ByFirstChild(found.list, Walk(nodes), IdsOf(asked))
  {
    var asked := Indexed(FindCandidates(d.parentOf.value, nodes, viewport).list, d.parentOf.value.index);
    DirectParentsMeans(Walk(nodes), IdsOf(asked), nodes);
    if asked == [] {
      assert IdsOf(asked) == {};
    }
  }

  lemma ParentsOfDistinct(f: FieldSpec, nodes: seq<Elem>, desc: seq<Elem>, region: Option<Frame>)
    requires Proper(nodes)
    ensures var r := ParentsOf(f, Walk(nodes), desc, region);
      DistinctIds(r) && forall x :: x in r ==> x in Walk(nodes)
  {
    ProperWalk(nodes);
    if desc != [] && Constrained(f) {
      KeepFacts(Walk(nodes), AncestorTest(f, region, IdsOf(desc)));
    } else if desc != [] {
      DirectParentsMeans(Walk(nodes), IdsOf(desc), nodes);
      var r := DirectParents(Walk(nodes), IdsOf(desc), Walk(nodes));
      forall i, j | 0 <= i < j < |r| ensures r[i].id != r[j].id {
        if r[i].id == r[j].id {
          assert r[i] in r && r[j] in r;
          SameIdSameElem(Walk(nodes), r[i], r[j]);
        }
      }
    }
  }

  /** Candidates are elements of the tree, no two the same. */
  lemma CandidatesAreDistinct(d: Pred, nodes: seq<Elem>, viewport: Option<Frame>)
    requires Proper(nodes)
    ensures var c := FindCandidates(d, nodes, viewport);
      c.These? ==> DistinctIds(c.list) && forall x :: x in c.list ==> x in Walk(nodes)
  {
    var walk := Walk(nodes);
    var region := Region(d.fields, walk, viewport);
    ProperWalk(nodes);
    KeepFacts(walk, FieldTest(d.fields, region));
    if d.parentOf.Some? {
      var desc := FindCandidates(d.parentOf.value, nodes, viewport);
      if desc.These? {
        ParentsOfDistinct(d.fields, nodes, Indexed(desc.list, d.parentOf.value.index), region);
      }
    }
    if d.near.Some? {
      var found := FindCandidates(d.(near := None), nodes, viewport);
      match Resolve(d.near.value.pred, nodes, viewport) {
        case Hit(anchor) =>
          if found.These? {
            KeepFacts(found.list, NearTest(anchor, d.near.value));
          }
        case _ =>
      }
    }
  }

  /** What is near lies on the named side of the anchor, level with it, and within
      the distance. */
  lemma NearPoints(c: Elem, anchor: Elem, near: Near)
    requires IsNear(c, anchor, near)
    ensures c.id != anchor.id && anchor.own.frame.Some? && HasArea(c.own.frame)
    ensures var a, f := anchor.own.frame.value, c.own.frame.value;
      && (near.direction.LeftOf? ==> CenterX(f) < CenterX(a)) && (near.direction.RightOf? ==> CenterX(f) > CenterX(a))
      && (near.direction.Above? ==> CenterY(f) < CenterY(a)) && (near.direction.Below? ==> CenterY(f) > CenterY(a))
      && (near.direction.LeftOf? || near.direction.RightOf? ==> f.y < a.y + a.h && a.y < f.y + f.h)
      && (near.direction.Above? || near.direction.Below? ==> f.x < a.x + a.w && a.x < f.x + f.w)
  {
  }

  function Opposite(d: Direction): Direction {
    match d
    case LeftOf => RightOf
    case RightOf => LeftOf
    case Above => Below
    case Below => Above
  }

  /** Of two elements with an area, one is near the other exactly when the other is
      near it on the opposite side. */
  lemma NearIsMutual(c: Elem, anchor: Elem, near: Near)
    requires HasArea(c.own.frame) && HasArea(anchor.own.frame)
    ensures IsNear(c, anchor, near) <==> IsNear(anchor, c, near.(direction := Opposite(near.direction)))
  {
    var a, f := anchor.own.frame.value, c.own.frame.value;
    var dx, dy := CenterX(f) - CenterX(a), CenterY(f) - CenterY(a);
    assert (-dx) * (-dx) == dx * dx && (-dy) * (-dy) == dy * dy;
    assert CenterX(a) - CenterX(f) == -dx && CenterY(a) - CenterY(f) == -dy;
  }

  predicate Inside(f: Frame, b: Frame) {
    b.x <= f.x && f.x + f.w <= b.x + b.w && b.y <= f.y && f.y + f.h <= b.y + b.h
  }

  /** Without a viewport the region is the smallest box around all elements with an
      area: each lies inside, and any box that holds them all holds it. */
  lemma {:induction false} BoxIsSmallest(walk: seq<Elem>, b: Frame)
    ensures Box(walk).None? <==> forall n :: n in walk ==> !HasArea(n.own.frame)
    ensures Box(walk).Some? ==> forall n :: n in walk && HasArea(n.own.frame) ==> Inside(n.own.frame.value, Box(walk).value)
    ensures (forall n :: n in walk && HasArea(n.own.frame) ==> Inside(n.own.frame.value, b)) && Box(walk).Some? ==>
      Inside(Box(walk).value, b)
  {
    if walk != [] {
      BoxIsSmallest(walk[..|walk| - 1], b);
      assert walk == walk[..|walk| - 1] + [walk[|walk| - 1]];
    }
  }

  /** Near filters the candidates the predicate would have without it, keeps
      their order and never the anchor. */
  lemma NearFilters(d: Pred, nodes: seq<Elem>, viewport: Option<Frame>, anchor: Elem, x: Elem)
    requires d.near.Some? && Resolve(d.near.value.pred, nodes, viewport) == Hit(anchor)
    requires FindCandidates(d.(near := None), nodes, viewport).These?
    ensures var c := FindCandidates(d, nodes, viewport);
      && c.These? && anchor !in c.list
      && (x in c.list <==> x in FindCandidates(d.(near := None), nodes, viewport).list && IsNear(x, anchor, d.near.value))
  {
    KeepFacts(FindCandidates(d.(near := None), nodes, viewport).list, NearTest(anchor, d.near.value));
  }

  /** Without an index a predicate resolves to an element exactly when that is the
      only candidate; with several it is ambiguous, with none it does not match. */
  lemma ResolvesIffUnique(d: Pred, nodes: seq<Elem>, viewport: Option<Frame>, x: Elem)
    requires Proper(nodes) && d.index.None?
    ensures var c := FindCandidates(d, nodes, viewport);
      && (Resolve(d, nodes, viewport) == Hit(x) <==> c.These? && x in c.list && forall y :: y in c.list ==> y == x)
      && (c.These? && c.list == [] ==> Resolve(d, nodes, viewport) == NoMatch)
      && (c.These? && (exists y, z :: y in c.list && z in c.list && y != z) ==> Resolve(d, nodes, viewport) == Ambiguous)
  {
    hide *;
    CandidatesAreDistinct(d, nodes, viewport);
    ResolveCounts(d, nodes, viewport);
    var c := FindCandidates(d, nodes, viewport);
    if c.These? {
      OnlyIff(c.list, x);
    }
  }

  lemma ResolveCounts(d: Pred, nodes: seq<Elem>, viewport: Option<Frame>)
    requires d.index.None?
    ensures var c := FindCandidates(d, nodes, viewport);
      Resolve(d, nodes, viewport) ==
        if c.NoAnchor? then NoMatch
        else if c.ManyAnchors? then Ambiguous
        else if c.list == [] then NoMatch else if |c.list| == 1 then Hit(c.list[0]) else Ambiguous
  {
    hide FindCandidates;
  }

  lemma OnlyIff(list: seq<Elem>, x: Elem)
    requires DistinctIds(list)
    ensures |list| == 1 && list[0] == x <==> x in list && forall y :: y in list ==> y == x
    ensures (exists y, z :: y in list && z in list && y != z) ==> |list| > 1
  {
    if |list| > 1 {
      assert list[0] in list && list[1] in list && list[0].id != list[1].id;
    }
  }

  // walk[i] passes the test, and k elements before it do.
  ghost predicate IsKth(walk: seq<Elem>, test: Elem -> bool, i: nat, k: nat) {
    i < |walk| && test(walk[i]) && |Keep(walk[..i], test)| == k
  }

  // The k-th element kept is the one with k kept before it.
  lemma {:induction false} KeptAt(s: seq<Elem>, p: Elem -> bool, k: nat) returns (i: nat)
    requires k < |Keep(s, p)|
    ensures i < |s| && s[i] == Keep(s, p)[k] && p(s[i]) && |Keep(s[..i], p)| == k
  {
    var n := |s| - 1;
    if k < |Keep(s[..n], p)| {
      i := KeptAt(s[..n], p, k);
      assert s[..n][..i] == s[..i];
    } else {
      i := n;
    }
  }

  /** With an index k a predicate resolves to candidate k, counted from zero, and
      to nothing when there are not that many. */
  lemma IndexPicks(d: Pred, nodes: seq<Elem>, viewport: Option<Frame>)
    requires d.index.Some?
    ensures var c, k := FindCandidates(d, nodes, viewport), d.index.value;
      && (c.These? && k < |c.list| ==> Resolve(d, nodes, viewport) == Hit(c.list[k]))
      && (c.These? && k >= |c.list| ==> Resolve(d, nodes, viewport) == NoMatch)
  {
  }

  /** For a predicate over fields alone that is the element with exactly k matching
      elements before it in the walk. */
  lemma IndexPicksKth(d: Pred, nodes: seq<Elem>, viewport: Option<Frame>) returns (i: nat)
    requires d.index.Some? && d.parentOf.None? && d.near.None? && Resolve(d, nodes, viewport).Hit?
    ensures IsKth(Walk(nodes), FieldTest(d.fields, Region(d.fields, Walk(nodes), viewport)), i, d.index.value)
    ensures Resolve(d, nodes, viewport) == Hit(Walk(nodes)[i])
  {
    var walk := Walk(nodes);
    i := KeptAt(walk, FieldTest(d.fields, Region(d.fields, walk, viewport)), d.index.value);
  }

  /** An index inside a parent-of form narrows it to that one descendant. */
  lemma IndexNarrows(list: seq<Elem>, index: Option<nat>)
    ensures index.None? ==> Indexed(list, index) == list
    ensures index.Some? && index.value < |list| ==> Indexed(list, index) == [list[index.value]]
    ensures index.Some? && index.value >= |list| ==> Indexed(list, index) == []
  {
  }
}
