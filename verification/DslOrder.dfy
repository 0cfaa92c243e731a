// The order of candidates. All forms but one list them depth first; this is about
// the one that does not, `parent_of` without field constraints.
module DslOrder {
  import opened Common
  import opened Compaction
  import opened Dsl
  import opened Tree

  // ---------- positions in a walk ----------

  // At i stands an element, directly followed by everything below it.
  ghost predicate Followed(w: seq<Elem>, i: nat) {
    i < |w| && i + 1 + |Walk(w[i].children)| <= |w| && w[i + 1..i + 1 + |Walk(w[i].children)|] == Walk(w[i].children)
  }

  lemma FollowedAtTop(h: Elem, b: seq<Elem>)
    ensures Followed([h] + Walk(h.children) + b, 0)
  {
    hide Walk;
    assert ([h] + Walk(h.children) + b)[1..1 + |Walk(h.children)|] == Walk(h.children);
  }

  lemma FollowedInside(h: Elem, a: seq<Elem>, b: seq<Elem>, i: nat)
    requires Followed(a, i)
    ensures Followed([h] + a + b, i + 1)
  {
    hide Walk;
    var w, n := [h] + a + b, |Walk(a[i].children)|;
    assert w[i + 2..i + 2 + n] == a[i + 1..i + 1 + n];
  }

  lemma FollowedBehind(h: Elem, a: seq<Elem>, b: seq<Elem>, i: nat)
    requires Followed(b, i)
    ensures Followed([h] + a + b, 1 + |a| + i)
  {
    hide Walk;
    var w, k, n := [h] + a + b, 1 + |a| + i, |Walk(b[i].children)|;
    assert w[k + 1..k + 1 + n] == b[i + 1..i + 1 + n];
  }

  lemma {:induction false} SubtreeFollows(nodes: seq<Elem>, i: nat)
    requires i < |Walk(nodes)|
    ensures Followed(Walk(nodes), i)
  {
    hide Followed;
    var h, t := nodes[0], nodes[1..];
    var a, b := Walk(h.children), Walk(t);
    if i == 0 {
      FollowedAtTop(h, b);
    } else if i <= |a| {
      SubtreeFollows(h.children, i - 1);
      FollowedInside(h, a, b, i - 1);
    } else {
      SubtreeFollows(t, i - 1 - |a|);
      FollowedBehind(h, a, b, i - 1 - |a|);
    }
  }

  lemma SamePlace(w: seq<Elem>, i: nat, j: nat)
    requires DistinctIds(w) && i < |w| && j < |w| && w[i] == w[j]
    ensures i == j
  {
  }

  lemma InSlice(w: seq<Elem>, lo: nat, hi: nat, x: Elem)
    requires lo <= hi <= |w|
    ensures x in w[lo..hi] <==> exists k :: lo <= k < hi && w[k] == x
  {
    if x in w[lo..hi] {
      var k :| 0 <= k < hi - lo && w[lo..hi][k] == x;
      assert w[lo + k] == x;
    }
    if k :| lo <= k < hi && w[k] == x {
      assert w[lo..hi][k - lo] == x;
    }
  }

  // What is below w[i] is exactly what comes in its stretch of the walk.
  lemma BelowIsStretch(nodes: seq<Elem>, i: nat, j: nat)
    requires Proper(nodes) && i < |Walk(nodes)| && j < |Walk(nodes)|
    ensures var w := Walk(nodes);
      w[j] in Walk(w[i].children) <==> i < j <= i + |Walk(w[i].children)|
  {
    hide Walk, Proper;
    ProperWalk(nodes);
    SubtreeFollows(nodes, i);
    var w := Walk(nodes);
    var n := |Walk(w[i].children)|;
    InSlice(w, i + 1, i + 1 + n, w[j]);
    if w[j] in Walk(w[i].children) {
      var k :| i + 1 <= k < i + 1 + n && w[k] == w[j];
      SamePlace(w, j, k);
    }
  }

  // ---------- lists in walk order ----------

  ghost predicate InWalkOrder(r: seq<Elem>, w: seq<Elem>) {
    forall i, j, a, b :: 0 <= i < j < |r| && 0 <= a < |w| && 0 <= b < |w| && w[a] == r[i] && w[b] == r[j] ==> a < b
  }

  lemma AppendInOrder(r: seq<Elem>, w: seq<Elem>, n: nat)
    requires DistinctIds(w) && n < |w| && InWalkOrder(r, w) && forall x :: x in r ==> x in w[..n]
    ensures InWalkOrder(r + [w[n]], w)
  {
    var s := r + [w[n]];
    forall i, j, a, b | 0 <= i < j < |s| && 0 <= a < |w| && 0 <= b < |w| && w[a] == s[i] && w[b] == s[j] ensures a < b {
      assert s[i] in r;
      if j == |r| {
        var c :| 0 <= c < n && w[..n][c] == s[i];
        SamePlace(w, a, c);
        SamePlace(w, b, n);
      }
    }
  }

  lemma {:induction false} KeepInWalkOrder(w: seq<Elem>, n: nat, p: Elem -> bool)
    requires DistinctIds(w) && n <= |w|
    ensures InWalkOrder(Keep(w[..n], p), w)
  {
    hide InWalkOrder;
    if n == 0 {
      NothingInOrder(w);
    } else {
      KeepInWalkOrder(w, n - 1, p);
      assert w[..n][..n - 1] == w[..n - 1];
      KeepFacts(w[..n - 1], p);
      AppendInOrder(Keep(w[..n - 1], p), w, n - 1);
      assert Keep(w[..n - 1], p) + [] == Keep(w[..n - 1], p);
    }
  }

  lemma NothingInOrder(w: seq<Elem>)
    ensures InWalkOrder([], w)
  {
  }

  // Order and members determine such a list.
  lemma {:induction false} OrderDetermines(r: seq<Elem>, k: seq<Elem>, w: seq<Elem>)
    requires InWalkOrder(r, w) && InWalkOrder(k, w) && NoRepeats(r) && NoRepeats(k)
    requires forall x :: x in r <==> x in k
    requires forall x :: x in r ==> x in w
    ensures r == k
  {
    hide InWalkOrder, NoRepeats;
    assert r == [] || r[0] in k;
    assert k == [] || k[0] in r;
    if r != [] {
      LastIsLast(r, k, w);
      NoRepeatsFront(r);
      NoRepeatsFront(k);
      FrontInOrder(r, w);
      FrontInOrder(k, w);
      assert r == r[..|r| - 1] + [r[|r| - 1]] && k == k[..|k| - 1] + [k[|k| - 1]];
      SameFronts(r[..|r| - 1], k[..|k| - 1], r[|r| - 1]);
      OrderDetermines(r[..|r| - 1], k[..|k| - 1], w);
    }
  }

  lemma FrontInOrder(r: seq<Elem>, w: seq<Elem>)
    requires InWalkOrder(r, w) && r != []
    ensures InWalkOrder(r[..|r| - 1], w)
  {
  }

  lemma SameFronts(r: seq<Elem>, k: seq<Elem>, x: Elem)
    requires x !in r && x !in k
    requires forall y :: y in r + [x] <==> y in k + [x]
    ensures forall y :: y in r <==> y in k
  {
    forall y ensures y in r <==> y in k {
      assert y in r + [x] <==> y in k + [x];
    }
  }

  lemma LastIsLast(r: seq<Elem>, k: seq<Elem>, w: seq<Elem>)
    requires InWalkOrder(r, w) && InWalkOrder(k, w) && r != [] && k != []
    requires forall x :: x in r <==> x in k
    requires forall x :: x in r ==> x in w
    ensures r[|r| - 1] == k[|k| - 1]
  {
    var x, y := r[|r| - 1], k[|k| - 1];
    assert x in k && y in r && x in w && y in w;
    var i :| 0 <= i < |k| && k[i] == x;
    var j :| 0 <= j < |r| && r[j] == y;
    var a :| 0 <= a < |w| && w[a] == x;
    var b :| 0 <= b < |w| && w[b] == y;
    assert i < |k| - 1 ==> a < b;
    assert j < |r| - 1 ==> b < a;
  }

  // ---------- when direct parents come depth first ----------

  function ChildTest(ids: set<nat>): Elem -> bool {
    (p: Elem) => exists c: Elem :: c in p.children && c.id in ids
  }

  // Where one parent lies below another, each child asked for of the lower one is
  // behind some child asked for of the upper one.
  ghost predicate NestedInOrder(nodes: seq<Elem>, ids: set<nat>) {
    var w := Walk(nodes);
    forall p, q, k :: p in w && ChildTest(ids)(p) && q in Walk(p.children) && 0 <= k < |w| && MatchedChild(w[k], q, ids) ==>
      MatchedBefore(w, k, p, ids)
  }

  // The first child asked for of an element.
  lemma {:induction false} FirstMatched(w: seq<Elem>, p: Elem, ids: set<nat>, n: nat) returns (k: nat)
    requires n < |w| && MatchedChild(w[n], p, ids)
    ensures k <= n && MatchedChild(w[k], p, ids) && !MatchedBefore(w, k, p, ids)
    decreases n
  {
    k := n;
    if MatchedBefore(w, n, p, ids) {
      var l :| 0 <= l < n && MatchedChild(w[l], p, ids);
      k := FirstMatched(w, p, ids, l);
    }
  }

  lemma ChildBelow(nodes: seq<Elem>, i: nat, k: nat, ids: set<nat>)
    requires Proper(nodes) && i < |Walk(nodes)| && k < |Walk(nodes)| && MatchedChild(Walk(nodes)[k], Walk(nodes)[i], ids)
    ensures i < k <= i + |Walk(Walk(nodes)[i].children)|
  {
    var w := Walk(nodes);
    RootsInWalk(w[i].children, w[k]);
    BelowIsStretch(nodes, i, k);
  }

  // Two parents, each child asked for of w[b] behind one of w[a]: then w[a] comes
  // first in the walk too, if nested parents are in order, because unrelated ones
  // have their children apart.
  lemma FirstChildFirst(nodes: seq<Elem>, ids: set<nat>, a: nat, b: nat, n: nat)
    requires Proper(nodes) && NestedInOrder(nodes, ids)
    requires a < |Walk(nodes)| && b < |Walk(nodes)| && a != b && n < |Walk(nodes)|
    requires var w := Walk(nodes);
      && MatchedChild(w[n], w[b], ids)
      && (forall k: nat :: k < |w| && MatchedChild(w[k], w[b], ids) ==> MatchedBefore(w, k, w[a], ids))
    ensures a < b
  {
    hide Walk, Proper;
    var w := Walk(nodes);
    var p, q := w[a], w[b];
    var k := FirstMatched(w, q, ids, n);
    assert MatchedBefore(w, k, p, ids);
    var l :| 0 <= l < k && MatchedChild(w[l], p, ids);
    assert q in w && w[n] in q.children && ChildTest(ids)(q);
    assert p in Walk(q.children) ==> MatchedBefore(w, l, q, ids);
    assert MatchedBefore(w, l, q, ids) ==> MatchedBefore(w, k, q, ids);
    ChildBelow(nodes, b, k, ids);
    ChildBelow(nodes, a, l, ids);
    BelowIsStretch(nodes, b, a);
  }

  lemma ParentsInWalkOrder(nodes: seq<Elem>, ids: set<nat>, r: seq<Elem>)
    requires Proper(nodes) && NestedInOrder(nodes, ids)
    requires ExactlyParents(r, Walk(nodes), ids, nodes) && ByFirstChild(r, Walk(nodes), ids) && NoRepeats(r)
    ensures InWalkOrder(r, Walk(nodes))
  {
    hide NestedInOrder, Walk, Proper;
    var w := Walk(nodes);
    forall i, j, a, b | 0 <= i < j < |r| && 0 <= a < |w| && 0 <= b < |w| && w[a] == r[i] && w[b] == r[j] ensures a < b {
      assert r[j] in r && r[i] != r[j];
      var n :| 0 <= n < |w| && MatchedChild(w[n], r[j], ids);
      FirstChildFirst(nodes, ids, a, b, n);
    }
  }

  lemma OrderedMeansNested(nodes: seq<Elem>, ids: set<nat>, r: seq<Elem>)
    requires Proper(nodes) && InWalkOrder(r, Walk(nodes))
    requires ExactlyParents(r, Walk(nodes), ids, nodes) && ByFirstChild(r, Walk(nodes), ids)
    ensures NestedInOrder(nodes, ids)
  {
    hide Walk, Proper, InWalkOrder, ExactlyParents, ByFirstChild, MatchedChild, MatchedBefore, ChildTest;
    var w := Walk(nodes);
    forall p, q, k | p in w && ChildTest(ids)(p) && q in Walk(p.children) && 0 <= k < |w| && MatchedChild(w[k], q, ids)
      ensures MatchedBefore(w, k, p, ids)
    {
      NestedPair(nodes, ids, r, p, q, k);
    }
  }

  lemma NestedPair(nodes: seq<Elem>, ids: set<nat>, r: seq<Elem>, p: Elem, q: Elem, k: nat)
    requires Proper(nodes) && InWalkOrder(r, Walk(nodes))
    requires ExactlyParents(r, Walk(nodes), ids, nodes) && ByFirstChild(r, Walk(nodes), ids)
    requires p in Walk(nodes) && ChildTest(ids)(p) && q in Walk(p.children)
    requires k < |Walk(nodes)| && MatchedChild(Walk(nodes)[k], q, ids)
    ensures MatchedBefore(Walk(nodes), k, p, ids)
  {
    hide Walk, Proper, InWalkOrder, ChildTest, MatchedBefore;
    var w := Walk(nodes);
    ChildTestMeans(nodes, ids, p);
    var a: nat :| a < |w| && w[a] == p;
    SubtreeFollows(nodes, a);
    InSlice(w, a + 1, a + 1 + |Walk(p.children)|, q);
    var b: nat :| a < b < |w| && w[b] == q;
    assert p in r && q in r;
    var i: nat :| i < |r| && r[i] == p;
    var j: nat :| j < |r| && r[j] == q;
    EarlierInList(nodes, r, i, j, a, b);
    assert MatchedChild(w[k], r[j], ids);
  }

  lemma EarlierInList(nodes: seq<Elem>, r: seq<Elem>, i: nat, j: nat, a: nat, b: nat)
    requires Proper(nodes) && InWalkOrder(r, Walk(nodes)) && i < |r| && j < |r| && a < b < |Walk(nodes)|
    requires Walk(nodes)[a] == r[i] && Walk(nodes)[b] == r[j]
    ensures i < j
  {
    hide Walk, Proper;
    ProperWalk(nodes);
    var w := Walk(nodes);
    assert w[a].id != w[b].id;
    assert j < i ==> b < a;
  }

  lemma ChildTestMeans(nodes: seq<Elem>, ids: set<nat>, p: Elem)
    requires p in Walk(nodes)
    ensures ChildTest(ids)(p) <==> exists k :: 0 <= k < |Walk(nodes)| && MatchedChild(Walk(nodes)[k], p, ids)
  {
    if c :| c in p.children && c.id in ids {
      ChildInWalk(nodes, p, c);
      var k :| 0 <= k < |Walk(nodes)| && Walk(nodes)[k] == c;
      assert MatchedChild(Walk(nodes)[k], p, ids);
    }
  }

  lemma DirectParentsDepthFirstIff(nodes: seq<Elem>, ids: set<nat>)
    requires Proper(nodes)
    ensures DirectParents(Walk(nodes), ids, Walk(nodes)) == Keep(Walk(nodes), ChildTest(ids)) <==> NestedInOrder(nodes, ids)
  {
    hide NestedInOrder, InWalkOrder, DirectParents, ByFirstChild, NoRepeats;
    var w := Walk(nodes);
    var r, k := DirectParents(w, ids, w), Keep(w, ChildTest(ids));
    DirectParentsMeans(w, ids, nodes);
    ProperWalk(nodes);
    KeepFacts(w, ChildTest(ids));
    assert w[..|w|] == w;
    KeepInWalkOrder(w, |w|, ChildTest(ids));
    if r == k {
      OrderedMeansNested(nodes, ids, r);
    }
    if NestedInOrder(nodes, ids) {
      ParentsInWalkOrder(nodes, ids, r);
      forall x ensures x in r <==> x in k {
        if x in w {
          ChildTestMeans(nodes, ids, x);
        }
      }
      DistinctHasNoRepeats(k);
      OrderDetermines(r, k, w);
    }
  }

  lemma DistinctHasNoRepeats(s: seq<Elem>)
    requires DistinctIds(s)
    ensures NoRepeats(s)
  {
  }

  /** Without field constraints the candidates of `parent_of` come depth first, as
      documented, exactly when nested parents are in order. */
  lemma DepthFirstIffNestedInOrder(d: Pred, nodes: seq<Elem>, viewport: Option<Frame>)
    requires Proper(nodes) && d.near.None? && d.parentOf.Some? && !Constrained(d.fields)
    requires FindCandidates(d.parentOf.value, nodes, viewport).These?
    ensures var asked := Indexed(FindCandidates(d.parentOf.value, nodes, viewport).list, d.parentOf.value.index);
      FindCandidates(d, nodes, viewport) == These(Keep(Walk(nodes), ChildTest(IdsOf(asked)))) <==> NestedInOrder(nodes, IdsOf(asked))
  {
    hide NestedInOrder, Walk, Keep, Proper;
    var asked := Indexed(FindCandidates(d.parentOf.value, nodes, viewport).list, d.parentOf.value.index);
    DirectParentsDepthFirstIff(nodes, IdsOf(asked));
    if asked == [] {
      NoParentsOfNothing(Walk(nodes), IdsOf(asked), Walk(nodes));
    }
  }

  lemma {:induction false} NoParentsOfNothing(s: seq<Elem>, ids: set<nat>, walk: seq<Elem>)
    requires ids == {}
    ensures DirectParents(s, ids, walk) == []
  {
    if s != [] {
      NoParentsOfNothing(s[..|s| - 1], ids, walk);
    }
  }

  // ---------- a predicate whose candidates are out of order ----------

  // parent_of asks for the static texts.
  function ParentOfTexts(): Pred {
    var any := FieldSpec("", "", None, "", "", None);
    Pred(any, None, None, Some(Pred(any.(role := "StaticText"), None, None, None)))
  }

  // A cell with a text inside a cell with a text behind it.
  function NestedCells(): seq<Elem> {
    var cell, text := Own("Cell", "", "", "", "", None, true, false), Own("StaticText", "t", "", "", "", None, false, false);
    [Elem(0, cell, [Elem(1, cell, [Elem(2, text, [])]), Elem(3, text, [])])]
  }

  lemma NestedTree(c1: Elem, c2: Elem, inner: Elem, outer: Elem)
    requires c1.children == [] && c2.children == [] && inner.children == [c1] && outer.children == [inner, c2]
    requires c1.id == 2 && c2.id == 3 && inner.id == 1 && outer.id == 0
    ensures Walk([outer]) == [outer, inner, c1, c2] && Proper([outer])
  {
    assert [c1][1..] == [] && [c2][1..] == [];
    assert Walk([c1]) == [c1] && Walk([c2]) == [c2];
    assert Proper([c1]) && Proper([c2]);
    var kids := [inner, c2];
    assert kids[1..] == [c2];
    assert Walk(kids) == [inner, c1, c2];
    assert Proper(kids);
    assert [outer][1..] == [];
    assert Walk([outer]) == [outer] + Walk(kids) + Walk([]);
  }

  lemma InnerTextComesFirst(c1: Elem, c2: Elem, inner: Elem, outer: Elem, ids: set<nat>)
    requires inner.children == [c1] && outer.children == [inner, c2] && ids == {2, 3}
    requires c1.id == 2 && c2.id == 3 && inner.id == 1 && outer.id == 0
    requires Walk([outer]) == [outer, inner, c1, c2] && inner in Walk(outer.children)
    ensures !NestedInOrder([outer], ids)
  {
    hide Walk;
    var w := Walk([outer]);
    assert MatchedChild(w[2], inner, ids) && c2 in outer.children;
    assert ChildTest(ids)(outer) && outer in w;
    assert !MatchedChild(w[0], outer, ids) && !MatchedChild(w[1], outer, ids);
    assert !MatchedBefore(w, 2, outer, ids);
  }

  lemma KeepTwoOfFour(a: Elem, b: Elem, c: Elem, d: Elem, p: Elem -> bool)
    requires !p(a) && !p(b) && p(c) && p(d)
    ensures Keep([a, b, c, d], p) == [c, d]
  {
    assert [a][..0] == [];
    assert Keep([a], p) == [];
    assert [a, b][..1] == [a];
    assert Keep([a, b], p) == [];
    assert [a, b, c][..2] == [a, b];
    assert Keep([a, b, c], p) == [c];
    assert [a, b, c, d][..3] == [a, b, c];
  }

  /** The documented order fails on a tree and a predicate of the language: the
      nested cell, whose text comes first, is listed before the cell around it. */
  lemma ParentsOutOfWalkOrder()
    ensures Proper(NestedCells())
    ensures var d, nodes := ParentOfTexts(), NestedCells();
      var asked := FindCandidates(d.parentOf.value, nodes, None);
      && asked.These? && IdsOf(asked.list) == {2, 3}
      && FindCandidates(d, nodes, None) != These(Keep(Walk(nodes), ChildTest(IdsOf(asked.list))))
  {
    hide Walk, Proper, Keep, NestedInOrder, DirectParents, ChildTest;
    var d, nodes := ParentOfTexts(), NestedCells();
    var outer := nodes[0];
    var inner, c2 := outer.children[0], outer.children[1];
    var c1 := inner.children[0];
    NestedTree(c1, c2, inner, outer);
    assert nodes == [outer];
    var test := FieldTest(d.parentOf.value.fields, None);
    KeepTwoOfFour(outer, inner, c1, c2, test);
    var asked := FindCandidates(d.parentOf.value, nodes, None);
    assert asked == These([c1, c2]);
    RootsInWalk(outer.children, inner);
    InnerTextComesFirst(c1, c2, inner, outer, IdsOf(asked.list));
    DepthFirstIffNestedInOrder(d, nodes, None);
  }
}
