// Server-side filters of a node tree, and the recognition of elements the
// system draws rather than the app.
module TreeFilter {
  import opened Common
  import opened Compaction

  // ---------- system chrome ----------

  const MAX_THICKNESS: real := 12.0
  const MIN_ELONGATION: real := 3.0

  function Lower(c: char): char {
    if 'A' <= c <= 'Z' then c - 'A' + 'a' else c
  }

  predicate StartsWithFold(s: string, prefix: string) {
    |prefix| <= |s| && forall i :: 0 <= i < |prefix| ==> Lower(s[i]) == prefix[i]
  }

  // A bar: thin, and much longer than thick.
  predicate BarShaped(f: Frame) {
    var thin, long := if f.w < f.h then f.w else f.h, if f.w < f.h then f.h else f.w;
    f.w > 0.0 && f.h > 0.0 && thin <= MAX_THICKNESS && long >= MIN_ELONGATION * thin
  }

  predicate IsScrollIndicator(o: Own, leaf: bool) {
    && (o.role == "Slider" || o.role == "ScrollBar")
    && (|| StartsWithFold(o.labelText, "vertical scroll bar") || StartsWithFold(o.labelText, "horizontal scroll bar")
        || (o.labelText == "" && o.identifier == "" && leaf && o.frame.Some? && BarShaped(o.frame.value)))
  }

  predicate IsChromeContainer(o: Own) {
    || o.role == "Keyboard" || o.role == "StatusBar"
    || o.identifier == "SystemInputAssistantView" || "UIStatusBar" <= o.identifier || "StatusBar" <= o.identifier
  }

  predicate IsChrome(n: Node) {
    IsChromeContainer(n.own) || IsScrollIndicator(n.own, n.children == []) || n.own.role == "Key"
  }

  // ---------- filtering ----------

  datatype Filter = Filter(interactiveOnly: bool, roles: set<string>, excludeChrome: bool)

  predicate Satisfies(f: Filter, o: Own) {
    (f.interactiveOnly ==> o.interactable) && (f.roles != {} ==> o.role in f.roles)
  }

  predicate Dropped(f: Filter, n: Node) {
    f.excludeChrome && IsChrome(n)
  }

  function FilterNodes(nodes: seq<Node>, f: Filter): seq<Node> {
    if nodes == [] then []
    else
      var n, rest := nodes[0], FilterNodes(nodes[1..], f);
      var kids := FilterNodes(n.children, f);
      if Dropped(f, n) || (!Satisfies(f, n.own) && kids == []) then rest else [Node(n.own, kids)] + rest
  }

  // ---------- paths ----------

  // A place in a tree: which top node, which of its children, and so on.
  type Path = seq<nat>

  predicate InTree(nodes: seq<Node>, p: Path) {
    p != [] && p[0] < |nodes| && (|p| > 1 ==> InTree(nodes[p[0]].children, p[1..]))
  }

  function NodeAt(nodes: seq<Node>, p: Path): Node
    requires InTree(nodes, p)
  {
    if |p| == 1 then nodes[p[0]] else NodeAt(nodes[p[0]].children, p[1..])
  }

  // Nothing on the way down to p, the end included, is dropped chrome.
  ghost predicate Reachable(nodes: seq<Node>, p: Path, f: Filter)
    requires InTree(nodes, p)
  {
    !Dropped(f, nodes[p[0]]) && (|p| > 1 ==> Reachable(nodes[p[0]].children, p[1..], f))
  }

  // At q is a satisfying node that survives.
  ghost predicate Found(nodes: seq<Node>, q: Path, f: Filter) {
    InTree(nodes, q) && Reachable(nodes, q, f) && Satisfies(f, NodeAt(nodes, q).own)
  }

  // The node satisfies the filter, or something surviving below it does.
  ghost predicate Wanted(n: Node, f: Filter) {
    Satisfies(f, n.own) || exists q :: Found(n.children, q, f)
  }

  // Something remains of a forest exactly when a satisfying node survives in it.
  lemma {:induction false} RemainsIffFound(nodes: seq<Node>, f: Filter)
    ensures FilterNodes(nodes, f) != [] <==> exists q :: Found(nodes, q, f)
  {
    hide Satisfies, Dropped;
    if nodes != [] {
      var n, t := nodes[0], nodes[1..];
      RemainsIffFound(n.children, f);
      RemainsIffFound(t, f);
      if FilterNodes(nodes, f) != [] {
        if !Dropped(f, n) && Satisfies(f, n.own) {
          assert Found(nodes, [0], f);
        } else if !Dropped(f, n) && FilterNodes(n.children, f) != [] {
          var q :| Found(n.children, q, f);
          Under(nodes, 0, q, f);
          assert Found(nodes, [0] + q, f);
        } else {
          var q :| Found(t, q, f);
          Shifted(nodes, q, f);
          assert Found(nodes, [q[0] + 1] + q[1..], f);
        }
      }
      if q :| Found(nodes, q, f) {
        if q[0] > 0 {
          var p := [q[0] - 1] + q[1..];
          assert p[1..] == q[1..] && t[q[0] - 1] == nodes[q[0]];
          assert Found(t, p, f);
        } else if |q| > 1 {
          assert Found(n.children, q[1..], f);
        }
      }
    }
  }

  lemma Under(nodes: seq<Node>, i: nat, q: Path, f: Filter)
    requires i < |nodes| && InTree(nodes[i].children, q)
    ensures InTree(nodes, [i] + q) && NodeAt(nodes, [i] + q) == NodeAt(nodes[i].children, q)
    ensures Reachable(nodes, [i] + q, f) <==> !Dropped(f, nodes[i]) && Reachable(nodes[i].children, q, f)
  {
    assert ([i] + q)[1..] == q;
  }

  lemma Shifted(nodes: seq<Node>, q: Path, f: Filter)
    requires nodes != [] && InTree(nodes[1..], q)
    ensures var p := [q[0] + 1] + q[1..];
      InTree(nodes, p) && NodeAt(nodes, p) == NodeAt(nodes[1..], q) && (Reachable(nodes, p, f) <==> Reachable(nodes[1..], q, f))
  {
    var p := [q[0] + 1] + q[1..];
    assert p[1..] == q[1..];
    assert nodes[1..][q[0]] == nodes[p[0]];
  }

  // ---------- what is kept ----------

  // The own fields of the kept nodes, depth first, read off the input tree.
  ghost function KeptOwns(nodes: seq<Node>, f: Filter): seq<Own> {
    if nodes == [] then []
    else
      var n := nodes[0];
      (if Dropped(f, n) || !Wanted(n, f) then [] else [n.own] + KeptOwns(n.children, f)) + KeptOwns(nodes[1..], f)
  }

  // The own fields of a tree, depth first.
  function Owns(nodes: seq<Node>): seq<Own> {
    if nodes == [] then [] else [nodes[0].own] + Owns(nodes[0].children) + Owns(nodes[1..])
  }

  /** The filtered tree, read depth first, is exactly the input read depth first
      without dropped chrome, its subtrees, and the nodes neither wanted
      themselves nor for something below them. */
  lemma {:induction false} FilterKeepsExactlyTheWanted(nodes: seq<Node>, f: Filter)
    ensures Owns(FilterNodes(nodes, f)) == KeptOwns(nodes, f)
  {
    if nodes != [] {
      var n, t := nodes[0], nodes[1..];
      FilterKeepsExactlyTheWanted(n.children, f);
      FilterKeepsExactlyTheWanted(t, f);
      RemainsIffFound(n.children, f);
      var kids, rest := FilterNodes(n.children, f), FilterNodes(t, f);
      if !Dropped(f, n) && (Satisfies(f, n.own) || kids != []) {
        var out := [Node(n.own, kids)] + rest;
        assert out[1..] == rest;
        assert Owns(out) == [n.own] + Owns(kids) + Owns(rest);
        assert FilterNodes(nodes, f) == out && Wanted(n, f);
      } else {
        assert FilterNodes(nodes, f) == rest && (Dropped(f, n) || !Wanted(n, f));
      }
    }
  }

  /** What remains, told by the fields: with the filter for interactive elements no
      leaf is passive, with roles no leaf has another role, and without system chrome
      no keyboard, key or status bar is left anywhere. */
  lemma {:induction false} LeavesFit(nodes: seq<Node>, f: Filter, n: Node, x: Node)
    requires n in FilterNodes(nodes, f) && Within(n, x)
    ensures x.children == [] && f.interactiveOnly ==> x.own.interactable
    ensures x.children == [] && f.roles != {} ==> x.own.role in f.roles
    ensures f.excludeChrome ==>
      && x.own.role !in {"Keyboard", "StatusBar", "Key"} && x.own.identifier != "SystemInputAssistantView"
      && !("UIStatusBar" <= x.own.identifier) && !("StatusBar" <= x.own.identifier)
    decreases nodes
  {
    var m, t := nodes[0], nodes[1..];
    if n in FilterNodes(t, f) {
      LeavesFit(t, f, n, x);
    } else {
      assert n == Node(m.own, FilterNodes(m.children, f));
      if x != n {
        var c :| c in n.children && Within(c, x);
        LeavesFit(m.children, f, c, x);
      }
    }
  }

  // ---------- filtering twice ----------

  // Every node satisfies the filter or has a child, all the way down, and none
  // is dropped.
  ghost predicate Stable(n: Node, f: Filter) {
    && !Dropped(f, n) && (Satisfies(f, n.own) || n.children != [])
    && forall c :: c in n.children ==> Stable(c, f)
  }

  lemma {:induction false} StableIsUnchanged(nodes: seq<Node>, f: Filter)
    requires forall n :: n in nodes ==> Stable(n, f)
    ensures FilterNodes(nodes, f) == nodes
  {
    if nodes != [] {
      assert Stable(nodes[0], f);
      StableIsUnchanged(nodes[0].children, f);
      StableIsUnchanged(nodes[1..], f);
    }
  }

  // What filtering leaves, apart from what the children say about chrome.
  lemma {:induction false} FilteredIsStable(nodes: seq<Node>, f: Filter)
    requires forall n :: n in FilterNodes(nodes, f) ==> ChromeFree(n, f)
    ensures forall n :: n in FilterNodes(nodes, f) ==> Stable(n, f)
  {
    if nodes != [] {
      var n, t := nodes[0], nodes[1..];
      var kids := FilterNodes(n.children, f);
      if !Dropped(f, n) && (Satisfies(f, n.own) || kids != []) {
        assert FilterNodes(nodes, f) == [Node(n.own, kids)] + FilterNodes(t, f);
        assert ChromeFree(Node(n.own, kids), f);
        FilteredIsStable(n.children, f);
        assert forall m :: m in FilterNodes(t, f) ==> m in FilterNodes(nodes, f);
        FilteredIsStable(t, f);
      } else {
        assert FilterNodes(nodes, f) == FilterNodes(t, f);
        FilteredIsStable(t, f);
      }
    }
  }

  // No node of the tree would be dropped as chrome.
  ghost predicate ChromeFree(n: Node, f: Filter) {
    !Dropped(f, n) && forall c :: c in n.children ==> ChromeFree(c, f)
  }

  lemma {:induction false} UnchangedIsChromeFree(nodes: seq<Node>, f: Filter)
    requires FilterNodes(nodes, f) == nodes
    ensures forall n :: n in nodes ==> ChromeFree(n, f)
  {
    if nodes != [] {
      var n, t := nodes[0], nodes[1..];
      LengthShrinks(t, f);
      assert FilterNodes(nodes, f)[1..] == FilterNodes(t, f);
      assert FilterNodes(n.children, f) == n.children;
      UnchangedIsChromeFree(n.children, f);
      UnchangedIsChromeFree(t, f);
    }
  }

  lemma {:induction false} LengthShrinks(nodes: seq<Node>, f: Filter)
    ensures |FilterNodes(nodes, f)| <= |nodes|
  {
    if nodes != [] {
      LengthShrinks(nodes[1..], f);
    }
  }

  // A second pass finds the first one's output as it is exactly when nothing in it
  // reads as chrome by itself.
  lemma UnchangedIffChromeFree(nodes: seq<Node>, f: Filter)
    ensures var out := FilterNodes(nodes, f);
      FilterNodes(out, f) == out <==> forall n :: n in out ==> ChromeFree(n, f)
  {
    var out := FilterNodes(nodes, f);
    if FilterNodes(out, f) == out {
      UnchangedIsChromeFree(out, f);
    }
    if forall n :: n in out ==> ChromeFree(n, f) {
      FilteredIsStable(nodes, f);
      StableIsUnchanged(out, f);
    }
  }

  // A node the filter wants for itself, whose children all go, and which is taken
  // for a scroll indicator as soon as it has none.
  ghost predicate Hollow(n: Node, f: Filter) {
    && f.excludeChrome && Satisfies(f, n.own)
    && n.children != [] && (forall q :: !Found(n.children, q, f))
    && IsScrollIndicator(n.own, true)
  }

  // There is one below nothing that is dropped.
  ghost predicate HasHollow(nodes: seq<Node>, f: Filter) {
    exists n :: n in nodes && !Dropped(f, n) && (Hollow(n, f) || HasHollow(n.children, f))
  }

  lemma {:induction false} HollowSurvives(nodes: seq<Node>, f: Filter)
    requires HasHollow(nodes, f)
    ensures FilterNodes(nodes, f) != []
  {
    var n :| n in nodes && !Dropped(f, n) && (Hollow(n, f) || HasHollow(n.children, f));
    if n == nodes[0] {
      if !Hollow(n, f) {
        HollowSurvives(n.children, f);
      }
    } else {
      assert n in nodes[1..];
      HollowSurvives(nodes[1..], f);
    }
  }

  // A kept node becomes chrome only by losing all its children.
  lemma BecomesChromeIffHollow(n: Node, f: Filter)
    requires !Dropped(f, n) && (Satisfies(f, n.own) || FilterNodes(n.children, f) != [])
    ensures Dropped(f, Node(n.own, FilterNodes(n.children, f))) <==> Hollow(n, f)
  {
    hide IsChromeContainer;
    RemainsIffFound(n.children, f);
    LengthShrinks(n.children, f);
  }

  lemma {:induction false} ChromeFreeIffNoHollow(nodes: seq<Node>, f: Filter)
    ensures (forall m :: m in FilterNodes(nodes, f) ==> ChromeFree(m, f)) <==> !HasHollow(nodes, f)
  {
    if nodes != [] {
      var n, t := nodes[0], nodes[1..];
      var kids, rest := FilterNodes(n.children, f), FilterNodes(t, f);
      ChromeFreeIffNoHollow(n.children, f);
      ChromeFreeIffNoHollow(t, f);
      assert nodes == [n] + t;
      assert HasHollow(nodes, f) <==> (!Dropped(f, n) && (Hollow(n, f) || HasHollow(n.children, f))) || HasHollow(t, f);
      if Dropped(f, n) || (!Satisfies(f, n.own) && kids == []) {
        if HasHollow(n.children, f) {
          HollowSurvives(n.children, f);
        }
      } else {
        BecomesChromeIffHollow(n, f);
        assert FilterNodes(nodes, f) == [Node(n.own, kids)] + rest;
        assert ChromeFree(Node(n.own, kids), f) <==> !Hollow(n, f) && !HasHollow(n.children, f);
      }
    }
  }

  /** Filtering twice is filtering once exactly when the input has no wanted node,
      below nothing dropped, that loses all its children and is a scroll indicator
      without them; without chrome exclusion there is none. */
  lemma FilterIsIdempotentIff(nodes: seq<Node>, f: Filter)
    ensures FilterNodes(FilterNodes(nodes, f), f) == FilterNodes(nodes, f) <==> !HasHollow(nodes, f)
    ensures !f.excludeChrome ==> FilterNodes(FilterNodes(nodes, f), f) == FilterNodes(nodes, f)
  {
    UnchangedIffChromeFree(nodes, f);
    ChromeFreeIffNoHollow(nodes, f);
    if !f.excludeChrome {
      NoneHollow(nodes, f);
    }
  }

  lemma {:induction false} NoneHollow(nodes: seq<Node>, f: Filter)
    requires !f.excludeChrome
    ensures !HasHollow(nodes, f)
  {
    forall n | n in nodes ensures !HasHollow(n.children, f) {
      NoneHollow(n.children, f);
    }
  }

  // With chrome exclusion a second pass can drop more: a bar-shaped slider with a
  // child is no scroll indicator until the first pass has taken the child.
  lemma SecondPassCanDropMore()
    ensures exists nodes, f :: FilterNodes(FilterNodes(nodes, f), f) != FilterNodes(nodes, f)
  {
    var bar := Own("Slider", "", "", "", "", Some(Frame(0.0, 0.0, 4.0, 40.0)), true, false);
    var plain := Own("Image", "", "", "", "", None, false, false);
    var f := Filter(true, {}, true);
    var child := Node(plain, []);
    var nodes := [Node(bar, [child])];
    assert FilterNodes([], f) == [];
    assert [child][1..] == [] && nodes[1..] == [];
    assert FilterNodes([child], f) == [];
    var out := [Node(bar, [])];
    assert !IsChromeContainer(bar);
    assert FilterNodes(nodes, f) == out;
    assert IsScrollIndicator(bar, true);
    assert out[1..] == [];
    assert FilterNodes(out, f) == [];
  }
}
