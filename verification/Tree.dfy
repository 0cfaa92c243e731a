// Node trees in memory: every element has an identity of its own, whatever its
// fields. The order of all matchers is the depth-first walk.
module Tree {
  import opened Common
  import opened Compaction

  datatype Elem = Elem(id: nat, own: Own, children: seq<Elem>)

  function CenterX(f: Frame): real { f.x + f.w / 2.0 }
  function CenterY(f: Frame): real { f.y + f.h / 2.0 }

  predicate HasArea(f: Option<Frame>) {
    f.Some? && f.value.w > 0.0 && f.value.h > 0.0
  }

  // The frame's centre lies in the box, its right and lower edges excluded.
  predicate CenteredIn(f: Frame, box: Frame) {
    box.x <= CenterX(f) < box.x + box.w && box.y <= CenterY(f) < box.y + box.h
  }

  function Walk(nodes: seq<Elem>): seq<Elem> {
    if nodes == [] then [] else [nodes[0]] + Walk(nodes[0].children) + Walk(nodes[1..])
  }

  ghost predicate Disjoint(a: seq<Elem>, b: seq<Elem>) {
    forall x, y :: x in a && y in b ==> x.id != y.id
  }

  // No element occurs twice.
  ghost predicate Proper(nodes: seq<Elem>) {
    nodes != [] ==>
      var h, t := nodes[0], nodes[1..];
      && Proper(h.children) && Proper(t)
      && Disjoint([h], Walk(h.children)) && Disjoint([h], Walk(t)) && Disjoint(Walk(h.children), Walk(t))
  }

  ghost predicate DistinctIds(s: seq<Elem>) {
    forall i, j :: 0 <= i < j < |s| ==> s[i].id != s[j].id
  }

  lemma DistinctJoins(a: seq<Elem>, b: seq<Elem>)
    requires DistinctIds(a) && DistinctIds(b) && Disjoint(a, b)
    ensures DistinctIds(a + b)
  {
    forall i, j | 0 <= i < j < |a + b| ensures (a + b)[i].id != (a + b)[j].id {
      if i < |a| <= j {
        assert a[i] in a && b[j - |a|] in b;
      }
    }
  }

  lemma {:induction false} ProperWalk(nodes: seq<Elem>)
    requires Proper(nodes)
    ensures DistinctIds(Walk(nodes))
  {
    if nodes != [] {
      var h, t := nodes[0], nodes[1..];
      ProperWalk(h.children);
      ProperWalk(t);
      DistinctJoins([h], Walk(h.children));
      assert Disjoint([h] + Walk(h.children), Walk(t));
      DistinctJoins([h] + Walk(h.children), Walk(t));
    }
  }

  lemma SameIdSameElem(s: seq<Elem>, x: Elem, y: Elem)
    requires DistinctIds(s) && x in s && y in s && x.id == y.id
    ensures x == y
  {
  }

  lemma {:induction false} RootsInWalk(nodes: seq<Elem>, c: Elem)
    requires c in nodes
    ensures c in Walk(nodes)
  {
    if c != nodes[0] {
      RootsInWalk(nodes[1..], c);
    }
  }

  lemma {:induction false} ChildInWalk(nodes: seq<Elem>, p: Elem, c: Elem)
    requires p in Walk(nodes) && c in p.children
    ensures c in Walk(nodes)
  {
    var h, t := nodes[0], nodes[1..];
    if p == h {
      RootsInWalk(h.children, c);
    } else if p in Walk(h.children) {
      ChildInWalk(h.children, p, c);
    } else {
      assert p in Walk(t);
      ChildInWalk(t, p, c);
    }
  }

  // A top element is nobody's child.
  lemma {:induction false} RootIsNoChild(nodes: seq<Elem>, c: Elem, q: Elem)
    requires Proper(nodes) && c in nodes && q in Walk(nodes)
    ensures c !in q.children
  {
    if c in q.children {
      var h, t := nodes[0], nodes[1..];
      if q == h {
        RootsInWalk(h.children, c);
      } else if q in Walk(h.children) {
        ChildInWalk(h.children, q, c);
      } else {
        assert q in Walk(t);
        ChildInWalk(t, q, c);
      }
      if c != h {
        assert c in t;
        RootsInWalk(t, c);
        if q in Walk(t) {
          RootIsNoChild(t, c, q);
        }
      }
    }
  }

  /** An element of a proper tree has one parent. */
  lemma {:induction false} OneParent(nodes: seq<Elem>, p: Elem, q: Elem, c: Elem)
    requires Proper(nodes) && p in Walk(nodes) && q in Walk(nodes) && c in p.children && c in q.children
    ensures p == q
  {
    var h, t := nodes[0], nodes[1..];
    if p == h && q == h {
    } else if p == h {
      OneParentOfTop(nodes, q, c);
    } else if q == h {
      OneParentOfTop(nodes, p, c);
    } else {
      if p in Walk(h.children) {
        ChildInWalk(h.children, p, c);
      } else {
        ChildInWalk(t, p, c);
      }
      if q in Walk(h.children) {
        ChildInWalk(h.children, q, c);
      } else {
        ChildInWalk(t, q, c);
      }
      if p in Walk(h.children) && q in Walk(h.children) {
        OneParent(h.children, p, q, c);
      } else if p in Walk(t) && q in Walk(t) {
        OneParent(t, p, q, c);
      }
    }
  }

  lemma OneParentOfTop(nodes: seq<Elem>, q: Elem, c: Elem)
    requires Proper(nodes) && nodes != [] && q in Walk(nodes) && c in nodes[0].children && c in q.children
    ensures q == nodes[0]
  {
    var h, t := nodes[0], nodes[1..];
    RootsInWalk(h.children, c);
    if q in Walk(h.children) {
      RootIsNoChild(h.children, c, q);
    } else if q in Walk(t) {
      ChildInWalk(t, q, c);
    }
  }

  // ---------- filters of the walk ----------

  // The members of s that pass, in order.
  function Keep(s: seq<Elem>, p: Elem -> bool): seq<Elem> {
    if s == [] then [] else Keep(s[..|s| - 1], p) + if p(s[|s| - 1]) then [s[|s| - 1]] else []
  }

  lemma {:induction false} KeepFacts(s: seq<Elem>, p: Elem -> bool)
    ensures forall x :: x in Keep(s, p) <==> x in s && p(x)
    ensures DistinctIds(s) ==> DistinctIds(Keep(s, p))
  {
    if s != [] {
      var front, last := s[..|s| - 1], s[|s| - 1];
      assert s == front + [last];
      KeepFacts(front, p);
      if DistinctIds(s) {
        assert Disjoint(front, [last]) && DistinctIds(front);
        if p(last) {
          DistinctJoins(Keep(front, p), [last]);
        }
      }
    }
  }
}
