// Ranked search: among all elements that match a predicate, the one an agent
// most likely means.
module FindBest {
  import opened Common
  import opened Compaction
  import opened Tree

  datatype Query = Query(
    role: string, id: string, labelText: string, value: string, placeholder: string, exact: bool, inFrame: Option<Frame>)

  predicate MatchText(have: string, want: string, exact: bool) {
    want == "" || (if exact then have == want else Contains(have, want))
  }

  predicate Matches(q: Query, n: Elem) {
    && (q.role != "" ==> n.own.role == q.role)
    && (q.id != "" ==> n.own.identifier == q.id)
    && MatchText(n.own.labelText, q.labelText, q.exact) && MatchText(n.own.value, q.value, q.exact)
    && (q.placeholder != "" ==>
         MatchText(n.own.placeholder, q.placeholder, q.exact) || MatchText(n.own.value, q.placeholder, q.exact))
    && (q.inFrame.Some? ==>
         && n.own.frame.Some?
         && q.inFrame.value.x <= CenterX(n.own.frame.value) <= q.inFrame.value.x + q.inFrame.value.w
         && q.inFrame.value.y <= CenterY(n.own.frame.value) <= q.inFrame.value.y + q.inFrame.value.h)
  }

  predicate ExactHit(q: Query, n: Elem) {
    && (q.labelText != "" ==> n.own.labelText == q.labelText)
    && (q.value != "" ==> n.own.value == q.value)
    && (q.placeholder != "" ==> n.own.placeholder == q.placeholder || n.own.value == q.placeholder)
  }

  predicate Framed(n: Elem) {
    HasArea(n.own.frame)
  }

  predicate OnViewport(n: Elem, viewport: Option<Frame>) {
    Framed(n) && (viewport.Some? ==> CenteredIn(n.own.frame.value, viewport.value))
  }

  // Lower wins, field by field; `order` is the position among the matches.
  datatype Rank = Rank(untappable: nat, offscreen: nat, inexact: nat, passive: nat, area: real, order: nat)

  // All elements without a frame carry this area, so it never decides.
  const NO_AREA: real := 0.0

  function RankOf(q: Query, n: Elem, viewport: Option<Frame>, order: nat): Rank {
    Rank(
      if Framed(n) then 0 else 1,
      if Framed(n) && !OnViewport(n, viewport) then 1 else 0,
      if ExactHit(q, n) then 0 else 1,
      if n.own.interactable then 0 else 1,
      if Framed(n) then n.own.frame.value.w * n.own.frame.value.h else NO_AREA,
      order)
  }

  predicate Less(a: Rank, b: Rank) {
    if a.untappable != b.untappable then a.untappable < b.untappable
    else if a.offscreen != b.offscreen then a.offscreen < b.offscreen
    else if a.inexact != b.inexact then a.inexact < b.inexact
    else if a.passive != b.passive then a.passive < b.passive
    else if a.area != b.area then a.area < b.area
    else a.order < b.order
  }

  // How many matches come before position k of the walk.
  function MatchesBefore(q: Query, walk: seq<Elem>, k: nat): nat
    requires k <= |walk|
  {
    if k == 0 then 0 else MatchesBefore(q, walk, k - 1) + if Matches(q, walk[k - 1]) then 1 else 0
  }

  function RankAt(q: Query, walk: seq<Elem>, viewport: Option<Frame>, k: nat): Rank
    requires k < |walk|
  {
    RankOf(q, walk[k], viewport, MatchesBefore(q, walk, k))
  }

  // Position k holds the strict minimum of all matches up to n.
  ghost predicate IsBest(q: Query, walk: seq<Elem>, viewport: Option<Frame>, n: nat, k: nat) {
    && k < n <= |walk| && Matches(q, walk[k])
    && forall j: nat :: j < n && j != k && Matches(q, walk[j]) ==> Less(RankAt(q, walk, viewport, k), RankAt(q, walk, viewport, j))
  }

  lemma {:induction false} OrdersGrow(q: Query, walk: seq<Elem>, i: nat, j: nat)
    requires i < j <= |walk| && Matches(q, walk[i])
    ensures MatchesBefore(q, walk, i) < MatchesBefore(q, walk, j)
  {
    if i + 1 < j {
      OrdersGrow(q, walk, i, j - 1);
    }
  }

  // The order of two different ranks is strict one way or the other.
  lemma NewcomerLoses(q: Query, walk: seq<Elem>, viewport: Option<Frame>, k: nat, i: nat)
    requires k < i < |walk| && Matches(q, walk[k]) && Matches(q, walk[i])
    requires !Less(RankAt(q, walk, viewport, i), RankAt(q, walk, viewport, k))
    ensures Less(RankAt(q, walk, viewport, k), RankAt(q, walk, viewport, i))
  {
    OrdersGrow(q, walk, k, i);
  }

  lemma LessTransitive(a: Rank, b: Rank, c: Rank)
    requires Less(a, b) && Less(b, c)
    ensures Less(a, c)
  {
  }

  /** The walk that keeps the best match so far returns the strict minimum of the
      rank among all matches, and nothing exactly when nothing matches. */
  method Search(q: Query, nodes: seq<Elem>, viewport: Option<Frame>) returns (best: Option<Elem>, ghost at: nat)
    ensures best.None? <==> forall n :: n in Walk(nodes) ==> !Matches(q, n)
    ensures best.Some? ==> IsBest(q, Walk(nodes), viewport, |Walk(nodes)|, at) && best.value == Walk(nodes)[at]
  {
    hide Matches, RankOf, Less, Walk;
    var walk := Walk(nodes);
    best, at := None, 0;
    var bestRank := Rank(0, 0, 0, 0, 0.0, 0);
    var order := 0;
    var i := 0;
    while i < |walk|
      invariant i <= |walk| && order == MatchesBefore(q, walk, i)
      invariant best.None? ==> forall j :: 0 <= j < i ==> !Matches(q, walk[j])
      invariant best.Some? ==>
        IsBest(q, walk, viewport, i, at) && best.value == walk[at] && bestRank == RankAt(q, walk, viewport, at)
    {
      var n := walk[i];
      if Matches(q, n) {
        var r := RankOf(q, n, viewport, order);
        if best.None? || Less(r, bestRank) {
          if best.Some? {
            forall j: nat | j < i && Matches(q, walk[j]) ensures Less(r, RankAt(q, walk, viewport, j)) {
              if j != at {
                LessTransitive(r, bestRank, RankAt(q, walk, viewport, j));
              }
            }
          }
          best, bestRank := Some(n), r;
          at := i;
        } else {
          NewcomerLoses(q, walk, viewport, at, i);
        }
        order := order + 1;
      }
      i := i + 1;
    }
    forall n | n in walk && best.None? ensures !Matches(q, n) {
      var j :| 0 <= j < |walk| && walk[j] == n;
    }
  }

  /** There is one best position. */
  lemma BestIsUnique(q: Query, walk: seq<Elem>, viewport: Option<Frame>, k: nat, l: nat)
    requires IsBest(q, walk, viewport, |walk|, k) && IsBest(q, walk, viewport, |walk|, l)
    ensures k == l
  {
    if k != l {
      LessTransitive(RankAt(q, walk, viewport, k), RankAt(q, walk, viewport, l), RankAt(q, walk, viewport, k));
    }
  }

  ghost predicate SameView(a: Elem, b: Elem, viewport: Option<Frame>) {
    Framed(a) == Framed(b) && OnViewport(a, viewport) == OnViewport(b, viewport)
  }

  /** A match on the viewport is never beaten by one that is off it, nor one with a
      frame by one without; then by nothing less exact, less interactable, larger,
      or later in the walk. */
  lemma VisibleMatchesWin(q: Query, walk: seq<Elem>, viewport: Option<Frame>, k: nat, j: nat)
    requires IsBest(q, walk, viewport, |walk|, k) && j < |walk| && Matches(q, walk[j])
    ensures Framed(walk[j]) ==> Framed(walk[k])
    ensures OnViewport(walk[j], viewport) ==> OnViewport(walk[k], viewport)
    ensures SameView(walk[j], walk[k], viewport) && ExactHit(q, walk[j]) ==> ExactHit(q, walk[k])
    ensures SameView(walk[j], walk[k], viewport) && ExactHit(q, walk[j]) == ExactHit(q, walk[k]) && walk[j].own.interactable ==>
      walk[k].own.interactable
    ensures SameView(walk[j], walk[k], viewport) && ExactHit(q, walk[j]) == ExactHit(q, walk[k]) ==>
      walk[j].own.interactable == walk[k].own.interactable ==>
        && (Framed(walk[k]) ==> Area(walk[k]) <= Area(walk[j]))
        && (Framed(walk[k]) ==> Area(walk[k]) == Area(walk[j]) ==> k <= j)
        && (!Framed(walk[k]) ==> k <= j)
  {
    if j < k {
      OrdersGrow(q, walk, j, k);
    }
  }

  function Area(n: Elem): real {
    if n.own.frame.None? then 0.0 else n.own.frame.value.w * n.own.frame.value.h
  }
}
