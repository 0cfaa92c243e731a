// The gesture loop that scrolls a list until a visitor has seen enough, the list
// has ended, or a budget is spent, over every sequence of observations.
module Scroll {
  import opened Common
  import opened Compaction
  import opened Stability
  import opened TextSet
  import opened Tree

  const SETTLE_SAMPLES := 2
  const END_OF_LIST_NON_MOVES := 2

  datatype Obs = Obs(nodes: seq<Elem>, viewport: Option<Frame>)

  ghost function Texts(o: Obs, norm: string -> string): set<string> {
    TextsOf(Walk(o.nodes), o.viewport, norm)
  }

  method TextsShown(o: Obs, norm: string -> string) returns (r: set<string>)
    ensures r == Texts(o, norm)
  {
    r := CollectTextSet(o.nodes, o.viewport, norm);
  }

  // ---------- settling ----------

  // The two polls before k are consecutive, readable and show the same texts.
  ghost predicate SettledAt(polls: seq<Poll<Obs>>, norm: string -> string, k: nat) {
    && SETTLE_SAMPLES <= k <= |polls| && polls[k - 1].Seen? && polls[k - 2].Seen?
    && Texts(polls[k - 1].v, norm) == Texts(polls[k - 2].v, norm)
  }

  // The last readable poll among the first k.
  ghost predicate LastSeen(polls: seq<Poll<Obs>>, k: nat, o: Obs) {
    exists i :: 0 <= i < k <= |polls| && polls[i] == Seen(o) && forall j :: i < j < k ==> !polls[j].Seen?
  }

  datatype Settle = Settled(obs: Obs) | NotReadable | SettleError

  /** The settled screen is the first one seen twice running with the same texts;
      if the budget ends first it is the last readable one. */
  method SettleObservation(polls: seq<Poll<Obs>>, norm: string -> string) returns (r: Settle, used: nat)
    ensures used <= |polls| && forall k: nat :: k < used ==> !SettledAt(polls, norm, k)
    ensures r.Settled? ==> LastSeen(polls, used, r.obs) && (SettledAt(polls, norm, used) || used == |polls|)
    ensures r.NotReadable? ==> used == |polls| && forall i :: 0 <= i < |polls| ==> !polls[i].Seen?
    ensures r.SettleError? ==> used > 0 && polls[used - 1].Broken? && Unbroken(polls, used - 1)
    ensures !r.SettleError? ==> Unbroken(polls, used)
  {
    hide Texts, Overlap;
    var last: Option<Obs> := None;
    var lastSet: set<string> := {};
    var streak := 0;
    used := 0;
    while used < |polls|
      invariant used <= |polls| && streak < SETTLE_SAMPLES && Unbroken(polls, used)
      invariant last.None? ==> forall j :: 0 <= j < used ==> !polls[j].Seen?
      invariant last.Some? ==> LastSeen(polls, used, last.value) && lastSet == Texts(last.value, norm)
      invariant streak == 1 <==> used > 0 && polls[used - 1].Seen?
      invariant used > 0 && polls[used - 1].Seen? ==> last == Some(polls[used - 1].v)
      invariant forall k: nat :: k <= used ==> !SettledAt(polls, norm, k)
    {
      var poll := polls[used];
      used := used + 1;
      match poll {
        case Broken => return SettleError, used;
        case Gap => streak := 0;
        case Seen(o) =>
          var now := TextsShown(o, norm);
          var j := Jaccard(now, lastSet);
          OverlapFacts(now, lastSet);
          streak := if last.Some? && j == 1.0 then streak + 1 else 1;
          last, lastSet := Some(o), now;
          assert polls[used - 1] == Seen(o);
          if streak >= SETTLE_SAMPLES {
            return Settled(o), used;
          }
      }
    }
    r := if last.Some? then Settled(last.value) else NotReadable;
  }

  // ---------- the loop ----------

  // What happens around one gesture: whether it is delivered, whether the budget
  // still runs before it, the settled screen or why there is none (and whether
  // the budget ran out meanwhile), and the second look at a screen that did not
  // move, if there is time for one.
  datatype Gesture = Gesture(
    inTime: bool, delivered: bool, settle: Settle, outOfTime: bool, timeForGrace: bool, cancelled: bool, again: Option<Obs>)

  // `stop(i)` is the visitor's word on the i-th screen.
  datatype World = World(first: Settle, gestures: nat -> Gesture, stop: nat -> bool)

  datatype Outcome =
    | Done(scrolls: nat, screens: nat, history: seq<real>, endOfList: bool, stopped: bool)
    | NoTree
    | Failed

  // To the nearest thousandth.
  function Rounded(j: real): (r: real)
    ensures j - 0.0005 < r <= j + 0.0005 && (r * 1000.0).Floor as real == r * 1000.0
  {
    (j * 1000.0 + 0.5).Floor as real / 1000.0
  }

  // Overlaps compare each visited screen with the one visited before it.
  ghost predicate Chained(visited: seq<Obs>, overlaps: seq<real>, norm: string -> string) {
    && |visited| == |overlaps| + 1
    && forall i :: 0 <= i < |overlaps| ==> overlaps[i] == Overlap(Texts(visited[i], norm), Texts(visited[i + 1], norm))
  }

  ghost predicate RoundedFrom(history: seq<real>, overlaps: seq<real>) {
    |history| == |overlaps| && forall i :: 0 <= i < |history| ==> history[i] == Rounded(overlaps[i])
  }

  // The last two settled gestures left the screen as it was.
  ghost predicate StoodStill(overlaps: seq<real>, threshold: real) {
    |overlaps| >= 2 && overlaps[|overlaps| - 1] >= threshold && overlaps[|overlaps| - 2] >= threshold
  }

  /** The second look: of the settled screen and a re-observation, the one that
      overlaps less with the previous screen. */
  method Grace(prevSet: set<string>, settled: Obs, j0: real, again: Option<Obs>, norm: string -> string)
    returns (obs: Obs, newSet: set<string>, j: real)
    requires j0 == Overlap(prevSet, Texts(settled, norm))
    ensures newSet == Texts(obs, norm) && j == Overlap(prevSet, newSet)
    ensures obs == settled || again == Some(obs)
    ensures j <= j0 && (again.Some? ==> j <= Overlap(prevSet, Texts(again.value, norm)))
  {
    obs, j := settled, j0;
    newSet := TextsShown(settled, norm);
    if again.Some? {
      var s2 := TextsShown(again.value, norm);
      var j2 := Jaccard(prevSet, s2);
      if j2 < j0 {
        obs, newSet, j := again.value, s2, j2;
      }
    }
  }

  // The screen visited after g: the settled one; but where that overlaps with the
  // screen before it at the threshold and time allows, a second look is taken, and
  // of the two screens the one that overlaps less.
  ghost predicate LooksTwice(before: Obs, g: Gesture, after: Obs, threshold: real, norm: string -> string) {
    && g.settle.Settled?
    && var settled := Overlap(Texts(before, norm), Texts(g.settle.obs, norm));
       if settled >= threshold && g.timeForGrace then
         && (after == g.settle.obs || g.again == Some(after))
         && Overlap(Texts(before, norm), Texts(after, norm)) <= settled
         && (g.again.Some? ==>
              Overlap(Texts(before, norm), Texts(after, norm)) <= Overlap(Texts(before, norm), Texts(g.again.value, norm)))
       else after == g.settle.obs
  }

  // Every visited screen comes from its gesture.
  ghost predicate FromGestures(visited: seq<Obs>, w: World, threshold: real, norm: string -> string) {
    && |visited| > 0 && w.first == Settled(visited[0])
    && forall i :: 0 < i < |visited| ==> LooksTwice(visited[i - 1], w.gestures(i - 1), visited[i], threshold, norm)
  }

  // No further gesture is allowed, or there is no time for one.
  ghost predicate SpentAt(w: World, scrolls: nat, maxScrolls: nat) {
    scrolls == maxScrolls || !w.gestures(scrolls).inTime
  }

  // The budget ran out while the last gesture settled.
  ghost predicate GaveOut(w: World, scrolls: nat) {
    scrolls > 0 && w.gestures(scrolls - 1).settle.NotReadable? && w.gestures(scrolls - 1).outOfTime
  }

  // The gesture ends the loop without a result, and so: the screen stopped
  // producing observations, or something failed or was cancelled.
  ghost predicate Aborts(g: Gesture, out: Outcome) {
    if out.NoTree? then g.settle.NotReadable? && !g.outOfTime
    else out.Failed? && (!g.delivered || g.settle.SettleError? || g.cancelled)
  }

  // A finished loop, whatever the visitor says.
  ghost predicate Scrolled(out: Outcome, visited: seq<Obs>, overlaps: seq<real>, w: World, maxScrolls: nat, threshold: real,
                           norm: string -> string)
    requires out.Done?
  {
    && out.scrolls <= maxScrolls && out.screens == |visited| == |out.history| + 1
    && 0 <= out.scrolls - |out.history| <= 1
    && FromGestures(visited, w, threshold, norm) && Chained(visited, overlaps, norm) && RoundedFrom(out.history, overlaps)
    && (out.endOfList <==> StoodStill(overlaps, threshold) && !out.stopped)
  }

  /** For every sequence of observations: no more scrolls than allowed; a second
      look at every screen that seems not to have moved, if time allows; one
      overlap per screen after the first; at most one gesture without a settled
      screen; overlaps between screens visited in a row; and the list is said to
      have ended exactly when the last two settled gestures left at least the
      threshold of overlap and the visitor had not stopped. */
  method ListScrollLoop(w: World, maxScrolls: nat, threshold: real, norm: string -> string)
    returns (out: Outcome, visited: seq<Obs>, ghost overlaps: seq<real>)
    ensures out.Done? ==> Scrolled(out, visited, overlaps, w, maxScrolls, threshold, norm)
    ensures out.Done? ==> (out.stopped <==> w.stop(|visited| - 1)) && forall i :: 0 <= i < |visited| - 1 ==> !w.stop(i)
    ensures out.Done? && !out.stopped && !out.endOfList ==> SpentAt(w, out.scrolls, maxScrolls) || GaveOut(w, out.scrolls)
    ensures !out.Done? && visited != [] ==> |visited| <= maxScrolls && Aborts(w.gestures(|visited| - 1), out)
    ensures visited == [] ==> out == if w.first.NotReadable? then NoTree else Failed
  {
    hide Texts, Overlap, Rounded, Chained, LooksTwice;
    visited, overlaps := [], [];
    if !w.first.Settled? {
      return (if w.first.NotReadable? then NoTree else Failed), [], [];
    }
    var obs := w.first.obs;
    visited := [obs];
    ChainStarts(obs, norm);
    if w.stop(0) {
      return Done(0, 1, [], false, true), visited, overlaps;
    }
    var prevSet := TextsShown(obs, norm);
    var history: seq<real> := [];
    var scrolls, nonMoves := 0, 0;
    while scrolls < maxScrolls && w.gestures(scrolls).inTime
      invariant scrolls <= maxScrolls && scrolls == |history|
      invariant |visited| == |overlaps| + 1 && Chained(visited, overlaps, norm) && RoundedFrom(history, overlaps)
      invariant FromGestures(visited, w, threshold, norm)
      invariant prevSet == Texts(visited[|visited| - 1], norm)
      invariant nonMoves < END_OF_LIST_NON_MOVES && !StoodStill(overlaps, threshold)
      invariant nonMoves == 1 <==> |overlaps| > 0 && overlaps[|overlaps| - 1] >= threshold
      invariant forall i :: 0 <= i < |visited| ==> !w.stop(i)
    {
      var g := w.gestures(scrolls);
      if !g.delivered {
        return Failed, visited, overlaps;
      }
      scrolls := scrolls + 1;
      if !g.settle.Settled? {
        if g.settle.NotReadable? && g.outOfTime {
          break;
        }
        return (if g.settle.NotReadable? then NoTree else Failed), visited, overlaps;
      }
      obs := g.settle.obs;
      var newSet := TextsShown(obs, norm);
      var j := Jaccard(prevSet, newSet);
      ghost var j0 := j;
      if j >= threshold && g.timeForGrace {
        if g.cancelled {
          return Failed, visited, overlaps;
        }
        obs, newSet, j := Grace(prevSet, obs, j, g.again, norm);
      }
      LookedTwice(visited[|visited| - 1], g, obs, threshold, norm, prevSet, j0, j);
      ChainGrows(visited, overlaps, norm, obs, j);
      history := history + [Rounded(j)];
      overlaps := overlaps + [j];
      visited := visited + [obs];
      if w.stop(|visited| - 1) {
        return Done(scrolls, |visited|, history, false, true), visited, overlaps;
      }
      if j < threshold {
        nonMoves := 0;
      } else {
        nonMoves := nonMoves + 1;
        if nonMoves >= END_OF_LIST_NON_MOVES {
          return Done(scrolls, |visited|, history, true, false), visited, overlaps;
        }
      }
      prevSet := newSet;
    }
    out := Done(scrolls, |visited|, history, false, false);
  }

  lemma LookedTwice(before: Obs, g: Gesture, after: Obs, threshold: real, norm: string -> string, prevSet: set<string>, j0: real, j: real)
    requires g.settle.Settled? && prevSet == Texts(before, norm)
    requires j0 == Overlap(prevSet, Texts(g.settle.obs, norm)) && j == Overlap(prevSet, Texts(after, norm))
    requires j0 >= threshold && g.timeForGrace ==>
      && (after == g.settle.obs || g.again == Some(after)) && j <= j0
      && (g.again.Some? ==> j <= Overlap(prevSet, Texts(g.again.value, norm)))
    requires !(j0 >= threshold && g.timeForGrace) ==> after == g.settle.obs
    ensures LooksTwice(before, g, after, threshold, norm)
  {
    hide Texts, Overlap;
  }

  lemma ChainGrows(visited: seq<Obs>, overlaps: seq<real>, norm: string -> string, obs: Obs, j: real)
    requires Chained(visited, overlaps, norm)
    requires j == Overlap(Texts(visited[|visited| - 1], norm), Texts(obs, norm))
    ensures Chained(visited + [obs], overlaps + [j], norm)
  {
    hide Texts, Overlap;
  }

  lemma ChainStarts(o: Obs, norm: string -> string)
    ensures Chained([o], [], norm)
  {
  }
}
