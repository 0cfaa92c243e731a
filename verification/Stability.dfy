// Waiting for a screen to hold still, over every sequence of poll results. A
// poll sees something, is too early, or fails for good; the wait ends with the
// polls when its budget does.
module Stability {
  import opened Common

  datatype Poll<T> = Seen(v: T) | Gap | Broken

  datatype Verdict = Stable | Unstable | Error

  // No hard failure among the first n polls.
  ghost predicate Unbroken<T>(polls: seq<Poll<T>>, n: nat) {
    n <= |polls| && forall i :: 0 <= i < n ==> !polls[i].Broken?
  }

  // ---------- tree hashes ----------

  // The `need` polls before k are consecutive, readable and all alike.
  ghost predicate HeldAt(polls: seq<Poll<string>>, k: nat, need: nat) {
    need <= k <= |polls| && forall i :: k - need <= i < k ==> polls[i].Seen? && polls[i] == polls[k - 1]
  }

  // The streak just before poll k: that many equal readable polls, and no more.
  ghost predicate StreakIs(polls: seq<Poll<string>>, k: nat, streak: nat, last: string) {
    && streak <= k <= |polls|
    && (forall i :: k - streak <= i < k ==> polls[i] == Seen(last))
    && (streak < k ==> polls[k - streak - 1] != Seen(last))
    && (streak == 0 <==> last == "")
    && (k > 0 && polls[k - 1].Seen? ==> streak > 0)
  }

  /** The tree is called stable at the first moment the last `need` polls were
      consecutive, readable and equal, and at no other. */
  method TreeStable(polls: seq<Poll<string>>, need: nat) returns (verdict: Verdict, used: nat)
    requires need >= 2
    requires forall i :: 0 <= i < |polls| ==> polls[i] != Seen("")
    ensures used <= |polls|
    ensures verdict.Stable? ==> HeldAt(polls, used, need) && Unbroken(polls, used)
    ensures verdict.Error? ==> used > 0 && polls[used - 1].Broken? && Unbroken(polls, used - 1)
    ensures verdict.Unstable? ==> used == |polls| && Unbroken(polls, used) && !HeldAt(polls, used, need)
    ensures forall k: nat :: k < used ==> !HeldAt(polls, k, need)
  {
    var lastHash, streak := "", 0;
    used := 0;
    while used < |polls|
      invariant used <= |polls| && StreakIs(polls, used, streak, lastHash) && streak < need
      invariant Unbroken(polls, used)
      invariant forall k: nat :: k <= used ==> !HeldAt(polls, k, need)
    {
      var poll := polls[used];
      used := used + 1;
      match poll {
        case Broken => return Error, used;
        case Gap => streak, lastHash := 0, "";
        case Seen(h) =>
          if h == lastHash {
            streak := streak + 1;
          } else {
            lastHash, streak := h, 1;
          }
      }
      StreakDecides(polls, used, streak, lastHash, need);
      if streak >= need {
        return Stable, used;
      }
    }
    verdict := Unstable;
  }

  lemma StreakDecides(polls: seq<Poll<string>>, k: nat, streak: nat, last: string, need: nat)
    requires StreakIs(polls, k, streak, last) && need >= 1
    ensures HeldAt(polls, k, need) <==> streak >= need
  {
  }

  // ---------- pixels ----------

  // Comparisons that cover the quiet window: its exact ceiling in intervals.
  function Needed(quiet: nat, interval: nat): (n: nat)
    requires interval > 0
    ensures n >= 1 && n * interval >= quiet
    ensures quiet > 0 ==> (n - 1) * interval < quiet
  {
    var n := (quiet + interval - 1) / interval;
    CeilingFacts(quiet, interval);
    if n < 1 then 1 else n
  }

  lemma CeilingFacts(quiet: nat, interval: nat)
    requires interval > 0
    ensures var n := (quiet + interval - 1) / interval;
      n >= 0 && n * interval >= quiet && (quiet > 0 ==> n >= 1 && (n - 1) * interval < quiet)
  {
    var a := quiet + interval - 1;
    var n, r := a / interval, a % interval;
    assert a == interval * n + r && 0 <= r < interval;
    assert interval * n == n * interval;
    assert (n - 1) * interval == n * interval - interval;
  }

  // The need + 1 captures before k are consecutive, and every one differs from
  // the one before it by less than the threshold.
  ghost predicate QuietAt<T>(polls: seq<Poll<T>>, diff: (T, T) -> real, threshold: real, k: nat, need: nat) {
    && need + 1 <= k <= |polls|
    && (forall i :: k - need - 1 <= i < k ==> polls[i].Seen?)
    && (forall i :: k - need <= i < k ==> Calm(polls, diff, threshold, i))
  }

  ghost predicate Calm<T>(polls: seq<Poll<T>>, diff: (T, T) -> real, threshold: real, i: int) {
    0 < i < |polls| && polls[i - 1].Seen? && polls[i].Seen? && diff(polls[i - 1].v, polls[i].v) < threshold
  }

  // The streak before poll k counts the calm comparisons up to it, and no more.
  ghost predicate CalmFor<T>(polls: seq<Poll<T>>, diff: (T, T) -> real, threshold: real, k: nat, streak: nat, prev: Option<T>) {
    && streak <= k <= |polls|
    && (forall i :: k - streak <= i < k ==> Calm(polls, diff, threshold, i))
    && (streak < k ==> !Calm(polls, diff, threshold, k - streak - 1))
    && (prev == if k > 0 && polls[k - 1].Seen? then Some(polls[k - 1].v) else None)
    && (streak > 0 ==> streak < k)
  }

  /** The screen is called stable at the first moment the last need + 1 captures
      were consecutive with every adjacent difference under the threshold, and at
      no other. */
  method PixelStable<T>(polls: seq<Poll<T>>, diff: (T, T) -> real, threshold: real, quiet: nat, interval: nat)
    returns (verdict: Verdict, used: nat)
    requires interval > 0
    ensures used <= |polls|
    ensures verdict.Stable? ==> QuietAt(polls, diff, threshold, used, Needed(quiet, interval)) && Unbroken(polls, used)
    ensures verdict.Error? ==> used > 0 && polls[used - 1].Broken? && Unbroken(polls, used - 1)
    ensures verdict.Unstable? ==>
      used == |polls| && Unbroken(polls, used) && !QuietAt(polls, diff, threshold, used, Needed(quiet, interval))
    ensures forall k: nat :: k < used ==> !QuietAt(polls, diff, threshold, k, Needed(quiet, interval))
  {
    hide Needed;
    var need := Needed(quiet, interval);
    var prev: Option<T> := None;
    var streak := 0;
    used := 0;
    while used < |polls|
      invariant used <= |polls| && CalmFor(polls, diff, threshold, used, streak, prev) && streak < need
      invariant Unbroken(polls, used)
      invariant forall k: nat :: k <= used ==> !QuietAt(polls, diff, threshold, k, need)
    {
      var poll := polls[used];
      used := used + 1;
      match poll {
        case Broken => return Error, used;
        case Gap =>
          assert !Calm(polls, diff, threshold, used - 1);
          streak, prev := 0, None;
        case Seen(g) =>
          if prev.None? {
            assert !Calm(polls, diff, threshold, used - 1);
            streak := 0;
          } else {
            var d := diff(prev.value, g);
            assert Calm(polls, diff, threshold, used - 1) <==> d < threshold;
            streak := if d < threshold then streak + 1 else 0;
          }
          prev := Some(g);
      }
      CalmDecides(polls, diff, threshold, used, streak, prev, need);
      if streak >= need {
        return Stable, used;
      }
    }
    verdict := Unstable;
  }

  lemma CalmDecides<T>(polls: seq<Poll<T>>, diff: (T, T) -> real, threshold: real, k: nat, streak: nat, prev: Option<T>, need: nat)
    requires CalmFor(polls, diff, threshold, k, streak, prev) && need >= 1
    ensures QuietAt(polls, diff, threshold, k, need) <==> streak >= need
  {
    if streak >= need {
      forall i | k - need - 1 <= i < k ensures polls[i].Seen? {
        if i == k - need - 1 {
          assert Calm(polls, diff, threshold, i + 1);
        } else {
          assert Calm(polls, diff, threshold, i);
        }
      }
    }
  }
}
