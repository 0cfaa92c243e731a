// Placement: the hosts that can serve a request, ordered warm first, then by
// load, then by matching idle warm capacity, with ties rotated from one request
// to the next.
module Ranking {
  import opened Common
  import opened Fleet
  import LoadLedger

  const TIER_WARM := 0
  const TIER_HEADROOM := 1
  const TIER_SATURATED := 2

  predicate WarmMatch(h: Host, labels: seq<string>) {
    exists t :: t in h.targets && (t.warm || t.booted) && TargetMatches(h, t, labels)
  }

  // Whether another cold boot fits; a cap that is not reported caps nothing.
  predicate HasHeadroom(st: Status) {
    st.maxBootedRunning <= 0 || st.maxBootedRunning - st.running - st.bootsInFlight > 0
  }

  // The daemon would accept a cold boot.
  predicate ColdBootFits(st: Status) {
    HasHeadroom(st) && st.loadOK && st.diskOK
  }

  function HostTier(h: Host, labels: seq<string>): (tier: int)
    ensures TIER_WARM <= tier <= TIER_SATURATED
    ensures tier == TIER_WARM <==> h.status.Some? && exists t :: t in h.targets && (t.warm || t.booted) && TargetMatches(h, t, labels)
    ensures tier == TIER_SATURATED <==>
      && h.status.Some? && !(exists t :: t in h.targets && (t.warm || t.booted) && TargetMatches(h, t, labels))
      && var st := h.status.value;
         !st.loadOK || !st.diskOK || (st.maxBootedRunning > 0 && st.running + st.bootsInFlight >= st.maxBootedRunning)
  {
    if h.status.None? then TIER_HEADROOM
    else if WarmMatch(h, labels) then TIER_WARM
    else if ColdBootFits(h.status.value) then TIER_HEADROOM
    else TIER_SATURATED
  }

  function WarmIdleCount(h: Host, labels: seq<string>): nat {
    WarmIdleIn(h, h.targets, labels)
  }

  function WarmIdleIn(h: Host, targets: seq<Target>, labels: seq<string>): nat {
    if targets == [] then 0
    else
      var last := targets[|targets| - 1];
      WarmIdleIn(h, targets[..|targets| - 1], labels) + if last.warm && TargetMatches(h, last, labels) then 1 else 0
  }

  // The positions of parked targets that match.
  ghost function WarmIdleAt(h: Host, targets: seq<Target>, labels: seq<string>): set<nat> {
    set i: nat | i < |targets| && targets[i].warm && TargetMatches(h, targets[i], labels)
  }

  /** The count is the number of parked targets that match. */
  lemma {:induction false} WarmIdleCounts(h: Host, targets: seq<Target>, labels: seq<string>)
    ensures WarmIdleIn(h, targets, labels) == |WarmIdleAt(h, targets, labels)|
  {
    if targets == [] {
      assert WarmIdleAt(h, targets, labels) == {};
    } else {
      var k := |targets| - 1;
      var front := targets[..k];
      WarmIdleCounts(h, front, labels);
      var before, after := WarmIdleAt(h, front, labels), WarmIdleAt(h, targets, labels);
      if targets[k].warm && TargetMatches(h, targets[k], labels) {
        assert after == before + {k};
      } else {
        assert after == before;
      }
    }
  }

  datatype Ranked = Ranked(host: Host, tier: int, load: int, warmIdle: int)

  function Snapshot(h: Host, labels: seq<string>): Ranked {
    Ranked(h, HostTier(h, labels), h.load, WarmIdleCount(h, labels))
  }

  // ---------- the order ----------

  predicate Less(a: Ranked, b: Ranked) {
    if a.tier != b.tier then a.tier < b.tier
    else if a.load != b.load then a.load < b.load
    else a.warmIdle > b.warmIdle
  }

  predicate Tied(a: Ranked, b: Ranked) {
    a.tier == b.tier && a.load == b.load && a.warmIdle == b.warmIdle
  }

  ghost predicate Ordered(s: seq<Ranked>) {
    forall i, j :: 0 <= i < j < |s| ==> !Less(s[j], s[i])
  }

  // The members of s tied with x, in order.
  function Ties(s: seq<Ranked>, x: Ranked): seq<Ranked> {
    if s == [] then []
    else Ties(s[..|s| - 1], x) + if Tied(s[|s| - 1], x) then [s[|s| - 1]] else []
  }

  // Those ranked before x, and those after.
  function Before(s: seq<Ranked>, x: Ranked): seq<Ranked> {
    if s == [] then []
    else Before(s[..|s| - 1], x) + if Less(s[|s| - 1], x) then [s[|s| - 1]] else []
  }

  function After(s: seq<Ranked>, x: Ranked): seq<Ranked> {
    if s == [] then []
    else After(s[..|s| - 1], x) + if Less(x, s[|s| - 1]) then [s[|s| - 1]] else []
  }

  // ---------- stable sorting ----------

  function Insert(s: seq<Ranked>, x: Ranked): seq<Ranked> {
    if s == [] || !Less(x, s[|s| - 1]) then s + [x]
    else Insert(s[..|s| - 1], x) + [s[|s| - 1]]
  }

  function StableSort(s: seq<Ranked>): seq<Ranked> {
    if s == [] then [] else Insert(StableSort(s[..|s| - 1]), s[|s| - 1])
  }

  lemma SplitLast(s: seq<Ranked>)
    requires s != []
    ensures s == s[..|s| - 1] + [s[|s| - 1]]
  {
  }

  lemma {:induction false} InsertAdds(s: seq<Ranked>, x: Ranked)
    ensures multiset(Insert(s, x)) == multiset(s) + multiset{x}
    ensures forall y :: y in Insert(s, x) <==> y in s || y == x
  {
    if s != [] && Less(x, s[|s| - 1]) {
      SplitLast(s);
      InsertAdds(s[..|s| - 1], x);
    }
  }

  lemma {:induction false} InsertKeepsOrder(s: seq<Ranked>, x: Ranked)
    requires Ordered(s)
    ensures Ordered(Insert(s, x))
  {
    if s != [] && Less(x, s[|s| - 1]) {
      var front, last := s[..|s| - 1], s[|s| - 1];
      InsertAdds(front, x);
      InsertKeepsOrder(front, x);
      OrderedJoins(Insert(front, x), [last]);
    }
  }

  lemma {:induction false} InsertIsStable(s: seq<Ranked>, x: Ranked, y: Ranked)
    requires Ordered(s)
    ensures Ties(Insert(s, x), y) == Ties(s, y) + if Tied(x, y) then [x] else []
  {
    var r := Insert(s, x);
    if s == [] || !Less(x, s[|s| - 1]) {
      assert r[..|r| - 1] == s;
    } else {
      var front, last := s[..|s| - 1], s[|s| - 1];
      InsertIsStable(front, x, y);
      assert r[..|r| - 1] == Insert(front, x);
      assert !(Tied(last, y) && Tied(x, y));
    }
  }

  lemma {:induction false} StableSortFacts(s: seq<Ranked>)
    ensures multiset(StableSort(s)) == multiset(s)
    ensures Ordered(StableSort(s))
    ensures forall y :: Ties(StableSort(s), y) == Ties(s, y)
  {
    if s != [] {
      var front, last := s[..|s| - 1], s[|s| - 1];
      SplitLast(s);
      StableSortFacts(front);
      InsertAdds(StableSort(front), last);
      InsertKeepsOrder(StableSort(front), last);
      forall y {
        InsertIsStable(StableSort(front), last, y);
      }
    }
  }

  // ---------- rotating ties ----------

  // How many leading members are tied with the first.
  function Run(s: seq<Ranked>): (n: nat)
    requires s != []
    ensures 1 <= n <= |s|
    ensures forall i :: 0 <= i < n ==> Tied(s[i], s[0])
    ensures n < |s| ==> !Tied(s[n], s[0])
  {
    if |s| == 1 || !Tied(s[1], s[0]) then 1 else 1 + Run(s[1..])
  }

  function Rotate(block: seq<Ranked>, rr: nat): (r: seq<Ranked>)
    requires block != []
    ensures |r| == |block|
  {
    block[Mod(rr, |block|)..] + block[..Mod(rr, |block|)]
  }

  function RotateAll(s: seq<Ranked>, rr: nat): (r: seq<Ranked>)
    ensures |r| == |s|
  {
    if s == [] then [] else Rotate(s[..Run(s)], rr) + RotateAll(s[Run(s)..], rr)
  }

  lemma RotateMember(block: seq<Ranked>, rr: nat)
    requires block != []
    ensures multiset(Rotate(block, rr)) == multiset(block)
  {
    var k := Mod(rr, |block|);
    assert block == block[..k] + block[k..];
  }

  lemma SameMembers(a: seq<Ranked>, b: seq<Ranked>)
    requires multiset(a) == multiset(b)
    ensures forall y :: y in a <==> y in b
  {
    forall y ensures y in a <==> y in b {
      assert y in multiset(a) <==> y in multiset(b);
    }
  }

  lemma RotatedMembers(s: seq<Ranked>, rr: nat)
    requires s != []
    ensures forall y :: y in Rotate(s[..Run(s)], rr) <==> y in s[..Run(s)]
    ensures forall y :: y in RotateAll(s[Run(s)..], rr) <==> y in s[Run(s)..]
  {
    hide Rotate, RotateAll;
    RotateMember(s[..Run(s)], rr);
    SameMembers(Rotate(s[..Run(s)], rr), s[..Run(s)]);
    RotatePermutes(s[Run(s)..], rr);
    SameMembers(RotateAll(s[Run(s)..], rr), s[Run(s)..]);
  }

  lemma {:induction false} RotatePermutes(s: seq<Ranked>, rr: nat)
    ensures multiset(RotateAll(s, rr)) == multiset(s)
  {
    if s == [] {
      assert RotateAll(s, rr) == [];
    } else {
      hide *;
      var n := Run(s);
      RotateFirst(s, rr);
      RotateMember(s[..n], rr);
      RotatePermutes(s[n..], rr);
      JoinPermutes(s[..n], Rotate(s[..n], rr), s[n..], RotateAll(s[n..], rr));
    }
  }

  lemma RotateFirst(s: seq<Ranked>, rr: nat)
    requires s != []
    ensures s == s[..Run(s)] + s[Run(s)..]
    ensures RotateAll(s, rr) == Rotate(s[..Run(s)], rr) + RotateAll(s[Run(s)..], rr)
  {
    hide Rotate, Run;
  }

  lemma JoinPermutes(a: seq<Ranked>, a': seq<Ranked>, b: seq<Ranked>, b': seq<Ranked>)
    requires multiset(a') == multiset(a) && multiset(b') == multiset(b)
    ensures multiset(a' + b') == multiset(a + b)
  {
  }

  lemma OrderedJoins(a: seq<Ranked>, b: seq<Ranked>)
    requires Ordered(a) && Ordered(b)
    requires forall x, y :: x in a && y in b ==> !Less(y, x)
    ensures Ordered(a + b)
  {
  }

  lemma TiesAreOrdered(s: seq<Ranked>, x: Ranked)
    requires forall y :: y in s ==> Tied(y, x)
    ensures Ordered(s)
  {
    forall i, j | 0 <= i < j < |s| ensures !Less(s[j], s[i]) {
      assert Tied(s[i], x) && Tied(s[j], x);
    }
  }

  lemma {:induction false} RotateKeepsOrder(s: seq<Ranked>, rr: nat)
    requires Ordered(s)
    ensures Ordered(RotateAll(s, rr))
  {
    hide Rotate, Ordered;
    if s == [] {
      OrderedTail(s, 0);
    } else {
      var n := Run(s);
      RotatedMembers(s, rr);
      OrderedTail(s, n);
      RotateKeepsOrder(s[n..], rr);
      TiesAreOrdered(Rotate(s[..n], rr), s[0]);
      BeyondTheRun(s);
      OrderedJoins(Rotate(s[..n], rr), RotateAll(s[n..], rr));
    }
  }

  lemma OrderedTail(s: seq<Ranked>, n: nat)
    requires Ordered(s) && n <= |s|
    ensures Ordered(s[n..])
  {
  }

  lemma {:induction false} TiesAppend(a: seq<Ranked>, b: seq<Ranked>, x: Ranked)
    ensures Ties(a + b, x) == Ties(a, x) + Ties(b, x)
  {
    if b == [] {
      assert a + b == a;
    } else {
      var front, last := b[..|b| - 1], b[|b| - 1];
      assert (a + b)[..|a + b| - 1] == a + front;
      TiesAppend(a, front, x);
    }
  }

  lemma {:induction false} TiesAllOrNone(s: seq<Ranked>, x: Ranked)
    ensures (forall y :: y in s ==> Tied(y, x)) ==> Ties(s, x) == s
    ensures (forall y :: y in s ==> !Tied(y, x)) ==> Ties(s, x) == []
  {
    if s != [] {
      SplitLast(s);
      TiesAllOrNone(s[..|s| - 1], x);
    }
  }

  lemma BeyondTheRun(s: seq<Ranked>)
    requires s != [] && Ordered(s)
    ensures forall y :: y in s[Run(s)..] ==> Less(s[0], y)
  {
    var n := Run(s);
    forall y | y in s[n..] ensures Less(s[0], y) {
      var i :| n <= i < |s| && s[i] == y;
      assert !Less(s[n], s[0]) && !Less(s[i], s[0]) && (n == i || !Less(s[i], s[n]));
    }
  }

  lemma TiesOfParts(s: seq<Ranked>, rr: nat, x: Ranked)
    requires s != []
    ensures Ties(s, x) == Ties(s[..Run(s)], x) + Ties(s[Run(s)..], x)
    ensures Ties(RotateAll(s, rr), x) == Ties(Rotate(s[..Run(s)], rr), x) + Ties(RotateAll(s[Run(s)..], rr), x)
  {
    hide Ties, Rotate;
    assert s == s[..Run(s)] + s[Run(s)..];
    TiesAppend(s[..Run(s)], s[Run(s)..], x);
    TiesAppend(Rotate(s[..Run(s)], rr), RotateAll(s[Run(s)..], rr), x);
  }

  // Nothing of the first run is tied with x.
  lemma TiesElsewhere(s: seq<Ranked>, rr: nat, x: Ranked)
    requires s != [] && !Tied(s[0], x)
    ensures Ties(s, x) == Ties(s[Run(s)..], x)
    ensures Ties(RotateAll(s, rr), x) == Ties(RotateAll(s[Run(s)..], rr), x)
    ensures x in s ==> x in s[Run(s)..]
  {
    hide Ties, Rotate, RotateAll;
    TiesOfParts(s, rr, x);
    RotatedMembers(s, rr);
    TiesAllOrNone(s[..Run(s)], x);
    TiesAllOrNone(Rotate(s[..Run(s)], rr), x);
    assert s == s[..Run(s)] + s[Run(s)..];
  }

  // The whole first run is, and nothing else.
  lemma TiesHere(s: seq<Ranked>, rr: nat, x: Ranked)
    requires s != [] && Ordered(s) && Tied(s[0], x)
    ensures Ties(s, x) == s[..Run(s)]
    ensures Ties(RotateAll(s, rr), x) == Rotate(s[..Run(s)], rr)
  {
    hide Ties, Rotate, RotateAll, Ordered;
    TiesOfParts(s, rr, x);
    RotatedMembers(s, rr);
    BeyondTheRun(s);
    TiesAllOrNone(s[..Run(s)], x);
    TiesAllOrNone(Rotate(s[..Run(s)], rr), x);
    TiesAllOrNone(s[Run(s)..], x);
    TiesAllOrNone(RotateAll(s[Run(s)..], rr), x);
  }

  // A tie appears as its rotation, whole.
  lemma {:induction false} TiesRotate(s: seq<Ranked>, rr: nat, x: Ranked)
    requires Ordered(s) && x in s
    ensures Ties(s, x) != [] && Ties(RotateAll(s, rr), x) == Rotate(Ties(s, x), rr)
  {
    hide Ordered, Rotate, Ties, RotateAll;
    if Tied(s[0], x) {
      TiesHere(s, rr, x);
    } else {
      TiesElsewhere(s, rr, x);
      OrderedTail(s, Run(s));
      TiesRotate(s[Run(s)..], rr, x);
    }
  }

  // An ordered list is those before x, those tied with it, those after.
  lemma {:induction false} OrderedSplits(s: seq<Ranked>, x: Ranked)
    requires Ordered(s)
    ensures s == Before(s, x) + Ties(s, x) + After(s, x)
  {
    if s != [] {
      var front, last := s[..|s| - 1], s[|s| - 1];
      SplitLast(s);
      OrderedSplits(front, x);
      NoneAfter(front, last, x);
    }
  }

  lemma {:induction false} NoneAfter(s: seq<Ranked>, last: Ranked, x: Ranked)
    requires forall y :: y in s ==> !Less(last, y)
    ensures !Less(x, last) ==> After(s, x) == []
    ensures Less(last, x) ==> Ties(s, x) == []
  {
    if s != [] {
      SplitLast(s);
      assert !Less(last, s[|s| - 1]);
      NoneAfter(s[..|s| - 1], last, x);
    }
  }

  // ---------- the operation ----------

  function Eligible(hosts: seq<Host>, labels: seq<string>): seq<Ranked> {
    if hosts == [] then []
    else
      var last := hosts[|hosts| - 1];
      Eligible(hosts[..|hosts| - 1], labels) + if last.up && HostMatches(last, labels) then [Snapshot(last, labels)] else []
  }

  // One run of equals, in place.
  method RotateRun(out: array<Ranked>, lo: nat, n: nat, rr: nat)
    requires 0 < n && lo + n <= out.Length
    modifies out
    ensures out[..lo] == old(out[..lo]) && out[lo + n..] == old(out[lo + n..])
    ensures out[lo..lo + n] == Rotate(old(out[lo..lo + n]), rr)
  {
    var block := out[lo..lo + n];
    ModIsRemainder(rr, n);
    var k := rr % n;
    var rotated := block[k..] + block[..k];
    forall i | 0 <= i < n {
      out[lo + i] := rotated[i];
    }
    assert out[lo..lo + n] == rotated;
  }

  // The last position of the run that starts at lo.
  method RunEnd(out: array<Ranked>, lo: nat) returns (hi: nat)
    requires lo < out.Length
    ensures lo <= hi < out.Length && Run(out[lo..]) == hi - lo + 1
  {
    hi := lo;
    while hi + 1 < out.Length && Tied(out[hi + 1], out[lo])
      invariant lo <= hi < out.Length
      invariant forall i :: lo <= i <= hi ==> Tied(out[i], out[lo])
    {
      hi := hi + 1;
    }
    RunIs(out[lo..], hi - lo + 1);
  }

  /** The rotation of ties, in place. */
  method RotateTies(out: array<Ranked>, rr: nat)
    modifies out
    ensures out[..] == RotateAll(old(out[..]), rr)
  {
    hide Rotate, Run, RotateAll;
    ghost var was := out[..];
    RotateAllStep([], was, rr);
    var lo := 0;
    assert was[0..] == was;
    while lo < out.Length
      invariant lo <= out.Length
      invariant out[lo..] == was[lo..]
      invariant RotateAll(was, rr) == out[..lo] + RotateAll(was[lo..], rr)
    {
      var hi := RunEnd(out, lo);
      var n := hi - lo + 1;
      ghost var rest := out[lo..];
      ghost var head := out[..lo];
      assert out[lo..lo + n] == rest[..n] && out[lo + n..] == rest[n..];
      RotateAllStep(head, rest, rr);
      RotateRun(out, lo, n, rr);
      assert out[..lo + n] == head + out[lo..lo + n];
      assert rest[n..] == was[lo + n..];
      lo := hi + 1;
    }
    RotateAllStep([], was[lo..], rr);
    assert out[..lo] == out[..];
  }

  lemma RotateAllStep(head: seq<Ranked>, rest: seq<Ranked>, rr: nat)
    ensures rest == [] ==> RotateAll(rest, rr) == []
    ensures rest != [] ==>
      head + RotateAll(rest, rr) == head + Rotate(rest[..Run(rest)], rr) + RotateAll(rest[Run(rest)..], rr)
  {
  }

  lemma {:induction false} RunIs(s: seq<Ranked>, n: nat)
    requires 1 <= n <= |s|
    requires forall i :: 0 <= i < n ==> Tied(s[i], s[0])
    requires n < |s| ==> !Tied(s[n], s[0])
    ensures Run(s) == n
  {
  }

  /** The ranking of one request. */
  method RankCandidates(hosts: seq<Host>, labels: seq<string>, rr: nat) returns (ranked: seq<Ranked>)
    ensures ranked == RotateAll(StableSort(Eligible(hosts, labels)), rr)
  {
    var found: seq<Ranked> := [];
    var i := 0;
    while i < |hosts|
      invariant i <= |hosts| && found == Eligible(hosts[..i], labels)
    {
      assert hosts[..i + 1][..i] == hosts[..i];
      if hosts[i].up && HostMatches(hosts[i], labels) {
        found := found + [Snapshot(hosts[i], labels)];
      }
      i := i + 1;
    }
    assert hosts[..i] == hosts;
    var sorted := StableSort(found);
    var out := new Ranked[|sorted|](j requires 0 <= j < |sorted| => sorted[j]);
    assert out[..] == sorted;
    RotateTies(out, rr);
    ranked := out[..];
  }

  lemma {:induction false} EligibleExactly(hosts: seq<Host>, labels: seq<string>)
    ensures forall r :: r in Eligible(hosts, labels) <==>
      r.host in hosts && r.host.up && HostMatches(r.host, labels) && r == Snapshot(r.host, labels)
  {
    if hosts != [] {
      EligibleExactly(hosts[..|hosts| - 1], labels);
      assert hosts == hosts[..|hosts| - 1] + [hosts[|hosts| - 1]];
    }
  }

  ghost function Ranking(hosts: seq<Host>, labels: seq<string>, rr: nat): seq<Ranked> {
    RotateAll(StableSort(Eligible(hosts, labels)), rr)
  }

  /** A ranking is a permutation of the hosts that are up and match, in order even
      after the rotation. */
  lemma RankingIsOrderedPermutation(hosts: seq<Host>, labels: seq<string>, rr: nat)
    ensures multiset(Ranking(hosts, labels, rr)) == multiset(Eligible(hosts, labels))
    ensures Ordered(Ranking(hosts, labels, rr))
    ensures var out := Ranking(hosts, labels, rr);
      forall i, j :: 0 <= i < j < |out| ==>
        && out[i].tier <= out[j].tier
        && (out[i].tier == out[j].tier ==> out[i].load <= out[j].load)
        && (out[i].tier == out[j].tier && out[i].load == out[j].load ==> out[i].warmIdle >= out[j].warmIdle)
    ensures forall r :: r in Ranking(hosts, labels, rr) ==>
      && r.tier == HostTier(r.host, labels) && r.load == r.host.load
      && r.warmIdle == |WarmIdleAt(r.host, r.host.targets, labels)|
    ensures forall r :: r in Ranking(hosts, labels, rr) <==>
      r.host in hosts && r.host.up && HostMatches(r.host, labels) && r == Snapshot(r.host, labels)
  {
    var e := Eligible(hosts, labels);
    StableSortFacts(e);
    RotatePermutes(StableSort(e), rr);
    RotateKeepsOrder(StableSort(e), rr);
    EligibleExactly(hosts, labels);
    forall r ensures r in Ranking(hosts, labels, rr) <==> r in e {
      assert r in multiset(Ranking(hosts, labels, rr)) <==> r in multiset(e);
    }
    forall r | r in e ensures r.warmIdle == |WarmIdleAt(r.host, r.host.targets, labels)| {
      WarmIdleCounts(r.host, r.host.targets, labels);
    }
  }

  /** Hosts tied with x stand together, directly behind all hosts ranked better,
      and are the configured order rotated by the counter. */
  lemma TieIsRotatedConfigOrder(hosts: seq<Host>, labels: seq<string>, rr: nat, x: Ranked)
    requires x in Eligible(hosts, labels)
    ensures var tie := Ties(Eligible(hosts, labels), x);
      var out := Ranking(hosts, labels, rr);
      && tie != []
      && out == Before(out, x) + Rotate(tie, rr) + After(out, x)
  {
    var e := Eligible(hosts, labels);
    StableSortFacts(e);
    assert x in multiset(e);
    assert x in StableSort(e);
    TiesRotate(StableSort(e), rr, x);
    RankingIsOrderedPermutation(hosts, labels, rr);
    OrderedSplits(Ranking(hosts, labels, rr), x);
  }

  // The remainder k calls later.
  function Turn(rr: nat, k: nat, n: nat): nat
    requires 0 < n
  {
    Mod(rr + k, n)
  }

  lemma ResidueOnce(rr: nat, n: nat, j: nat) returns (k: nat)
    requires j < n
    ensures k < n && Turn(rr, k, n) == j
    ensures forall l: nat :: l < n && Turn(rr, l, n) == j ==> l == k
  {
    k := if Mod(rr, n) <= j then j - Mod(rr, n) else n + j - Mod(rr, n);
    forall l: nat | l < n ensures Turn(rr, l, n) == if Mod(rr, n) + l < n then Mod(rr, n) + l else Mod(rr, n) + l - n {
      ModAdd(rr, l, n);
    }
  }

  // Who stands first among the hosts tied with x, k calls later.
  ghost function Leader(hosts: seq<Host>, labels: seq<string>, rr: nat, k: nat, x: Ranked): Ranked
    requires x in Eligible(hosts, labels)
  {
    var out := Ranking(hosts, labels, rr + k);
    TieIsRotatedConfigOrder(hosts, labels, rr + k, x);
    out[|Before(out, x)|]
  }

  lemma LeaderIs(hosts: seq<Host>, labels: seq<string>, rr: nat, k: nat, x: Ranked)
    requires x in Eligible(hosts, labels)
    ensures var tie := Ties(Eligible(hosts, labels), x);
      tie != [] && Leader(hosts, labels, rr, k, x) == tie[Turn(rr, k, |tie|)]
  {
    hide Eligible, Ties, Ranking, RotateAll, Before, After;
    TieIsRotatedConfigOrder(hosts, labels, rr + k, x);
    var tie := Ties(Eligible(hosts, labels), x);
    var out := Ranking(hosts, labels, rr + k);
    assert Rotate(tie, rr + k)[0] == tie[Mod(rr + k, |tie|)];
    assert out[|Before(out, x)|] == Rotate(tie, rr + k)[0];
  }

  /** Over as many consecutive requests as hosts are tied, on unchanged inputs,
      each of them stands first exactly once. */
  lemma EachTiedHostLeadsOnce(hosts: seq<Host>, labels: seq<string>, rr: nat, x: Ranked, j: nat)
    requires x in Eligible(hosts, labels) && j < |Ties(Eligible(hosts, labels), x)|
    requires NoRepeats(hosts)
    ensures var tie := Ties(Eligible(hosts, labels), x);
      exists k: nat ::
        && k < |tie| && Leader(hosts, labels, rr, k, x) == tie[j]
        && (forall l: nat :: l < |tie| && Leader(hosts, labels, rr, l, x) == tie[j] ==> l == k)
  {
    hide Leader, Turn, Ties, Eligible;
    var tie := Ties(Eligible(hosts, labels), x);
    TieDistinct(hosts, labels, x);
    var k := ResidueOnce(rr, |tie|, j);
    LeaderIs(hosts, labels, rr, k, x);
    forall l: nat | l < |tie| && Leader(hosts, labels, rr, l, x) == tie[j] ensures l == k {
      LeaderIs(hosts, labels, rr, l, x);
      TurnBelow(rr, l, |tie|);
    }
  }

  lemma TurnBelow(rr: nat, k: nat, n: nat)
    requires 0 < n
    ensures Turn(rr, k, n) < n
  {
  }

  lemma {:induction false} TiesDistinct(s: seq<Ranked>, x: Ranked)
    requires NoRepeats(s)
    ensures (forall y :: y in Ties(s, x) ==> y in s) && NoRepeats(Ties(s, x))
  {
    if s != [] {
      NoRepeatsFront(s);
      TiesDistinct(s[..|s| - 1], x);
      SplitLast(s);
      NoRepeatsAppend(Ties(s[..|s| - 1], x), s[|s| - 1]);
    }
  }

  lemma {:induction false} EligibleDistinct(hosts: seq<Host>, labels: seq<string>)
    requires NoRepeats(hosts)
    ensures NoRepeats(Eligible(hosts, labels))
  {
    if hosts != [] {
      var front, last := hosts[..|hosts| - 1], hosts[|hosts| - 1];
      NoRepeatsFront(hosts);
      EligibleDistinct(front, labels);
      EligibleExactly(front, labels);
      NoRepeatsAppend(Eligible(front, labels), Snapshot(last, labels));
    }
  }

  lemma TieDistinct(hosts: seq<Host>, labels: seq<string>, x: Ranked)
    requires NoRepeats(hosts)
    ensures NoRepeats(Ties(Eligible(hosts, labels), x))
  {
    EligibleDistinct(hosts, labels);
    TiesDistinct(Eligible(hosts, labels), x);
  }

  // ---------- with the broker's counter ----------

  /** A ranking takes the next value of the broker's counter. */
  method RankNext(b: LoadLedger.Broker, hosts: seq<Host>, labels: seq<string>) returns (ranked: seq<Ranked>)
    modifies b`rr
    ensures b.rr == old(b.rr) + 1 && ranked == Ranking(hosts, labels, b.rr)
  {
    var rr := b.NextRR();
    ranked := RankCandidates(hosts, labels, rr);
  }

  ghost predicate OccursOnce(s: seq<Ranked>, y: Ranked) {
    exists k :: 0 <= k < |s| && s[k] == y && forall l :: 0 <= l < |s| && s[l] == y ==> l == k
  }

  /** As many rankings in a row as hosts are tied with x: every one of them comes
      first of the tie in exactly one. */
  method RankWholeTie(b: LoadLedger.Broker, hosts: seq<Host>, labels: seq<string>, x: Ranked) returns (leaders: seq<Ranked>)
    requires x in Eligible(hosts, labels) && NoRepeats(hosts)
    modifies b`rr
    ensures var tie := Ties(Eligible(hosts, labels), x);
      && |leaders| == |tie| && b.rr == old(b.rr) + |tie|
      && forall j :: 0 <= j < |tie| ==> OccursOnce(leaders, tie[j])
  {
    hide Leader, Ties, Eligible, Ranking;
    var tie := Ties(Eligible(hosts, labels), x);
    ghost var rr := b.rr + 1;
    leaders := [];
    var i := 0;
    while i < |tie|
      invariant i == |leaders| <= |tie| && b.rr == old(b.rr) + i
      invariant forall k :: 0 <= k < i ==> leaders[k] == Leader(hosts, labels, rr, k, x)
    {
      var ranked := RankNext(b, hosts, labels);
      var at := FirstTied(hosts, labels, rr, i, x, ranked);
      leaders := leaders + [ranked[at]];
      i := i + 1;
    }
    forall j | 0 <= j < |tie| ensures OccursOnce(leaders, tie[j]) {
      EachTiedHostLeadsOnce(hosts, labels, rr, x, j);
      var k: nat :| k < |tie| && Leader(hosts, labels, rr, k, x) == tie[j]
        && (forall l: nat :: l < |tie| && Leader(hosts, labels, rr, l, x) == tie[j] ==> l == k);
      assert leaders[k] == tie[j];
    }
  }

  // The first member of a ranking tied with x.
  method FirstTied(hosts: seq<Host>, labels: seq<string>, ghost rr: nat, ghost k: nat, x: Ranked, ranked: seq<Ranked>) returns (at: nat)
    requires x in Eligible(hosts, labels) && ranked == Ranking(hosts, labels, rr + k)
    ensures at < |ranked| && ranked[at] == Leader(hosts, labels, rr, k, x)
  {
    hide Eligible, Ranking, Ties, Rotate;
    TieIsRotatedConfigOrder(hosts, labels, rr + k, x);
    BeforeIsBefore(ranked, x);
    RotatedIsTied(hosts, labels, rr + k, x);
    forall i | 0 <= i < |Before(ranked, x)| ensures !Tied(ranked[i], x) {
      assert ranked[i] == Before(ranked, x)[i] && Less(ranked[i], x);
    }
    at := 0;
    while !Tied(ranked[at], x)
      invariant at <= |Before(ranked, x)| < |ranked|
      decreases |ranked| - at
    {
      at := at + 1;
    }
  }

  lemma {:induction false} BeforeIsBefore(s: seq<Ranked>, x: Ranked)
    ensures forall y :: y in Before(s, x) ==> Less(y, x)
  {
    if s != [] {
      BeforeIsBefore(s[..|s| - 1], x);
    }
  }

  lemma {:induction false} TiesAreTied(s: seq<Ranked>, x: Ranked)
    ensures forall y :: y in Ties(s, x) ==> Tied(y, x)
  {
    if s != [] {
      TiesAreTied(s[..|s| - 1], x);
    }
  }

  lemma RotatedIsTied(hosts: seq<Host>, labels: seq<string>, rr: nat, x: Ranked)
    requires x in Eligible(hosts, labels)
    ensures var tie := Ties(Eligible(hosts, labels), x); tie != [] && Tied(Rotate(tie, rr)[0], x)
  {
    TieIsRotatedConfigOrder(hosts, labels, rr, x);
    TiesAreTied(Eligible(hosts, labels), x);
  }
}
