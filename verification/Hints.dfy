// Warm-pool advice from recent placements: classes of demand that keep falling
// to cold hosts ask matching hosts to grow, pools nobody used are told to shrink.
module Hints {
  import opened Common
  import opened DecisionLog
  import opened Fleet

  const GROW_COLD_THRESHOLD := 3
  const SHRINK_MIN_DEMAND := 3

  predicate Placed(d: Decision) {
    d.outcome.Active? || d.outcome.Queued?
  }

  // An instant grant on a warm host; a queued one waited whatever its tier.
  predicate WarmHit(d: Decision) {
    d.outcome.Active? && d.warmTier
  }

  // ---------- sums over maps ----------

  ghost function Sum(m: map<string, nat>): nat {
    if m == map[] then 0 else var k :| k in m; m[k] + Sum(m - {k})
  }

  lemma {:induction false} SumSplit(m: map<string, nat>, k: string)
    requires k in m
    ensures Sum(m) == m[k] + Sum(m - {k})
    decreases |m|
  {
    var j :| j in m && Sum(m) == m[j] + Sum(m - {j});
    if j != k {
      RemoveKeySize(m, j);
      RemoveKeySize(m, k);
      SumSplit(m - {j}, k);
      SumSplit(m - {k}, j);
      assert m - {j} - {k} == m - {k} - {j};
    }
  }

  function Get<K>(m: map<K, nat>, k: K): nat {
    if k in m then m[k] else 0
  }

  lemma SumBump(m: map<string, nat>, k: string)
    ensures Sum(m[k := Get(m, k) + 1]) == Sum(m) + 1
  {
    var t := m[k := Get(m, k) + 1];
    SumSplit(t, k);
    if k in m {
      SumSplit(m, k);
      assert t - {k} == m - {k};
    } else {
      assert t - {k} == m;
    }
  }

  lemma NothingSummed()
    ensures Sum(map[]) == 0
  {
  }

  // ---------- demand ----------

  // Cold placements by class, warm hits by host and by class and host, and the
  // labels of each class.
  datatype Demand = Demand(
    cold: map<string, nat>, warmHits: map<string, nat>, classHits: map<(string, string), nat>,
    labels: map<string, seq<string>>, placed: nat)

  function ColdOf(window: seq<Decision>, key: string): nat {
    if window == [] then 0
    else
      var d := window[|window| - 1];
      ColdOf(window[..|window| - 1], key) + if Placed(d) && !WarmHit(d) && d.demandClass == key then 1 else 0
  }

  function WarmHitsOf(window: seq<Decision>, host: string): nat {
    if window == [] then 0
    else
      var d := window[|window| - 1];
      WarmHitsOf(window[..|window| - 1], host) + if WarmHit(d) && d.host == host then 1 else 0
  }

  function ClassHitsOf(window: seq<Decision>, key: string, host: string): nat {
    if window == [] then 0
    else
      var d := window[|window| - 1];
      ClassHitsOf(window[..|window| - 1], key, host) + if WarmHit(d) && d.demandClass == key && d.host == host then 1 else 0
  }

  function PlacedIn(window: seq<Decision>): nat {
    if window == [] then 0 else PlacedIn(window[..|window| - 1]) + if Placed(window[|window| - 1]) then 1 else 0
  }

  // The labels of the first placement of a class.
  function LabelsOf(window: seq<Decision>, key: string): Option<seq<string>> {
    if window == [] then None
    else
      var before, d := LabelsOf(window[..|window| - 1], key), window[|window| - 1];
      if before.Some? then before else if Placed(d) && d.demandClass == key then Some(d.labels) else None
  }

  // The positions of the window with placements that count so.
  ghost function ColdAt(window: seq<Decision>, key: string): set<nat> {
    set i: nat | i < |window| && window[i].demandClass == key
      && (window[i].outcome.Queued? || (window[i].outcome.Active? && !window[i].warmTier))
  }

  ghost function WarmAt(window: seq<Decision>, host: string): set<nat> {
    set i: nat | i < |window| && window[i].host == host && window[i].outcome.Active? && window[i].warmTier
  }

  ghost function PlacedAt(window: seq<Decision>): set<nat> {
    set i: nat | i < |window| && (window[i].outcome.Active? || window[i].outcome.Queued?)
  }

  /** A placement is cold if it was queued, on whatever host, or granted on a host
      that was not warm. */
  lemma {:induction false} ColdCounts(window: seq<Decision>, key: string)
    ensures ColdOf(window, key) == |ColdAt(window, key)|
  {
    if window == [] {
      assert ColdAt(window, key) == {};
    } else {
      var k := |window| - 1;
      var before, after := ColdAt(window[..k], key), ColdAt(window, key);
      ColdCounts(window[..k], key);
      if k in after {
        assert after == before + {k};
      } else {
        assert after == before;
      }
    }
  }

  /** A warm hit is an instant grant on a warm host. */
  lemma {:induction false} WarmCounts(window: seq<Decision>, host: string)
    ensures WarmHitsOf(window, host) == |WarmAt(window, host)|
  {
    if window == [] {
      assert WarmAt(window, host) == {};
    } else {
      var k := |window| - 1;
      var before, after := WarmAt(window[..k], host), WarmAt(window, host);
      WarmCounts(window[..k], host);
      if k in after {
        assert after == before + {k};
      } else {
        assert after == before;
      }
    }
  }

  /** Every decision that was not refused is a placement. */
  lemma {:induction false} PlacedCounts(window: seq<Decision>)
    ensures PlacedIn(window) == |PlacedAt(window)|
  {
    if window == [] {
      assert PlacedAt(window) == {};
    } else {
      var k := |window| - 1;
      var before, after := PlacedAt(window[..k]), PlacedAt(window);
      PlacedCounts(window[..k]);
      if k in after {
        assert after == before + {k};
      } else {
        assert after == before;
      }
    }
  }

  /** A class carries the labels of its first placement. */
  lemma {:induction false} LabelsAreFirst(window: seq<Decision>, key: string, i: nat)
    requires i < |window| && window[i].demandClass == key && !window[i].outcome.Refused?
    requires forall j :: 0 <= j < i ==> window[j].demandClass != key || window[j].outcome.Refused?
    ensures LabelsOf(window, key) == Some(window[i].labels)
  {
    if i < |window| - 1 {
      LabelsAreFirst(window[..|window| - 1], key, i);
    } else {
      NoLabelsYet(window[..i], key);
    }
  }

  lemma {:induction false} NoLabelsYet(window: seq<Decision>, key: string)
    requires forall j :: 0 <= j < |window| ==> window[j].demandClass != key || window[j].outcome.Refused?
    ensures LabelsOf(window, key) == None
  {
    if window != [] {
      NoLabelsYet(window[..|window| - 1], key);
    }
  }

  ghost predicate Counts(dm: Demand, window: seq<Decision>) {
    && dm.placed == PlacedIn(window)
    && (forall key :: Get(dm.cold, key) == ColdOf(window, key))
    && (forall h :: Get(dm.warmHits, h) == WarmHitsOf(window, h))
    && (forall key, h :: Get(dm.classHits, (key, h)) == ClassHitsOf(window, key, h))
    && (forall key :: Listed(dm.labels, key) == LabelsOf(window, key))
  }

  ghost function Listed(labels: map<string, seq<string>>, key: string): Option<seq<string>> {
    if key in labels then Some(labels[key]) else None
  }

  // One more decision of the window is counted.
  lemma CountsGrow(before: Demand, after: Demand, window: seq<Decision>, i: nat)
    requires i < |window| && Counts(before, window[..i])
    requires var d := window[i];
      var labels := if d.demandClass in before.labels then before.labels else before.labels[d.demandClass := d.labels];
      after ==
        if !Placed(d) then before
        else if WarmHit(d) then
          Demand(before.cold, before.warmHits[d.host := Get(before.warmHits, d.host) + 1],
                 before.classHits[(d.demandClass, d.host) := Get(before.classHits, (d.demandClass, d.host)) + 1], labels, before.placed + 1)
        else
          Demand(before.cold[d.demandClass := Get(before.cold, d.demandClass) + 1], before.warmHits, before.classHits, labels, before.placed + 1)
    ensures Counts(after, window[..i + 1])
  {
    var w, w' := window[..i], window[..i + 1];
    assert w'[..|w'| - 1] == w;
    forall key ensures Get(after.cold, key) == ColdOf(w', key) && Listed(after.labels, key) == LabelsOf(w', key) {
      assert Get(before.cold, key) == ColdOf(w, key) && Listed(before.labels, key) == LabelsOf(w, key);
    }
    forall h ensures Get(after.warmHits, h) == WarmHitsOf(w', h) {
      assert Get(before.warmHits, h) == WarmHitsOf(w, h);
    }
    forall key, h ensures Get(after.classHits, (key, h)) == ClassHitsOf(w', key, h) {
      assert Get(before.classHits, (key, h)) == ClassHitsOf(w, key, h);
    }
  }

  /** The fold over the window: every placement is counted once, cold under its
      class or warm under its host. */
  method MeasureDemand(window: seq<Decision>) returns (dm: Demand)
    ensures Counts(dm, window)
    ensures dm.placed == Sum(dm.cold) + Sum(dm.warmHits)
  {
    dm := Demand(map[], map[], map[], map[], 0);
    assert Counts(dm, window[..0]);
    hide Counts, Sum;
    NothingSummed();
    var i := 0;
    while i < |window|
      invariant i <= |window| && Counts(dm, window[..i])
      invariant dm.placed == Sum(dm.cold) + Sum(dm.warmHits)
    {
      var d := window[i];
      ghost var before := dm;
      if Placed(d) {
        var labels := if d.demandClass in dm.labels then dm.labels else dm.labels[d.demandClass := d.labels];
        if WarmHit(d) {
          SumBump(dm.warmHits, d.host);
          var pair := (d.demandClass, d.host);
          dm := Demand(dm.cold, dm.warmHits[d.host := Get(dm.warmHits, d.host) + 1],
                       dm.classHits[pair := Get(dm.classHits, pair) + 1], labels, dm.placed + 1);
        } else {
          SumBump(dm.cold, d.demandClass);
          dm := Demand(dm.cold[d.demandClass := Get(dm.cold, d.demandClass) + 1], dm.warmHits, dm.classHits, labels, dm.placed + 1);
        }
      }
      CountsGrow(before, dm, window, i);
      i := i + 1;
    }
    assert window[..i] == window;
  }

  // ---------- keys in order ----------

  predicate Less(a: string, b: string) {
    b != [] && (a == [] || a[0] < b[0] || (a[0] == b[0] && Less(a[1..], b[1..])))
  }

  lemma {:induction false} LessIsTotal(a: string, b: string)
    ensures a == b || Less(a, b) || Less(b, a)
  {
    if a != [] && b != [] && a[0] == b[0] {
      LessIsTotal(a[1..], b[1..]);
      assert a == [a[0]] + a[1..] && b == [b[0]] + b[1..];
    }
  }

  lemma {:induction false} LessIsTransitive(a: string, b: string, c: string)
    requires Less(a, b) && Less(b, c)
    ensures Less(a, c)
  {
    if a != [] && a[0] == b[0] && b[0] == c[0] {
      LessIsTransitive(a[1..], b[1..], c[1..]);
    }
  }

  ghost predicate Ascending(s: seq<string>) {
    forall i, j :: 0 <= i < j < |s| ==> Less(s[i], s[j])
  }

  method Smallest(keys: set<string>) returns (m: string)
    requires keys != {}
    ensures m in keys && forall x :: x in keys && x != m ==> Less(m, x)
  {
    m :| m in keys;
    var rest := keys - {m};
    while rest != {}
      invariant rest <= keys && m in keys && m !in rest
      invariant forall x :: x in keys && x !in rest && x != m ==> Less(m, x)
      decreases |rest|
    {
      var c :| c in rest;
      rest := rest - {c};
      LessIsTotal(c, m);
      if Less(c, m) {
        forall x | x in keys && x !in rest && x != c ensures Less(c, x) {
          if x != m {
            LessIsTransitive(c, m, x);
          }
        }
        m := c;
      }
    }
  }

  /** The keys of a table in ascending order. */
  method SortedKeys(keys: set<string>) returns (s: seq<string>)
    ensures Ascending(s) && forall k :: k in s <==> k in keys
  {
    s := [];
    var rest := keys;
    while rest != {}
      invariant rest <= keys && Ascending(s)
      invariant forall k :: k in s <==> k in keys && k !in rest
      invariant forall k, x :: k in s && x in rest ==> Less(k, x)
      decreases |rest|
    {
      var m := Smallest(rest);
      AscendingAppend(s, m);
      rest := rest - {m};
      s := s + [m];
    }
  }

  lemma AscendingAppend(s: seq<string>, x: string)
    requires Ascending(s) && forall k :: k in s ==> Less(k, x)
    ensures Ascending(s + [x])
  {
    forall i, j | 0 <= i < j < |s + [x]| ensures Less((s + [x])[i], (s + [x])[j]) {
      assert s[i] in s;
    }
  }

  // ---------- advice ----------

  datatype Advice = Grow(labels: seq<string>, coldPlacements: nat, warmHits: nat) | Shrink

  // Whether a class's demand asks this host to keep it warm.
  predicate GrowsFor(dm: Demand, key: string, h: Host) {
    && key in dm.labels && Get(dm.cold, key) >= GROW_COLD_THRESHOLD
    && HostMatches(h, dm.labels[key]) && StripHostLabels(dm.labels[key], h) != []
  }

  predicate ShrinksFor(dm: Demand, h: Host, windowStart: int) {
    && h.status.Some? && h.status.value.parked > 0 && h.upSince <= windowStart
    && Get(dm.warmHits, h.name) == 0 && dm.placed >= SHRINK_MIN_DEMAND
  }

  function GrowEntry(dm: Demand, key: string, h: Host): Advice
    requires key in dm.labels
  {
    Grow(StripHostLabels(dm.labels[key], h), Get(dm.cold, key), Get(dm.classHits, (key, h.name)))
  }

  // The advice is a grow entry for each of the classes, in their order.
  ghost predicate Entries(advice: seq<Advice>, asking: seq<string>, dm: Demand, h: Host) {
    |advice| == |asking| && forall i :: 0 <= i < |asking| ==> GrowsFor(dm, asking[i], h) && advice[i] == GrowEntry(dm, asking[i], h)
  }

  /** The advice of one host: a grow entry for exactly the classes that ask for
      it, in order of their keys, or else, if its pool went unused, to shrink. */
  method AdviseHost(dm: Demand, h: Host, windowStart: int) returns (advice: seq<Advice>, ghost asking: seq<string>)
    ensures Ascending(asking) && forall key :: key in asking <==> GrowsFor(dm, key, h)
    ensures asking != [] ==> Entries(advice, asking, dm, h)
    ensures asking == [] ==> advice == if ShrinksFor(dm, h, windowStart) then [Shrink] else []
  {
    advice, asking := [], [];
    var keys := SortedKeys(dm.labels.Keys);
    var i := 0;
    while i < |keys|
      invariant i <= |keys| && Ascending(asking) && Entries(advice, asking, dm, h)
      invariant forall key :: key in asking <==> key in keys[..i] && GrowsFor(dm, key, h)
    {
      assert keys[..i + 1] == keys[..i] + [keys[i]];
      if GrowsFor(dm, keys[i], h) {
        forall k | k in asking ensures Less(k, keys[i]) {
          assert k in keys[..i];
        }
        AscendingAppend(asking, keys[i]);
        advice, asking := advice + [GrowEntry(dm, keys[i], h)], asking + [keys[i]];
      }
      i := i + 1;
    }
    assert keys[..i] == keys;
    if advice == [] && ShrinksFor(dm, h, windowStart) {
      advice := [Shrink];
    }
  }

  datatype HostHints = HostHints(host: Host, advice: seq<Advice>)

  // A grow entry names labels, at least one, and all of them are carried by a
  // target the daemon itself lists.
  ghost predicate Actionable(a: Advice, raws: seq<Target>) {
    a.Grow? ==>
      && a.labels != [] && a.coldPlacements >= GROW_COLD_THRESHOLD
      && exists i :: 0 <= i < |raws| && ContainsAll(raws[i].labels, a.labels)
  }

  lemma GrowIsActionable(dm: Demand, key: string, h: Host, raws: seq<Target>)
    requires CacheOf(h, raws) && GrowsFor(dm, key, h)
    ensures Actionable(GrowEntry(dm, key, h), raws)
  {
    StrippingPreservesMatching(h, raws, dm.labels[key]);
  }

  // The window saw real demand, and no warm hit on this host's parked capacity.
  ghost predicate Unused(h: Host, window: seq<Decision>) {
    && h.status.Some? && h.status.value.parked > 0
    && WarmHitsOf(window, h.name) == 0 && PlacedIn(window) >= SHRINK_MIN_DEMAND
  }

  // The window's demand for a class asks this host to keep it warm.
  ghost predicate Asks(window: seq<Decision>, key: string, h: Host) {
    && LabelsOf(window, key).Some? && ColdOf(window, key) >= GROW_COLD_THRESHOLD
    && HostMatches(h, LabelsOf(window, key).value) && StripHostLabels(LabelsOf(window, key).value, h) != []
  }

  ghost function AskedFor(window: seq<Decision>, key: string, h: Host): Advice
    requires Asks(window, key, h)
  {
    Grow(StripHostLabels(LabelsOf(window, key).value, h), ColdOf(window, key), ClassHitsOf(window, key, h.name))
  }

  // What a host is told, read off the window: one entry for each class that asks,
  // in order of the keys, or to shrink if none does and its pool went unused.
  ghost predicate Tells(advice: seq<Advice>, asking: seq<string>, h: Host, window: seq<Decision>, windowStart: int) {
    && Ascending(asking) && (forall key :: key in asking <==> Asks(window, key, h))
    && (asking != [] ==> |advice| == |asking| && forall i :: 0 <= i < |asking| ==> advice[i] == AskedFor(window, asking[i], h))
    && (asking == [] ==> advice == if Unused(h, window) && h.upSince <= windowStart then [Shrink] else [])
  }

  ghost predicate Advised(advice: seq<Advice>, h: Host, raws: seq<Target>, window: seq<Decision>, windowStart: int) {
    && (exists asking :: Tells(advice, asking, h, window, windowStart))
    && (forall a :: a in advice ==> Actionable(a, raws))
    && (Shrink in advice ==> advice == [Shrink])
  }

  /** Hints of a window: exactly the hosts that are up and have something to hear
      are told, once each and in configured order. A host grows for every class that asks for it, in order, with labels
      its daemon can act on, and shrinks only when none does and its parked capacity
      went unused; never both. */
  method ComputeHints(window: seq<Decision>, hosts: seq<Host>, windowStart: int, ghost raws: Host -> seq<Target>)
    returns (hints: seq<HostHints>, ghost at: seq<nat>)
    requires forall i :: 0 <= i < |hosts| ==> CacheOf(hosts[i], raws(hosts[i]))
    ensures forall i :: 0 <= i < |hints| ==>
      && hints[i].host in hosts && hints[i].host.up && hints[i].advice != []
      && Advised(hints[i].advice, hints[i].host, raws(hints[i].host), window, windowStart)
    ensures |at| == |hints| && forall i :: 0 <= i < |at| ==> at[i] < |hosts| && hints[i].host == hosts[at[i]]
    ensures forall i, j :: 0 <= i < j < |at| ==> at[i] < at[j]
    ensures forall k :: 0 <= k < |hosts| && hosts[k].up && k !in at ==> Advised([], hosts[k], raws(hosts[k]), window, windowStart)
  {
    hide Advised, Counts, Entries, Ascending;
    var dm := MeasureDemand(window);
    hints, at := [], [];
    var i := 0;
    while i < |hosts|
      invariant i <= |hosts| && |at| == |hints|
      invariant forall k :: 0 <= k < |at| ==> at[k] < i && hints[k].host == hosts[at[k]]
      invariant forall k, l :: 0 <= k < l < |at| ==> at[k] < at[l]
      invariant forall k :: 0 <= k < |hints| ==>
        && hints[k].host in hosts && hints[k].host.up && hints[k].advice != []
        && Advised(hints[k].advice, hints[k].host, raws(hints[k].host), window, windowStart)
      invariant forall k :: 0 <= k < i && hosts[k].up && k !in at ==> Advised([], hosts[k], raws(hosts[k]), window, windowStart)
    {
      var h := hosts[i];
      i := i + 1;
      if !h.up {
        continue;
      }
      var advice;
      ghost var asking;
      advice, asking := AdviseHost(dm, h, windowStart);
      AdviceIsRight(advice, asking, dm, h, windowStart, raws(h), window);
      if advice != [] {
        hints, at := hints + [HostHints(h, advice)], at + [i - 1];
      }
    }
  }

  lemma AsksIsGrowsFor(dm: Demand, key: string, h: Host, window: seq<Decision>)
    requires Counts(dm, window)
    ensures Asks(window, key, h) <==> GrowsFor(dm, key, h)
    ensures Asks(window, key, h) ==> AskedFor(window, key, h) == GrowEntry(dm, key, h)
  {
    assert Listed(dm.labels, key) == LabelsOf(window, key);
    assert Get(dm.cold, key) == ColdOf(window, key);
    assert Get(dm.classHits, (key, h.name)) == ClassHitsOf(window, key, h.name);
  }

  lemma AdviceIsRight(advice: seq<Advice>, asking: seq<string>, dm: Demand, h: Host, windowStart: int, raws: seq<Target>, window: seq<Decision>)
    requires Counts(dm, window) && CacheOf(h, raws)
    requires Ascending(asking) && forall key :: key in asking <==> GrowsFor(dm, key, h)
    requires asking != [] ==> Entries(advice, asking, dm, h)
    requires asking == [] ==> advice == if ShrinksFor(dm, h, windowStart) then [Shrink] else []
    ensures Advised(advice, h, raws, window, windowStart)
  {
    hide Ascending, GrowsFor, Asks, GrowEntry, Actionable, HostMatches;
    forall key ensures Asks(window, key, h) <==> GrowsFor(dm, key, h) {
      AsksIsGrowsFor(dm, key, h, window);
    }
    forall i | 0 <= i < |asking| ensures advice[i] == AskedFor(window, asking[i], h) && Actionable(advice[i], raws) {
      assert asking[i] in asking;
      AsksIsGrowsFor(dm, asking[i], h, window);
      GrowIsActionable(dm, asking[i], h, raws);
    }
    ShrinkIsActionable(raws);
    assert Get(dm.warmHits, h.name) == WarmHitsOf(window, h.name);
    assert Tells(advice, asking, h, window, windowStart);
  }

  lemma ShrinkIsActionable(raws: seq<Target>)
    ensures Actionable(Shrink, raws)
  {
  }
}
