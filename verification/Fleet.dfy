// Hosts as the broker sees them when it places a request, and label matching.
module Fleet {
  import opened Common

  datatype Target = Target(labels: seq<string>, warm: bool, booted: bool)

  datatype Status = Status(
    parked: nat, running: int, bootsInFlight: int, maxBootedRunning: int, loadOK: bool, diskOK: bool)

  // One host's snapshot: configured name and extra labels, health, the cached
  // targets (which carry the extra labels), the daemon's status if it reports
  // one, the effective load, and since when it is up.
  datatype Host = Host(
    name: string, extra: seq<string>, up: bool, targets: seq<Target>, status: Option<Status>, load: int, upSince: int)

  predicate ContainsAll(have: seq<string>, want: seq<string>) {
    forall w :: w in want ==> w in have
  }

  // The host's name is a label of all its targets.
  predicate TargetMatches(h: Host, t: Target, labels: seq<string>) {
    ContainsAll([h.name] + t.labels, labels)
  }

  predicate HostMatches(h: Host, labels: seq<string>) {
    exists t :: t in h.targets && TargetMatches(h, t, labels)
  }

  predicate IsHostLabel(h: Host, l: string) {
    l == h.name || l in h.extra
  }

  // What is left of a request once the labels only the broker knows are gone.
  function StripHostLabels(labels: seq<string>, h: Host): (out: seq<string>)
    ensures forall l :: l in out <==> l in labels && !IsHostLabel(h, l)
  {
    if labels == [] then []
    else
      var front, last := StripHostLabels(labels[..|labels| - 1], h), labels[|labels| - 1];
      assert labels == labels[..|labels| - 1] + [last];
      if IsHostLabel(h, last) then front else front + [last]
  }

  // A target as its daemon lists it, and as the broker caches it.
  function Cached(raw: Target, extra: seq<string>): Target {
    raw.(labels := raw.labels + extra)
  }

  ghost predicate CacheOf(h: Host, raws: seq<Target>) {
    |h.targets| == |raws| && forall i :: 0 <= i < |raws| ==> h.targets[i] == Cached(raws[i], h.extra)
  }

  /** Asking the broker with host labels is asking the daemon without them: the
      host matches exactly when one of its own targets carries every label that
      is left. */
  lemma StrippingPreservesMatching(h: Host, raws: seq<Target>, labels: seq<string>)
    requires CacheOf(h, raws)
    ensures HostMatches(h, labels) <==> exists i :: 0 <= i < |raws| && ContainsAll(raws[i].labels, StripHostLabels(labels, h))
  {
    if HostMatches(h, labels) {
      var t :| t in h.targets && TargetMatches(h, t, labels);
      var i :| 0 <= i < |h.targets| && h.targets[i] == t;
      assert ContainsAll(raws[i].labels, StripHostLabels(labels, h));
    }
    if i :| 0 <= i < |raws| && ContainsAll(raws[i].labels, StripHostLabels(labels, h)) {
      assert h.targets[i] in h.targets;
      assert TargetMatches(h, h.targets[i], labels);
    }
  }
}
