// The circuit breaker that guards the accessibility rung: two tables over
// lease-and-bundle keys, cleared together when either has grown too large.
module Breaker {
  const THRESHOLD := 3
  const MAX_KEYS := 1024

  // What has happened to the breaker, oldest first.
  datatype Event = Charge(key: string) | Honest(key: string) | Reset

  // Charges of a key since its last honest observation or the last reset.
  function Streak(log: seq<Event>, key: string): nat {
    if log == [] then 0
    else
      var before := Streak(log[..|log| - 1], key);
      match log[|log| - 1]
      case Charge(k) => if k == key then before + 1 else before
      case Honest(k) => if k == key then 0 else before
      case Reset => 0
  }

  // A key is open once a streak has reached the threshold, until a reset.
  predicate Opened(log: seq<Event>, key: string) {
    log != [] && !log[|log| - 1].Reset? &&
    (Streak(log, key) >= THRESHOLD || Opened(log[..|log| - 1], key))
  }

  function Charges(log: seq<Event>): nat {
    if log == [] then 0 else Charges(log[..|log| - 1]) + if log[|log| - 1].Charge? then 1 else 0
  }

  lemma AppendEvent(log: seq<Event>, e: Event)
    ensures (log + [e])[..|log + [e]| - 1] == log
    ensures Charges(log + [e]) == Charges(log) + if e.Charge? then 1 else 0
  {
  }

  lemma StreakOpens(log: seq<Event>, key: string)
    requires Streak(log, key) >= THRESHOLD
    ensures Opened(log, key)
  {
  }

  /** A key opens exactly at its third charge since its last honest observation
      or the last reset; nothing but a reset closes it again. */
  lemma OpensExactlyAtThreshold(log: seq<Event>, e: Event, key: string)
    ensures !Opened(log, key) ==> (Opened(log + [e], key) <==> e == Charge(key) && Streak(log + [e], key) == THRESHOLD)
    ensures Opened(log, key) ==> (Opened(log + [e], key) <==> !e.Reset?)
  {
    AppendEvent(log, e);
    if Streak(log, key) >= THRESHOLD {
      StreakOpens(log, key);
    }
  }

  function Count(fails: map<string, nat>, key: string): nat {
    if key in fails then fails[key] else 0
  }

  // The tables are the history.
  ghost predicate Tabled(fails: map<string, nat>, open: set<string>, log: seq<Event>) {
    && (forall key :: Count(fails, key) == Streak(log, key))
    && (forall key :: key in open <==> Opened(log, key))
  }

  class AxBreaker {
    var fails: map<string, nat>
    var open: set<string>
    ghost var log: seq<Event>

    constructor ()
      ensures Valid() && log == []
    {
      fails, open, log := map[], {}, [];
    }

    // The tables are the history, and stay small.
    ghost predicate Valid()
      reads this
    {
      Tabled(fails, open, log) && |fails| <= MAX_KEYS + 1 && |open| <= MAX_KEYS + 1
    }

    method IsOpen(key: string) returns (r: bool)
      requires Valid()
      ensures r == Opened(log, key)
    {
      r := key in open;
    }

    /** One failure charged to a key, after clearing tables that are full. */
    method Fail(key: string) returns (nowOpen: bool)
      requires Valid()
      modifies this
      ensures Valid()
      ensures log == (if |old(fails)| > MAX_KEYS || |old(open)| > MAX_KEYS then old(log) + [Reset] else old(log)) + [Charge(key)]
      ensures nowOpen == Opened(log, key)
    {
      hide Tabled;
      if |fails| > MAX_KEYS || |open| > MAX_KEYS {
        Clear();
      }
      var n := Count(fails, key) + 1;
      ChargeTabled(fails, open, log, key);
      GrowsByOne(open, key);
      KeysGrowByOne(fails, key, n);
      log := log + [Charge(key)];
      fails := fails[key := n];
      if n >= THRESHOLD {
        open := open + {key};
      }
      nowOpen := key in open;
      TabledSays(fails, open, log, key);
    }

    method Clear()
      modifies this
      ensures fails == map[] && open == {} && log == old(log) + [Reset] && Valid()
    {
      fails, open := map[], {};
      ghost var before := log;
      log := log + [Reset];
      AppendEvent(before, Reset);
    }

    // An honest observation ends the streak; an open circuit stays open.
    method Succeed(key: string)
      requires Valid()
      modifies this
      ensures Valid() && log == old(log) + [Honest(key)] && open == old(open)
    {
      hide Tabled, Streak, Opened, Count;
      HonestTabled(fails, open, log, key);
      SmallerWithout(fails, key);
      fails := fails - {key};
      log := log + [Honest(key)];
    }
  }

  // What one event does to the tables.
  lemma ChargeTabled(fails: map<string, nat>, open: set<string>, log: seq<Event>, key: string)
    requires Tabled(fails, open, log)
    ensures var n := Count(fails, key) + 1;
      Tabled(fails[key := n], if n >= THRESHOLD then open + {key} else open, log + [Charge(key)])
  {
    var n, after := Count(fails, key) + 1, log + [Charge(key)];
    AppendEvent(log, Charge(key));
    forall k ensures Count(fails[key := n], k) == Streak(after, k) {
      assert Count(fails, k) == Streak(log, k);
    }
    forall k ensures Opened(after, k) <==> k in open || (k == key && n >= THRESHOLD) {
      assert Count(fails, k) == Streak(log, k) && (k in open <==> Opened(log, k));
      OpensExactlyAtThreshold(log, Charge(key), k);
      if Streak(log, k) >= THRESHOLD {
        StreakOpens(log, k);
      }
    }
  }

  lemma HonestTabled(fails: map<string, nat>, open: set<string>, log: seq<Event>, key: string)
    requires Tabled(fails, open, log)
    ensures Tabled(fails - {key}, open, log + [Honest(key)])
  {
    var after := log + [Honest(key)];
    AppendEvent(log, Honest(key));
    forall k ensures Count(fails - {key}, k) == Streak(after, k) && (Opened(after, k) <==> k in open) {
      assert Count(fails, k) == Streak(log, k) && (k in open <==> Opened(log, k));
      OpensExactlyAtThreshold(log, Honest(key), k);
    }
  }

  lemma TabledSays(fails: map<string, nat>, open: set<string>, log: seq<Event>, key: string)
    requires Tabled(fails, open, log)
    ensures key in open <==> Opened(log, key)
  {
  }

  lemma KeysGrowByOne(m: map<string, nat>, key: string, n: nat)
    ensures |m[key := n]| <= |m| + 1
  {
    GrowsByOne(m.Keys, key);
    assert m[key := n].Keys == m.Keys + {key};
  }

  lemma GrowsByOne(s: set<string>, x: string)
    ensures |s + {x}| <= |s| + 1
  {
    if x in s {
      assert s + {x} == s;
    }
  }

  lemma SmallerWithout(m: map<string, nat>, key: string)
    ensures |m - {key}| <= |m|
  {
    assert (m - {key}).Keys == m.Keys - {key};
    assert m.Keys == (m.Keys - {key}) + (m.Keys * {key});
  }
}
