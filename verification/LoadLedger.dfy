// The broker's routing tables and the load counters of its hosts, each method
// taken as one step. Every host's counter equals the leases and runs that count
// against it, through every way an entry can end.
module LoadLedger {
  import opened Common

  // Times and durations are whole seconds.
  const TERMINAL_RETENTION := 10 * 60
  const RUN_ROUTE_RETENTION := 24 * 60 * 60
  const QUEUE_WAIT_TTL := 30 * 60
  const QUEUED_RECONCILE_AFTER := QUEUE_WAIT_TTL + 2 * 60

  datatype Status = Status(leasesActive: nat, leasesQueued: nat)

  class Host {
    const name: string
    var leases: int
    var stats: Option<Status>
    var statsBump: int
    // The counter when the stored snapshot was taken.
    ghost var atSnapshot: int

    constructor (name: string)
      ensures this.name == name && leases == 0 && stats == None && Valid()
    {
      this.name := name;
      leases, stats, statsBump, atSnapshot := 0, None, 0, 0;
    }

    // The counter is no negative number, and the bump is its net change since
    // the snapshot.
    ghost predicate Valid()
      reads this
    {
      leases >= 0 && statsBump == leases - atSnapshot
    }

    // The clamp at zero fires exactly when the counter would go below it; only
    // then does the bump lose track of the counter.
    method AddLease(n: int)
      requires leases >= 0
      modifies this
      ensures leases == if old(leases) + n < 0 then 0 else old(leases) + n
      ensures statsBump == old(statsBump) + n
      ensures stats == old(stats) && atSnapshot == old(atSnapshot)
      ensures old(Valid()) ==> (Valid() <==> old(leases) + n >= 0)
    {
      leases := leases + n;
      if leases < 0 {
        leases := 0;
      }
      statsBump := statsBump + n;
    }

    method SetStats(st: Option<Status>)
      requires Valid()
      modifies this
      ensures Valid() && leases == old(leases) && stats == st && atSnapshot == leases
    {
      stats, statsBump := st, 0;
      atSnapshot := leases;
    }

    // Daemon truth plus what the broker granted and released since, never
    // negative; the broker's own counter without a snapshot.
    method EffectiveLoad() returns (n: int)
      requires Valid()
      ensures n >= 0
      ensures stats == None ==> n == leases
      ensures stats.Some? ==>
        var truth := stats.value.leasesActive + stats.value.leasesQueued + (leases - atSnapshot);
        n == if truth > 0 then truth else 0
    {
      if stats == None {
        return leases;
      }
      n := stats.value.leasesActive + stats.value.leasesQueued + statsBump;
      if n <= 0 {
        n := 0;
      }
    }
  }

  datatype LeaseState = Queued | Active | Released | Expired

  datatype LeaseEntry = LeaseEntry(host: Host, state: LeaseState, lastPoll: int, terminalAt: Option<int>) {
    predicate Terminal() { terminalAt.Some? }
  }

  datatype RunEntry = RunEntry(host: Host, at: int, loaded: bool)

  // The entries that count against a host.
  ghost function LiveLeases(leases: map<string, LeaseEntry>, h: Host): set<string> {
    set id | id in leases && leases[id].host == h && !leases[id].Terminal()
  }

  ghost function LoadedRuns(runs: map<string, RunEntry>, h: Host): set<string> {
    set id | id in runs && runs[id].host == h && runs[id].loaded
  }

  ghost function LoadOn(leases: map<string, LeaseEntry>, runs: map<string, RunEntry>, h: Host): nat {
    |LiveLeases(leases, h)| + |LoadedRuns(runs, h)|
  }

  // ---------- how one change of a table moves the counts ----------

  predicate LeaseCounts(leases: map<string, LeaseEntry>, id: string) {
    id in leases && !leases[id].Terminal()
  }

  predicate RunCounts(runs: map<string, RunEntry>, id: string) {
    id in runs && runs[id].loaded
  }

  lemma LeaseUpdated(leases: map<string, LeaseEntry>, id: string, e: LeaseEntry, h: Host)
    requires LeaseCounts(leases, id) ==> leases[id].host == e.host
    ensures |LiveLeases(leases[id := e], h)| ==
            |LiveLeases(leases, h)|
            + (if h == e.host && !e.Terminal() then 1 else 0) - (if h == e.host && LeaseCounts(leases, id) then 1 else 0)
  {
    var before, after := LiveLeases(leases, h), LiveLeases(leases[id := e], h);
    if h == e.host && !e.Terminal() {
      assert after == before + {id};
    } else {
      assert after == before - {id};
    }
  }

  lemma LeaseOverwritten(leases: map<string, LeaseEntry>, id: string, e: LeaseEntry)
    requires LeaseCounts(leases, id) && !e.Terminal()
    ensures |LiveLeases(leases[id := e], e.host)| != |LiveLeases(leases, e.host)| + 1
         || leases[id].host != e.host
    ensures leases[id].host != e.host ==>
            |LiveLeases(leases[id := e], leases[id].host)| == |LiveLeases(leases, leases[id].host)| - 1
  {
    var h := leases[id].host;
    if h == e.host {
      assert LiveLeases(leases[id := e], h) == LiveLeases(leases, h);
    } else {
      assert LiveLeases(leases[id := e], h) == LiveLeases(leases, h) - {id};
      assert id in LiveLeases(leases, h);
    }
  }

  lemma LeaseRemoved(leases: map<string, LeaseEntry>, id: string, h: Host)
    requires id in leases
    ensures |LiveLeases(leases - {id}, h)| ==
            |LiveLeases(leases, h)| - (if h == leases[id].host && LeaseCounts(leases, id) then 1 else 0)
  {
    assert LiveLeases(leases - {id}, h) == LiveLeases(leases, h) - {id};
  }

  lemma RunUpdated(runs: map<string, RunEntry>, id: string, e: RunEntry, h: Host)
    ensures |LoadedRuns(runs[id := e], h)| ==
            |LoadedRuns(runs, h)|
            + (if h == e.host && e.loaded then 1 else 0) - (if RunCounts(runs, id) && h == runs[id].host then 1 else 0)
  {
    var before, after := LoadedRuns(runs, h), LoadedRuns(runs[id := e], h);
    if h == e.host && e.loaded {
      assert after == (before - {id}) + {id};
    } else {
      assert after == before - {id};
    }
  }

  lemma RunRemoved(runs: map<string, RunEntry>, id: string, h: Host)
    requires id in runs
    ensures |LoadedRuns(runs - {id}, h)| ==
            |LoadedRuns(runs, h)| - (if h == runs[id].host && RunCounts(runs, id) then 1 else 0)
  {
    assert LoadedRuns(runs - {id}, h) == LoadedRuns(runs, h) - {id};
  }

  lemma LoadAfterLeaseRemoved(hosts: set<Host>, leases: map<string, LeaseEntry>, runs: map<string, RunEntry>, id: string)
    requires id in leases
    ensures forall h :: h in hosts ==>
      LoadOn(leases - {id}, runs, h) == LoadOn(leases, runs, h) - if h == leases[id].host && LeaseCounts(leases, id) then 1 else 0
  {
    forall h | h in hosts {
      LeaseRemoved(leases, id, h);
    }
  }

  lemma LoadAfterLeaseUpdated(hosts: set<Host>, leases: map<string, LeaseEntry>, runs: map<string, RunEntry>, id: string, e: LeaseEntry)
    requires LeaseCounts(leases, id) ==> leases[id].host == e.host
    ensures forall h :: h in hosts ==>
      LoadOn(leases[id := e], runs, h) == LoadOn(leases, runs, h)
        + (if h == e.host && !e.Terminal() then 1 else 0) - (if h == e.host && LeaseCounts(leases, id) then 1 else 0)
  {
    forall h | h in hosts {
      LeaseUpdated(leases, id, e, h);
    }
  }

  lemma LoadAfterRunUpdated(hosts: set<Host>, leases: map<string, LeaseEntry>, runs: map<string, RunEntry>, id: string, e: RunEntry)
    ensures forall h :: h in hosts ==>
      LoadOn(leases, runs[id := e], h) == LoadOn(leases, runs, h)
        + (if h == e.host && e.loaded then 1 else 0) - (if RunCounts(runs, id) && h == runs[id].host then 1 else 0)
  {
    forall h | h in hosts {
      RunUpdated(runs, id, e, h);
    }
  }

  lemma LoadAfterRunRemoved(hosts: set<Host>, leases: map<string, LeaseEntry>, runs: map<string, RunEntry>, id: string)
    requires id in runs
    ensures forall h :: h in hosts ==>
      LoadOn(leases, runs - {id}, h) == LoadOn(leases, runs, h) - if h == runs[id].host && RunCounts(runs, id) then 1 else 0
  {
    forall h | h in hosts {
      RunRemoved(runs, id, h);
    }
  }

  // What a daemon answers when asked about a lease or a run.
  datatype LeaseAnswer = LeaseIs(state: LeaseState) | LeaseError(status: int) | LeaseUnreachable
  datatype RunAnswer = RunFinished | RunGoing | RunError(status: int) | RunUnreachable

  const NOT_FOUND := 404

  class Broker {
    const hosts: set<Host>
    var leases: map<string, LeaseEntry>
    var runs: map<string, RunEntry>
    var orphans: map<string, Host>
    var rr: nat

    constructor (hosts: set<Host>)
      requires forall h :: h in hosts ==> h.leases == 0 && h.Valid()
      ensures this.hosts == hosts && Valid()
      ensures leases == map[] && runs == map[] && orphans == map[]
    {
      this.hosts := hosts;
      leases, runs, orphans, rr := map[], map[], map[], 0;
    }

    // Entries name known hosts.
    ghost predicate Routed()
      reads this`leases, this`runs
    {
      && (forall id :: id in leases ==> leases[id].host in hosts)
      && (forall id :: id in runs ==> runs[id].host in hosts)
    }

    // Load conservation, host by host.
    ghost predicate Balanced()
      reads this`leases, this`runs, hosts
    {
      forall h :: h in hosts ==> h.Valid() && h.leases == LoadOn(leases, runs, h)
    }

    ghost predicate Valid()
      reads this`leases, this`runs, hosts
    {
      Routed() && Balanced()
    }

    /** Remembering a lease keeps the books balanced exactly when its id does not
        already count; fresh ids never do. */
    method RememberLease(id: string, state: LeaseState, h: Host, now: int)
      requires Valid() && h in hosts
      modifies this`leases, h
      ensures leases == old(leases)[id := LeaseEntry(h, state, now, None)]
      ensures h.leases == old(h.leases) + 1
      ensures Valid() <==> !LeaseCounts(old(leases), id)
    {
      var e := LeaseEntry(h, state, now, None);
      if LeaseCounts(leases, id) {
        LeaseOverwritten(leases, id, e);
      } else {
        LoadAfterLeaseUpdated(hosts, leases, runs, id, e);
      }
      ghost var before := leases;
      leases := leases[id := e];
      h.AddLease(1);
      if LeaseCounts(before, id) {
        ghost var g := before[id].host;
        assert g.leases != LoadOn(leases, runs, g);
      }
    }

    // A client-driven observation of a lease.
    method NoteLeaseState(id: string, state: LeaseState, now: int)
      requires Valid()
      modifies this`leases, hosts
      ensures Valid()
      ensures state.Released? || state.Expired? ==> Tombstoned(old(leases), leases, id, state, now)
      ensures !(state.Released? || state.Expired?) ==>
        leases == if id in old(leases) then old(leases)[id := old(leases)[id].(state := state, lastPoll := now)] else old(leases)
    {
      hide LoadOn, LiveLeases, LoadedRuns;
      if state.Released? || state.Expired? {
        MarkLeaseTerminal(id, state, now);
      } else if id in leases {
        var e := leases[id].(state := state, lastPoll := now);
        LoadAfterLeaseUpdated(hosts, leases, runs, id, e);
        leases := leases[id := e];
      }
    }

    // The entry stays, in the state observed, terminal since it first became so.
    static ghost predicate Tombstoned(before: map<string, LeaseEntry>, after: map<string, LeaseEntry>, id: string, state: LeaseState, now: int) {
      if id !in before then after == before
      else after == before[id := before[id].(state := state, terminalAt := if before[id].Terminal() then before[id].terminalAt else Some(now))]
    }

    method MarkLeaseTerminal(id: string, state: LeaseState, now: int)
      requires Valid()
      modifies this`leases, hosts
      ensures Valid()
      ensures Tombstoned(old(leases), leases, id, state, now)
    {
      hide LoadOn, LiveLeases, LoadedRuns;
      if id in leases {
        var e := leases[id];
        var release := !e.Terminal();
        var e' := e.(state := state, terminalAt := if release then Some(now) else e.terminalAt);
        LoadAfterLeaseUpdated(hosts, leases, runs, id, e');
        leases := leases[id := e'];
        if release {
          e.host.AddLease(-1);
        }
      }
    }

    method ForgetLease(id: string)
      requires Valid()
      modifies this`leases, hosts
      ensures Valid()
      ensures leases == old(leases) - {id}
    {
      hide LoadOn, LiveLeases, LoadedRuns;
      if id in leases {
        var e := leases[id];
        LoadAfterLeaseRemoved(hosts, leases, runs, id);
        leases := leases - {id};
        if !e.Terminal() {
          e.host.AddLease(-1);
        }
      } else {
        assert leases - {id} == leases;
      }
    }

    // Active leases may always be asked about, queued ones only when the client
    // has not polled for longer than the daemon waits.
    static predicate Reconcilable(e: LeaseEntry, h: Host, now: int) {
      && e.host == h && !e.Terminal()
      && (e.state.Queued? ==> now - e.lastPoll >= QUEUED_RECONCILE_AFTER)
    }

    // What a daemon's answer makes of an entry; nothing is left after a 404.
    static function Reconciled(e: LeaseEntry, a: LeaseAnswer, now: int): Option<LeaseEntry> {
      match a
      case LeaseIs(Released) => Some(e.(state := Released, terminalAt := Some(now)))
      case LeaseIs(Expired) => Some(e.(state := Expired, terminalAt := Some(now)))
      case LeaseIs(Queued) => Some(e.(state := Queued, lastPoll := now))
      case LeaseIs(Active) => Some(e.(state := Active))
      case LeaseError(status) => if status == NOT_FOUND then None else Some(e)
      case LeaseUnreachable => Some(e)
    }

    /** One reconciliation round of a host. It asks about exactly the host's
        entries that are no tombstones and, if queued, have not been polled for
        longer than the daemon waits; a queued entry polled more recently is left
        as it is. What it asks about follows the daemon's answer, every other entry
        is untouched, and the books stay balanced. */
    method ReconcileLeases(h: Host, ask: string -> LeaseAnswer, now: int) returns (asked: set<string>)
      requires Valid()
      modifies this`leases, hosts
      ensures Valid()
      ensures forall id :: id in leases ==> id in old(leases)
      ensures forall id :: id in asked <==>
        && id in old(leases) && old(leases)[id].host == h && old(leases)[id].terminalAt.None?
        && (old(leases)[id].state.Queued? ==> now - old(leases)[id].lastPoll >= QUEUED_RECONCILE_AFTER)
      ensures forall id :: id in old(leases) && old(leases)[id].terminalAt.None? && old(leases)[id].state.Queued? ==>
        now - old(leases)[id].lastPoll < QUEUED_RECONCILE_AFTER ==>
          id !in asked && id in leases && leases[id] == old(leases)[id]
      ensures forall id :: id in old(leases) ==>
        var e := old(leases)[id];
        if Stale(e, now) then id !in leases
        else if id !in asked then id in leases && leases[id] == e
        else Entry(leases, id) == Reconciled(e, ask(id), now)
    {
      hide LoadOn, LiveLeases, LoadedRuns, Reconciled;
      PruneTombstones(now);
      ghost var pruned := leases;
      var ids := set id | id in leases && Reconcilable(leases[id], h, now);
      ghost var all := ids;
      asked := {};
      while ids != {}
        invariant Valid() && asked + ids == all && asked !! ids
        invariant forall id ::
          Entry(leases, id) == if id in pruned && id in asked then Reconciled(pruned[id], ask(id), now) else Entry(pruned, id)
      {
        var id :| id in ids;
        ids, asked := ids - {id}, asked + {id};
        assert Entry(leases, id) == Entry(pruned, id);
        ReconcileOne(id, ask(id), now);
      }
      forall id | id in leases ensures id in pruned {
        assert Entry(leases, id) == Some(leases[id]);
      }
      forall id | id in pruned && id !in asked ensures id in leases && leases[id] == pruned[id] {
        assert Entry(leases, id) == Entry(pruned, id);
      }
    }

    static ghost function Entry(leases: map<string, LeaseEntry>, id: string): Option<LeaseEntry> {
      if id in leases then Some(leases[id]) else None
    }

    method ReconcileOne(id: string, a: LeaseAnswer, now: int)
      requires Valid() && id in leases && !leases[id].Terminal()
      modifies this`leases, hosts
      ensures Valid()
      ensures Entry(leases, id) == Reconciled(old(leases)[id], a, now)
      ensures forall other :: other != id ==> Entry(leases, other) == Entry(old(leases), other)
    {
      hide LoadOn, LiveLeases, LoadedRuns;
      match a {
        case LeaseIs(state) =>
          if state.Released? || state.Expired? {
            MarkLeaseTerminal(id, state, now);
          } else {
            var e := leases[id].(state := state, lastPoll := if state.Queued? then now else leases[id].lastPoll);
            LoadAfterLeaseUpdated(hosts, leases, runs, id, e);
            leases := leases[id := e];
          }
        case LeaseError(status) =>
          if status == NOT_FOUND {
            ForgetLease(id);
          }
        case LeaseUnreachable =>
      }
    }

    // A tombstone is dropped after the daemon's own retention; no load moves.
    method PruneTombstones(now: int)
      requires Valid()
      modifies this`leases
      ensures Valid()
      ensures leases == map id | id in old(leases) && !Stale(old(leases)[id], now) :: old(leases)[id]
      ensures forall id :: id in old(leases) ==>
        (id !in leases <==> old(leases)[id].terminalAt.Some? && now - old(leases)[id].terminalAt.value > 10 * 60)
    {
      hide LoadOn, LiveLeases, LoadedRuns;
      var rest := leases.Keys;
      while rest != {}
        invariant Valid() && rest <= leases.Keys <= old(leases).Keys
        invariant forall id :: id in leases ==> leases[id] == old(leases)[id] && (id in rest || !Stale(leases[id], now))
        invariant forall id :: id in old(leases) && id !in leases ==> Stale(old(leases)[id], now)
      {
        var id :| id in rest;
        rest := rest - {id};
        if Stale(leases[id], now) {
          LoadAfterLeaseRemoved(hosts, leases, runs, id);
          leases := leases - {id};
        }
      }
    }

    static predicate Stale(e: LeaseEntry, now: int) {
      e.terminalAt.Some? && now - e.terminalAt.value > TERMINAL_RETENTION
    }

    static predicate Outdated(e: RunEntry, now: int) {
      now - e.at > RUN_ROUTE_RETENTION
    }

    // A route is kept for a day.
    static lemma OutdatedMeans(e: RunEntry, now: int)
      ensures Outdated(e, now) <==> now - e.at > 24 * 60 * 60
    {
    }

    // First half of remembering a run: outdated routes go, and the hosts of
    // those that still counted are owed a release each.
    method PruneRuns(now: int) returns (unload: seq<Host>)
      requires Valid()
      modifies this`runs
      ensures Routed() && forall i :: 0 <= i < |unload| ==> unload[i] in hosts
      ensures forall h :: h in hosts ==> h.leases == LoadOn(leases, runs, h) + multiset(unload)[h]
      ensures runs == map id | id in old(runs) && !Outdated(old(runs)[id], now) :: old(runs)[id]
    {
      hide LoadOn, LiveLeases, LoadedRuns, Outdated;
      unload := [];
      var rest := runs.Keys;
      while rest != {}
        invariant Routed() && rest <= runs.Keys <= old(runs).Keys
        invariant forall i :: 0 <= i < |unload| ==> unload[i] in hosts
        invariant forall h :: h in hosts ==> h.leases == LoadOn(leases, runs, h) + multiset(unload)[h]
        invariant forall id :: id in runs ==> runs[id] == old(runs)[id] && (id in rest || !Outdated(runs[id], now))
        invariant forall id :: id in old(runs) && id !in runs ==> Outdated(old(runs)[id], now)
      {
        var id :| id in rest;
        rest := rest - {id};
        if Outdated(runs[id], now) {
          unload := DropRun(id, unload);
        }
      }
    }

    // One outdated route.
    method DropRun(id: string, owed: seq<Host>) returns (unload: seq<Host>)
      requires id in runs && Routed() && forall i :: 0 <= i < |owed| ==> owed[i] in hosts
      requires forall h :: h in hosts ==> h.leases == LoadOn(leases, runs, h) + multiset(owed)[h]
      modifies this`runs
      ensures runs == old(runs) - {id} && Routed() && forall i :: 0 <= i < |unload| ==> unload[i] in hosts
      ensures forall h :: h in hosts ==> h.leases == LoadOn(leases, runs, h) + multiset(unload)[h]
    {
      hide LoadOn, LiveLeases, LoadedRuns;
      LoadAfterRunRemoved(hosts, leases, runs, id);
      unload := if runs[id].loaded then owed + [runs[id].host] else owed;
      runs := runs - {id};
    }

    // Second half: one release for every host on the list, repeats included. A host
    // that is one too high stays so.
    method Unload(unload: seq<Host>, ghost high: Host?)
      requires Routed() && forall i :: 0 <= i < |unload| ==> unload[i] in hosts
      requires forall h :: h in hosts ==>
        h.Valid() && h.leases == LoadOn(leases, runs, h) + multiset(unload)[h] + if h == high then 1 else 0
      modifies hosts
      ensures forall h :: h in hosts ==> h.Valid() && h.leases == LoadOn(leases, runs, h) + if h == high then 1 else 0
    {
      hide LoadOn, LiveLeases, LoadedRuns;
      var i := 0;
      assert unload[0..] == unload;
      while i < |unload|
        invariant i <= |unload|
        invariant forall h :: h in hosts ==>
          h.Valid() && h.leases == LoadOn(leases, runs, h) + multiset(unload[i..])[h] + if h == high then 1 else 0
      {
        assert unload[i..] == [unload[i]] + unload[i + 1..];
        unload[i].AddLease(-1);
        i := i + 1;
      }
    }

    // The new route in place, its host charged, pruned ones still to be released.
    method PlaceRun(id: string, h: Host, loaded: bool, now: int) returns (unload: seq<Host>, ghost high: Host?)
      requires Valid() && h in hosts
      modifies this`runs, h
      ensures runs == (map r | r in old(runs) && !Outdated(old(runs)[r], now) :: old(runs)[r])[id := RunEntry(h, now, loaded)]
      ensures high == if RunCounts(old(runs), id) && !Outdated(old(runs)[id], now) then old(runs)[id].host else null
      ensures Routed() && (forall i :: 0 <= i < |unload| ==> unload[i] in hosts) && (high != null ==> high in hosts)
      ensures forall g :: g in hosts ==>
        g.Valid() && g.leases == LoadOn(leases, runs, g) + multiset(unload)[g] + if g == high then 1 else 0
    {
      hide LoadOn, LiveLeases, LoadedRuns;
      unload := PruneRuns(now);
      high := if RunCounts(runs, id) then runs[id].host else null;
      var e := RunEntry(h, now, loaded);
      LoadAfterRunUpdated(hosts, leases, runs, id, e);
      runs := runs[id := e];
      if loaded {
        h.AddLease(1);
      }
    }

    /** Remembering a run keeps the books balanced exactly when its id does not
        already count after pruning; otherwise the host it counted against is left
        one too high. */
    method RememberRun(id: string, h: Host, loaded: bool, now: int)
      requires Valid() && h in hosts
      modifies this`runs, hosts
      ensures runs == (map r | r in old(runs) && !Outdated(old(runs)[r], now) :: old(runs)[r])[id := RunEntry(h, now, loaded)]
      ensures Valid() <==> !(RunCounts(old(runs), id) && !Outdated(old(runs)[id], now))
      ensures RunCounts(old(runs), id) && !Outdated(old(runs)[id], now) ==>
        forall g :: g in hosts ==> g.leases == LoadOn(leases, runs, g) + if g == old(runs)[id].host then 1 else 0
    {
      hide LoadOn, LiveLeases, LoadedRuns;
      var unload;
      ghost var high;
      unload, high := PlaceRun(id, h, loaded, now);
      Unload(unload, high);
      if high != null {
        assert high.leases != LoadOn(leases, runs, high);
      }
    }

    // A settled run stops counting; settling it again changes nothing.
    method SettleRun(id: string)
      requires Valid()
      modifies this`runs, hosts
      ensures Valid()
      ensures runs == if id in old(runs) then old(runs)[id := old(runs)[id].(loaded := false)] else old(runs)
    {
      hide LoadOn, LiveLeases, LoadedRuns;
      if id in runs && runs[id].loaded {
        var e := runs[id];
        var e' := e.(loaded := false);
        LoadAfterRunUpdated(hosts, leases, runs, id, e');
        runs := runs[id := e'];
        e.host.AddLease(-1);
      } else if id in runs {
        assert runs[id := runs[id].(loaded := false)] == runs;
      }
    }

    method LoadedRunsOf(h: Host) returns (ids: set<string>)
      ensures ids == LoadedRuns(runs, h)
    {
      ids := set id | id in runs && runs[id].host == h && runs[id].loaded;
    }

    // One round over a host's loaded runs: exactly those a daemon reports as
    // finished or unknown stop counting.
    method ReconcileRuns(h: Host, ask: string -> RunAnswer)
      requires Valid()
      modifies this`runs, hosts
      ensures Valid() && runs.Keys == old(runs).Keys
      ensures forall id :: id in runs ==>
        runs[id] == if old(runs)[id].host == h && Settles(ask(id)) then old(runs)[id].(loaded := false) else old(runs)[id]
      ensures forall id :: id in runs && runs[id] != old(runs)[id] ==>
        old(runs)[id].host == h && (ask(id).RunFinished? || ask(id) == RunError(404))
      ensures forall id :: id in runs && runs[id].host == h && (ask(id).RunFinished? || ask(id) == RunError(404)) ==>
        !runs[id].loaded
    {
      hide LoadOn, LiveLeases;
      var ids := LoadedRunsOf(h);
      ghost var all := ids;
      while ids != {}
        invariant Valid() && ids <= all && runs.Keys == old(runs).Keys && all == LoadedRuns(old(runs), h)
        invariant forall id :: id in runs ==>
          runs[id] == if id in all - ids && Settles(ask(id)) then old(runs)[id].(loaded := false) else old(runs)[id]
      {
        var id :| id in ids;
        ids := ids - {id};
        if Settles(ask(id)) {
          SettleRun(id);
        }
      }
    }

    static predicate Settles(a: RunAnswer) {
      a == RunFinished || a == RunError(NOT_FOUND)
    }

    method NextRR() returns (n: nat)
      modifies this`rr
      ensures n == rr == old(rr) + 1
    {
      rr := rr + 1;
      n := rr;
    }
  }
}
