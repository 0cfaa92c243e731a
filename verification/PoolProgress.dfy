// The pool never deadlocks: as long as some operation is unfinished, some
// thread can take a step.
module PoolProgress {
  import opened PoolModel
  import opened PoolInvariant
  import opened PoolSteps

  ghost predicate CanStep(cfg: Config, s: State, t: Tid) {
    t in s.threads && exists s', c :: ThreadStep(cfg, s, s', t, c)
  }

  // Blocked until somebody releases an entry lock.
  predicate WaitsForEntry(pc: PC) {
    pc.WantLock? || pc.WantDropLock? || pc.WantCloseLock?
  }

  // Blocked until somebody releases the pool lock.
  predicate WaitsForPool(pc: PC) {
    pc.WantEntry? || pc.Noting? || pc.Unmapping? || pc.WantDrop? || pc.WantReap? || pc.WantClose?
  }

  ghost function Bound(s: set<nat>): (b: nat)
    ensures forall n :: n in s ==> n < b
  {
    if s == {} then 0
    else
      var n: nat :| n in s;
      var b := Bound(s - {n});
      assert forall m :: m in s ==> m == n || m in s - {n};
      if n < b then b else n + 1
  }

  function Pick(key: Udid, id: nat): Choice {
    Choice(key, id, false, Served, false, false)
  }

  // The answers that need nothing from the environment: spawns fail, calls are
  // served, the next key or id is any that is left.

  // ---------- threads that hold the pool lock ----------

  lemma ScanSteps(s: State, t: Tid, u: Udid, n: nat, rem: set<Udid>, v: Victim) returns (s': State, key: Udid)
    requires rem != {} && PcOk(s, Scanning(u, n, rem, v))
    ensures ScanStep(s, s', t, u, n, rem, v, key)
  {
    key :| key in rem;
    hide Quietly, SameRest;
    var v' := Prefer(s, v, Victim(key, s.entries[key]));
    s' := SetsLocks(s, t, Scanning(u, n, rem - {key}, v'),
                    if v' == v then s.lock
                    else if v.NoVictim? then s.lock[EntryMu(v'.id) := t]
                    else (s.lock - {EntryMu(v.id)})[EntryMu(v'.id) := t]);
  }

  lemma SetsLocks(s: State, t: Tid, pc: PC, lock: map<Lock, Tid>) returns (s': State)
    ensures Quietly(s, s', t, pc) && SameRest(s, s') && s'.lock == lock
  {
    s' := s.(threads := s.threads[t := pc], lock := lock);
  }

  lemma ScannedSteps(s: State, t: Tid, u: Udid, n: nat, v: Victim) returns (s': State, e: EntryId)
    ensures ScannedStep(s, s', t, u, n, v, e)
  {
    e := Bound(s.udidOf.Keys);
    if v.NoVictim? {
      s' := s.(threads := s.threads[t := Done], lock := s.lock - {PoolMu});
    } else {
      s' := s.(gone := s.gone + {v.id}, helper := s.helper - {v.id},
               carrier := if v.id in s.helper then s.carrier[s.helper[v.id] := t] else s.carrier,
               slotOf := if v.id in s.helper then s.slotOf - {s.helper[v.id]} else s.slotOf,
               udidOf := s.udidOf[e := u], lastUsed := s.lastUsed[e := s.now],
               entries := (s.entries - {v.key})[u := e], lock := s.lock - {PoolMu, EntryMu(v.id)},
               threads := s.threads[t :=
                 if v.id in s.helper then ClosingEvicted(u, n, e, s.helper[v.id]) else WantLock(u, n, e)]);
    }
  }

  lemma ReapSteps(cfg: Config, s: State, t: Tid, at: nat, rem: set<Udid>, hs: set<HelperId>) returns (s': State, key: Udid)
    requires rem != {} && PcOk(s, Reaping(at, rem, hs))
    ensures ReapStep(cfg, s, s', t, at, rem, hs, key)
  {
    hide Goes, ReapsSlot;
    key :| key in rem;
    var e := s.entries[key];
    if EntryMu(e) in s.lock || e !in s.helper || at - LastUsed(s, e) < cfg.idleTtl {
      s' := GoesSteps(s, t, Reaping(at, rem - {key}, hs));
    } else {
      s' := ReapsSlotSteps(s, t, at, rem, hs, key);
    }
  }

  lemma ReapsSlotSteps(s: State, t: Tid, at: nat, rem: set<Udid>, hs: set<HelperId>, key: Udid) returns (s': State)
    requires key in s.entries && s.entries[key] in s.helper
    ensures ReapsSlot(s, s', t, at, rem, hs, key)
  {
    var e := s.entries[key];
    s' := s.(gone := s.gone + {e}, helper := s.helper - {e},
             carrier := s.carrier[s.helper[e] := t], slotOf := s.slotOf - {s.helper[e]},
             entries := s.entries - {key}, threads := s.threads[t := Reaping(at, rem - {key}, hs + {s.helper[e]})]);
  }

  lemma ReapedSteps(s: State, t: Tid, hs: set<HelperId>) returns (s': State)
    ensures ReapedStep(s, s', t, hs)
  {
    s' := s.(threads := s.threads[t := Closing(hs)], lock := s.lock - {PoolMu});
  }

  // A thread that holds the pool lock never blocks: it only tries entry locks.
  lemma PoolHolderSteps(cfg: Config, s: State, t: Tid)
    requires t in s.threads && PcOk(s, s.threads[t]) && PoolMu in Held(s.threads[t])
    ensures CanStep(cfg, s, t)
  {
    hide PcOk, ScanStep, ScannedStep, ReapStep, ReapedStep;
    match s.threads[t]
    case Scanning(u, n, rem, v) =>
      if rem != {} {
        var s', key := ScanSteps(s, t, u, n, rem, v);
        assert ThreadStep(cfg, s, s', t, Pick(key, 0));
      } else {
        var s', e := ScannedSteps(s, t, u, n, v);
        assert ThreadStep(cfg, s, s', t, Pick("", e));
      }
    case Reaping(at, rem, hs) =>
      if rem != {} {
        var s', key := ReapSteps(cfg, s, t, at, rem, hs);
        assert ThreadStep(cfg, s, s', t, Pick(key, 0));
      } else {
        var s' := ReapedSteps(s, t, hs);
        assert ThreadStep(cfg, s, s', t, Pick("", 0));
      }
    case _ =>
  }

  // ---------- threads that wait for the pool lock, once it is free ----------

  lemma GoesSteps(s: State, t: Tid, pc: PC) returns (s': State)
    ensures Goes(s, s', t, pc)
  {
    s' := s.(threads := s.threads[t := pc]);
  }

  lemma StartsScanSteps(s: State, t: Tid, u: Udid, n: nat) returns (s': State)
    ensures StartsScan(s, s', t, u, n)
  {
    s' := s.(threads := s.threads[t := Scanning(u, n, s.entries.Keys, NoVictim)],
             lock := s.lock[PoolMu := t], failUntil := s.failUntil - {u});
  }

  lemma AddsSlotSteps(s: State, t: Tid, u: Udid, n: nat) returns (s': State, e: EntryId)
    ensures AddsSlot(s, s', t, u, n, e)
  {
    e := Bound(s.udidOf.Keys);
    s' := s.(threads := s.threads[t := WantLock(u, n, e)], entries := s.entries[u := e],
             udidOf := s.udidOf[e := u], lastUsed := s.lastUsed[e := s.now], failUntil := s.failUntil - {u});
  }

  lemma WantEntrySteps(cfg: Config, s: State, t: Tid, u: Udid, n: nat) returns (s': State, e: EntryId)
    requires PoolMu !in s.lock
    ensures WantEntryStep(cfg, s, s', t, u, n, Pick("", e))
  {
    hide Goes, StartsScan, AddsSlot;
    e := 0;
    if s.closed {
      s' := GoesSteps(s, t, Done);
    } else if u in s.entries {
      s' := GoesSteps(s, t, WantLock(u, n, s.entries[u]));
    } else if CoolingDown(s, u) {
      s' := GoesSteps(s, t, Done);
    } else if |s.entries| >= cfg.maxTargets {
      s' := StartsScanSteps(s, t, u, n);
    } else {
      s', e := AddsSlotSteps(s, t, u, n);
    }
  }

  lemma NotingSteps(cfg: Config, s: State, t: Tid, u: Udid, e: EntryId) returns (s': State)
    requires PoolMu !in s.lock
    ensures NotingStep(cfg, s, s', t, u, e)
  {
    s' := s.(threads := s.threads[t := Marking(u, e)], failUntil := s.failUntil[u := s.now + cfg.cooldown]);
  }

  lemma SetsEntries(s: State, threads: map<Tid, PC>, entries: map<Udid, EntryId>) returns (s': State)
    ensures s'.threads == threads && s'.entries == entries && SameSlots(s, s') && SameRest(s, s')
    ensures s'.closed == s.closed && s'.udidOf == s.udidOf && s'.lock == s.lock && s'.detacher == s.detacher
  {
    s' := s.(threads := threads, entries := entries);
  }

  lemma UnmappingSteps(s: State, t: Tid, u: Udid, e: EntryId) returns (s': State)
    requires PoolMu !in s.lock
    ensures UnmappingStep(s, s', t, u, e)
  {
    hide SameSlots, SameRest;
    var entries := if u in s.entries && s.entries[u] == e then s.entries - {u} else s.entries;
    s' := SetsEntries(s, s.threads[t := Unlocking(u, e)], entries);
  }

  lemma WantDropSteps(s: State, t: Tid, u: Udid) returns (s': State)
    requires PoolMu !in s.lock
    ensures WantDropStep(s, s', t, u)
  {
    if u in s.entries {
      s' := s.(threads := s.threads[t := WantDropLock(s.entries[u])], entries := s.entries - {u},
               detacher := s.detacher[s.entries[u] := t], failUntil := s.failUntil - {u});
    } else {
      s' := s.(threads := s.threads[t := Done], failUntil := s.failUntil - {u});
    }
  }

  lemma WantReapSteps(s: State, t: Tid, at: nat) returns (s': State)
    requires PoolMu !in s.lock
    ensures WantReapStep(s, s', t, at)
  {
    s' := s.(threads := s.threads[t := Reaping(at, s.entries.Keys, {})], lock := s.lock[PoolMu := t]);
  }

  lemma WantCloseSteps(s: State, t: Tid) returns (s': State)
    requires PoolMu !in s.lock
    ensures WantCloseStep(s, s', t)
  {
    hide Goes, SameSlots, SameRest;
    if s.closed {
      s' := GoesSteps(s, t, Done);
    } else {
      s' := DetachAllSteps(s, t);
    }
  }

  lemma DetachAllSteps(s: State, t: Tid) returns (s': State)
    requires PoolMu !in s.lock && !s.closed
    ensures WantCloseStep(s, s', t)
  {
    var detacher := s.detacher + (map e | e in s.entries.Values :: t);
    var threads := s.threads[t := CloseNext(s.entries.Values)];
    s' := s.(closed := true, entries := map[], detacher := detacher, threads := threads);
  }

  lemma PoolWaiterSteps(cfg: Config, s: State, t: Tid)
    requires t in s.threads && WaitsForPool(s.threads[t]) && PoolMu !in s.lock
    ensures CanStep(cfg, s, t)
  {
    hide WantEntryStep, NotingStep, UnmappingStep, WantDropStep, WantReapStep, WantCloseStep;
    match s.threads[t]
    case WantEntry(u, n) =>
      var s', e := WantEntrySteps(cfg, s, t, u, n);
      assert ThreadStep(cfg, s, s', t, Pick("", e));
    case Noting(u, e) =>
      var s' := NotingSteps(cfg, s, t, u, e);
      assert ThreadStep(cfg, s, s', t, Pick("", 0));
    case Unmapping(u, e) =>
      var s' := UnmappingSteps(s, t, u, e);
      assert ThreadStep(cfg, s, s', t, Pick("", 0));
    case WantDrop(u) =>
      var s' := WantDropSteps(s, t, u);
      assert ThreadStep(cfg, s, s', t, Pick("", 0));
    case WantReap(at) =>
      var s' := WantReapSteps(s, t, at);
      assert ThreadStep(cfg, s, s', t, Pick("", 0));
    case WantClose =>
      var s' := WantCloseSteps(s, t);
      assert ThreadStep(cfg, s, s', t, Pick("", 0));
    case _ =>
  }

  // ---------- threads that wait for an entry lock, once it is free ----------

  lemma LockSteps(s: State, t: Tid, e: EntryId, pc: PC) returns (s': State)
    requires EntryMu(e) !in s.lock
    ensures LockStep(s, s', t, e, pc)
  {
    s' := s.(threads := s.threads[t := pc], lock := s.lock[EntryMu(e) := t]);
  }

  lemma EntryWaiterSteps(cfg: Config, s: State, t: Tid)
    requires t in s.threads && WaitsForEntry(s.threads[t]) && EntryMu(s.threads[t].e) !in s.lock
    ensures CanStep(cfg, s, t)
  {
    hide LockStep;
    match s.threads[t]
    case WantLock(u, n, e) =>
      var s' := LockSteps(s, t, e, Checking(u, n, e));
      assert ThreadStep(cfg, s, s', t, Pick("", 0));
    case WantDropLock(e) =>
      var s' := LockSteps(s, t, e, DropHolding(e));
      assert ThreadStep(cfg, s, s', t, Pick("", 0));
    case WantCloseLock(e, ids) =>
      var s' := LockSteps(s, t, e, CloseHolding(e, ids));
      assert ThreadStep(cfg, s, s', t, Pick("", 0));
    case _ =>
  }

  // ---------- threads that wait for nobody ----------

  lemma CloseSteps(s: State, t: Tid, h: HelperId, pc: PC) returns (s': State)
    ensures CloseStep(s, s', t, h, pc)
  {
    s' := s.(live := s.live - {h}, closes := s.closes[h := s.closes[h] + 1], carrier := s.carrier - {h},
             slotOf := s.slotOf - {h}, threads := s.threads[t := pc]);
  }

  lemma ClearSteps(s: State, t: Tid, e: EntryId, gone: set<EntryId>, pc: PC) returns (s': State)
    ensures ClearStep(s, s', t, e, gone, pc)
  {
    s' := s.(helper := s.helper - {e}, gone := gone, threads := s.threads[t := pc]);
  }

  lemma UnlockSteps(s: State, t: Tid, e: EntryId, pc: PC) returns (s': State)
    ensures UnlockStep(s, s', t, e, pc)
  {
    s' := s.(lock := s.lock - {EntryMu(e)}, threads := s.threads[t := pc]);
  }

  lemma CheckingSteps(s: State, t: Tid, u: Udid, n: nat, e: EntryId) returns (s': State)
    ensures CheckingStep(s, s', t, u, n, e)
  {
    if e in s.gone {
      s' := UnlockSteps(s, t, e, if n + 1 < ATTEMPTS then WantEntry(u, n + 1) else Done);
    } else {
      s' := s.(threads := s.threads[t := Running(u, e)]);
    }
  }

  lemma RunningSteps(s: State, t: Tid, u: Udid, e: EntryId) returns (s': State)
    ensures RunningStep(s, s', t, u, e, Pick("", 0))
  {
    s' := s.(threads := s.threads[t := if e in s.helper then InCall(u, e, s.helper[e], true) else Noting(u, e)]);
  }

  lemma InCallSteps(s: State, t: Tid, u: Udid, e: EntryId, h: HelperId, first: bool) returns (s': State)
    ensures InCallStep(s, s', t, u, e, h, first, Pick("", 0))
  {
    s' := s.(threads := s.threads[t := Done], lastUsed := s.lastUsed[e := s.now], lock := s.lock - {EntryMu(e)});
  }

  lemma DropHoldingSteps(s: State, t: Tid, e: EntryId) returns (s': State)
    ensures DropHoldingStep(s, s', t, e)
  {
    s' := s.(gone := s.gone + {e}, helper := s.helper - {e},
             carrier := if e in s.helper then s.carrier[s.helper[e] := t] else s.carrier,
             slotOf := if e in s.helper then s.slotOf - {s.helper[e]} else s.slotOf,
             lock := s.lock - {EntryMu(e)}, detacher := s.detacher - {e},
             threads := s.threads[t := Closing(Taken(s, e))]);
  }

  lemma CloseNextSteps(s: State, t: Tid, ids: set<EntryId>) returns (s': State, e: EntryId)
    ensures CloseNextStep(s, s', t, ids, e)
  {
    if ids == {} {
      e := 0;
      s' := s.(threads := s.threads[t := Done]);
    } else {
      e :| e in ids;
      s' := s.(threads := s.threads[t := WantCloseLock(e, ids)]);
    }
  }

  lemma CloseHoldingSteps(s: State, t: Tid, e: EntryId, ids: set<EntryId>) returns (s': State)
    ensures CloseHoldingStep(s, s', t, e, ids)
  {
    var s1 := s;
    if e in s.helper {
      var h := s.helper[e];
      s1 := s.(live := s.live - {h}, closes := s.closes[h := s.closes[h] + 1], carrier := s.carrier - {h}, slotOf := s.slotOf - {h});
    }
    s' := s1.(helper := s.helper - {e}, gone := s.gone + {e}, lock := s.lock - {EntryMu(e)},
              detacher := s.detacher - {e}, threads := s.threads[t := CloseNext(ids - {e})]);
  }

  lemma ClosingSteps(s: State, t: Tid, hs: set<HelperId>) returns (s': State, h: HelperId)
    ensures ClosingStep(s, s', t, hs, h)
  {
    if hs == {} {
      h := 0;
      s' := s.(threads := s.threads[t := Done]);
    } else {
      h :| h in hs;
      s' := CloseSteps(s, t, h, Closing(hs - {h}));
    }
  }

  lemma FreeCallSteps(cfg: Config, s: State, t: Tid)
    requires t in s.threads && (FindsSlot(s.threads[t]) || UsesHelper(s.threads[t]))
    requires !WaitsForPool(s.threads[t]) && !WaitsForEntry(s.threads[t]) && !s.threads[t].Scanning?
    ensures CanStep(cfg, s, t)
  {
    hide CloseStep, ClearStep, UnlockStep, CheckingStep, RunningStep, InCallStep;
    match s.threads[t]
    case ClosingEvicted(u, n, e, h) =>
      var s' := CloseSteps(s, t, h, WantLock(u, n, e));
      assert ThreadStep(cfg, s, s', t, Pick("", 0));
    case Checking(u, n, e) =>
      var s' := CheckingSteps(s, t, u, n, e);
      assert ThreadStep(cfg, s, s', t, Pick("", 0));
    case Running(u, e) =>
      var s' := RunningSteps(s, t, u, e);
      assert ThreadStep(cfg, s, s', t, Pick("", 0));
    case InCall(u, e, h, first) =>
      var s' := InCallSteps(s, t, u, e, h, first);
      assert ThreadStep(cfg, s, s', t, Pick("", 0));
    case Restarting(u, e, h) =>
      var s' := CloseSteps(s, t, h, Respawning(u, e));
      assert ThreadStep(cfg, s, s', t, Pick("", 0));
    case Respawning(u, e) =>
      var s' := ClearSteps(s, t, e, s.gone, Noting(u, e));
      assert ThreadStep(cfg, s, s', t, Pick("", 0));
    case Failing(u, e, h, note) =>
      var s' := CloseSteps(s, t, h, if note then Noting(u, e) else Marking(u, e));
      assert ThreadStep(cfg, s, s', t, Pick("", 0));
    case Marking(u, e) =>
      var s' := ClearSteps(s, t, e, s.gone + {e}, Unmapping(u, e));
      assert ThreadStep(cfg, s, s', t, Pick("", 0));
    case Unlocking(u, e) =>
      var s' := UnlockSteps(s, t, e, Done);
      assert ThreadStep(cfg, s, s', t, Pick("", 0));
    case _ =>
  }

  lemma FreeOtherSteps(cfg: Config, s: State, t: Tid)
    requires t in s.threads && s.threads[t] != Done && !FindsSlot(s.threads[t]) && !UsesHelper(s.threads[t])
    requires !WaitsForPool(s.threads[t]) && !WaitsForEntry(s.threads[t]) && !s.threads[t].Reaping?
    ensures CanStep(cfg, s, t)
  {
    hide DropHoldingStep, CloseNextStep, CloseHoldingStep, ClosingStep;
    match s.threads[t]
    case DropHolding(e) =>
      var s' := DropHoldingSteps(s, t, e);
      assert ThreadStep(cfg, s, s', t, Pick("", 0));
    case CloseNext(ids) =>
      var s', e := CloseNextSteps(s, t, ids);
      assert ThreadStep(cfg, s, s', t, Pick("", e));
    case CloseHolding(e, ids) =>
      var s' := CloseHoldingSteps(s, t, e, ids);
      assert ThreadStep(cfg, s, s', t, Pick("", 0));
    case Closing(hs) =>
      var s', h := ClosingSteps(s, t, hs);
      assert ThreadStep(cfg, s, s', t, Pick("", h));
    case _ =>
  }

  lemma FreeSteps(cfg: Config, s: State, t: Tid)
    requires t in s.threads && s.threads[t] != Done && PcOk(s, s.threads[t])
    requires !WaitsForEntry(s.threads[t]) && (WaitsForPool(s.threads[t]) ==> PoolMu !in s.lock)
    ensures CanStep(cfg, s, t)
  {
    hide CanStep, PcOk;
    if WaitsForPool(s.threads[t]) {
      PoolWaiterSteps(cfg, s, t);
    } else if s.threads[t].Scanning? || s.threads[t].Reaping? {
      PoolHolderSteps(cfg, s, t);
    } else if FindsSlot(s.threads[t]) || UsesHelper(s.threads[t]) {
      FreeCallSteps(cfg, s, t);
    } else {
      FreeOtherSteps(cfg, s, t);
    }
  }

  // ---------- somebody can always move ----------

  // Whoever holds a lock is not waiting for an entry lock.
  lemma HolderIsNotWaiting(cfg: Config, s: State, l: Lock)
    requires Inv(cfg, s) && l in s.lock
    ensures s.lock[l] in s.threads && s.threads[s.lock[l]] != Done
    ensures !WaitsForEntry(s.threads[s.lock[l]]) && (l == PoolMu ==> PoolMu in Held(s.threads[s.lock[l]]))
    ensures PcOk(s, s.threads[s.lock[l]])
  {
    hide TablesOk, EntriesOk, HelpersOk, StaleOk;
    var t := s.lock[l];
    assert t in HeldBy(s.threads) && l in HeldBy(s.threads)[t];
    assert l in Held(s.threads[t]);
  }

  // In a state with an unfinished operation, some thread can take a step: the
  // pool lock's holder if there is one, else the holder of the entry lock that
  // is waited for, else any thread at all.
  lemma SomebodyCanStep(cfg: Config, s: State, t: Tid) returns (runner: Tid)
    requires Inv(cfg, s) && t in s.threads && s.threads[t] != Done
    ensures runner == if PoolMu in s.lock then s.lock[PoolMu]
                      else if WaitsForEntry(s.threads[t]) && EntryMu(s.threads[t].e) in s.lock then s.lock[EntryMu(s.threads[t].e)]
                      else t
    ensures CanStep(cfg, s, runner)
  {
    hide Inv, CanStep, PcOk;
    Parts(cfg, s, t);
    hide TablesOk, ClaimsOk, EntriesOk, HelpersOk, StaleOk, PcsOk;
    if PoolMu in s.lock {
      runner := s.lock[PoolMu];
      HolderIsNotWaiting(cfg, s, PoolMu);
      PoolHolderSteps(cfg, s, runner);
    } else if WaitsForEntry(s.threads[t]) && EntryMu(s.threads[t].e) in s.lock {
      runner := s.lock[EntryMu(s.threads[t].e)];
      HolderIsNotWaiting(cfg, s, EntryMu(s.threads[t].e));
      FreeSteps(cfg, s, runner);
    } else if WaitsForEntry(s.threads[t]) {
      runner := t;
      EntryWaiterSteps(cfg, s, t);
    } else {
      runner := t;
      FreeSteps(cfg, s, t);
    }
  }

  lemma DeadlockFree(cfg: Config, states: seq<State>, actions: seq<Action>, i: nat)
    requires IsRun(cfg, states, actions) && i < |states|
    requires exists t :: t in states[i].threads && states[i].threads[t] != Done
    ensures exists t, c, s' :: Next(cfg, states[i], Step(t, c), s')
  {
    hide IsRun, Inv, ThreadStep;
    RunKeeps(cfg, states, actions, i);
    var t :| t in states[i].threads && states[i].threads[t] != Done;
    var runner := SomebodyCanStep(cfg, states[i], t);
    var s', c :| ThreadStep(cfg, states[i], s', runner, c);
    assert Next(cfg, states[i], Step(runner, c), s');
  }

  // A thread that holds the pool lock is never blocked by an entry lock.
  lemma PoolHolderNeverBlocks(cfg: Config, states: seq<State>, actions: seq<Action>, i: nat)
    requires IsRun(cfg, states, actions) && i < |states| && PoolMu in states[i].lock
    ensures CanStep(cfg, states[i], states[i].lock[PoolMu])
  {
    hide IsRun, Inv, CanStep, PcOk;
    RunKeeps(cfg, states, actions, i);
    HolderIsNotWaiting(cfg, states[i], PoolMu);
    PoolHolderSteps(cfg, states[i], states[i].lock[PoolMu]);
  }
}
