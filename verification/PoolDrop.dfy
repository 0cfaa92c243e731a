// What Drop is for: after it, the next action on the target gets a helper that was
// not there before.
module PoolDrop {
  import opened PoolModel
  import opened PoolInvariant
  import opened PoolSteps

  // The thread works for u on entry e.
  predicate WorksOn(pc: PC, u: Udid, e: EntryId) {
    match pc
    case ClosingEvicted(v, _, d, _) => v == u && d == e
    case WantLock(v, _, d) => v == u && d == e
    case Checking(v, _, d) => v == u && d == e
    case Running(v, d) => v == u && d == e
    case InCall(v, d, _, _) => v == u && d == e
    case Restarting(v, d, _) => v == u && d == e
    case Respawning(v, d) => v == u && d == e
    case Failing(v, d, _, _) => v == u && d == e
    case Noting(v, d) => v == u && d == e
    case Marking(v, d) => v == u && d == e
    case Unmapping(v, d) => v == u && d == e
    case Unlocking(v, d) => v == u && d == e
    case _ => false
  }

  // Seen from the state s0 in which the target was dropped: what is mapped for it,
  // and what threads started since work on for it, are entries created since.
  ghost predicate NewEntries(s0: State, s: State, u: Udid) {
    && s0.udidOf.Keys <= s.udidOf.Keys && s0.threads.Keys <= s.threads.Keys
    && (u in s.entries ==> s.entries[u] !in s0.udidOf)
    && (forall t, e :: t in s.threads && t !in s0.threads && WorksOn(s.threads[t], u, e) ==> e !in s0.udidOf)
  }

  // And what sits in entries created since was started since.
  ghost predicate NewHelpers(s0: State, s: State) {
    && s0.udidOf.Keys <= s.udidOf.Keys && s0.spawned <= s.spawned
    && (forall e :: e in s.helper && e !in s0.udidOf ==> s.helper[e] !in s0.spawned)
  }

  // A step of t moves only t, and t goes on with its own entry, with the one the
  // map has for its target, or with a new one.
  ghost predicate Moves(s: State, s': State, t: Tid)
    requires t in s.threads
  {
    && s.udidOf.Keys <= s'.udidOf.Keys
    && t in s'.threads && s'.threads == s.threads[t := s'.threads[t]]
    && (forall u :: u in s'.entries ==> (u in s.entries && s'.entries[u] == s.entries[u]) || s'.entries[u] !in s.udidOf)
    && (forall u, e :: WorksOn(s'.threads[t], u, e) ==>
         WorksOn(s.threads[t], u, e) || (u in s.entries && s.entries[u] == e) || e !in s.udidOf)
  }

  // Helpers change places only by leaving or by being started.
  ghost predicate Spawning(s: State, s': State) {
    && s.udidOf.Keys <= s'.udidOf.Keys && s.spawned <= s'.spawned
    && (forall e :: e in s'.helper ==> (e in s.helper && s'.helper[e] == s.helper[e]) || s'.helper[e] !in s.spawned)
  }

  // ---------- every step is such a move ----------

  lemma GoesMovesOn(s: State, s': State, t: Tid, pc: PC)
    requires t in s.threads && Goes(s, s', t, pc)
    requires forall u, e :: WorksOn(pc, u, e) ==> WorksOn(s.threads[t], u, e) || (u in s.entries && s.entries[u] == e)
    ensures Moves(s, s', t) && Spawning(s, s')
  {
  }

  lemma AddsSlotMovesOn(s: State, s': State, t: Tid, u: Udid, n: nat, e: EntryId)
    requires t in s.threads && AddsSlot(s, s', t, u, n, e)
    ensures Moves(s, s', t) && Spawning(s, s')
  {
  }

  lemma StartsScanMovesOn(s: State, s': State, t: Tid, u: Udid, n: nat)
    requires t in s.threads && StartsScan(s, s', t, u, n)
    ensures Moves(s, s', t) && Spawning(s, s')
  {
  }

  lemma WantEntryMovesOn(cfg: Config, s: State, s': State, t: Tid, u: Udid, n: nat, c: Choice)
    requires t in s.threads && WantEntryStep(cfg, s, s', t, u, n, c)
    ensures Moves(s, s', t) && Spawning(s, s')
  {
    hide Moves, Spawning, Goes, AddsSlot, StartsScan;
    if s.closed {
      GoesMovesOn(s, s', t, Done);
    } else if u in s.entries {
      GoesMovesOn(s, s', t, WantLock(u, n, s.entries[u]));
    } else if CoolingDown(s, u) {
      GoesMovesOn(s, s', t, Done);
    } else if |s.entries| >= cfg.maxTargets {
      StartsScanMovesOn(s, s', t, u, n);
    } else {
      AddsSlotMovesOn(s, s', t, u, n, c.id);
    }
  }

  lemma ScanMovesOn(cfg: Config, s: State, s': State, t: Tid, c: Choice)
    requires t in s.threads && s.threads[t].Scanning? && ThreadStep(cfg, s, s', t, c)
    ensures Moves(s, s', t) && Spawning(s, s')
  {
    if s.threads[t].rem != {} {
      assert SameMap(s, s');
    }
  }

  lemma LockMovesOn(cfg: Config, s: State, s': State, t: Tid, c: Choice)
    requires t in s.threads && ThreadStep(cfg, s, s', t, c)
    requires var pc := s.threads[t]; pc.WantLock? || pc.Checking? || pc.WantDropLock? || pc.WantCloseLock? || pc.WantReap?
    ensures Moves(s, s', t) && Spawning(s, s')
  {
  }

  lemma CallMovesOn(cfg: Config, s: State, s': State, t: Tid, c: Choice)
    requires t in s.threads && (s.threads[t].Running? || s.threads[t].InCall?) && ThreadStep(cfg, s, s', t, c)
    ensures Moves(s, s', t) && Spawning(s, s')
  {
  }

  lemma CloseStepMovesOn(cfg: Config, s: State, s': State, t: Tid, c: Choice)
    requires t in s.threads && ThreadStep(cfg, s, s', t, c)
    requires var pc := s.threads[t]; pc.ClosingEvicted? || pc.Restarting? || pc.Failing? || pc.Closing?
    ensures Moves(s, s', t) && Spawning(s, s')
  {
  }

  lemma CleanupMovesOn(cfg: Config, s: State, s': State, t: Tid, c: Choice)
    requires t in s.threads && ThreadStep(cfg, s, s', t, c)
    requires var pc := s.threads[t]; pc.Respawning? || pc.Noting? || pc.Marking? || pc.Unmapping? || pc.Unlocking?
    ensures Moves(s, s', t) && Spawning(s, s')
  {
  }

  lemma DropMovesOn(cfg: Config, s: State, s': State, t: Tid, c: Choice)
    requires t in s.threads && (s.threads[t].WantDrop? || s.threads[t].DropHolding?) && ThreadStep(cfg, s, s', t, c)
    ensures Moves(s, s', t) && Spawning(s, s')
  {
  }

  lemma ReapMovesOn(cfg: Config, s: State, s': State, t: Tid, c: Choice)
    requires t in s.threads && s.threads[t].Reaping? && ThreadStep(cfg, s, s', t, c)
    ensures Moves(s, s', t) && Spawning(s, s')
  {
  }

  lemma CloseMovesOn(cfg: Config, s: State, s': State, t: Tid, c: Choice)
    requires t in s.threads && ThreadStep(cfg, s, s', t, c)
    requires var pc := s.threads[t]; pc.Done? || pc.WantClose? || pc.CloseNext? || pc.CloseHolding?
    ensures Moves(s, s', t) && Spawning(s, s')
  {
  }

  predicate OfCall(pc: PC) {
    || pc.WantEntry? || pc.Scanning? || pc.WantLock? || pc.Checking? || pc.Running? || pc.InCall?
    || pc.Respawning? || pc.Noting? || pc.Marking? || pc.Unmapping? || pc.Unlocking?
  }

  lemma CallSideMovesOn(cfg: Config, s: State, s': State, t: Tid, c: Choice)
    requires t in s.threads && ThreadStep(cfg, s, s', t, c) && OfCall(s.threads[t])
    ensures Moves(s, s', t) && Spawning(s, s')
  {
    hide Moves, Spawning, ThreadStep, WantEntryStep;
    var pc := s.threads[t];
    if pc.WantEntry? {
      WantEntryIs(cfg, s, s', t, c);
      WantEntryMovesOn(cfg, s, s', t, pc.u, pc.n, c);
    } else if pc.Scanning? {
      ScanMovesOn(cfg, s, s', t, c);
    } else if pc.WantLock? || pc.Checking? {
      LockMovesOn(cfg, s, s', t, c);
    } else if pc.Running? || pc.InCall? {
      CallMovesOn(cfg, s, s', t, c);
    } else {
      CleanupMovesOn(cfg, s, s', t, c);
    }
  }

  lemma StepMovesOn(cfg: Config, s: State, s': State, t: Tid, c: Choice)
    requires t in s.threads && ThreadStep(cfg, s, s', t, c)
    ensures Moves(s, s', t) && Spawning(s, s')
  {
    hide Moves, Spawning, ThreadStep;
    var pc := s.threads[t];
    if OfCall(pc) {
      CallSideMovesOn(cfg, s, s', t, c);
    } else if pc.WantDropLock? || pc.WantCloseLock? || pc.WantReap? {
      LockMovesOn(cfg, s, s', t, c);
    } else if pc.ClosingEvicted? || pc.Restarting? || pc.Failing? || pc.Closing? {
      CloseStepMovesOn(cfg, s, s', t, c);
    } else if pc.WantDrop? || pc.DropHolding? {
      DropMovesOn(cfg, s, s', t, c);
    } else if pc.Reaping? {
      ReapMovesOn(cfg, s, s', t, c);
    } else {
      CloseMovesOn(cfg, s, s', t, c);
    }
  }

  lemma WantEntryIs(cfg: Config, s: State, s': State, t: Tid, c: Choice)
    requires t in s.threads && s.threads[t].WantEntry? && ThreadStep(cfg, s, s', t, c)
    ensures WantEntryStep(cfg, s, s', t, s.threads[t].u, s.threads[t].n, c)
  {
    hide WantEntryStep;
  }

  // ---------- over runs ----------

  lemma MoveKeepsNew(s0: State, s: State, s': State, t: Tid, u: Udid)
    requires NewEntries(s0, s, u) && t in s.threads && Moves(s, s', t)
    ensures NewEntries(s0, s', u)
  {
    forall t1, e | t1 in s'.threads && t1 !in s0.threads && WorksOn(s'.threads[t1], u, e) ensures e !in s0.udidOf {
      if t1 != t {
        assert s'.threads[t1] == s.threads[t1];
      }
    }
  }

  lemma SpawnKeepsNew(s0: State, s: State, s': State)
    requires NewHelpers(s0, s) && Spawning(s, s')
    ensures NewHelpers(s0, s')
  {
  }

  lemma StartKeepsNew(s0: State, s: State, s': State, t: Tid, op: PC, u: Udid)
    requires NewEntries(s0, s, u) && NewHelpers(s0, s) && Starts(s, s', t, op)
    ensures NewEntries(s0, s', u) && NewHelpers(s0, s')
  {
  }

  lemma NextKeepsNew(cfg: Config, s0: State, s: State, a: Action, s': State, u: Udid)
    requires NewEntries(s0, s, u) && NewHelpers(s0, s) && Next(cfg, s, a, s')
    ensures NewEntries(s0, s', u) && NewHelpers(s0, s')
  {
    match a {
      case Start(t, op) =>
        hide NewEntries, NewHelpers, Starts;
        StartKeepsNew(s0, s, s', t, op, u);
      case Tick(_) =>
      case Step(t, c) =>
        hide NewEntries, NewHelpers, ThreadStep, Moves, Spawning;
        StepMovesOn(cfg, s, s', t, c);
        MoveKeepsNew(s0, s, s', t, u);
        SpawnKeepsNew(s0, s, s');
    }
  }

  // Right after the step that drops u.
  lemma DropStarts(cfg: Config, s: State, s': State, d: Tid, c: Choice, u: Udid)
    requires Inv(cfg, s) && d in s.threads && s.threads[d] == WantDrop(u) && Next(cfg, s, Step(d, c), s')
    ensures NewEntries(s, s', u) && NewHelpers(s, s')
  {
    hide TablesOk, ClaimsOk, HelpersOk, StaleOk, PcsOk;
    assert WantDropStep(s, s', d, u);
  }

  lemma {:induction false} RunKeepsNew(cfg: Config, states: seq<State>, actions: seq<Action>, i: nat, d: Tid, c: Choice, k: nat, u: Udid)
    requires IsRun(cfg, states, actions) && i < k < |states| && i < |actions| && actions[i] == Step(d, c)
    requires d in states[i].threads && states[i].threads[d] == WantDrop(u)
    ensures NewEntries(states[i], states[k], u) && NewHelpers(states[i], states[k])
    decreases k
  {
    hide IsRun, Inv, Next, NewEntries, NewHelpers;
    RunSteps(cfg, states, actions, k);
    if k == i + 1 {
      DropStarts(cfg, states[i], states[k], d, c, u);
    } else {
      RunKeepsNew(cfg, states, actions, i, d, c, k - 1, u);
      NextKeepsNew(cfg, states[i], states[k - 1], actions[k - 1], states[k], u);
    }
  }

  /** A call for a target, started after Drop has taken the target out of the map,
      never runs on a helper that existed when it did. */
  lemma DropMeansFreshHelper(cfg: Config, states: seq<State>, actions: seq<Action>, i: nat, d: Tid, c: Choice, k: nat, t: Tid)
    requires IsRun(cfg, states, actions) && i < k < |states| && i < |actions| && actions[i] == Step(d, c)
    requires d in states[i].threads && states[i].threads[d].WantDrop?
    requires t !in states[i].threads && t in states[k].threads && states[k].threads[t].InCall?
    requires states[k].threads[t].u == states[i].threads[d].u
    ensures states[k].threads[t].h !in states[i].spawned
  {
    hide IsRun, TablesOk, ClaimsOk, EntriesOk, HelpersOk, StaleOk;
    RunKeepsNew(cfg, states, actions, i, d, c, k, states[i].threads[d].u);
    RunKeeps(cfg, states, actions, k);
    var pc := states[k].threads[t];
    assert WorksOn(pc, pc.u, pc.e);
    assert PcOk(states[k], pc);
  }
}
