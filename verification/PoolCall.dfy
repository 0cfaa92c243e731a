// What one call does, told by the events of its own steps, over every
// interleaving: how often it asks for a slot, how often it sends its request, when
// it notes a failure, and when it is turned away.
module PoolCall {
  import opened Common
  import opened PoolModel
  import opened PoolInvariant
  import opened PoolSteps
  import opened PoolDrop

  datatype Event =
    | Lost          // its slot was detached before it had the slot's lock
    | TurnedAway    // the pool is closed, or the target cools down
    | AllBusy       // every slot is in use
    | Sent(h: HelperId, outcome: Outcome, expired: bool, callerGone: bool)
    | NoHelper      // a helper did not start
    | FailureNoted  // the target is put on cooldown
    | GaveSlotUp    // the slot is out of the map

  // What a step of a thread, from pc to after, is for its call.
  function EventOf(pc: PC, c: Choice, after: PC): seq<Event> {
    match pc
    case WantEntry(_, _) => if after.Done? then [TurnedAway] else []
    case Scanning(_, _, _, _) => if after.Done? then [AllBusy] else []
    case Checking(_, _, _) => if after.Running? then [] else [Lost]
    case Running(_, _) => if after.InCall? then [] else [NoHelper]
    case InCall(_, _, h, _) => [Sent(h, c.outcome, c.opExpired, c.callerGone)]
    case Respawning(_, _) => if after.InCall? then [] else [NoHelper]
    case Noting(_, _) => [FailureNoted]
    case Unmapping(_, _) => [GaveSlotUp]
    case _ => []
  }

  // The events of t up to state i.
  ghost function Log(states: seq<State>, actions: seq<Action>, i: nat, t: Tid): seq<Event>
    requires i < |states| <= |actions| + 1
  {
    if i == 0 then []
    else
      var s, a, s' := states[i - 1], actions[i - 1], states[i];
      Log(states, actions, i - 1, t) +
      if a.Step? && a.t == t && t in s.threads && t in s'.threads then EventOf(s.threads[t], a.c, s'.threads[t]) else []
  }

  // ---------- which logs there are ----------

  ghost predicate AllLost(log: seq<Event>) {
    forall i :: 0 <= i < |log| ==> log[i].Lost?
  }

  function Front(log: seq<Event>): seq<Event>
    requires log != []
  {
    log[..|log| - 1]
  }

  function Last(log: seq<Event>): Event
    requires log != []
  {
    log[|log| - 1]
  }

  // Nothing has been sent, and another slot may be asked for.
  ghost predicate Fresh(log: seq<Event>) {
    AllLost(log) && |log| < ATTEMPTS
  }

  // The first request never reached its helper, in time for a second one.
  ghost predicate MayReplay(log: seq<Event>) {
    log != [] && Fresh(Front(log)) && Last(log).Sent? && Last(log).outcome.Undelivered? && !Last(log).expired
  }

  ghost predicate MaySend(log: seq<Event>) {
    Fresh(log) || MayReplay(log)
  }

  // The call has failed: no helper started, or a request did and is not replayed,
  // because it was the second, or may have been delivered, or time ran out.
  ghost predicate Failed(log: seq<Event>) {
    && log != [] && MaySend(Front(log))
    && (|| Last(log).NoHelper?
        || (Last(log).Sent? && !Last(log).outcome.Served?
            && (Fresh(Front(log)) ==> Last(log).outcome.Delivered? || Last(log).expired)))
  }

  // A failure counts against the target unless the caller went away.
  ghost predicate Counts(log: seq<Event>)
    requires log != []
  {
    Last(log).NoHelper? || (Last(log).Sent? && !Last(log).callerGone)
  }

  ghost predicate FailedAndNoted(log: seq<Event>) {
    || (Failed(log) && !Counts(log))
    || (log != [] && Last(log).FailureNoted? && Failed(Front(log)) && Counts(Front(log)))
  }

  // A finished call lost its slot four times; or was turned away, before or after
  // such a loss; or had a request served, its first or the one replay; or failed,
  // noted that if it counts, and gave its slot up.
  ghost predicate Complete(log: seq<Event>) {
    || (AllLost(log) && |log| == ATTEMPTS)
    || (log != [] && Fresh(Front(log)) && (Last(log).TurnedAway? || Last(log).AllBusy?))
    || (log != [] && MaySend(Front(log)) && Last(log).Sent? && Last(log).outcome.Served?)
    || (log != [] && FailedAndNoted(Front(log)) && Last(log).GaveSlotUp?)
  }

  ghost predicate LogOk(pc: PC, log: seq<Event>) {
    match pc
    case WantEntry(_, n) => Fresh(log) && |log| == n
    case Scanning(_, n, _, _) => Fresh(log) && |log| == n
    case ClosingEvicted(_, n, _, _) => Fresh(log) && |log| == n
    case WantLock(_, n, _) => Fresh(log) && |log| == n
    case Checking(_, n, _) => Fresh(log) && |log| == n
    case Running(_, _) => Fresh(log)
    case InCall(_, _, _, first) => if first then Fresh(log) else MayReplay(log)
    case Restarting(_, _, h) => MayReplay(log) && Last(log).h == h
    case Respawning(_, _) => MayReplay(log)
    case Failing(_, _, h, note) => Failed(log) && Last(log).Sent? && Last(log).h == h && (note <==> Counts(log))
    case Noting(_, _) => Failed(log) && Counts(log)
    case Marking(_, _) => FailedAndNoted(log)
    case Unmapping(_, _) => FailedAndNoted(log)
    case Unlocking(_, _) => log != [] && FailedAndNoted(Front(log)) && Last(log).GaveSlotUp?
    case Done => log == [] || Complete(log)
    case _ => log == []
  }

  // ---------- every step keeps to them ----------

  lemma Appended(log: seq<Event>, e: Event)
    ensures Front(log + [e]) == log && Last(log + [e]) == e && log + [e] != []
  {
  }

  lemma SlotStepLogs(cfg: Config, s: State, s': State, t: Tid, c: Choice, log: seq<Event>)
    requires t in s.threads && ThreadStep(cfg, s, s', t, c) && LogOk(s.threads[t], log)
    requires var pc := s.threads[t]; pc.WantEntry? || pc.Scanning? || pc.ClosingEvicted? || pc.WantLock?
    ensures t in s'.threads && LogOk(s'.threads[t], log + EventOf(s.threads[t], c, s'.threads[t]))
  {
    hide SameMap, SameSlots, SameRest, Takes, Adds, Closes, AllLost;
    assert log + [] == log;
    Appended(log, TurnedAway);
    Appended(log, AllBusy);
  }

  lemma CheckStepLogs(cfg: Config, s: State, s': State, t: Tid, c: Choice, log: seq<Event>)
    requires t in s.threads && ThreadStep(cfg, s, s', t, c) && LogOk(s.threads[t], log) && s.threads[t].Checking?
    ensures t in s'.threads && LogOk(s'.threads[t], log + EventOf(s.threads[t], c, s'.threads[t]))
  {
    hide SameMap, SameSlots, SameRest;
    assert log + [] == log;
    Appended(log, Lost);
    assert AllLost(log + [Lost]);
  }

  lemma SendStepLogs(cfg: Config, s: State, s': State, t: Tid, c: Choice, log: seq<Event>)
    requires t in s.threads && ThreadStep(cfg, s, s', t, c) && LogOk(s.threads[t], log) && s.threads[t].InCall?
    ensures t in s'.threads && LogOk(s'.threads[t], log + EventOf(s.threads[t], c, s'.threads[t]))
  {
    hide SameMap, SameSlots, SameRest;
    Appended(log, Sent(s.threads[t].h, c.outcome, c.opExpired, c.callerGone));
  }

  lemma StartStepLogs(cfg: Config, s: State, s': State, t: Tid, c: Choice, log: seq<Event>)
    requires t in s.threads && ThreadStep(cfg, s, s', t, c) && LogOk(s.threads[t], log)
    requires s.threads[t].Running? || s.threads[t].Respawning?
    ensures t in s'.threads && LogOk(s'.threads[t], log + EventOf(s.threads[t], c, s'.threads[t]))
  {
    hide SameMap, SameSlots, SameRest, Spawns, AllLost;
    assert log + [] == log;
    Appended(log, NoHelper);
  }

  lemma CloseStepLogs(cfg: Config, s: State, s': State, t: Tid, c: Choice, log: seq<Event>)
    requires t in s.threads && ThreadStep(cfg, s, s', t, c) && LogOk(s.threads[t], log)
    requires s.threads[t].Restarting? || s.threads[t].Failing? || s.threads[t].Marking?
    ensures t in s'.threads && LogOk(s'.threads[t], log + EventOf(s.threads[t], c, s'.threads[t]))
  {
    hide SameMap, SameSlots, SameRest, Closes, AllLost;
    assert log + [] == log;
  }

  lemma FailStepLogs(cfg: Config, s: State, s': State, t: Tid, c: Choice, log: seq<Event>)
    requires t in s.threads && ThreadStep(cfg, s, s', t, c) && LogOk(s.threads[t], log)
    requires s.threads[t].Noting? || s.threads[t].Unmapping? || s.threads[t].Unlocking?
    ensures t in s'.threads && LogOk(s'.threads[t], log + EventOf(s.threads[t], c, s'.threads[t]))
  {
    hide SameMap, SameSlots, SameRest, AllLost;
    assert log + [] == log;
    Appended(log, FailureNoted);
    Appended(log, GaveSlotUp);
  }

  // Threads of Drop, reapIdle and Close.
  predicate NoCall(pc: PC) {
    || pc.WantDrop? || pc.WantDropLock? || pc.DropHolding? || pc.WantReap? || pc.Reaping? || pc.WantClose? || pc.CloseNext?
    || pc.WantCloseLock? || pc.CloseHolding? || pc.Closing?
  }

  lemma NoCallLogs(pc: PC, after: PC, c: Choice, log: seq<Event>)
    requires NoCall(pc) && (NoCall(after) || after.Done?) && LogOk(pc, log)
    ensures LogOk(after, log + EventOf(pc, c, after))
  {
    assert log + [] == log;
  }

  lemma DropStaysOut(cfg: Config, s: State, s': State, t: Tid, c: Choice)
    requires t in s.threads && ThreadStep(cfg, s, s', t, c)
    requires var pc := s.threads[t]; pc.WantDrop? || pc.WantDropLock? || pc.DropHolding? || pc.WantReap? || pc.Reaping?
    ensures t in s'.threads && (NoCall(s'.threads[t]) || s'.threads[t].Done?)
  {
    hide SameMap, SameSlots, SameRest, Takes;
  }

  lemma CloseStaysOut(cfg: Config, s: State, s': State, t: Tid, c: Choice)
    requires t in s.threads && ThreadStep(cfg, s, s', t, c)
    requires var pc := s.threads[t]; pc.WantClose? || pc.CloseNext? || pc.WantCloseLock? || pc.CloseHolding? || pc.Closing?
    ensures t in s'.threads && (NoCall(s'.threads[t]) || s'.threads[t].Done?)
  {
    hide SameMap, SameSlots, SameRest, Closes;
  }

  lemma DoneIsDone(cfg: Config, s: State, s': State, t: Tid, c: Choice)
    requires t in s.threads && ThreadStep(cfg, s, s', t, c)
    ensures !s.threads[t].Done?
  {
  }

  lemma OtherStepLogs(cfg: Config, s: State, s': State, t: Tid, c: Choice, log: seq<Event>)
    requires t in s.threads && ThreadStep(cfg, s, s', t, c) && LogOk(s.threads[t], log) && NoCall(s.threads[t])
    ensures t in s'.threads && LogOk(s'.threads[t], log + EventOf(s.threads[t], c, s'.threads[t]))
  {
    hide ThreadStep, LogOk, EventOf;
    var pc := s.threads[t];
    if pc.WantDrop? || pc.WantDropLock? || pc.DropHolding? || pc.WantReap? || pc.Reaping? {
      DropStaysOut(cfg, s, s', t, c);
    } else {
      CloseStaysOut(cfg, s, s', t, c);
    }
    NoCallLogs(pc, s'.threads[t], c, log);
  }

  lemma OwnStepLogs(cfg: Config, s: State, s': State, t: Tid, c: Choice, log: seq<Event>)
    requires t in s.threads && ThreadStep(cfg, s, s', t, c) && LogOk(s.threads[t], log)
    ensures t in s'.threads && LogOk(s'.threads[t], log + EventOf(s.threads[t], c, s'.threads[t]))
  {
    hide ThreadStep, LogOk, EventOf;
    var pc := s.threads[t];
    if pc.WantEntry? || pc.Scanning? || pc.ClosingEvicted? || pc.WantLock? {
      SlotStepLogs(cfg, s, s', t, c, log);
    } else if pc.Checking? {
      CheckStepLogs(cfg, s, s', t, c, log);
    } else if pc.InCall? {
      SendStepLogs(cfg, s, s', t, c, log);
    } else if pc.Running? || pc.Respawning? {
      StartStepLogs(cfg, s, s', t, c, log);
    } else if pc.Restarting? || pc.Failing? || pc.Marking? {
      CloseStepLogs(cfg, s, s', t, c, log);
    } else if pc.Noting? || pc.Unmapping? || pc.Unlocking? {
      FailStepLogs(cfg, s, s', t, c, log);
    } else {
      DoneIsDone(cfg, s, s', t, c);
      OtherStepLogs(cfg, s, s', t, c, log);
    }
  }

  lemma OthersStay(cfg: Config, s: State, a: Action, s': State, t: Tid)
    requires Next(cfg, s, a, s') && t in s.threads && !(a.Step? && a.t == t)
    ensures t in s'.threads && s'.threads[t] == s.threads[t]
  {
    if a.Step? {
      hide ThreadStep, Spawning;
      StepMovesOn(cfg, s, s', a.t, a.c);
    }
  }

  lemma StartedNow(cfg: Config, s: State, a: Action, s': State, t: Tid)
    requires Next(cfg, s, a, s') && t !in s.threads && t in s'.threads
    ensures LogOk(s'.threads[t], [])
  {
    if a.Step? {
      hide ThreadStep, Spawning;
      StepMovesOn(cfg, s, s', a.t, a.c);
    }
  }

  lemma {:induction false} NoLogYet(cfg: Config, states: seq<State>, actions: seq<Action>, i: nat, t: Tid)
    requires IsRun(cfg, states, actions) && i < |states| && t !in states[i].threads
    ensures Log(states, actions, i, t) == []
  {
    hide Next, Inv;
    if i > 0 {
      RunSteps(cfg, states, actions, i);
      if t in states[i - 1].threads {
        ThreadsStay(cfg, states[i - 1], actions[i - 1], states[i], t);
      }
      NoLogYet(cfg, states, actions, i - 1, t);
    }
  }

  lemma ThreadsStay(cfg: Config, s: State, a: Action, s': State, t: Tid)
    requires Next(cfg, s, a, s') && t in s.threads
    ensures t in s'.threads
  {
    if a.Step? {
      hide ThreadStep, Spawning;
      StepMovesOn(cfg, s, s', a.t, a.c);
    }
  }

  lemma {:induction false} RunLogs(cfg: Config, states: seq<State>, actions: seq<Action>, i: nat, t: Tid)
    requires IsRun(cfg, states, actions) && i < |states| && t in states[i].threads
    ensures LogOk(states[i].threads[t], Log(states, actions, i, t))
  {
    hide Next, Inv, LogOk, EventOf, AllLost;
    if i > 0 {
      RunSteps(cfg, states, actions, i);
      var s, a, s' := states[i - 1], actions[i - 1], states[i];
      if t !in s.threads {
        NoLogYet(cfg, states, actions, i - 1, t);
        StartedNow(cfg, s, a, s', t);
        assert Log(states, actions, i, t) == [];
      } else {
        RunLogs(cfg, states, actions, i - 1, t);
        if a.Step? && a.t == t {
          OwnStepIs(cfg, s, a, s', t);
          OwnStepLogs(cfg, s, s', t, a.c, Log(states, actions, i - 1, t));
        } else {
          OthersStay(cfg, s, a, s', t);
          assert Log(states, actions, i, t) == Log(states, actions, i - 1, t);
        }
      }
    }
  }

  lemma OwnStepIs(cfg: Config, s: State, a: Action, s': State, t: Tid)
    requires Next(cfg, s, a, s') && a.Step? && a.t == t && t in s.threads
    ensures ThreadStep(cfg, s, s', t, a.c)
  {
    hide ThreadStep;
  }

  /** A finished thread has a complete call behind it, or none. In particular it
      sent its request at most twice, and twice only when the first time it was not
      delivered and there was time; a second failure, a delivered one and a helper
      that does not start end the call, are noted unless the caller went away, and
      cost the slot. */
  lemma CallsAreComplete(cfg: Config, states: seq<State>, actions: seq<Action>, i: nat, t: Tid)
    requires IsRun(cfg, states, actions) && i < |states| && t in states[i].threads && states[i].threads[t].Done?
    ensures var log := Log(states, actions, i, t); log == [] || Complete(log)
  {
    RunLogs(cfg, states, actions, i, t);
  }

  // ---------- what the events say ----------

  /** A call loses its slot exactly when the slot was detached; it goes without a
      helper exactly when the slot has none and none starts; and what it sends its
      request to is the slot's helper, or one started just now. */
  lemma CallsUseTheSlot(cfg: Config, s: State, s': State, t: Tid, c: Choice)
    requires t in s.threads && ThreadStep(cfg, s, s', t, c)
    requires s.threads[t].Checking? || s.threads[t].Running? || s.threads[t].Respawning?
    ensures t in s'.threads
    ensures var pc, after := s.threads[t], s'.threads[t];
      var says := EventOf(pc, c, after);
      && (pc.Checking? ==> (says == [Lost] <==> pc.e in s.gone))
      && (pc.Running? ==> (says == [NoHelper] <==> pc.e !in s.helper && !c.spawnOk))
      && (pc.Respawning? ==> (says == [NoHelper] <==> !c.spawnOk))
      && (!pc.Checking? && says == [] ==> after.InCall? && after.e == pc.e && after.u == pc.u)
      && (after.InCall? ==> pc.e in s'.helper && s'.helper[pc.e] == after.h)
      && (pc.Running? && pc.e in s.helper ==> after == InCall(pc.u, pc.e, s.helper[pc.e], true))
      && (says == [] && !pc.Checking? && (pc.Respawning? || pc.e !in s.helper) ==> after.h !in s.spawned)
  {
    hide SameMap, SameRest;
  }

  /** A call that finds its target's slot takes that one; it scans for a victim only
      when there is no room, and is told that all slots are busy exactly when the
      scan ends without one. */
  lemma CallsFindTheSlot(cfg: Config, s: State, s': State, t: Tid, c: Choice)
    requires t in s.threads && ThreadStep(cfg, s, s', t, c) && (s.threads[t].WantEntry? || s.threads[t].Scanning?)
    ensures t in s'.threads
    ensures var pc, after := s.threads[t], s'.threads[t];
      && (pc.WantEntry? && !s.closed && pc.u in s.entries ==> after == WantLock(pc.u, pc.n, s.entries[pc.u]))
      && (pc.WantEntry? && after.Scanning? ==> |s.entries| >= cfg.maxTargets && pc.u !in s.entries)
      && (pc.WantEntry? && after.WantLock? && pc.u !in s.entries ==> |s.entries| < cfg.maxTargets && after.e !in s.udidOf)
      && (pc.Scanning? ==> (EventOf(pc, c, after) == [AllBusy] <==> pc.rem == {} && pc.victim.NoVictim?))
  {
    hide SameMap, SameSlots, SameRest, Takes;
  }

  // ---------- cooldown ----------

  // Until when a target is turned away: the cooldown since its last failure was
  // noted, unless it has been dropped since.
  ghost function CoolsUntil(cfg: Config, states: seq<State>, actions: seq<Action>, i: nat, u: Udid): nat
    requires i < |states| <= |actions| + 1
  {
    if i == 0 then 0
    else
      var s, a := states[i - 1], actions[i - 1];
      if Notes(s, a, u) then s.now + cfg.cooldown
      else if Drops(s, a, u) then 0
      else CoolsUntil(cfg, states, actions, i - 1, u)
  }

  predicate Notes(s: State, a: Action, u: Udid) {
    a.Step? && a.t in s.threads && s.threads[a.t].Noting? && s.threads[a.t].u == u
  }

  predicate Drops(s: State, a: Action, u: Udid) {
    a.Step? && a.t in s.threads && s.threads[a.t] == WantDrop(u)
  }

  // The table against the history, given what the history says.
  ghost predicate TableSays(s: State, u: Udid, until: nat) {
    if u in s.failUntil then s.failUntil[u] == until else until <= s.now
  }

  ghost predicate SameTable(s: State, s': State) {
    s'.failUntil == s.failUntil && s.now <= s'.now
  }

  lemma LockStepTable(cfg: Config, s: State, s': State, t: Tid, c: Choice)
    requires t in s.threads && ThreadStep(cfg, s, s', t, c)
    requires var pc := s.threads[t];
      || pc.WantLock? || pc.Checking? || pc.WantDropLock? || pc.WantCloseLock? || pc.WantReap? || pc.Unlocking?
      || pc.Running? || pc.InCall? || pc.Respawning?
    ensures SameTable(s, s')
  {
    hide SameMap, SameSlots, Spawns;
  }

  lemma HelperStepTable(cfg: Config, s: State, s': State, t: Tid, c: Choice)
    requires t in s.threads && ThreadStep(cfg, s, s', t, c)
    requires var pc := s.threads[t];
      || pc.Scanning? || pc.ClosingEvicted? || pc.Restarting? || pc.Failing? || pc.Marking? || pc.Unmapping? || pc.Closing?
    ensures SameTable(s, s')
  {
    hide SameMap, SameSlots, Takes, Closes;
  }

  lemma OtherStepTable(cfg: Config, s: State, s': State, t: Tid, c: Choice)
    requires t in s.threads && ThreadStep(cfg, s, s', t, c)
    requires var pc := s.threads[t];
      || pc.Done? || pc.DropHolding? || pc.Reaping? || pc.WantClose? || pc.CloseNext? || pc.CloseHolding?
    ensures SameTable(s, s')
  {
    hide SameMap, SameSlots, Takes, Closes;
  }

  // A call for v forgets a cooldown of v that is over.
  lemma WantEntryTable(cfg: Config, s: State, s': State, t: Tid, c: Choice, u: Udid, until: nat)
    requires t in s.threads && s.threads[t].WantEntry? && ThreadStep(cfg, s, s', t, c) && TableSays(s, u, until)
    ensures TableSays(s', u, until)
  {
    hide SameMap, SameSlots;
  }

  lemma NotingTable(cfg: Config, s: State, s': State, t: Tid, c: Choice, u: Udid, until: nat)
    requires t in s.threads && s.threads[t].Noting? && ThreadStep(cfg, s, s', t, c) && TableSays(s, u, until)
    ensures TableSays(s', u, if s.threads[t].u == u then s.now + cfg.cooldown else until)
  {
    hide SameMap, SameSlots;
  }

  lemma WantDropTable(cfg: Config, s: State, s': State, t: Tid, c: Choice, u: Udid, until: nat)
    requires t in s.threads && s.threads[t].WantDrop? && ThreadStep(cfg, s, s', t, c) && TableSays(s, u, until)
    ensures TableSays(s', u, if s.threads[t].u == u then 0 else until)
  {
    hide SameMap, SameSlots;
  }

  ghost function UntilAfter(cfg: Config, s: State, a: Action, u: Udid, until: nat): nat {
    if Notes(s, a, u) then s.now + cfg.cooldown else if Drops(s, a, u) then 0 else until
  }

  lemma QuietStepTable(cfg: Config, s: State, s': State, t: Tid, c: Choice)
    requires t in s.threads && ThreadStep(cfg, s, s', t, c)
    requires !s.threads[t].WantEntry? && !s.threads[t].Noting? && !s.threads[t].WantDrop?
    ensures SameTable(s, s')
  {
    hide ThreadStep, SameTable;
    var pc := s.threads[t];
    if pc.WantLock? || pc.Checking? || pc.WantDropLock? || pc.WantCloseLock? || pc.WantReap? || pc.Unlocking?
       || pc.Running? || pc.InCall? || pc.Respawning? {
      LockStepTable(cfg, s, s', t, c);
    } else if pc.Scanning? || pc.ClosingEvicted? || pc.Restarting? || pc.Failing? || pc.Marking? || pc.Unmapping?
              || pc.Closing? {
      HelperStepTable(cfg, s, s', t, c);
    } else {
      OtherStepTable(cfg, s, s', t, c);
    }
  }

  lemma StepTable(cfg: Config, s: State, s': State, t: Tid, c: Choice, u: Udid, until: nat)
    requires t in s.threads && ThreadStep(cfg, s, s', t, c) && TableSays(s, u, until)
    ensures TableSays(s', u, UntilAfter(cfg, s, Step(t, c), u, until))
  {
    hide ThreadStep;
    var pc := s.threads[t];
    if pc.WantEntry? {
      WantEntryTable(cfg, s, s', t, c, u, until);
    } else if pc.Noting? {
      NotingTable(cfg, s, s', t, c, u, until);
    } else if pc.WantDrop? {
      WantDropTable(cfg, s, s', t, c, u, until);
    } else {
      QuietStepTable(cfg, s, s', t, c);
    }
  }

  lemma NextTable(cfg: Config, s: State, a: Action, s': State, u: Udid, until: nat)
    requires Next(cfg, s, a, s') && TableSays(s, u, until)
    ensures TableSays(s', u, UntilAfter(cfg, s, a, u, until))
  {
    if a.Step? {
      hide ThreadStep, TableSays, UntilAfter;
      StepTable(cfg, s, s', a.t, a.c, u, until);
    }
  }

  lemma {:induction false} RunTable(cfg: Config, states: seq<State>, actions: seq<Action>, i: nat, u: Udid)
    requires IsRun(cfg, states, actions) && i < |states|
    ensures TableSays(states[i], u, CoolsUntil(cfg, states, actions, i, u))
  {
    hide Next, Inv, TableSays, Notes, Drops;
    if i == 0 {
      NothingNoted(u);
    } else {
      RunTable(cfg, states, actions, i - 1, u);
      RunSteps(cfg, states, actions, i);
      NextTable(cfg, states[i - 1], actions[i - 1], states[i], u, CoolsUntil(cfg, states, actions, i - 1, u));
    }
  }

  lemma NothingNoted(u: Udid)
    ensures TableSays(INITIAL, u, 0)
  {
  }

  lemma TurnedAwayIff(cfg: Config, s: State, s': State, t: Tid, c: Choice, until: nat)
    requires t in s.threads && s.threads[t].WantEntry? && ThreadStep(cfg, s, s', t, c)
    requires TableSays(s, s.threads[t].u, until)
    ensures t in s'.threads
    ensures EventOf(s.threads[t], c, s'.threads[t]) == [TurnedAway] <==>
      s.closed || (s.threads[t].u !in s.entries && s.now < until)
  {
    hide SameMap, SameSlots, SameRest;
  }

  /** A call that asks for a slot is turned away exactly when the pool is closed, or
      the target has none and a failure of it was noted less than the cooldown ago
      and it was not dropped since. */
  lemma CoolingTargetsAreTurnedAway(cfg: Config, states: seq<State>, actions: seq<Action>, i: nat, t: Tid)
    requires IsRun(cfg, states, actions) && i < |actions| && actions[i].Step? && actions[i].t == t
    requires t in states[i].threads && states[i].threads[t].WantEntry?
    ensures t in states[i + 1].threads
    ensures EventOf(states[i].threads[t], actions[i].c, states[i + 1].threads[t]) == [TurnedAway] <==>
      var u := states[i].threads[t].u;
      states[i].closed || (u !in states[i].entries && states[i].now < CoolsUntil(cfg, states, actions, i, u))
  {
    hide ThreadStep, EventOf, CoolsUntil, TableSays;
    RunTable(cfg, states, actions, i, states[i].threads[t].u);
    assert Next(cfg, states[i], actions[i], states[i + 1]);
    TurnedAwayIff(cfg, states[i], states[i + 1], t, actions[i].c, CoolsUntil(cfg, states, actions, i, states[i].threads[t].u));
  }
}
