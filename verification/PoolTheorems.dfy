// What the invariant says about every interleaving of the pool's operations.
module PoolTheorems {
  import opened PoolModel
  import opened PoolInvariant
  import opened PoolSteps

  // ---------- capacity ----------

  // The map never exceeds MaxTargets, and a closed pool has an empty map.
  lemma CapacityHolds(cfg: Config, states: seq<State>, actions: seq<Action>, i: nat)
    requires IsRun(cfg, states, actions) && i < |states|
    ensures |states[i].entries| <= cfg.maxTargets
    ensures states[i].closed ==> states[i].entries == map[]
  {
    hide IsRun, ClaimsOk, EntriesOk, HelpersOk, StaleOk, PcsOk;
    RunKeeps(cfg, states, actions, i);
  }

  // ---------- one call at a time, on a live helper ----------

  lemma CallHoldsItsHelper(cfg: Config, s: State, t: Tid)
    requires Inv(cfg, s) && t in s.threads && s.threads[t].InCall?
    ensures var pc := s.threads[t]; EntryMu(pc.e) in s.lock && s.lock[EntryMu(pc.e)] == t
    ensures var pc := s.threads[t]; pc.h in s.slotOf && s.slotOf[pc.h] == pc.e && pc.h in s.live
  {
    hide Inv, TablesOk, EntriesOk, PcsOk;
    Parts(cfg, s, t);
    HoldsItsLocks(s, t);
    OwnSlotIsLive(s, t, s.threads[t].e);
  }

  // No helper ever serves two calls, and no call runs on a closed helper.
  lemma OneCallPerHelper(cfg: Config, states: seq<State>, actions: seq<Action>, i: nat, t1: Tid, t2: Tid)
    requires IsRun(cfg, states, actions) && i < |states|
    requires t1 in states[i].threads && states[i].threads[t1].InCall?
    requires t2 in states[i].threads && states[i].threads[t2].InCall?
    requires states[i].threads[t1].h == states[i].threads[t2].h
    ensures t1 == t2 && states[i].threads[t1].h in states[i].live
  {
    hide IsRun, Inv;
    RunKeeps(cfg, states, actions, i);
    CallHoldsItsHelper(cfg, states[i], t1);
    CallHoldsItsHelper(cfg, states[i], t2);
  }

  // ---------- ownership ----------

  // Somebody will still close h: it sits in a mapped entry, in a detached entry
  // whose detacher is on its way, or in the hands of a running thread.
  ghost predicate Owned(s: State, h: HelperId) {
    || (exists e :: e in s.helper && s.helper[e] == h && Mapped(s, e))
    || (exists e :: e in s.helper && s.helper[e] == h && !Mapped(s, e) && DetacherPending(s, e))
    || (exists t :: t in s.threads && h in Carried(s.threads[t]))
  }

  ghost predicate DetacherPending(s: State, e: EntryId) {
    exists t :: t in s.threads && e in Pending(s.threads[t])
  }

  lemma DetacherRuns(s: State, e: EntryId)
    requires ClaimsOk(s) && e in s.detacher
    ensures DetacherPending(s, e)
  {
    var t := s.detacher[e];
    assert t in PendingOf(s.threads) && e in PendingOf(s.threads)[t];
    assert t in s.threads && e in Pending(s.threads[t]);
  }

  lemma CarrierRuns(s: State, h: HelperId)
    requires ClaimsOk(s) && h in s.carrier
    ensures exists t :: t in s.threads && h in Carried(s.threads[t])
  {
    var t := s.carrier[h];
    assert t in CarriedBy(s.threads) && h in CarriedBy(s.threads)[t];
    assert t in s.threads && h in Carried(s.threads[t]);
  }

  lemma LiveIsOwned(s: State, h: HelperId)
    requires ClaimsOk(s) && EntriesOk(s) && HelpersOk(s) && h in s.live
    ensures Owned(s, h)
  {
    if h in s.carrier {
      CarrierRuns(s, h);
    } else {
      var e := s.slotOf[h];
      assert e in s.helper && s.helper[e] == h;
      if !Mapped(s, e) {
        DetacherRuns(s, e);
      }
    }
  }

  // Every spawned helper that is not closed yet is owned, in every state of
  // every interleaving, also in the window where Drop or Close has detached an
  // entry and a call still runs on it.
  lemma LiveHelpersAreOwned(cfg: Config, states: seq<State>, actions: seq<Action>, i: nat, h: HelperId)
    requires IsRun(cfg, states, actions) && i < |states|
    requires h in states[i].spawned && h !in states[i].closes
    ensures Owned(states[i], h)
  {
    hide IsRun, TablesOk, ClaimsOk, EntriesOk, StaleOk, PcsOk, Owned;
    RunKeeps(cfg, states, actions, i);
    assert h in states[i].live;
    LiveIsOwned(states[i], h);
  }

  // No helper is closed twice.
  lemma ClosedAtMostOnce(cfg: Config, states: seq<State>, actions: seq<Action>, i: nat, h: HelperId)
    requires IsRun(cfg, states, actions) && i < |states|
    ensures states[i].closes[h] <= 1
    ensures h in states[i].closes ==> h in states[i].spawned
  {
    hide IsRun, TablesOk, ClaimsOk, EntriesOk, StaleOk, PcsOk;
    RunKeeps(cfg, states, actions, i);
  }

  // ---------- nothing is left behind ----------

  lemma IdleOwnsNothing(s: State, h: HelperId)
    requires forall t :: t in s.threads ==> s.threads[t] == Done
    requires s.entries == map[]
    ensures !Owned(s, h)
  {
    forall t | t in s.threads ensures Carried(s.threads[t]) == {} && Pending(s.threads[t]) == {} { }
  }

  // Once Close has run and every operation has finished, every helper that was
  // ever spawned has been closed.
  lemma NoLeakAfterClose(cfg: Config, states: seq<State>, actions: seq<Action>, i: nat)
    requires IsRun(cfg, states, actions) && i < |states| && states[i].closed
    requires forall t :: t in states[i].threads ==> states[i].threads[t] == Done
    ensures forall h :: h in states[i].spawned ==> states[i].closes[h] == 1
  {
    forall h | h in states[i].spawned ensures states[i].closes[h] == 1 {
      ClosedAtMostOnce(cfg, states, actions, i, h);
      if h !in states[i].closes {
        CapacityHolds(cfg, states, actions, i);
        LiveHelpersAreOwned(cfg, states, actions, i, h);
        IdleOwnsNothing(states[i], h);
      }
    }
  }

  // ---------- late eviction ----------

  // What a slot is made of: its entry's mark, helper, time stamp and that helper's life.
  ghost predicate SameSlot(s: State, s': State, e: EntryId) {
    && (e in s'.gone <==> e in s.gone) && (e in s'.helper <==> e in s.helper) && LastUsed(s', e) == LastUsed(s, e)
    && (e in s.helper ==> s'.helper[e] == s.helper[e] && (s.helper[e] in s'.live <==> s.helper[e] in s.live))
  }

  // A call that failed long ago and evicts its entry only now finds that entry
  // marked, its slot empty and still locked by itself; it removes that entry from
  // the map or nothing. Whatever took its place stays mapped, with slot and helper
  // as they were, and so does every other entry.
  lemma LateEvictSparesSuccessor(cfg: Config, states: seq<State>, actions: seq<Action>, i: nat, t: Tid, c: Choice)
    requires IsRun(cfg, states, actions) && i < |actions| && actions[i] == Step(t, c)
    requires t in states[i].threads && states[i].threads[t].Unmapping?
    ensures var s, s', e := states[i], states[i + 1], states[i].threads[t].e;
      && e in s.gone && e !in s.helper && EntryMu(e) in s.lock && s.lock[EntryMu(e)] == t
      && s'.entries.Keys <= s.entries.Keys
      && (forall u :: u in s.entries && s.entries[u] != e ==> u in s'.entries && s'.entries[u] == s.entries[u])
      && (forall x :: SameSlot(s, s', x)) && s'.live == s.live && s'.closes == s.closes
  {
    hide Inv, ThreadStep;
    assert Next(cfg, states[i], actions[i], states[i + 1]);
    RunKeeps(cfg, states, actions, i);
    LateEvictStep(cfg, states[i], states[i + 1], t, c);
  }

  lemma LateEvictStep(cfg: Config, s: State, s': State, t: Tid, c: Choice)
    requires Inv(cfg, s) && t in s.threads && s.threads[t].Unmapping? && ThreadStep(cfg, s, s', t, c)
    ensures var e := s.threads[t].e;
      && e in s.gone && e !in s.helper && EntryMu(e) in s.lock && s.lock[EntryMu(e)] == t
      && s'.entries.Keys <= s.entries.Keys
      && (forall u :: u in s.entries && s.entries[u] != e ==> u in s'.entries && s'.entries[u] == s.entries[u])
      && (forall x :: SameSlot(s, s', x)) && s'.live == s.live && s'.closes == s.closes
  {
    hide Inv, ClaimsOk, HelpersOk, StaleOk, PcsOk;
    Parts(cfg, s, t);
    HoldsItsLocks(s, t);
    assert UnmappingStep(s, s', t, s.threads[t].u, s.threads[t].e);
  }

  // Every entry ever created is mapped, or marked gone (and then its slot stays
  // empty), or about to be marked by the thread that detached it.
  lemma EntriesAreAccountedFor(cfg: Config, states: seq<State>, actions: seq<Action>, i: nat, e: EntryId)
    requires IsRun(cfg, states, actions) && i < |states| && e in states[i].udidOf
    ensures Mapped(states[i], e) || e in states[i].gone || DetacherPending(states[i], e)
    ensures e in states[i].gone ==> e !in states[i].helper
  {
    hide IsRun, TablesOk, ClaimsOk, HelpersOk, StaleOk, PcsOk, DetacherPending;
    RunKeeps(cfg, states, actions, i);
    if e in states[i].detacher { DetacherRuns(states[i], e); }
  }
}
