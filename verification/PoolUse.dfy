// When a slot was last used, told by the calls that were served on it and not by
// the time stamp the pool keeps; and that the stamp always says the same.
module PoolUse {
  import opened PoolModel
  import opened PoolInvariant
  import opened PoolSteps

  // With this action the helper in e serves a call.
  predicate Serves(s: State, a: Action, e: EntryId) {
    && a.Step? && a.t in s.threads && s.threads[a.t].InCall? && s.threads[a.t].e == e
    && a.c.outcome.Served?
  }

  // The time of the last call served on e before state i, or else of the step
  // that created e.
  ghost function LastUse(states: seq<State>, actions: seq<Action>, i: nat, e: EntryId): nat
    requires i < |states| <= |actions| + 1
  {
    if i == 0 then 0
    else if Serves(states[i - 1], actions[i - 1], e) then states[i - 1].now
    else if e !in states[i - 1].udidOf && e in states[i].udidOf then states[i - 1].now
    else LastUse(states, actions, i - 1, e)
  }

  // ---------- what a step does to the stamps ----------

  ghost predicate SameStamps(s: State, s': State) {
    s'.udidOf == s.udidOf && s'.lastUsed == s.lastUsed
  }

  ghost predicate StampsOne(s: State, s': State, e: EntryId) {
    s'.lastUsed == s.lastUsed[e := s.now]
  }

  lemma LockStepStamps(cfg: Config, s: State, s': State, t: Tid, c: Choice)
    requires t in s.threads && ThreadStep(cfg, s, s', t, c)
    requires var pc := s.threads[t];
      || pc.WantLock? || pc.Checking? || pc.WantDropLock? || pc.WantCloseLock? || pc.WantReap? || pc.Unlocking?
      || pc.Running? || pc.Respawning?
    ensures SameStamps(s, s')
  {
  }

  lemma HelperStepStamps(cfg: Config, s: State, s': State, t: Tid, c: Choice)
    requires t in s.threads && ThreadStep(cfg, s, s', t, c)
    requires var pc := s.threads[t];
      || pc.ClosingEvicted? || pc.Restarting? || pc.Failing? || pc.Noting? || pc.Marking? || pc.Unmapping? || pc.Closing?
    ensures SameStamps(s, s')
  {
  }

  lemma OtherStepStamps(cfg: Config, s: State, s': State, t: Tid, c: Choice)
    requires t in s.threads && ThreadStep(cfg, s, s', t, c)
    requires var pc := s.threads[t];
      || pc.Done? || pc.WantDrop? || pc.DropHolding? || pc.Reaping? || pc.WantClose? || pc.CloseNext? || pc.CloseHolding?
    ensures SameStamps(s, s')
  {
  }

  // A call for the new target u may create an entry e for it.
  ghost predicate StampsNew(s: State, s': State, u: Udid, e: EntryId) {
    SameStamps(s, s') || (e !in s.udidOf && s'.udidOf == s.udidOf[e := u] && StampsOne(s, s', e))
  }

  lemma WantEntryStamps(cfg: Config, s: State, s': State, t: Tid, c: Choice)
    requires t in s.threads && s.threads[t].WantEntry? && ThreadStep(cfg, s, s', t, c)
    ensures StampsNew(s, s', s.threads[t].u, c.id)
  {
    hide SameSlots;
  }

  lemma ScanStamps(cfg: Config, s: State, s': State, t: Tid, c: Choice)
    requires t in s.threads && s.threads[t].Scanning? && ThreadStep(cfg, s, s', t, c)
    ensures StampsNew(s, s', s.threads[t].u, c.id)
  {
    hide SameSlots, Takes;
  }

  lemma InCallStamps(cfg: Config, s: State, s': State, t: Tid, c: Choice)
    requires t in s.threads && s.threads[t].InCall? && ThreadStep(cfg, s, s', t, c)
    ensures s'.udidOf == s.udidOf
    ensures if c.outcome.Served? then StampsOne(s, s', s.threads[t].e) else SameStamps(s, s')
  {
  }

  // Only a served call and the creation of e stamp e, with the present time.
  ghost predicate StampsRightly(s: State, a: Action, s': State, e: EntryId) {
    && (e in s.udidOf ==> e in s'.udidOf)
    && (e in s'.udidOf ==>
         LastUsed(s', e) == if Serves(s, a, e) || e !in s.udidOf then s.now else LastUsed(s, e))
  }

  lemma SameStampsAreRight(s: State, t: Tid, c: Choice, s': State, e: EntryId)
    requires t in s.threads && SameStamps(s, s') && (s.threads[t].InCall? ==> !c.outcome.Served?)
    ensures StampsRightly(s, Step(t, c), s', e)
  {
  }

  lemma NewStampIsRight(s: State, t: Tid, c: Choice, s': State, u: Udid, e: EntryId)
    requires t in s.threads && StampsNew(s, s', u, c.id) && !s.threads[t].InCall?
    ensures StampsRightly(s, Step(t, c), s', e)
  {
  }

  lemma StepStampsRightly(cfg: Config, s: State, s': State, t: Tid, c: Choice, e: EntryId)
    requires t in s.threads && ThreadStep(cfg, s, s', t, c)
    ensures StampsRightly(s, Step(t, c), s', e)
  {
    var pc := s.threads[t];
    if pc.InCall? {
      hide ThreadStep;
      InCallStamps(cfg, s, s', t, c);
    } else if pc.WantEntry? {
      hide *;
      WantEntryStamps(cfg, s, s', t, c);
      NewStampIsRight(s, t, c, s', pc.u, e);
    } else if pc.Scanning? {
      hide *;
      ScanStamps(cfg, s, s', t, c);
      NewStampIsRight(s, t, c, s', pc.u, e);
    } else {
      hide *;
      QuietStepStamps(cfg, s, s', t, c);
      SameStampsAreRight(s, t, c, s', e);
    }
  }

  lemma QuietStepStamps(cfg: Config, s: State, s': State, t: Tid, c: Choice)
    requires t in s.threads && ThreadStep(cfg, s, s', t, c)
    requires !s.threads[t].WantEntry? && !s.threads[t].Scanning? && !s.threads[t].InCall?
    ensures SameStamps(s, s')
  {
    hide ThreadStep, SameStamps;
    var pc := s.threads[t];
    if pc.WantLock? || pc.Checking? || pc.WantDropLock? || pc.WantCloseLock? || pc.WantReap? || pc.Unlocking?
              || pc.Running? || pc.Respawning? {
      LockStepStamps(cfg, s, s', t, c);
    } else if pc.ClosingEvicted? || pc.Restarting? || pc.Failing? || pc.Noting? || pc.Marking? || pc.Unmapping?
              || pc.Closing? {
      HelperStepStamps(cfg, s, s', t, c);
    } else {
      OtherStepStamps(cfg, s, s', t, c);
    }
  }

  lemma NextStampsRightly(cfg: Config, s: State, a: Action, s': State, e: EntryId)
    requires Next(cfg, s, a, s')
    ensures StampsRightly(s, a, s', e)
  {
    if a.Step? {
      hide ThreadStep, StampsRightly;
      StepStampsRightly(cfg, s, s', a.t, a.c, e);
    }
  }

  /** In every state of every run the time stamp of an entry is the time of the last
      call served on it, or of its creation if none was. */
  lemma {:induction false} StampIsLastUse(cfg: Config, states: seq<State>, actions: seq<Action>, i: nat, e: EntryId)
    requires IsRun(cfg, states, actions) && i < |states| && e in states[i].udidOf
    ensures LastUsed(states[i], e) == LastUse(states, actions, i, e)
  {
    hide Next, Inv;
    if i > 0 {
      RunSteps(cfg, states, actions, i);
      NextStampsRightly(cfg, states[i - 1], actions[i - 1], states[i], e);
      if e in states[i - 1].udidOf {
        StampIsLastUse(cfg, states, actions, i - 1, e);
      }
    }
  }
}
