// Which slot the LRU scan gives up, over every interleaving: other threads may
// take and release entry locks while the scan is under way.
module PoolEviction {
  import opened PoolModel
  import opened PoolInvariant
  import opened PoolSteps
  import opened PoolUse

  // ---------- what other threads leave alone ----------

  // Seen from t1, which has the pool lock and perhaps that of a victim: its
  // program counter, the map and the victim's time stamp stay.
  ghost predicate Foreign(s: State, s': State, t1: Tid, v: Victim)
    requires t1 in s.threads
  {
    && t1 in s'.threads && s'.threads[t1] == s.threads[t1]
    && s'.entries == s.entries
    && (v.Victim? ==> LastUsed(s', v.id) == LastUsed(s, v.id))
  }

  function VictimOf(pc: PC): Victim {
    if pc.Scanning? then pc.victim else NoVictim
  }

  lemma CallStepIsForeign(cfg: Config, s: State, s': State, t: Tid, c: Choice, t1: Tid, v: Victim)
    requires t in s.threads && t1 in s.threads && t1 != t && PoolMu in s.lock && ThreadStep(cfg, s, s', t, c)
    requires v.Victim? && s.threads[t].InCall? ==> s.threads[t].e != v.id
    requires var pc := s.threads[t]; pc.WantEntry? || pc.WantLock? || pc.Checking? || pc.Running? || pc.InCall?
    ensures Foreign(s, s', t1, v)
  {
  }

  lemma HelperStepIsForeign(cfg: Config, s: State, s': State, t: Tid, c: Choice, t1: Tid, v: Victim)
    requires t in s.threads && t1 in s.threads && t1 != t && PoolMu in s.lock && ThreadStep(cfg, s, s', t, c)
    requires var pc := s.threads[t];
      || pc.ClosingEvicted? || pc.Restarting? || pc.Respawning? || pc.Failing? || pc.Noting? || pc.Marking? || pc.Unmapping?
      || pc.Unlocking?
    ensures Foreign(s, s', t1, v)
  {
  }

  lemma OtherStepIsForeign(cfg: Config, s: State, s': State, t: Tid, c: Choice, t1: Tid, v: Victim)
    requires t in s.threads && t1 in s.threads && t1 != t && PoolMu in s.lock && ThreadStep(cfg, s, s', t, c)
    requires var pc := s.threads[t];
      || pc.Done? || pc.WantDrop? || pc.WantDropLock? || pc.DropHolding? || pc.WantReap? || pc.WantClose? || pc.CloseNext?
      || pc.WantCloseLock? || pc.CloseHolding? || pc.Closing?
    ensures Foreign(s, s', t1, v)
  {
  }

  lemma StepIsForeign(cfg: Config, s: State, s': State, t: Tid, c: Choice, t1: Tid)
    requires Inv(cfg, s) && t in s.threads && t1 in s.threads && t1 != t && ThreadStep(cfg, s, s', t, c)
    requires s.threads[t1].Scanning? || s.threads[t1].Reaping?
    ensures Foreign(s, s', t1, VictimOf(s.threads[t1]))
  {
    hide ThreadStep, Foreign, TablesOk, ClaimsOk, EntriesOk, HelpersOk, StaleOk, PcsOk;
    HoldsItsLocks(s, t);
    HoldsItsLocks(s, t1);
    assert PoolMu in Held(s.threads[t1]);
    var pc, v := s.threads[t], VictimOf(s.threads[t1]);
    if v.Victim? {
      assert EntryMu(v.id) in Held(s.threads[t1]);
    }
    if pc.WantEntry? || pc.WantLock? || pc.Checking? || pc.Running? || pc.InCall? {
      CallStepIsForeign(cfg, s, s', t, c, t1, v);
    } else if pc.ClosingEvicted? || pc.Restarting? || pc.Respawning? || pc.Failing? || pc.Noting? || pc.Marking?
              || pc.Unmapping? || pc.Unlocking? {
      HelperStepIsForeign(cfg, s, s', t, c, t1, v);
    } else {
      assert !pc.Scanning? && !pc.Reaping?;
      OtherStepIsForeign(cfg, s, s', t, c, t1, v);
    }
  }

  lemma NextIsForeign(cfg: Config, s: State, a: Action, s': State, t1: Tid)
    requires Inv(cfg, s) && Next(cfg, s, a, s') && t1 in s.threads
    requires s.threads[t1].Scanning? || s.threads[t1].Reaping?
    requires !(a.Step? && a.t == t1)
    ensures Foreign(s, s', t1, VictimOf(s.threads[t1]))
  {
    hide Inv, ThreadStep;
    if a.Step? {
      StepIsForeign(cfg, s, s', a.t, a.c, t1);
    }
  }

  // ---------- the scan ----------

  // t scans from i0 to i, and had no victim at first.
  ghost predicate Scans(states: seq<State>, t: Tid, i0: nat, i: nat) {
    && i0 <= i < |states|
    && (forall j :: i0 <= j <= i ==> t in states[j].threads && states[j].threads[t].Scanning?)
    && states[i0].threads[t].victim == NoVictim
    && states[i0].threads[t].rem == states[i0].entries.Keys
  }

  // At step j t looks at the slot of k.
  ghost predicate Looks(states: seq<State>, actions: seq<Action>, t: Tid, j: nat, k: Udid) {
    j < |actions| && j < |states| && actions[j].Step? && actions[j].t == t && actions[j].c.key == k && k in states[j].entries
  }

  // And nobody holds it then.
  ghost predicate FindsIdle(states: seq<State>, actions: seq<Action>, t: Tid, j: nat, k: Udid) {
    Looks(states, actions, t, j, k) && EntryMu(states[j].entries[k]) !in states[j].lock
  }

  // The victim so far was found idle, and is no more recently used than any slot
  // found idle was at that moment; without one no slot was found idle.
  ghost predicate LeastRecent(states: seq<State>, actions: seq<Action>, t: Tid, i0: nat, i: nat)
    requires i < |states| && t in states[i].threads && states[i].threads[t].Scanning?
  {
    var v := states[i].threads[t].victim;
    && (v.Victim? ==> exists j :: i0 <= j < i && FindsIdle(states, actions, t, j, v.key) && states[j].entries[v.key] == v.id)
    && (forall j, k :: i0 <= j < i && FindsIdle(states, actions, t, j, k) ==>
         v.Victim? && LastUsed(states[i], v.id) <= LastUsed(states[j], states[j].entries[k]))
  }

  // Every slot no longer to be looked at has been, and the map is what it was.
  ghost predicate AllLooked(states: seq<State>, actions: seq<Action>, t: Tid, i0: nat, i: nat)
    requires i0 <= i < |states| && t in states[i].threads && states[i].threads[t].Scanning?
  {
    && states[i].entries == states[i0].entries
    && forall k :: k in states[i].entries && k !in states[i].threads[t].rem ==>
         exists j :: i0 <= j < i && Looks(states, actions, t, j, k)
  }

  lemma OwnStepLooks(cfg: Config, s: State, s': State, t: Tid, c: Choice)
    requires t in s.threads && s.threads[t].Scanning? && ThreadStep(cfg, s, s', t, c)
    requires t in s'.threads && s'.threads[t].Scanning?
    ensures c.key in s.entries && s'.entries == s.entries && s'.lastUsed == s.lastUsed
    ensures s'.threads[t].rem == s.threads[t].rem - {c.key}
    ensures s'.threads[t].victim == Prefer(s, s.threads[t].victim, Victim(c.key, s.entries[c.key]))
  {
  }

  lemma OwnStepKeeps(states: seq<State>, actions: seq<Action>, t: Tid, i0: nat, i: nat, c: Choice)
    requires i0 <= i && Scans(states, t, i0, i + 1) && i < |actions| && actions[i] == Step(t, c)
    requires LeastRecent(states, actions, t, i0, i) && AllLooked(states, actions, t, i0, i)
    requires var s, s' := states[i], states[i + 1];
      && c.key in s.entries && s'.entries == s.entries && s'.lastUsed == s.lastUsed
      && s'.threads[t].rem == s.threads[t].rem - {c.key}
      && s'.threads[t].victim == Prefer(s, s.threads[t].victim, Victim(c.key, s.entries[c.key]))
    ensures LeastRecent(states, actions, t, i0, i + 1) && AllLooked(states, actions, t, i0, i + 1)
  {
    var s, v, w := states[i], states[i].threads[t].victim, states[i + 1].threads[t].victim;
    assert Looks(states, actions, t, i, c.key);
    if w != v {
      assert FindsIdle(states, actions, t, i, w.key) && s.entries[w.key] == w.id;
    }
    forall j, k | i0 <= j < i + 1 && FindsIdle(states, actions, t, j, k)
      ensures w.Victim? && LastUsed(states[i + 1], w.id) <= LastUsed(states[j], states[j].entries[k])
    {
      if j < i {
        assert v.Victim? && LastUsed(s, v.id) <= LastUsed(states[j], states[j].entries[k]);
      } else {
        assert k == c.key;
      }
    }
  }

  lemma ForeignStepKeeps(states: seq<State>, actions: seq<Action>, t: Tid, i0: nat, i: nat)
    requires i0 <= i && Scans(states, t, i0, i + 1) && i < |actions| && !(actions[i].Step? && actions[i].t == t)
    requires LeastRecent(states, actions, t, i0, i) && AllLooked(states, actions, t, i0, i)
    requires Foreign(states[i], states[i + 1], t, states[i].threads[t].victim)
    ensures LeastRecent(states, actions, t, i0, i + 1) && AllLooked(states, actions, t, i0, i + 1)
  {
    forall j, k | i0 <= j < i + 1 && FindsIdle(states, actions, t, j, k) ensures j < i { }
    forall k | k in states[i].entries && k !in states[i].threads[t].rem
      ensures exists j :: i0 <= j < i + 1 && Looks(states, actions, t, j, k)
    {
      var j :| i0 <= j < i && Looks(states, actions, t, j, k);
    }
  }

  lemma ScanStepKeeps(cfg: Config, states: seq<State>, actions: seq<Action>, t: Tid, i0: nat, i: nat)
    requires i0 <= i < |actions| && Scans(states, t, i0, i + 1)
    requires Inv(cfg, states[i]) && Next(cfg, states[i], actions[i], states[i + 1])
    requires LeastRecent(states, actions, t, i0, i) && AllLooked(states, actions, t, i0, i)
    ensures LeastRecent(states, actions, t, i0, i + 1) && AllLooked(states, actions, t, i0, i + 1)
  {
    hide Inv, ThreadStep, LeastRecent, AllLooked, Foreign, Prefer;
    var a := actions[i];
    if a.Step? && a.t == t {
      OwnStepLooks(cfg, states[i], states[i + 1], t, a.c);
      OwnStepKeeps(states, actions, t, i0, i, a.c);
    } else {
      NextIsForeign(cfg, states[i], a, states[i + 1], t);
      ForeignStepKeeps(states, actions, t, i0, i);
    }
  }

  lemma ScanShorter(states: seq<State>, t: Tid, i0: nat, i: nat)
    requires i0 < i && Scans(states, t, i0, i)
    ensures Scans(states, t, i0, i - 1)
  {
  }

  lemma ScanStarts(states: seq<State>, actions: seq<Action>, t: Tid, i0: nat)
    requires Scans(states, t, i0, i0)
    ensures LeastRecent(states, actions, t, i0, i0) && AllLooked(states, actions, t, i0, i0)
  {
  }

  lemma {:induction false} ScanKeepsLeastRecent(cfg: Config, states: seq<State>, actions: seq<Action>, t: Tid, i0: nat, i: nat)
    requires IsRun(cfg, states, actions) && Scans(states, t, i0, i)
    ensures LeastRecent(states, actions, t, i0, i) && AllLooked(states, actions, t, i0, i)
    decreases i
  {
    hide IsRun, Inv, Next, LeastRecent, AllLooked;
    if i == i0 {
      ScanStarts(states, actions, t, i0);
    } else {
      ScanShorter(states, t, i0, i);
      ScanKeepsLeastRecent(cfg, states, actions, t, i0, i - 1);
      RunSteps(cfg, states, actions, i);
      ScanStepKeeps(cfg, states, actions, t, i0, i - 1);
    }
  }

  // What was mapped when t looked at it has a last use.
  lemma LooksAtUse(cfg: Config, states: seq<State>, actions: seq<Action>, t: Tid, j: nat, k: Udid)
    requires IsRun(cfg, states, actions) && Looks(states, actions, t, j, k)
    ensures LastUsed(states[j], states[j].entries[k]) == LastUse(states, actions, j, states[j].entries[k])
  {
    hide IsRun, ClaimsOk, EntriesOk, HelpersOk, StaleOk, PcsOk, LastUse;
    RunKeeps(cfg, states, actions, j);
    StampIsLastUse(cfg, states, actions, j, states[j].entries[k]);
  }

  lemma VictimUse(cfg: Config, states: seq<State>, actions: seq<Action>, t: Tid, i0: nat, i: nat)
    requires IsRun(cfg, states, actions) && Scans(states, t, i0, i)
    requires LeastRecent(states, actions, t, i0, i) && AllLooked(states, actions, t, i0, i)
    requires states[i].threads[t].victim.Victim?
    ensures var e := states[i].threads[t].victim.id; LastUsed(states[i], e) == LastUse(states, actions, i, e)
  {
    var v := states[i].threads[t].victim;
    var j :| i0 <= j < i && FindsIdle(states, actions, t, j, v.key) && states[j].entries[v.key] == v.id;
    assert v.id in states[j].udidOf by {
      hide IsRun, ClaimsOk, EntriesOk, HelpersOk, StaleOk, PcsOk, LeastRecent, AllLooked;
      RunKeeps(cfg, states, actions, j);
    }
    hide Next, LeastRecent, AllLooked, LastUse;
    EntryStays(cfg, states, actions, j, i, v.id);
    StampIsLastUse(cfg, states, actions, i, v.id);
  }

  lemma {:induction false} EntryStays(cfg: Config, states: seq<State>, actions: seq<Action>, j: nat, i: nat, e: EntryId)
    requires IsRun(cfg, states, actions) && j <= i < |states| && e in states[j].udidOf
    ensures e in states[i].udidOf
    decreases i
  {
    hide Next, Inv;
    if j < i {
      EntryStays(cfg, states, actions, j, i - 1, e);
      RunSteps(cfg, states, actions, i);
      NextStampsRightly(cfg, states[i - 1], actions[i - 1], states[i], e);
    }
  }

  /** A finished scan has looked at every mapped slot. If it has a victim, that
      slot was idle when looked at, and its last served call (or its creation) was
      no later than that of any slot found idle; if it has none, every slot was in
      use when looked at. */
  lemma EvictsLeastRecentlyUsed(cfg: Config, states: seq<State>, actions: seq<Action>, t: Tid, i0: nat, i: nat)
    requires IsRun(cfg, states, actions) && Scans(states, t, i0, i) && states[i].threads[t].rem == {}
    ensures var v := states[i].threads[t].victim;
      && (forall k :: k in states[i].entries ==> exists j :: i0 <= j < i && Looks(states, actions, t, j, k))
      && (v.NoVictim? ==> forall j, k :: i0 <= j < i ==> !FindsIdle(states, actions, t, j, k))
      && (v.Victim? ==>
           && (exists j :: i0 <= j < i && FindsIdle(states, actions, t, j, v.key) && states[j].entries[v.key] == v.id)
           && (forall j, k :: i0 <= j < i && FindsIdle(states, actions, t, j, k) ==>
                LastUse(states, actions, i, v.id) <= LastUse(states, actions, j, states[j].entries[k])))
  {
    hide Next, LastUse;
    ScanKeepsLeastRecent(cfg, states, actions, t, i0, i);
    if states[i].threads[t].victim.Victim? {
      VictimUse(cfg, states, actions, t, i0, i);
    }
    forall j, k | i0 <= j < i && FindsIdle(states, actions, t, j, k)
      ensures LastUsed(states[j], states[j].entries[k]) == LastUse(states, actions, j, states[j].entries[k])
    {
      LooksAtUse(cfg, states, actions, t, j, k);
    }
  }
}
