// Which helpers the janitor shuts down, over every interleaving.
module PoolReap {
  import opened PoolModel
  import opened PoolInvariant
  import opened PoolSteps
  import opened PoolUse
  import opened PoolEviction
  import PoolDrop

  // t reaps from i0 to i, and had looked at nothing at first.
  ghost predicate Sweeps(states: seq<State>, t: Tid, i0: nat, i: nat) {
    && i0 <= i < |states|
    && (forall j :: i0 <= j <= i ==> t in states[j].threads && states[j].threads[t].Reaping?)
    && states[i0].threads[t].hs == {}
    && states[i0].threads[t].rem == states[i0].entries.Keys
  }

  // At step j t finds the slot of k with nobody on it, with a helper, and not used
  // for the idle time.
  ghost predicate FindsStale(cfg: Config, states: seq<State>, actions: seq<Action>, t: Tid, j: nat, k: Udid) {
    && |states| <= |actions| + 1
    && FindsIdle(states, actions, t, j, k) && states[j].entries[k] in states[j].helper
    && t in states[j].threads && states[j].threads[t].Reaping?
    && states[j].threads[t].at - LastUse(states, actions, j, states[j].entries[k]) >= cfg.idleTtl
  }

  ghost predicate StaleSlot(cfg: Config, states: seq<State>, actions: seq<Action>, t: Tid, i0: nat, i: nat, k: Udid) {
    exists j :: i0 <= j < i && FindsStale(cfg, states, actions, t, j, k)
  }

  ghost predicate StaleHelper(cfg: Config, states: seq<State>, actions: seq<Action>, t: Tid, i0: nat, i: nat, h: HelperId) {
    exists j, k :: i0 <= j < i && FindsStale(cfg, states, actions, t, j, k) && states[j].helper[states[j].entries[k]] == h
  }

  ghost predicate Looked(states: seq<State>, actions: seq<Action>, t: Tid, i0: nat, i: nat, k: Udid) {
    exists j :: i0 <= j < i && Looks(states, actions, t, j, k)
  }

  // What has been reaped so far is what was found stale so far.
  ghost predicate ReapedStale(cfg: Config, states: seq<State>, actions: seq<Action>, t: Tid, i0: nat, i: nat)
    requires i0 <= i < |states| && t in states[i].threads && states[i].threads[t].Reaping?
  {
    && (forall k :: k in states[i0].entries ==>
         k in states[i].threads[t].rem || Looked(states, actions, t, i0, i, k))
    && (forall h :: h in states[i].threads[t].hs <==> StaleHelper(cfg, states, actions, t, i0, i, h))
    && (forall k :: k in states[i].entries <==>
         k in states[i0].entries && !StaleSlot(cfg, states, actions, t, i0, i, k))
    && (forall k :: k in states[i].entries ==> states[i].entries[k] == states[i0].entries[k])
  }

  // ---------- one more step ----------

  // The thread's own step at the slot of k, told by the stamp.
  ghost predicate ReapsIf(s: State, s': State, t: Tid, k: Udid, stale: bool)
    requires t in s.threads && s.threads[t].Reaping?
  {
    && k in s.entries && t in s'.threads && s'.threads[t].Reaping?
    && s'.threads[t].rem == s.threads[t].rem - {k}
    && (stale ==> s.entries[k] in s.helper)
    && s'.threads[t].hs == (if stale then s.threads[t].hs + {s.helper[s.entries[k]]} else s.threads[t].hs)
    && s'.entries == if stale then s.entries - {k} else s.entries
  }

  lemma OwnStepReaps(cfg: Config, s: State, s': State, t: Tid, c: Choice)
    requires t in s.threads && s.threads[t].Reaping? && s.threads[t].rem != {} && ThreadStep(cfg, s, s', t, c)
    ensures c.key in s.entries
    ensures var e := s.entries[c.key];
      ReapsIf(s, s', t, c.key,
              EntryMu(e) !in s.lock && e in s.helper && s.threads[t].at - LastUsed(s, e) >= cfg.idleTtl)
  {
  }

  lemma OwnLookExtends(cfg: Config, states: seq<State>, actions: seq<Action>, t: Tid, i0: nat, i: nat, k1: Udid)
    requires i0 <= i && Sweeps(states, t, i0, i + 1) && i < |actions| && actions[i].Step? && actions[i].t == t
    requires actions[i].c.key in states[i].entries
    ensures var k := actions[i].c.key;
      && (Looked(states, actions, t, i0, i + 1, k1) <==> Looked(states, actions, t, i0, i, k1) || k1 == k)
      && (StaleSlot(cfg, states, actions, t, i0, i + 1, k1) <==>
           StaleSlot(cfg, states, actions, t, i0, i, k1) || (k1 == k && FindsStale(cfg, states, actions, t, i, k)))
  {
    hide LastUse;
    var k := actions[i].c.key;
    assert Looks(states, actions, t, i, k);
    if Looked(states, actions, t, i0, i, k1) {
      var j :| i0 <= j < i && Looks(states, actions, t, j, k1);
      assert i0 <= j < i + 1;
    }
    if StaleSlot(cfg, states, actions, t, i0, i, k1) {
      var j :| i0 <= j < i && FindsStale(cfg, states, actions, t, j, k1);
      assert i0 <= j < i + 1;
    }
  }

  lemma OwnHelperExtends(cfg: Config, states: seq<State>, actions: seq<Action>, t: Tid, i0: nat, i: nat, h: HelperId)
    requires i0 <= i && Sweeps(states, t, i0, i + 1) && i < |actions| && actions[i].Step? && actions[i].t == t
    requires actions[i].c.key in states[i].entries
    ensures var k := actions[i].c.key;
      StaleHelper(cfg, states, actions, t, i0, i + 1, h) <==>
        || StaleHelper(cfg, states, actions, t, i0, i, h)
        || (FindsStale(cfg, states, actions, t, i, k) && states[i].helper[states[i].entries[k]] == h)
  {
    hide LastUse;
    if StaleHelper(cfg, states, actions, t, i0, i, h) {
      var j, k :| i0 <= j < i && FindsStale(cfg, states, actions, t, j, k) && states[j].helper[states[j].entries[k]] == h;
      assert i0 <= j < i + 1;
    }
    if StaleHelper(cfg, states, actions, t, i0, i + 1, h) {
      var j, k :| i0 <= j < i + 1 && FindsStale(cfg, states, actions, t, j, k) && states[j].helper[states[j].entries[k]] == h;
      assert j == i ==> k == actions[i].c.key;
    }
  }

  lemma OwnStepKeepsReaped(cfg: Config, states: seq<State>, actions: seq<Action>, t: Tid, i0: nat, i: nat, k: Udid)
    requires i0 <= i && Sweeps(states, t, i0, i + 1) && i < |actions| && actions[i].Step? && actions[i].t == t
    requires actions[i].c.key == k && ReapsIf(states[i], states[i + 1], t, k, FindsStale(cfg, states, actions, t, i, k))
    requires ReapedStale(cfg, states, actions, t, i0, i)
    ensures ReapedStale(cfg, states, actions, t, i0, i + 1)
  {
    hide FindsStale, Looked, StaleSlot, StaleHelper;
    forall k1 ensures
      && (Looked(states, actions, t, i0, i + 1, k1) <==> Looked(states, actions, t, i0, i, k1) || k1 == k)
      && (StaleSlot(cfg, states, actions, t, i0, i + 1, k1) <==>
           StaleSlot(cfg, states, actions, t, i0, i, k1) || (k1 == k && FindsStale(cfg, states, actions, t, i, k)))
    {
      OwnLookExtends(cfg, states, actions, t, i0, i, k1);
    }
    forall h ensures StaleHelper(cfg, states, actions, t, i0, i + 1, h) <==>
        || StaleHelper(cfg, states, actions, t, i0, i, h)
        || (FindsStale(cfg, states, actions, t, i, k) && states[i].helper[states[i].entries[k]] == h)
    {
      OwnHelperExtends(cfg, states, actions, t, i0, i, h);
    }
  }

  lemma ForeignStepAddsNothing(cfg: Config, states: seq<State>, actions: seq<Action>, t: Tid, i0: nat, i: nat)
    requires i0 <= i < |actions| && !(actions[i].Step? && actions[i].t == t)
    ensures forall k :: Looked(states, actions, t, i0, i + 1, k) <==> Looked(states, actions, t, i0, i, k)
    ensures forall k :: StaleSlot(cfg, states, actions, t, i0, i + 1, k) <==> StaleSlot(cfg, states, actions, t, i0, i, k)
    ensures forall h :: StaleHelper(cfg, states, actions, t, i0, i + 1, h) <==> StaleHelper(cfg, states, actions, t, i0, i, h)
  {
    hide LastUse;
    assert forall j, k :: i0 <= j < i + 1 && Looks(states, actions, t, j, k) ==> j < i;
    assert forall j, k :: i0 <= j < i + 1 && FindsStale(cfg, states, actions, t, j, k) ==> j < i;
  }

  lemma ForeignStepKeepsReaped(cfg: Config, states: seq<State>, actions: seq<Action>, t: Tid, i0: nat, i: nat)
    requires i0 <= i && Sweeps(states, t, i0, i + 1) && i < |actions| && !(actions[i].Step? && actions[i].t == t)
    requires Foreign(states[i], states[i + 1], t, NoVictim) && ReapedStale(cfg, states, actions, t, i0, i)
    ensures ReapedStale(cfg, states, actions, t, i0, i + 1)
  {
    hide FindsStale, Looked, StaleSlot, StaleHelper;
    ForeignStepAddsNothing(cfg, states, actions, t, i0, i);
  }

  // The stamp the step reads says when the slot was last used.
  lemma OwnStepReapsStale(cfg: Config, states: seq<State>, actions: seq<Action>, t: Tid, i: nat)
    requires IsRun(cfg, states, actions) && i < |actions| && actions[i].Step? && actions[i].t == t
    requires t in states[i].threads && states[i].threads[t].Reaping? && states[i].threads[t].rem != {}
    ensures var k := actions[i].c.key; ReapsIf(states[i], states[i + 1], t, k, FindsStale(cfg, states, actions, t, i, k))
  {
    var k := actions[i].c.key;
    hide ThreadStep, ReapsIf, LastUse;
    assert Next(cfg, states[i], actions[i], states[i + 1]);
    OwnStepReaps(cfg, states[i], states[i + 1], t, actions[i].c);
    LooksAtUse(cfg, states, actions, t, i, k);
  }

  lemma ReapingGoesOn(cfg: Config, s: State, s': State, t: Tid, c: Choice)
    requires t in s.threads && s.threads[t].Reaping? && ThreadStep(cfg, s, s', t, c)
    requires t in s'.threads && s'.threads[t].Reaping?
    ensures s.threads[t].rem != {}
  {
  }

  lemma SweepStepKeeps(cfg: Config, states: seq<State>, actions: seq<Action>, t: Tid, i0: nat, i: nat)
    requires IsRun(cfg, states, actions) && i0 <= i < |actions| && Sweeps(states, t, i0, i + 1)
    requires ReapedStale(cfg, states, actions, t, i0, i)
    ensures ReapedStale(cfg, states, actions, t, i0, i + 1)
  {
    hide Inv, ThreadStep, ReapedStale, Foreign, FindsStale, ReapsIf;
    RunSteps(cfg, states, actions, i + 1);
    if actions[i].Step? && actions[i].t == t {
      ReapingGoesOn(cfg, states[i], states[i + 1], t, actions[i].c);
      OwnStepReapsStale(cfg, states, actions, t, i);
      OwnStepKeepsReaped(cfg, states, actions, t, i0, i, actions[i].c.key);
    } else {
      NextIsForeign(cfg, states[i], actions[i], states[i + 1], t);
      ForeignStepKeepsReaped(cfg, states, actions, t, i0, i);
    }
  }

  lemma SweepShorter(states: seq<State>, t: Tid, i0: nat, i: nat)
    requires i0 < i && Sweeps(states, t, i0, i)
    ensures Sweeps(states, t, i0, i - 1)
  {
  }

  lemma {:induction false} SweepKeepsReaped(cfg: Config, states: seq<State>, actions: seq<Action>, t: Tid, i0: nat, i: nat)
    requires IsRun(cfg, states, actions) && Sweeps(states, t, i0, i)
    ensures ReapedStale(cfg, states, actions, t, i0, i)
    decreases i
  {
    hide IsRun, ReapedStale, Sweeps;
    assert i0 <= i < |states| by { SweepBegan(states, t, i0, i); }
    if i == i0 {
      SweepStarts(cfg, states, actions, t, i0);
    } else {
      assert |states| == |actions| + 1 by { RunLength(cfg, states, actions); }
      SweepShorter(states, t, i0, i);
      SweepKeepsReaped(cfg, states, actions, t, i0, i - 1);
      SweepStepKeeps(cfg, states, actions, t, i0, i - 1);
    }
  }

  lemma SweepBegan(states: seq<State>, t: Tid, i0: nat, i: nat)
    requires Sweeps(states, t, i0, i)
    ensures i0 <= i < |states|
  {
  }

  lemma SweepStarts(cfg: Config, states: seq<State>, actions: seq<Action>, t: Tid, i0: nat)
    requires Sweeps(states, t, i0, i0)
    ensures ReapedStale(cfg, states, actions, t, i0, i0)
  {
    hide FindsStale, Looks;
  }

  lemma RunLength(cfg: Config, states: seq<State>, actions: seq<Action>)
    requires IsRun(cfg, states, actions)
    ensures |states| == |actions| + 1
  {
  }

  /** A finished sweep has looked at every slot that was mapped when it began. The
      helpers it took are exactly those of the slots that nobody was on and that no
      call had used for the idle time, and exactly those slots left the map. */
  lemma ReapsExactlyTheIdle(cfg: Config, states: seq<State>, actions: seq<Action>, t: Tid, i0: nat, i: nat)
    requires IsRun(cfg, states, actions) && Sweeps(states, t, i0, i) && states[i].threads[t].rem == {}
    ensures forall k :: k in states[i0].entries ==> exists j :: i0 <= j < i && Looks(states, actions, t, j, k)
    ensures forall h :: h in states[i].threads[t].hs <==>
      exists j, k :: i0 <= j < i && FindsStale(cfg, states, actions, t, j, k) && states[j].helper[states[j].entries[k]] == h
    ensures forall k :: k in states[i].entries <==>
      k in states[i0].entries && !exists j :: i0 <= j < i && FindsStale(cfg, states, actions, t, j, k)
    ensures forall k :: k in states[i].entries ==> states[i].entries[k] == states[i0].entries[k]
  {
    hide Next, LastUse;
    SweepKeepsReaped(cfg, states, actions, t, i0, i);
    forall k | k in states[i0].entries ensures exists j :: i0 <= j < i && Looks(states, actions, t, j, k) {
      assert Looked(states, actions, t, i0, i, k);
    }
    forall h ensures h in states[i].threads[t].hs <==>
      exists j, k :: i0 <= j < i && FindsStale(cfg, states, actions, t, j, k) && states[j].helper[states[j].entries[k]] == h
    {
      assert h in states[i].threads[t].hs <==> StaleHelper(cfg, states, actions, t, i0, i, h);
    }
  }

  // ---------- the time a sweep goes by ----------

  predicate InReap(pc: PC) {
    pc.WantReap? || pc.Reaping?
  }

  lemma EntryStepNoReap(cfg: Config, s: State, s': State, t: Tid, c: Choice)
    requires t in s.threads && ThreadStep(cfg, s, s', t, c) && (s.threads[t].WantEntry? || s.threads[t].Scanning?)
    ensures t in s'.threads && !InReap(s'.threads[t])
  {
    hide SameMap, SameSlots, SameRest, Takes, Adds;
  }

  lemma SlotStepNoReap(cfg: Config, s: State, s': State, t: Tid, c: Choice)
    requires t in s.threads && ThreadStep(cfg, s, s', t, c) && FindsSlot(s.threads[t])
    requires !s.threads[t].WantEntry? && !s.threads[t].Scanning?
    ensures t in s'.threads && !InReap(s'.threads[t])
  {
    hide SameMap, SameSlots, SameRest, Closes;
  }

  lemma HelperStepNoReap(cfg: Config, s: State, s': State, t: Tid, c: Choice)
    requires t in s.threads && ThreadStep(cfg, s, s', t, c) && UsesHelper(s.threads[t])
    ensures t in s'.threads && !InReap(s'.threads[t])
  {
    hide SameMap, SameSlots, SameRest, Spawns, Closes;
  }

  lemma OtherStepReap(cfg: Config, s: State, s': State, t: Tid, c: Choice)
    requires t in s.threads && ThreadStep(cfg, s, s', t, c) && !FindsSlot(s.threads[t]) && !UsesHelper(s.threads[t])
    ensures t in s'.threads && (InReap(s'.threads[t]) ==> InReap(s.threads[t]) && s'.threads[t].at == s.threads[t].at)
  {
    hide SameMap, SameSlots, SameRest, Takes, Closes;
  }

  lemma StepKeepsClock(cfg: Config, s: State, s': State, t: Tid, c: Choice)
    requires t in s.threads && ThreadStep(cfg, s, s', t, c)
    ensures t in s'.threads && (InReap(s'.threads[t]) ==> InReap(s.threads[t]) && s'.threads[t].at == s.threads[t].at)
  {
    hide ThreadStep;
    if s.threads[t].WantEntry? || s.threads[t].Scanning? {
      EntryStepNoReap(cfg, s, s', t, c);
    } else if FindsSlot(s.threads[t]) {
      SlotStepNoReap(cfg, s, s', t, c);
    } else if UsesHelper(s.threads[t]) {
      HelperStepNoReap(cfg, s, s', t, c);
    } else {
      OtherStepReap(cfg, s, s', t, c);
    }
  }

  lemma NextKeepsClock(cfg: Config, s: State, a: Action, s': State, t: Tid)
    requires Next(cfg, s, a, s') && t in s'.threads && InReap(s'.threads[t])
    ensures
      || (t in s.threads && InReap(s.threads[t]) && s.threads[t].at == s'.threads[t].at)
      || (a == Start(t, WantReap(s'.threads[t].at)) && s.now == s'.threads[t].at)
  {
    if a.Step? {
      hide ThreadStep, PoolDrop.Spawning;
      if a.t == t {
        StepKeepsClock(cfg, s, s', t, a.c);
      } else {
        PoolDrop.StepMovesOn(cfg, s, s', a.t, a.c);
      }
    }
  }

  ghost predicate StartedAt(states: seq<State>, actions: seq<Action>, t: Tid, k: nat, at: nat) {
    k < |actions| && k < |states| && actions[k] == Start(t, WantReap(at)) && states[k].now == at
  }

  /** A sweep compares with the time at which it was started. */
  lemma {:induction false} SweepsGoByTheirStart(cfg: Config, states: seq<State>, actions: seq<Action>, t: Tid, i: nat) returns (k: nat)
    requires IsRun(cfg, states, actions) && i < |states| && t in states[i].threads && InReap(states[i].threads[t])
    ensures k < i && StartedAt(states, actions, t, k, states[i].threads[t].at)
  {
    hide Next, Inv;
    assert i > 0;
    RunSteps(cfg, states, actions, i);
    NextKeepsClock(cfg, states[i - 1], actions[i - 1], states[i], t);
    if t in states[i - 1].threads && InReap(states[i - 1].threads[t]) && states[i - 1].threads[t].at == states[i].threads[t].at {
      k := SweepsGoByTheirStart(cfg, states, actions, t, i - 1);
    } else {
      k := i - 1;
    }
  }
}
