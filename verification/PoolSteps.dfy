// Every step of every thread keeps the pool's invariant. Each step is proved in
// small parts (what it does to the map, to the entries, to the helpers, to the
// other threads), put together by a lemma that looks at none of them again.
module PoolSteps {
  import opened Common
  import opened Claims
  import opened PoolModel
  import opened PoolInvariant

  // ---------- starting an operation, time passing ----------

  lemma StrangerClaimsNothing(s: State, t: Tid)
    requires ClaimsOk(s) && t !in s.threads
    ensures forall l :: l in s.lock ==> s.lock[l] != t
    ensures forall e :: e in s.detacher ==> s.detacher[e] != t
    ensures forall h :: h in s.carrier ==> s.carrier[h] != t
  {
    assert t !in HeldBy(s.threads) && t !in PendingOf(s.threads) && t !in CarriedBy(s.threads);
  }

  lemma StartHandover(s: State, s': State, t: Tid, op: PC)
    requires ClaimsOk(s) && Starts(s, s', t, op)
    ensures Handover(s, s', t, op)
  {
    StrangerClaimsNothing(s, t);
    hide ClaimsOk;
    assert Held(op) == {} && Pending(op) == {} && Carried(op) == {};
  }

  lemma StartParts(s: State, s': State, t: Tid, op: PC)
    requires Starts(s, s', t, op)
    ensures Quiet(s, s') && SameSlots(s, s') && Frame(s, s', t) && PcOk(s', op)
  {
  }

  lemma StartStale(s: State, s': State, t: Tid, op: PC)
    requires ClaimsOk(s) && StaleOk(s) && Starts(s, s', t, op)
    ensures StaleStep(s, s', t, op)
  {
    StrangerClaimsNothing(s, t);
    hide ClaimsOk;
    forall d | d in s'.helper && s'.helper[d] !in s'.live ensures EntryMu(d) in s.lock && s.lock[EntryMu(d)] != t {
      assert StaleHolder(s, d);
    }
  }

  lemma StartKeeps(cfg: Config, s: State, s': State, t: Tid, op: PC)
    requires Inv(cfg, s) && Starts(s, s', t, op)
    ensures Inv(cfg, s')
  {
    hide TablesOk, ClaimsOk, EntriesOk, HelpersOk, StaleOk, PcsOk, PcOk, Starts, Frame, Handover, StaleStep, Quiet, SameSlots;
    StartParts(s, s', t, op);
    QuietTables(cfg, s, s');
    QuietEntries(s, s');
    SameHelpers(s, s');
    StartHandover(s, s', t, op);
    StartStale(s, s', t, op);
    StepOk(cfg, s, s', t, op);
  }

  lemma TickClaims(s: State, s': State)
    requires ClaimsOk(s) && s' == s.(now := s'.now)
    ensures ClaimsOk(s') && Quiet(s, s') && SameSlots(s, s')
  {
  }

  lemma TickThreads(s: State, s': State)
    requires StaleOk(s) && PcsOk(s) && s' == s.(now := s'.now)
    ensures StaleOk(s') && PcsOk(s')
  {
    forall e | e in s'.helper && s'.helper[e] !in s'.live ensures StaleHolder(s', e) {
      assert StaleHolder(s, e);
    }
    forall t | t in s'.threads ensures PcOk(s', s'.threads[t]) {
      assert PcOk(s, s.threads[t]);
    }
  }

  lemma TickKeeps(cfg: Config, s: State, s': State)
    requires Inv(cfg, s) && s' == s.(now := s'.now)
    ensures Inv(cfg, s')
  {
    hide TablesOk, ClaimsOk, EntriesOk, HelpersOk, StaleOk, PcsOk, Quiet, SameSlots;
    TickClaims(s, s');
    QuietTables(cfg, s, s');
    QuietEntries(s, s');
    SameHelpers(s, s');
    TickThreads(s, s');
  }

  // ---------- Call: finding and locking a slot ----------

  lemma WantEntryMoves(s: State, s': State, t: Tid, u: Udid, n: nat)
    requires ClaimsOk(s) && t in s.threads && s.threads[t] == WantEntry(u, n)
    requires Goes(s, s', t, Done) || (u in s.entries && s.entries[u] in s.udidOf && Goes(s, s', t, WantLock(u, n, s.entries[u])))
    ensures t in s'.threads && QuietMove(s, s', t, s'.threads[t])
  {
    GoesQuietly(s, s', t, s'.threads[t]);
  }

  lemma StartsScanMoves(s: State, s': State, t: Tid, u: Udid, n: nat)
    requires ClaimsOk(s) && t in s.threads && s.threads[t] == WantEntry(u, n)
    requires PoolMu !in s.lock && !s.closed && u !in s.entries && StartsScan(s, s', t, u, n)
    ensures t in s'.threads && QuietMove(s, s', t, s'.threads[t])
  {
    TakesLock(s, s', t, s'.threads[t], PoolMu);
  }

  lemma WantEntryCases(cfg: Config, s: State, s': State, t: Tid, u: Udid, n: nat, c: Choice)
    requires TablesOk(cfg, s) && WantEntryStep(cfg, s, s', t, u, n, c)
    ensures
      || Goes(s, s', t, Done)
      || (u in s.entries && s.entries[u] in s.udidOf && Goes(s, s', t, WantLock(u, n, s.entries[u])))
      || (PoolMu !in s.lock && !s.closed && u !in s.entries && StartsScan(s, s', t, u, n))
      || (PoolMu !in s.lock && !s.closed && u !in s.entries && |s.entries| < cfg.maxTargets && AddsSlot(s, s', t, u, n, c.id))
  {
  }

  lemma WantEntryKeeps(cfg: Config, s: State, s': State, t: Tid, u: Udid, n: nat, c: Choice)
    requires Inv(cfg, s) && t in s.threads && s.threads[t] == WantEntry(u, n)
    requires WantEntryStep(cfg, s, s', t, u, n, c)
    ensures Inv(cfg, s')
  {
    hide *;
    Parts(cfg, s, t);
    WantEntryCases(cfg, s, s', t, u, n, c);
    if PoolMu !in s.lock && !s.closed && u !in s.entries && StartsScan(s, s', t, u, n) {
      StartsScanMoves(s, s', t, u, n);
      QuietKeeps(cfg, s, s', t, s'.threads[t]);
    } else if PoolMu !in s.lock && !s.closed && u !in s.entries && |s.entries| < cfg.maxTargets && AddsSlot(s, s', t, u, n, c.id) {
      AddsSlotKeeps(cfg, s, s', t, u, n, c.id);
    } else {
      WantEntryMoves(s, s', t, u, n);
      QuietKeeps(cfg, s, s', t, s'.threads[t]);
    }
  }

  lemma AddedTables(cfg: Config, s: State, s': State, u: Udid, e: EntryId)
    requires TablesOk(cfg, s) && !s'.closed && u !in s.entries && |s.entries| < cfg.maxTargets
    requires Adds(s, s', u, e) && s'.entries == s.entries[u := e]
    ensures TablesOk(cfg, s')
  {
    AddKeySize(s.entries, u, e);
  }

  lemma AddsSlotTables(cfg: Config, s: State, s': State, t: Tid, u: Udid, n: nat, e: EntryId)
    requires TablesOk(cfg, s) && !s.closed && u !in s.entries && |s.entries| < cfg.maxTargets
    requires AddsSlot(s, s', t, u, n, e)
    ensures TablesOk(cfg, s') && SameSlots(s, s') && PcOk(s', WantLock(u, n, e))
  {
    AddedTables(cfg, s, s', u, e);
  }

  lemma AddsSlotEntries(s: State, s': State, t: Tid, u: Udid, n: nat, e: EntryId)
    requires EntriesOk(s) && u !in s.entries && AddsSlot(s, s', t, u, n, e)
    ensures EntriesOk(s')
  {
    forall d | d in s.udidOf ensures Mapped(s', d) == Mapped(s, d) { }
  }

  lemma AddsSlotHandover(s: State, s': State, t: Tid, u: Udid, n: nat, e: EntryId)
    requires ClaimsOk(s) && t in s.threads && s.threads[t] == WantEntry(u, n) && AddsSlot(s, s', t, u, n, e)
    ensures Handover(s, s', t, WantLock(u, n, e))
  {
    KeepsLocks(s, s', t, WantLock(u, n, e));
    KeepsDetachers(s, s', t, WantLock(u, n, e));
    KeepsCarriers(s, s', t, WantLock(u, n, e));
  }

  lemma AddsSlotOthers(s: State, s': State, t: Tid, u: Udid, n: nat, e: EntryId)
    requires ClaimsOk(s) && StaleOk(s) && t in s.threads && s.threads[t] == WantEntry(u, n)
    requires PoolMu !in s.lock && AddsSlot(s, s', t, u, n, e)
    ensures Frame(s, s', t) && StaleStep(s, s', t, WantLock(u, n, e))
  {
    OthersStale(s, s', t, WantLock(u, n, e), e);
  }

  lemma AddsSlotKeeps(cfg: Config, s: State, s': State, t: Tid, u: Udid, n: nat, e: EntryId)
    requires Inv(cfg, s) && t in s.threads && s.threads[t] == WantEntry(u, n)
    requires PoolMu !in s.lock && !s.closed && u !in s.entries && |s.entries| < cfg.maxTargets
    requires AddsSlot(s, s', t, u, n, e)
    ensures Inv(cfg, s')
  {
    hide *;
    Parts(cfg, s, t);
    AddsSlotTables(cfg, s, s', t, u, n, e);
    AddsSlotEntries(s, s', t, u, n, e);
    SameHelpers(s, s');
    AddsSlotHandover(s, s', t, u, n, e);
    AddsSlotOthers(s, s', t, u, n, e);
    StepOk(cfg, s, s', t, WantLock(u, n, e));
  }

  lemma ScanLocks(s: State, s': State, t: Tid, u: Udid, n: nat, rem: set<Udid>, v: Victim, key: Udid)
    requires ClaimsOk(s) && t in s.threads && s.threads[t] == Scanning(u, n, rem, v)
    requires ScanStep(s, s', t, u, n, rem, v, key)
    ensures Reassigned(s.lock, s'.lock, t, Held(s'.threads[t]))
  {
    HoldsItsLocks(s, t);
  }

  lemma ScanMoves(s: State, s': State, t: Tid, u: Udid, n: nat, rem: set<Udid>, v: Victim, key: Udid)
    requires ClaimsOk(s) && t in s.threads && s.threads[t] == Scanning(u, n, rem, v) && PcOk(s, s.threads[t])
    requires ScanStep(s, s', t, u, n, rem, v, key)
    ensures t in s'.threads && QuietMove(s, s', t, s'.threads[t])
  {
    ScanLocks(s, s', t, u, n, rem, v, key);
  }

  lemma ScanKeeps(cfg: Config, s: State, s': State, t: Tid, u: Udid, n: nat, rem: set<Udid>, v: Victim, key: Udid)
    requires Inv(cfg, s) && t in s.threads && s.threads[t] == Scanning(u, n, rem, v)
    requires ScanStep(s, s', t, u, n, rem, v, key)
    ensures Inv(cfg, s')
  {
    hide *;
    Parts(cfg, s, t);
    ScanMoves(s, s', t, u, n, rem, v, key);
    QuietKeeps(cfg, s, s', t, s'.threads[t]);
  }

  // ---------- Call: eviction hands the victim's slot over ----------

  lemma ScannedMoves(s: State, s': State, t: Tid, u: Udid, n: nat, e: EntryId)
    requires ClaimsOk(s) && t in s.threads && s.threads[t] == Scanning(u, n, {}, NoVictim)
    requires ScannedStep(s, s', t, u, n, NoVictim, e)
    ensures t in s'.threads && QuietMove(s, s', t, s'.threads[t])
  {
    ReleasesLocks(s, s', t, Done, {PoolMu});
  }

  lemma EvictsTables(cfg: Config, s: State, s': State, t: Tid, u: Udid, n: nat, v: Victim, e: EntryId)
    requires TablesOk(cfg, s) && v.Victim? && PcOk(s, Scanning(u, n, {}, v)) && ScannedStep(s, s', t, u, n, v, e)
    ensures TablesOk(cfg, s') && t in s'.threads && PcOk(s', s'.threads[t])
  {
    RemoveKeySize(s.entries, v.key);
    AddKeySize(s.entries - {v.key}, u, e);
  }

  lemma EvictsUnmaps(cfg: Config, s: State, s': State, t: Tid, u: Udid, n: nat, v: Victim, e: EntryId)
    requires TablesOk(cfg, s) && v.Victim? && PcOk(s, Scanning(u, n, {}, v)) && ScannedStep(s, s', t, u, n, v, e)
    ensures Unmaps(s, s', {v.id})
  {
  }

  lemma EvictsMarks(cfg: Config, s: State, s': State, t: Tid, u: Udid, n: nat, v: Victim, e: EntryId)
    requires EntriesOk(s) && v.Victim? && ScannedStep(s, s', t, u, n, v, e)
    ensures Marks(s, s', {v.id})
  {
  }

  lemma EvictsEntries(cfg: Config, s: State, s': State, t: Tid, u: Udid, n: nat, v: Victim, e: EntryId)
    requires TablesOk(cfg, s) && EntriesOk(s) && v.Victim? && PcOk(s, Scanning(u, n, {}, v))
    requires ScannedStep(s, s', t, u, n, v, e)
    ensures EntriesOk(s')
  {
    hide *;
    EvictsUnmaps(cfg, s, s', t, u, n, v, e);
    EvictsMarks(cfg, s, s', t, u, n, v, e);
    EntriesKeep(s, s', {v.id});
  }

  lemma TakesHelpers(s: State, s': State, t: Tid, e: EntryId)
    requires HelpersOk(s) && Takes(s, s', t, e)
    requires e in s.helper ==> s.helper[e] in s.slotOf && s.slotOf[s.helper[e]] == e
    ensures HelpersOk(s')
  {
  }

  lemma EvictsHelpers(s: State, s': State, t: Tid, u: Udid, n: nat, v: Victim, e: EntryId)
    requires ClaimsOk(s) && HelpersOk(s) && StaleOk(s) && t in s.threads && s.threads[t] == Scanning(u, n, {}, v)
    requires v.Victim? && ScannedStep(s, s', t, u, n, v, e)
    ensures HelpersOk(s') && (v.id in s.helper ==> s.helper[v.id] in s.slotOf)
  {
    OwnSlotIsLive(s, t, v.id);
    hide ClaimsOk, StaleOk;
    TakesHelpers(s, s', t, v.id);
  }

  lemma EvictsHandover(s: State, s': State, t: Tid, u: Udid, n: nat, v: Victim, e: EntryId)
    requires ClaimsOk(s) && HelpersOk(s) && t in s.threads && s.threads[t] == Scanning(u, n, {}, v) && v.Victim?
    requires v.id in s.helper ==> s.helper[v.id] in s.slotOf
    requires ScannedStep(s, s', t, u, n, v, e) && t in s'.threads
    ensures Handover(s, s', t, s'.threads[t])
  {
    hide ClaimsOk, HelpersOk, Reassigned;
    ReleasesLocks(s, s', t, s'.threads[t], {PoolMu, EntryMu(v.id)});
    KeepsDetachers(s, s', t, s'.threads[t]);
    TakesCarriers(s, s', t, s'.threads[t], v.id);
  }

  lemma EvictsOthers(s: State, s': State, t: Tid, u: Udid, n: nat, v: Victim, e: EntryId)
    requires ClaimsOk(s) && StaleOk(s) && t in s.threads && s.threads[t] == Scanning(u, n, {}, v) && v.Victim?
    requires ScannedStep(s, s', t, u, n, v, e) && t in s'.threads
    ensures Frame(s, s', t) && StaleStep(s, s', t, s'.threads[t])
  {
    OthersStale(s, s', t, s'.threads[t], v.id);
    HoldsItsLocks(s, t);
    hide ClaimsOk, StaleOk, StaleStep;
    SlotFrame(s, s', t, v.id);
  }

  lemma ScannedKeeps(cfg: Config, s: State, s': State, t: Tid, u: Udid, n: nat, v: Victim, e: EntryId)
    requires Inv(cfg, s) && t in s.threads && s.threads[t] == Scanning(u, n, {}, v)
    requires ScannedStep(s, s', t, u, n, v, e)
    ensures Inv(cfg, s')
  {
    hide *;
    Parts(cfg, s, t);
    if v == NoVictim {
      ScannedMoves(s, s', t, u, n, e);
      QuietKeeps(cfg, s, s', t, s'.threads[t]);
    } else {
      EvictsTables(cfg, s, s', t, u, n, v, e);
      EvictsEntries(cfg, s, s', t, u, n, v, e);
      EvictsHelpers(s, s', t, u, n, v, e);
      EvictsHandover(s, s', t, u, n, v, e);
      EvictsOthers(s, s', t, u, n, v, e);
      StepOk(cfg, s, s', t, s'.threads[t]);
    }
  }

  // ---------- Call: locking the slot ----------

  // Where a thread that is granted the lock of e goes next.
  predicate LockLeads(pc: PC, e: EntryId, pc': PC) {
    match pc
    case WantLock(u, n, d) => d == e && pc' == Checking(u, n, e)
    case WantDropLock(d) => d == e && pc' == DropHolding(e)
    case WantCloseLock(d, ids) => d == e && pc' == CloseHolding(e, ids)
    case _ => false
  }

  lemma LockPc(s: State, pc: PC, e: EntryId, pc': PC)
    requires PcOk(s, pc) && LockLeads(pc, e, pc')
    ensures PcOk(s, pc') && Held(pc') == Held(pc) + {EntryMu(e)} && !SlotIsStale(pc)
    ensures Pending(pc') == Pending(pc) && Carried(pc') == Carried(pc)
  {
  }

  lemma LockMoves(s: State, s': State, t: Tid, e: EntryId, pc: PC)
    requires ClaimsOk(s) && t in s.threads && PcOk(s, s.threads[t])
    requires LockStep(s, s', t, e, pc) && LockLeads(s.threads[t], e, pc)
    ensures QuietMove(s, s', t, pc)
  {
    LockPc(s, s.threads[t], e, pc);
    hide LockLeads, PcOk, Held, Pending, Carried, SlotIsStale;
    TakesLock(s, s', t, pc, EntryMu(e));
  }

  lemma LockKeeps(cfg: Config, s: State, s': State, t: Tid, e: EntryId, pc: PC)
    requires Inv(cfg, s) && t in s.threads && LockStep(s, s', t, e, pc) && LockLeads(s.threads[t], e, pc)
    ensures Inv(cfg, s')
  {
    hide *;
    Parts(cfg, s, t);
    LockMoves(s, s', t, e, pc);
    QuietKeeps(cfg, s, s', t, pc);
  }

  lemma UnlockMoves(s: State, s': State, t: Tid, e: EntryId, pc: PC)
    requires ClaimsOk(s) && t in s.threads && Quiet(s, s') && s'.threads == s.threads[t := pc]
    requires s'.lock == s.lock - {EntryMu(e)} && Held(s.threads[t]) == {EntryMu(e)}
    requires Pending(s.threads[t]) == {} && Carried(s.threads[t]) == {} && !SlotIsStale(s.threads[t])
    requires pc.Done? || pc.WantEntry?
    ensures QuietMove(s, s', t, pc)
  {
    ReleasesLocks(s, s', t, pc, {EntryMu(e)});
  }

  lemma UnlockingKeeps(cfg: Config, s: State, s': State, t: Tid, u: Udid, e: EntryId)
    requires Inv(cfg, s) && t in s.threads && s.threads[t] == Unlocking(u, e) && UnlockStep(s, s', t, e, Done)
    ensures Inv(cfg, s')
  {
    hide Inv, ClaimsOk, QuietMove;
    Parts(cfg, s, t);
    UnlockMoves(s, s', t, e, Done);
    QuietKeeps(cfg, s, s', t, Done);
  }

  lemma CheckingMoves(s: State, s': State, t: Tid, u: Udid, n: nat, e: EntryId)
    requires ClaimsOk(s) && t in s.threads && s.threads[t] == Checking(u, n, e) && PcOk(s, s.threads[t])
    requires CheckingStep(s, s', t, u, n, e)
    ensures t in s'.threads && QuietMove(s, s', t, s'.threads[t])
  {
    hide ClaimsOk, QuietMove;
    if e in s.gone {
      UnlockMoves(s, s', t, e, s'.threads[t]);
    } else {
      GoesQuietly(s, s', t, Running(u, e));
    }
  }

  lemma CheckingKeeps(cfg: Config, s: State, s': State, t: Tid, u: Udid, n: nat, e: EntryId)
    requires Inv(cfg, s) && t in s.threads && s.threads[t] == Checking(u, n, e) && CheckingStep(s, s', t, u, n, e)
    ensures Inv(cfg, s')
  {
    hide *;
    Parts(cfg, s, t);
    CheckingMoves(s, s', t, u, n, e);
    QuietKeeps(cfg, s, s', t, s'.threads[t]);
  }

  // ---------- Call: talking to the helper ----------

  lemma RunningMoves(s: State, s': State, t: Tid, u: Udid, e: EntryId, c: Choice)
    requires ClaimsOk(s) && t in s.threads && s.threads[t] == Running(u, e) && PcOk(s, s.threads[t])
    requires RunningStep(s, s', t, u, e, c) && (e in s.helper || !c.spawnOk)
    ensures t in s'.threads && QuietMove(s, s', t, s'.threads[t])
  {
    hide ClaimsOk, QuietMove;
    GoesQuietly(s, s', t, s'.threads[t]);
  }

  lemma SpawnsOnRunning(s: State, s': State, t: Tid, u: Udid, e: EntryId, c: Choice)
    requires RunningStep(s, s', t, u, e, c) && e !in s.helper && c.spawnOk
    ensures SpawnStep(s, s', t, e, c.id, InCall(u, e, c.id, true))
  {
  }

  lemma RunningKeeps(cfg: Config, s: State, s': State, t: Tid, u: Udid, e: EntryId, c: Choice)
    requires Inv(cfg, s) && t in s.threads && s.threads[t] == Running(u, e) && RunningStep(s, s', t, u, e, c)
    ensures Inv(cfg, s')
  {
    hide *;
    Parts(cfg, s, t);
    if e !in s.helper && c.spawnOk {
      SpawnsOnRunning(s, s', t, u, e, c);
      SpawnKeeps(cfg, s, s', t, e, c.id, InCall(u, e, c.id, true));
    } else {
      RunningMoves(s, s', t, u, e, c);
      QuietKeeps(cfg, s, s', t, s'.threads[t]);
    }
  }

  // A new helper goes into an empty slot, or replaces one already closed.
  ghost predicate MaySpawn(s: State, t: Tid, e: EntryId, pc: PC)
    requires t in s.threads
  {
    && (s.threads[t].Running? || s.threads[t].Respawning?) && s.threads[t].e == e && pc.InCall? && pc.e == e
    && (e !in s.helper || s.helper[e] !in s.slotOf)
  }

  lemma SpawnPc(s: State, s': State, t: Tid, e: EntryId, h: HelperId, pc: PC)
    requires t in s.threads && PcOk(s, s.threads[t]) && MaySpawn(s, t, e, pc) && pc.h == h
    requires SpawnStep(s, s', t, e, h, pc)
    ensures PcOk(s', pc) && e in s.udidOf && e !in s.gone
  {
  }

  lemma SpawnEntries(s: State, s': State, t: Tid, e: EntryId, h: HelperId, pc: PC)
    requires EntriesOk(s) && SpawnStep(s, s', t, e, h, pc) && e in s.udidOf && e !in s.gone
    ensures EntriesOk(s')
  {
    assert Unmaps(s, s', {});
    assert Marks(s, s', {});
    hide Mapped, Unmaps, Marks, EntriesOk;
    EntriesKeep(s, s', {});
  }

  lemma SpawnTables(cfg: Config, s: State, s': State, t: Tid, e: EntryId, h: HelperId, pc: PC)
    requires TablesOk(cfg, s) && EntriesOk(s) && SpawnStep(s, s', t, e, h, pc) && e in s.udidOf && e !in s.gone
    ensures TablesOk(cfg, s') && EntriesOk(s')
  {
    hide EntriesOk;
    SpawnEntries(s, s', t, e, h, pc);
  }

  lemma SpawnCounts(s: State, s': State, t: Tid, e: EntryId, h: HelperId, pc: PC)
    requires HelpersOk(s) && SpawnStep(s, s', t, e, h, pc)
    ensures s'.live == s'.slotOf.Keys + s'.carrier.Keys && s'.slotOf.Keys !! s'.carrier.Keys && s'.live <= s'.spawned
    ensures forall g :: s'.closes[g] == if g in s'.spawned && g !in s'.live then 1 else 0
  {
  }

  lemma SpawnPlaces(s: State, s': State, t: Tid, e: EntryId, h: HelperId, pc: PC)
    requires HelpersOk(s) && SpawnStep(s, s', t, e, h, pc) && (e !in s.helper || s.helper[e] !in s.slotOf)
    ensures forall d :: d in s'.helper ==> s'.helper[d] in s'.spawned
    ensures forall g :: g in s'.slotOf ==> s'.slotOf[g] in s'.helper && s'.helper[s'.slotOf[g]] == g
    ensures forall d :: d in s'.helper && s'.helper[d] in s'.live ==> s'.helper[d] in s'.slotOf && s'.slotOf[s'.helper[d]] == d
  {
  }

  lemma SpawnHelpers(s: State, s': State, t: Tid, e: EntryId, h: HelperId, pc: PC)
    requires HelpersOk(s) && SpawnStep(s, s', t, e, h, pc) && (e !in s.helper || s.helper[e] !in s.slotOf)
    ensures HelpersOk(s')
  {
    SpawnCounts(s, s', t, e, h, pc);
    SpawnPlaces(s, s', t, e, h, pc);
    hide SpawnStep;
  }

  lemma SpawnHandover(s: State, s': State, t: Tid, e: EntryId, h: HelperId, pc: PC)
    requires ClaimsOk(s) && t in s.threads && SpawnStep(s, s', t, e, h, pc) && MaySpawn(s, t, e, pc)
    ensures Handover(s, s', t, pc)
  {
    hide ClaimsOk, Reassigned;
    KeepsLocks(s, s', t, pc);
    KeepsDetachers(s, s', t, pc);
    KeepsCarriers(s, s', t, pc);
  }

  lemma SpawnOthers(s: State, s': State, t: Tid, e: EntryId, h: HelperId, pc: PC)
    requires ClaimsOk(s) && StaleOk(s) && t in s.threads && SpawnStep(s, s', t, e, h, pc) && MaySpawn(s, t, e, pc)
    ensures Frame(s, s', t) && StaleStep(s, s', t, pc)
  {
    OthersStale(s, s', t, pc, e);
    HoldsItsLocks(s, t);
    hide ClaimsOk, StaleOk, StaleStep;
    assert EntryMu(e) in Held(s.threads[t]);
    SlotFrame(s, s', t, e);
  }

  lemma SpawnKeeps(cfg: Config, s: State, s': State, t: Tid, e: EntryId, h: HelperId, pc: PC)
    requires Inv(cfg, s) && t in s.threads && SpawnStep(s, s', t, e, h, pc)
    requires (s.threads[t].Running? || s.threads[t].Respawning?) && s.threads[t].e == e
    requires pc.InCall? && pc.e == e && pc.h == h
    requires e !in s.helper || s.helper[e] !in s.slotOf
    ensures Inv(cfg, s')
  {
    assert MaySpawn(s, t, e, pc);
    hide *;
    Parts(cfg, s, t);
    SpawnPc(s, s', t, e, h, pc);
    SpawnTables(cfg, s, s', t, e, h, pc);
    SpawnHelpers(s, s', t, e, h, pc);
    SpawnHandover(s, s', t, e, h, pc);
    SpawnOthers(s, s', t, e, h, pc);
    StepOk(cfg, s, s', t, pc);
  }

  lemma ServedMoves(cfg: Config, s: State, s': State, t: Tid, u: Udid, e: EntryId, h: HelperId, first: bool, c: Choice)
    requires TablesOk(cfg, s) && ClaimsOk(s) && c.outcome.Served?
    requires t in s.threads && s.threads[t] == InCall(u, e, h, first) && PcOk(s, s.threads[t])
    requires InCallStep(s, s', t, u, e, h, first, c)
    ensures QuietMove(s, s', t, Done)
  {
    assert s'.lastUsed.Keys == s.lastUsed.Keys;
    hide ClaimsOk, QuietMove, TablesOk;
    UnlockMoves(s, s', t, e, Done);
  }

  lemma InCallMoves(cfg: Config, s: State, s': State, t: Tid, u: Udid, e: EntryId, h: HelperId, first: bool, c: Choice)
    requires TablesOk(cfg, s) && ClaimsOk(s)
    requires t in s.threads && s.threads[t] == InCall(u, e, h, first) && PcOk(s, s.threads[t])
    requires InCallStep(s, s', t, u, e, h, first, c)
    ensures t in s'.threads && QuietMove(s, s', t, s'.threads[t])
  {
    hide ClaimsOk, QuietMove, TablesOk;
    if c.outcome.Served? {
      ServedMoves(cfg, s, s', t, u, e, h, first, c);
    } else {
      hide Quietly;
      GoesThere(s, s', t);
      GoesQuietly(s, s', t, s'.threads[t]);
    }
  }

  lemma GoesThere(s: State, s': State, t: Tid)
    requires exists pc :: Goes(s, s', t, pc)
    ensures t in s'.threads && Goes(s, s', t, s'.threads[t])
  {
  }

  lemma InCallKeeps(cfg: Config, s: State, s': State, t: Tid, u: Udid, e: EntryId, h: HelperId, first: bool, c: Choice)
    requires Inv(cfg, s) && t in s.threads && s.threads[t] == InCall(u, e, h, first)
    requires InCallStep(s, s', t, u, e, h, first, c)
    ensures Inv(cfg, s')
  {
    hide *;
    Parts(cfg, s, t);
    InCallMoves(cfg, s, s', t, u, e, h, first, c);
    QuietKeeps(cfg, s, s', t, s'.threads[t]);
  }

  // ---------- closing helpers ----------

  // t closes the helper of the slot it holds; the slot is stale until t mends it.
  predicate ClosesSlot(pc: PC, pc': PC) {
    (pc.Restarting? || pc.Failing?) && SlotIsStale(pc') && pc'.e == pc.e
  }

  lemma CloseTables(cfg: Config, s: State, s': State, t: Tid, h: HelperId, pc: PC)
    requires TablesOk(cfg, s) && CloseStep(s, s', t, h, pc)
    ensures TablesOk(cfg, s')
  {
  }

  lemma CloseEntries(s: State, s': State, t: Tid, h: HelperId, pc: PC)
    requires EntriesOk(s) && CloseStep(s, s', t, h, pc)
    ensures EntriesOk(s')
  {
    assert forall d :: Mapped(s', d) == Mapped(s, d);
  }

  lemma CloseHelpers(s: State, s': State, t: Tid, h: HelperId, pc: PC)
    requires HelpersOk(s) && CloseStep(s, s', t, h, pc) && h in s.live
    ensures HelpersOk(s')
  {
  }

  lemma CloseSlotLive(s: State, t: Tid, pc: PC)
    requires ClaimsOk(s) && HelpersOk(s) && StaleOk(s) && t in s.threads && PcOk(s, s.threads[t])
    requires ClosesSlot(s.threads[t], pc)
    ensures var h := s.threads[t].h; h in s.live && h in s.slotOf && s.slotOf[h] == pc.e && h !in s.carrier
    ensures var e := pc.e; e in s.helper && s.helper[e] == s.threads[t].h && e in s.udidOf
  {
    OwnSlotIsLive(s, t, pc.e);
  }

  lemma CloseSlotPc(s: State, s': State, t: Tid, h: HelperId, pc: PC)
    requires EntriesOk(s) && SlotIsStale(pc) && CloseStep(s, s', t, h, pc)
    requires pc.e in s.helper && s.helper[pc.e] == h && pc.e in s.udidOf
    ensures PcOk(s', pc)
  {
  }

  lemma CloseSlotHandover(s: State, s': State, t: Tid, pc: PC)
    requires ClaimsOk(s) && t in s.threads && ClosesSlot(s.threads[t], pc)
    requires CloseStep(s, s', t, s.threads[t].h, pc) && s.threads[t].h !in s.carrier
    ensures Handover(s, s', t, pc)
  {
    assert s'.carrier == s.carrier;
    hide ClaimsOk, Reassigned;
    KeepsLocks(s, s', t, pc);
    KeepsDetachers(s, s', t, pc);
    KeepsCarriers(s, s', t, pc);
  }

  lemma CloseSlotOthers(s: State, s': State, t: Tid, h: HelperId, pc: PC)
    requires ClaimsOk(s) && HelpersOk(s) && StaleOk(s) && t in s.threads && ClosesSlot(s.threads[t], pc)
    requires CloseStep(s, s', t, h, pc) && h in s.slotOf && s.slotOf[h] == pc.e
    ensures Frame(s, s', t) && StaleStep(s, s', t, pc)
  {
    OthersStale(s, s', t, pc, pc.e);
  }

  lemma CloseSlotKeeps(cfg: Config, s: State, s': State, t: Tid, pc: PC)
    requires Inv(cfg, s) && t in s.threads && ClosesSlot(s.threads[t], pc)
    requires CloseStep(s, s', t, s.threads[t].h, pc)
    ensures Inv(cfg, s')
  {
    assert s.threads[t].Restarting? || s.threads[t].Failing?;
    assert SlotIsStale(pc) && (pc.Respawning? || pc.Noting? || pc.Marking?);
    hide *;
    var h := s.threads[t].h;
    Parts(cfg, s, t);
    CloseSlotLive(s, t, pc);
    CloseSlotPc(s, s', t, h, pc);
    CloseTables(cfg, s, s', t, h, pc);
    CloseEntries(s, s', t, h, pc);
    CloseHelpers(s, s', t, h, pc);
    CloseSlotHandover(s, s', t, pc);
    CloseSlotOthers(s, s', t, h, pc);
    StepOk(cfg, s, s', t, pc);
  }

  // t closes one of the helpers it carries.
  predicate ClosesCarried(pc: PC, h: HelperId, pc': PC) {
    match pc
    case ClosingEvicted(u, n, e, g) => g == h && pc' == WantLock(u, n, e)
    case Closing(hs) => h in hs && pc' == Closing(hs - {h})
    case _ => false
  }

  lemma CloseCarriedPc(s: State, s': State, t: Tid, h: HelperId, pc: PC)
    requires t in s.threads && PcOk(s, s.threads[t]) && ClosesCarried(s.threads[t], h, pc) && CloseStep(s, s', t, h, pc)
    ensures PcOk(s', pc)
  {
  }

  lemma CarriedIsLive(s: State, t: Tid, h: HelperId)
    requires ClaimsOk(s) && HelpersOk(s) && t in s.threads && h in Carried(s.threads[t])
    ensures h in s.carrier && h in s.live && h !in s.slotOf
  {
    HoldsItsLocks(s, t);
  }

  // Only the helper to be closed is let go of.
  lemma ClosesCarriedOnly(pc: PC, h: HelperId, pc': PC)
    requires ClosesCarried(pc, h, pc')
    ensures h in Carried(pc) && Carried(pc') == Carried(pc) - {h} && Held(pc') == Held(pc) && Pending(pc') == Pending(pc)
  {
  }

  lemma CloseCarriedHandover(s: State, s': State, t: Tid, h: HelperId, pc: PC)
    requires ClaimsOk(s) && HelpersOk(s) && t in s.threads && ClosesCarried(s.threads[t], h, pc) && CloseStep(s, s', t, h, pc)
    ensures Handover(s, s', t, pc) && h in s.live && h !in s.slotOf
  {
    hide ClaimsOk, HelpersOk, Reassigned, ClosesCarried, Held, Pending, Carried;
    ClosesCarriedOnly(s.threads[t], h, pc);
    CarriedIsLive(s, t, h);
    KeepsLocks(s, s', t, pc);
    KeepsDetachers(s, s', t, pc);
    DropsCarrier(s, s', t, pc, h);
  }

  lemma CloseCarriedOthers(s: State, s': State, t: Tid, h: HelperId, pc: PC)
    requires ClaimsOk(s) && HelpersOk(s) && StaleOk(s) && t in s.threads && ClosesCarried(s.threads[t], h, pc)
    requires CloseStep(s, s', t, h, pc) && h in s.live && h !in s.slotOf
    ensures Frame(s, s', t) && StaleStep(s, s', t, pc)
  {
    forall d | d in s'.helper && s'.helper[d] !in s'.live ensures s.helper[d] !in s.live {
      assert s.helper[d] != h;
    }
    OthersStale(s, s', t, pc, 0);
  }

  lemma CloseCarriedKeeps(cfg: Config, s: State, s': State, t: Tid, h: HelperId, pc: PC)
    requires Inv(cfg, s) && t in s.threads && ClosesCarried(s.threads[t], h, pc) && CloseStep(s, s', t, h, pc)
    ensures Inv(cfg, s')
  {
    hide *;
    Parts(cfg, s, t);
    CloseCarriedHandover(s, s', t, h, pc);
    CloseCarriedPc(s, s', t, h, pc);
    CloseTables(cfg, s, s', t, h, pc);
    CloseEntries(s, s', t, h, pc);
    CloseHelpers(s, s', t, h, pc);
    CloseCarriedOthers(s, s', t, h, pc);
    StepOk(cfg, s, s', t, pc);
  }

  lemma ClosingMoves(s: State, s': State, t: Tid)
    requires ClaimsOk(s) && t in s.threads && s.threads[t] == Closing({}) && Goes(s, s', t, Done)
    ensures QuietMove(s, s', t, Done)
  {
    hide ClaimsOk, QuietMove;
    GoesQuietly(s, s', t, Done);
  }

  lemma ClosingKeeps(cfg: Config, s: State, s': State, t: Tid, hs: set<HelperId>, h: HelperId)
    requires Inv(cfg, s) && t in s.threads && s.threads[t] == Closing(hs) && ClosingStep(s, s', t, hs, h)
    ensures Inv(cfg, s')
  {
    hide Inv, ClaimsOk, QuietMove, CloseStep, Goes, PcOk;
    if hs == {} {
      Parts(cfg, s, t);
      ClosingMoves(s, s', t);
      QuietKeeps(cfg, s, s', t, Done);
    } else {
      CloseCarriedKeeps(cfg, s, s', t, h, Closing(hs - {h}));
    }
  }

  // ---------- Call: giving up on a slot ----------

  lemma RespawningKeeps(cfg: Config, s: State, s': State, t: Tid, u: Udid, e: EntryId, c: Choice)
    requires Inv(cfg, s) && t in s.threads && s.threads[t] == Respawning(u, e) && RespawningStep(s, s', t, u, e, c)
    ensures Inv(cfg, s')
  {
    hide *;
    Parts(cfg, s, t);
    RespawningCases(s, s', t, u, e, c);
    if c.spawnOk {
      SpawnKeeps(cfg, s, s', t, e, c.id, InCall(u, e, c.id, false));
    } else {
      ClearKeeps(cfg, s, s', t, e, s.gone, Noting(u, e));
    }
  }

  lemma RespawningCases(s: State, s': State, t: Tid, u: Udid, e: EntryId, c: Choice)
    requires PcOk(s, Respawning(u, e)) && RespawningStep(s, s', t, u, e, c)
    ensures c.spawnOk ==> SpawnStep(s, s', t, e, c.id, InCall(u, e, c.id, false))
    ensures !c.spawnOk ==> ClearStep(s, s', t, e, s.gone, Noting(u, e)) && Clears(s, Respawning(u, e), e, s.gone, Noting(u, e))
    ensures e !in s.helper || s.helper[e] !in s.slotOf
  {
  }

  // A slot without a live helper is emptied, and perhaps marked.
  predicate Clears(s: State, pc: PC, e: EntryId, gone: set<EntryId>, pc': PC) {
    && SlotIsStale(pc) && pc.e == e
    && ((pc'.Noting? && gone == s.gone && pc'.e == e) || (pc'.Unmapping? && gone == s.gone + {e} && pc'.e == e))
  }

  lemma ClearPc(s: State, s': State, t: Tid, e: EntryId, gone: set<EntryId>, pc: PC)
    requires t in s.threads && PcOk(s, s.threads[t]) && Clears(s, s.threads[t], e, gone, pc)
    requires ClearStep(s, s', t, e, gone, pc)
    ensures PcOk(s', pc) && (e in s.helper ==> s.helper[e] !in s.slotOf)
  {
  }

  lemma ClearTables(cfg: Config, s: State, s': State, t: Tid, e: EntryId, gone: set<EntryId>, pc: PC)
    requires TablesOk(cfg, s) && ClearStep(s, s', t, e, gone, pc)
    ensures TablesOk(cfg, s')
  {
  }

  lemma ClearEntries(s: State, s': State, t: Tid, e: EntryId, gone: set<EntryId>, pc: PC)
    requires EntriesOk(s) && t in s.threads && Clears(s, s.threads[t], e, gone, pc) && ClearStep(s, s', t, e, gone, pc)
    ensures EntriesOk(s')
  {
    assert forall d :: Mapped(s', d) == Mapped(s, d);
  }

  lemma ClearHelpers(s: State, s': State, t: Tid, e: EntryId, gone: set<EntryId>, pc: PC)
    requires HelpersOk(s) && ClearStep(s, s', t, e, gone, pc) && (e in s.helper ==> s.helper[e] !in s.slotOf)
    ensures HelpersOk(s')
  {
  }

  lemma ClearHandover(s: State, s': State, t: Tid, e: EntryId, gone: set<EntryId>, pc: PC)
    requires ClaimsOk(s) && t in s.threads && Clears(s, s.threads[t], e, gone, pc) && ClearStep(s, s', t, e, gone, pc)
    ensures Handover(s, s', t, pc)
  {
    hide ClaimsOk, Reassigned;
    KeepsLocks(s, s', t, pc);
    KeepsDetachers(s, s', t, pc);
    KeepsCarriers(s, s', t, pc);
  }

  lemma ClearOthers(s: State, s': State, t: Tid, e: EntryId, gone: set<EntryId>, pc: PC)
    requires ClaimsOk(s) && StaleOk(s) && t in s.threads
    requires Clears(s, s.threads[t], e, gone, pc) && ClearStep(s, s', t, e, gone, pc)
    ensures Frame(s, s', t) && StaleStep(s, s', t, pc)
  {
    OthersStale(s, s', t, pc, e);
    HoldsItsLocks(s, t);
    hide ClaimsOk, StaleOk, StaleStep;
    assert EntryMu(e) in Held(s.threads[t]);
    SlotFrame(s, s', t, e);
  }

  lemma ClearKeeps(cfg: Config, s: State, s': State, t: Tid, e: EntryId, gone: set<EntryId>, pc: PC)
    requires Inv(cfg, s) && t in s.threads && Clears(s, s.threads[t], e, gone, pc) && ClearStep(s, s', t, e, gone, pc)
    ensures Inv(cfg, s')
  {
    hide *;
    Parts(cfg, s, t);
    ClearPc(s, s', t, e, gone, pc);
    ClearTables(cfg, s, s', t, e, gone, pc);
    ClearEntries(s, s', t, e, gone, pc);
    ClearHelpers(s, s', t, e, gone, pc);
    ClearHandover(s, s', t, e, gone, pc);
    ClearOthers(s, s', t, e, gone, pc);
    StepOk(cfg, s, s', t, pc);
  }

  lemma NotingMoves(cfg: Config, s: State, s': State, t: Tid, u: Udid, e: EntryId)
    requires ClaimsOk(s) && t in s.threads && s.threads[t] == Noting(u, e) && PcOk(s, s.threads[t])
    requires NotingStep(cfg, s, s', t, u, e)
    ensures QuietMove(s, s', t, Marking(u, e))
  {
    KeepsLocks(s, s', t, Marking(u, e));
  }

  lemma NotingKeeps(cfg: Config, s: State, s': State, t: Tid, u: Udid, e: EntryId)
    requires Inv(cfg, s) && t in s.threads && s.threads[t] == Noting(u, e) && NotingStep(cfg, s, s', t, u, e)
    ensures Inv(cfg, s')
  {
    hide *;
    Parts(cfg, s, t);
    NotingMoves(cfg, s, s', t, u, e);
    QuietKeeps(cfg, s, s', t, Marking(u, e));
  }

  lemma UnmappingTables(cfg: Config, s: State, s': State, t: Tid, u: Udid, e: EntryId)
    requires TablesOk(cfg, s) && PcOk(s, Unmapping(u, e)) && UnmappingStep(s, s', t, u, e)
    ensures TablesOk(cfg, s') && SameSlots(s, s') && PcOk(s', Unlocking(u, e))
  {
    if u in s.entries { RemoveKeySize(s.entries, u); }
  }

  lemma UnmappingUnmaps(cfg: Config, s: State, s': State, t: Tid, u: Udid, e: EntryId)
    requires TablesOk(cfg, s) && UnmappingStep(s, s', t, u, e)
    ensures Unmaps(s, s', if u in s.entries && s.entries[u] == e then {e} else {})
  {
  }

  lemma UnmappingMarks(s: State, s': State, t: Tid, u: Udid, e: EntryId)
    requires EntriesOk(s) && e in s.gone && UnmappingStep(s, s', t, u, e)
    ensures Marks(s, s', if u in s.entries && s.entries[u] == e then {e} else {})
  {
  }

  lemma UnmappingEntries(cfg: Config, s: State, s': State, t: Tid, u: Udid, e: EntryId)
    requires TablesOk(cfg, s) && EntriesOk(s) && PcOk(s, Unmapping(u, e)) && UnmappingStep(s, s', t, u, e)
    ensures EntriesOk(s') && e !in s.helper
  {
    assert e in s.gone && e !in s.helper;
    hide *;
    UnmappingUnmaps(cfg, s, s', t, u, e);
    UnmappingMarks(s, s', t, u, e);
    EntriesKeep(s, s', if u in s.entries && s.entries[u] == e then {e} else {});
  }

  lemma UnmappingHandover(s: State, s': State, t: Tid, u: Udid, e: EntryId)
    requires ClaimsOk(s) && t in s.threads && s.threads[t] == Unmapping(u, e) && UnmappingStep(s, s', t, u, e)
    ensures Handover(s, s', t, Unlocking(u, e))
  {
    hide ClaimsOk, Reassigned;
    KeepsLocks(s, s', t, Unlocking(u, e));
    KeepsDetachers(s, s', t, Unlocking(u, e));
    KeepsCarriers(s, s', t, Unlocking(u, e));
  }

  lemma UnmappingOthers(s: State, s': State, t: Tid, u: Udid, e: EntryId)
    requires ClaimsOk(s) && StaleOk(s) && t in s.threads && s.threads[t] == Unmapping(u, e)
    requires UnmappingStep(s, s', t, u, e) && e !in s.helper
    ensures Frame(s, s', t) && StaleStep(s, s', t, Unlocking(u, e))
  {
    OthersStale(s, s', t, Unlocking(u, e), e);
  }

  lemma UnmappingKeeps(cfg: Config, s: State, s': State, t: Tid, u: Udid, e: EntryId)
    requires Inv(cfg, s) && t in s.threads && s.threads[t] == Unmapping(u, e) && UnmappingStep(s, s', t, u, e)
    ensures Inv(cfg, s')
  {
    hide *;
    Parts(cfg, s, t);
    UnmappingTables(cfg, s, s', t, u, e);
    UnmappingEntries(cfg, s, s', t, u, e);
    SameHelpers(s, s');
    UnmappingHandover(s, s', t, u, e);
    UnmappingOthers(s, s', t, u, e);
    StepOk(cfg, s, s', t, Unlocking(u, e));
  }

  // ---------- Drop ----------

  lemma WantDropMoves(s: State, s': State, t: Tid, u: Udid)
    requires ClaimsOk(s) && t in s.threads && s.threads[t] == WantDrop(u)
    requires u !in s.entries && WantDropStep(s, s', t, u)
    ensures QuietMove(s, s', t, Done)
  {
    KeepsLocks(s, s', t, Done);
  }

  lemma DropsMappingTables(cfg: Config, s: State, s': State, t: Tid, u: Udid)
    requires TablesOk(cfg, s) && u in s.entries && WantDropStep(s, s', t, u)
    ensures TablesOk(cfg, s') && SameSlots(s, s') && PcOk(s', WantDropLock(s.entries[u]))
  {
    RemoveKeySize(s.entries, u);
  }

  lemma DropsMappingUnmaps(cfg: Config, s: State, s': State, t: Tid, u: Udid)
    requires TablesOk(cfg, s) && u in s.entries && WantDropStep(s, s', t, u)
    ensures Unmaps(s, s', {s.entries[u]}) && Mapped(s, s.entries[u])
  {
  }

  lemma DropsMappingMarks(s: State, s': State, t: Tid, u: Udid)
    requires EntriesOk(s) && u in s.entries && s.entries[u] in s.udidOf && WantDropStep(s, s', t, u)
    ensures Marks(s, s', {s.entries[u]})
  {
  }

  lemma DropsMappingEntries(cfg: Config, s: State, s': State, t: Tid, u: Udid)
    requires TablesOk(cfg, s) && EntriesOk(s) && u in s.entries && WantDropStep(s, s', t, u)
    ensures EntriesOk(s') && s.entries[u] !in s.detacher
  {
    assert s.entries[u] in s.udidOf;
    DropsMappingUnmaps(cfg, s, s', t, u);
    assert s.entries[u] !in s.detacher;
    hide *;
    DropsMappingMarks(s, s', t, u);
    EntriesKeep(s, s', {s.entries[u]});
  }

  lemma DropsMappingHandover(s: State, s': State, t: Tid, u: Udid)
    requires ClaimsOk(s) && t in s.threads && s.threads[t] == WantDrop(u)
    requires u in s.entries && s.entries[u] !in s.detacher && WantDropStep(s, s', t, u)
    ensures Handover(s, s', t, WantDropLock(s.entries[u]))
  {
    hide ClaimsOk, Reassigned;
    var e, pc := s.entries[u], WantDropLock(s.entries[u]);
    KeepsLocks(s, s', t, pc);
    KeepsCarriers(s, s', t, pc);
    AddsDetacher(s, s', t, pc, {e});
  }

  lemma DropsMappingOthers(s: State, s': State, t: Tid, u: Udid)
    requires ClaimsOk(s) && StaleOk(s) && t in s.threads && s.threads[t] == WantDrop(u)
    requires u in s.entries && WantDropStep(s, s', t, u)
    ensures Frame(s, s', t) && StaleStep(s, s', t, WantDropLock(s.entries[u]))
  {
    OthersStale(s, s', t, WantDropLock(s.entries[u]), 0);
  }

  lemma WantDropKeeps(cfg: Config, s: State, s': State, t: Tid, u: Udid)
    requires Inv(cfg, s) && t in s.threads && s.threads[t] == WantDrop(u) && WantDropStep(s, s', t, u)
    ensures Inv(cfg, s')
  {
    hide *;
    Parts(cfg, s, t);
    if u in s.entries {
      DropsMappingTables(cfg, s, s', t, u);
      DropsMappingEntries(cfg, s, s', t, u);
      SameHelpers(s, s');
      DropsMappingHandover(s, s', t, u);
      DropsMappingOthers(s, s', t, u);
      StepOk(cfg, s, s', t, WantDropLock(s.entries[u]));
    } else {
      WantDropMoves(s, s', t, u);
      QuietKeeps(cfg, s, s', t, Done);
    }
  }

  lemma DropHoldingTables(cfg: Config, s: State, s': State, t: Tid, e: EntryId)
    requires TablesOk(cfg, s) && DropHoldingStep(s, s', t, e)
    ensures TablesOk(cfg, s') && PcOk(s', Closing(Taken(s, e)))
  {
  }

  lemma DropHoldingEntries(s: State, s': State, t: Tid, e: EntryId)
    requires EntriesOk(s) && DropHoldingStep(s, s', t, e)
    ensures EntriesOk(s')
  {
    assert forall d :: Mapped(s', d) == Mapped(s, d);
  }

  lemma DropHoldingHelpers(s: State, s': State, t: Tid, e: EntryId)
    requires ClaimsOk(s) && HelpersOk(s) && StaleOk(s) && t in s.threads && s.threads[t] == DropHolding(e)
    requires DropHoldingStep(s, s', t, e)
    ensures HelpersOk(s') && (e in s.helper ==> s.helper[e] in s.slotOf)
  {
    OwnSlotIsLive(s, t, e);
    hide ClaimsOk, StaleOk;
    TakesHelpers(s, s', t, e);
  }

  lemma DropHoldingHandover(s: State, s': State, t: Tid, e: EntryId)
    requires ClaimsOk(s) && HelpersOk(s) && t in s.threads && s.threads[t] == DropHolding(e)
    requires (e in s.helper ==> s.helper[e] in s.slotOf) && DropHoldingStep(s, s', t, e)
    ensures Handover(s, s', t, Closing(Taken(s, e)))
  {
    hide ClaimsOk, HelpersOk, Reassigned;
    var pc := Closing(Taken(s, e));
    ReleasesLocks(s, s', t, pc, {EntryMu(e)});
    TakesCarriers(s, s', t, pc, e);
    DropsDetacher(s, s', t, pc, e);
  }

  lemma DropHoldingOthers(s: State, s': State, t: Tid, e: EntryId)
    requires ClaimsOk(s) && StaleOk(s) && t in s.threads && s.threads[t] == DropHolding(e)
    requires DropHoldingStep(s, s', t, e)
    ensures Frame(s, s', t) && StaleStep(s, s', t, Closing(Taken(s, e)))
  {
    OthersStale(s, s', t, Closing(Taken(s, e)), e);
    HoldsItsLocks(s, t);
    hide ClaimsOk, StaleOk, StaleStep;
    SlotFrame(s, s', t, e);
  }

  lemma DropHoldingKeeps(cfg: Config, s: State, s': State, t: Tid, e: EntryId)
    requires Inv(cfg, s) && t in s.threads && s.threads[t] == DropHolding(e) && DropHoldingStep(s, s', t, e)
    ensures Inv(cfg, s')
  {
    hide *;
    Parts(cfg, s, t);
    DropHoldingTables(cfg, s, s', t, e);
    DropHoldingEntries(s, s', t, e);
    DropHoldingHelpers(s, s', t, e);
    DropHoldingHandover(s, s', t, e);
    DropHoldingOthers(s, s', t, e);
    StepOk(cfg, s, s', t, Closing(Taken(s, e)));
  }

  // ---------- reapIdle ----------

  lemma WantReapMoves(s: State, s': State, t: Tid, at: nat)
    requires ClaimsOk(s) && t in s.threads && s.threads[t] == WantReap(at) && WantReapStep(s, s', t, at)
    ensures QuietMove(s, s', t, Reaping(at, s.entries.Keys, {}))
  {
    TakesLock(s, s', t, Reaping(at, s.entries.Keys, {}), PoolMu);
  }

  lemma WantReapKeeps(cfg: Config, s: State, s': State, t: Tid, at: nat)
    requires Inv(cfg, s) && t in s.threads && s.threads[t] == WantReap(at) && WantReapStep(s, s', t, at)
    ensures Inv(cfg, s')
  {
    hide *;
    Parts(cfg, s, t);
    WantReapMoves(s, s', t, at);
    QuietKeeps(cfg, s, s', t, Reaping(at, s.entries.Keys, {}));
  }

  lemma ReapSkips(s: State, s': State, t: Tid, at: nat, rem: set<Udid>, hs: set<HelperId>, key: Udid)
    requires ClaimsOk(s) && t in s.threads && s.threads[t] == Reaping(at, rem, hs) && PcOk(s, s.threads[t])
    requires Goes(s, s', t, Reaping(at, rem - {key}, hs))
    ensures QuietMove(s, s', t, Reaping(at, rem - {key}, hs))
  {
    hide ClaimsOk, QuietMove;
    GoesQuietly(s, s', t, Reaping(at, rem - {key}, hs));
  }

  // reapIdle takes the helper of an idle entry that nobody has locked.
  ghost predicate Reaps(s: State, s': State, t: Tid, at: nat, rem: set<Udid>, hs: set<HelperId>, key: Udid) {
    && key in s.entries && EntryMu(s.entries[key]) !in s.lock && s.entries[key] in s.helper
    && ReapsSlot(s, s', t, at, rem, hs, key)
  }

  lemma ReapCases(cfg: Config, s: State, s': State, t: Tid, at: nat, rem: set<Udid>, hs: set<HelperId>, key: Udid)
    requires ReapStep(cfg, s, s', t, at, rem, hs, key)
    ensures Goes(s, s', t, Reaping(at, rem - {key}, hs)) || Reaps(s, s', t, at, rem, hs, key)
  {
  }

  lemma ReapsTables(cfg: Config, s: State, s': State, t: Tid, at: nat, rem: set<Udid>, hs: set<HelperId>, key: Udid)
    requires TablesOk(cfg, s) && PcOk(s, Reaping(at, rem, hs)) && Reaps(s, s', t, at, rem, hs, key)
    ensures TablesOk(cfg, s') && t in s'.threads && PcOk(s', s'.threads[t])
  {
    RemoveKeySize(s.entries, key);
  }

  lemma ReapsUnmaps(cfg: Config, s: State, s': State, t: Tid, at: nat, rem: set<Udid>, hs: set<HelperId>, key: Udid)
    requires TablesOk(cfg, s) && Reaps(s, s', t, at, rem, hs, key)
    ensures Unmaps(s, s', {s.entries[key]})
  {
  }

  lemma ReapsMarks(s: State, s': State, t: Tid, at: nat, rem: set<Udid>, hs: set<HelperId>, key: Udid)
    requires EntriesOk(s) && Reaps(s, s', t, at, rem, hs, key)
    ensures Marks(s, s', {s.entries[key]})
  {
  }

  lemma ReapsEntries(cfg: Config, s: State, s': State, t: Tid, at: nat, rem: set<Udid>, hs: set<HelperId>, key: Udid)
    requires TablesOk(cfg, s) && EntriesOk(s) && Reaps(s, s', t, at, rem, hs, key)
    ensures EntriesOk(s')
  {
    assert key in s.entries;
    hide *;
    ReapsUnmaps(cfg, s, s', t, at, rem, hs, key);
    ReapsMarks(s, s', t, at, rem, hs, key);
    EntriesKeep(s, s', {s.entries[key]});
  }

  lemma ReapsHelpers(s: State, s': State, t: Tid, at: nat, rem: set<Udid>, hs: set<HelperId>, key: Udid)
    requires HelpersOk(s) && StaleOk(s) && Reaps(s, s', t, at, rem, hs, key)
    ensures HelpersOk(s') && s.helper[s.entries[key]] in s.slotOf
  {
    FreeSlotIsLive(s, s.entries[key]);
    hide StaleOk;
    TakesHelpers(s, s', t, s.entries[key]);
  }

  lemma ReapsHandover(s: State, s': State, t: Tid, at: nat, rem: set<Udid>, hs: set<HelperId>, key: Udid)
    requires ClaimsOk(s) && HelpersOk(s) && t in s.threads && s.threads[t] == Reaping(at, rem, hs)
    requires Reaps(s, s', t, at, rem, hs, key) && s.helper[s.entries[key]] in s.slotOf && t in s'.threads
    ensures Handover(s, s', t, s'.threads[t])
  {
    hide ClaimsOk, HelpersOk, Reassigned;
    var pc := s'.threads[t];
    KeepsLocks(s, s', t, pc);
    KeepsDetachers(s, s', t, pc);
    TakesCarriers(s, s', t, pc, s.entries[key]);
  }

  lemma ReapsOthers(s: State, s': State, t: Tid, at: nat, rem: set<Udid>, hs: set<HelperId>, key: Udid)
    requires ClaimsOk(s) && StaleOk(s) && t in s.threads && s.threads[t] == Reaping(at, rem, hs)
    requires Reaps(s, s', t, at, rem, hs, key) && t in s'.threads
    ensures Frame(s, s', t) && StaleStep(s, s', t, s'.threads[t])
  {
    OthersStale(s, s', t, s'.threads[t], s.entries[key]);
    HoldsItsLocks(s, t);
    hide ClaimsOk, StaleOk, StaleStep;
    assert PoolMu in Held(s.threads[t]);
    SlotFrame(s, s', t, s.entries[key]);
  }

  lemma ReapKeeps(cfg: Config, s: State, s': State, t: Tid, at: nat, rem: set<Udid>, hs: set<HelperId>, key: Udid)
    requires Inv(cfg, s) && t in s.threads && s.threads[t] == Reaping(at, rem, hs)
    requires ReapStep(cfg, s, s', t, at, rem, hs, key)
    ensures Inv(cfg, s')
  {
    assert key in s.entries && (Reaps(s, s', t, at, rem, hs, key) ==> s.entries[key] in s.helper);
    hide *;
    Parts(cfg, s, t);
    ReapCases(cfg, s, s', t, at, rem, hs, key);
    if Goes(s, s', t, Reaping(at, rem - {key}, hs)) {
      ReapSkips(s, s', t, at, rem, hs, key);
      QuietKeeps(cfg, s, s', t, Reaping(at, rem - {key}, hs));
    } else {
      ReapsTables(cfg, s, s', t, at, rem, hs, key);
      ReapsEntries(cfg, s, s', t, at, rem, hs, key);
      ReapsHelpers(s, s', t, at, rem, hs, key);
      ReapsHandover(s, s', t, at, rem, hs, key);
      ReapsOthers(s, s', t, at, rem, hs, key);
      StepOk(cfg, s, s', t, s'.threads[t]);
    }
  }

  lemma ReapedMoves(s: State, s': State, t: Tid, at: nat, hs: set<HelperId>)
    requires ClaimsOk(s) && t in s.threads && s.threads[t] == Reaping(at, {}, hs) && ReapedStep(s, s', t, hs)
    ensures QuietMove(s, s', t, Closing(hs))
  {
    ReleasesLocks(s, s', t, Closing(hs), {PoolMu});
  }

  lemma ReapedKeeps(cfg: Config, s: State, s': State, t: Tid, at: nat, hs: set<HelperId>)
    requires Inv(cfg, s) && t in s.threads && s.threads[t] == Reaping(at, {}, hs) && ReapedStep(s, s', t, hs)
    ensures Inv(cfg, s')
  {
    hide *;
    Parts(cfg, s, t);
    ReapedMoves(s, s', t, at, hs);
    QuietKeeps(cfg, s, s', t, Closing(hs));
  }

  // ---------- Close ----------

  lemma WantCloseMoves(s: State, s': State, t: Tid)
    requires ClaimsOk(s) && t in s.threads && s.threads[t] == WantClose && s.closed && WantCloseStep(s, s', t)
    ensures QuietMove(s, s', t, Done)
  {
    hide ClaimsOk, QuietMove;
    GoesQuietly(s, s', t, Done);
  }

  lemma DetachesAllTables(cfg: Config, s: State, s': State, t: Tid)
    requires TablesOk(cfg, s) && !s.closed && WantCloseStep(s, s', t)
    ensures TablesOk(cfg, s') && SameSlots(s, s') && PcOk(s', CloseNext(s.entries.Values))
  {
  }

  lemma DetachesAllUnmaps(cfg: Config, s: State, s': State, t: Tid)
    requires TablesOk(cfg, s) && !s.closed && WantCloseStep(s, s', t)
    ensures Unmaps(s, s', s.entries.Values)
    ensures forall e :: e in s.entries.Values ==> Mapped(s, e)
  {
    forall e | e in s.entries.Values ensures Mapped(s, e) {
      var u :| u in s.entries && s.entries[u] == e;
    }
    forall d | d in s.udidOf && Mapped(s, d) ensures d in s.entries.Values {
      assert s.entries[s.udidOf[d]] == d;
    }
  }

  lemma DetachesAllMarks(s: State, s': State, t: Tid)
    requires EntriesOk(s) && !s.closed && WantCloseStep(s, s', t)
    requires forall e :: e in s.entries.Values ==> Mapped(s, e)
    ensures Marks(s, s', s.entries.Values)
    ensures forall e :: e in s.entries.Values ==> e !in s.detacher
  {
  }

  lemma DetachesAllEntries(cfg: Config, s: State, s': State, t: Tid)
    requires TablesOk(cfg, s) && EntriesOk(s) && !s.closed && WantCloseStep(s, s', t)
    ensures EntriesOk(s')
    ensures forall e :: e in s.entries.Values ==> e !in s.detacher
  {
    hide *;
    DetachesAllUnmaps(cfg, s, s', t);
    DetachesAllMarks(s, s', t);
    EntriesKeep(s, s', s.entries.Values);
  }

  lemma DetachesAllHandover(s: State, s': State, t: Tid)
    requires ClaimsOk(s) && t in s.threads && s.threads[t] == WantClose && !s.closed && WantCloseStep(s, s', t)
    requires forall e :: e in s.entries.Values ==> e !in s.detacher
    ensures Handover(s, s', t, CloseNext(s.entries.Values))
  {
    hide ClaimsOk, Reassigned;
    var ids := s.entries.Values;
    assert Held(CloseNext(ids)) == {} && Carried(CloseNext(ids)) == {} && Pending(CloseNext(ids)) == ids;
    assert s'.detacher.Keys == s.detacher.Keys + ids;
    hide Held, Carried, Pending;
    assert Held(WantClose) == {} && Carried(WantClose) == {} && Pending(WantClose) == {} by { WantCloseClaims(); }
    KeepsLocks(s, s', t, CloseNext(ids));
    KeepsCarriers(s, s', t, CloseNext(ids));
    AddsDetacher(s, s', t, CloseNext(ids), ids);
  }

  lemma WantCloseClaims()
    ensures Held(WantClose) == {} && Carried(WantClose) == {} && Pending(WantClose) == {}
  {
  }

  lemma DetachesAllOthers(s: State, s': State, t: Tid)
    requires ClaimsOk(s) && StaleOk(s) && t in s.threads && s.threads[t] == WantClose && !s.closed && WantCloseStep(s, s', t)
    ensures Frame(s, s', t) && StaleStep(s, s', t, CloseNext(s.entries.Values))
  {
    OthersStale(s, s', t, CloseNext(s.entries.Values), 0);
  }

  lemma WantCloseKeeps(cfg: Config, s: State, s': State, t: Tid)
    requires Inv(cfg, s) && t in s.threads && s.threads[t] == WantClose && WantCloseStep(s, s', t)
    ensures Inv(cfg, s')
  {
    hide *;
    Parts(cfg, s, t);
    if s.closed {
      WantCloseMoves(s, s', t);
      QuietKeeps(cfg, s, s', t, Done);
    } else {
      DetachesAllTables(cfg, s, s', t);
      DetachesAllEntries(cfg, s, s', t);
      SameHelpers(s, s');
      DetachesAllHandover(s, s', t);
      DetachesAllOthers(s, s', t);
      StepOk(cfg, s, s', t, CloseNext(s.entries.Values));
    }
  }

  lemma CloseNextMoves(s: State, s': State, t: Tid, ids: set<EntryId>, e: EntryId)
    requires ClaimsOk(s) && t in s.threads && s.threads[t] == CloseNext(ids) && CloseNextStep(s, s', t, ids, e)
    ensures t in s'.threads && QuietMove(s, s', t, s'.threads[t])
  {
    hide ClaimsOk, QuietMove;
    GoesQuietly(s, s', t, s'.threads[t]);
  }

  lemma CloseNextKeeps(cfg: Config, s: State, s': State, t: Tid, ids: set<EntryId>, e: EntryId)
    requires Inv(cfg, s) && t in s.threads && s.threads[t] == CloseNext(ids) && CloseNextStep(s, s', t, ids, e)
    ensures Inv(cfg, s')
  {
    hide *;
    Parts(cfg, s, t);
    CloseNextMoves(s, s', t, ids, e);
    QuietKeeps(cfg, s, s', t, s'.threads[t]);
  }

  lemma CloseHoldingTables(cfg: Config, s: State, s': State, t: Tid, e: EntryId, ids: set<EntryId>)
    requires TablesOk(cfg, s) && CloseHoldingStep(s, s', t, e, ids)
    ensures TablesOk(cfg, s') && PcOk(s', CloseNext(ids - {e}))
  {
  }

  lemma CloseHoldingEntries(s: State, s': State, t: Tid, e: EntryId, ids: set<EntryId>)
    requires EntriesOk(s) && CloseHoldingStep(s, s', t, e, ids)
    ensures EntriesOk(s')
  {
    assert forall d :: Mapped(s', d) == Mapped(s, d);
  }

  lemma CloseHoldingHelpers(s: State, s': State, t: Tid, e: EntryId, ids: set<EntryId>)
    requires HelpersOk(s) && CloseHoldingStep(s, s', t, e, ids)
    requires e in s.helper ==> s.helper[e] in s.slotOf && s.slotOf[s.helper[e]] == e
    ensures HelpersOk(s') && s'.carrier == s.carrier
  {
  }

  lemma CloseHoldingLive(s: State, t: Tid, e: EntryId, ids: set<EntryId>)
    requires ClaimsOk(s) && HelpersOk(s) && StaleOk(s) && t in s.threads && s.threads[t] == CloseHolding(e, ids)
    requires PcOk(s, s.threads[t])
    ensures e in s.helper ==> s.helper[e] in s.slotOf && s.slotOf[s.helper[e]] == e
    ensures e in ids
  {
    hide ClaimsOk, HelpersOk, StaleOk;
    OwnSlotIsLive(s, t, e);
  }

  lemma CloseHoldingHandover(s: State, s': State, t: Tid, e: EntryId, ids: set<EntryId>)
    requires ClaimsOk(s) && t in s.threads && s.threads[t] == CloseHolding(e, ids) && e in ids
    requires CloseHoldingStep(s, s', t, e, ids) && s'.carrier == s.carrier
    ensures Handover(s, s', t, CloseNext(ids - {e}))
  {
    hide ClaimsOk, Reassigned;
    var pc := CloseNext(ids - {e});
    ReleasesLocks(s, s', t, pc, {EntryMu(e)});
    KeepsCarriers(s, s', t, pc);
    DropsDetacher(s, s', t, pc, e);
  }

  lemma CloseHoldingOthers(s: State, s': State, t: Tid, e: EntryId, ids: set<EntryId>)
    requires ClaimsOk(s) && HelpersOk(s) && StaleOk(s) && t in s.threads && s.threads[t] == CloseHolding(e, ids)
    requires e in s.helper ==> s.helper[e] in s.slotOf && s.slotOf[s.helper[e]] == e
    requires CloseHoldingStep(s, s', t, e, ids)
    ensures StaleStep(s, s', t, CloseNext(ids - {e}))
  {
    OthersStale(s, s', t, CloseNext(ids - {e}), e);
  }

  lemma CloseHoldingFrame(s: State, s': State, t: Tid, e: EntryId, ids: set<EntryId>)
    requires ClaimsOk(s) && t in s.threads && s.threads[t] == CloseHolding(e, ids) && CloseHoldingStep(s, s', t, e, ids)
    ensures Frame(s, s', t)
  {
    HoldsItsLocks(s, t);
    hide ClaimsOk;
    SlotFrame(s, s', t, e);
  }

  lemma CloseHoldingKeeps(cfg: Config, s: State, s': State, t: Tid, e: EntryId, ids: set<EntryId>)
    requires Inv(cfg, s) && t in s.threads && s.threads[t] == CloseHolding(e, ids) && CloseHoldingStep(s, s', t, e, ids)
    ensures Inv(cfg, s')
  {
    hide *;
    Parts(cfg, s, t);
    CloseHoldingLive(s, t, e, ids);
    CloseHoldingTables(cfg, s, s', t, e, ids);
    CloseHoldingEntries(s, s', t, e, ids);
    CloseHoldingHelpers(s, s', t, e, ids);
    CloseHoldingHandover(s, s', t, e, ids);
    CloseHoldingOthers(s, s', t, e, ids);
    CloseHoldingFrame(s, s', t, e, ids);
    StepOk(cfg, s, s', t, CloseNext(ids - {e}));
  }

  // ---------- any step of any thread ----------

  predicate FindsSlot(pc: PC) {
    pc.WantEntry? || pc.Scanning? || pc.ClosingEvicted? || pc.WantLock? || pc.Checking?
  }

  predicate UsesHelper(pc: PC) {
    || pc.Running? || pc.InCall? || pc.Restarting? || pc.Respawning? || pc.Failing? || pc.Noting?
    || pc.Marking? || pc.Unmapping? || pc.Unlocking?
  }

  lemma SlotStepKeeps(cfg: Config, s: State, s': State, t: Tid, c: Choice)
    requires Inv(cfg, s) && t in s.threads && ThreadStep(cfg, s, s', t, c) && FindsSlot(s.threads[t])
    ensures Inv(cfg, s')
  {
    hide Inv, WantEntryStep, ScanStep, ScannedStep, CloseStep, LockStep, CheckingStep;
    match s.threads[t]
    case WantEntry(u, n) => WantEntryKeeps(cfg, s, s', t, u, n, c);
    case Scanning(u, n, rem, v) =>
      if rem != {} { ScanKeeps(cfg, s, s', t, u, n, rem, v, c.key); } else { ScannedKeeps(cfg, s, s', t, u, n, v, c.id); }
    case ClosingEvicted(u, n, e, h) => CloseCarriedKeeps(cfg, s, s', t, h, WantLock(u, n, e));
    case WantLock(u, n, e) => LockKeeps(cfg, s, s', t, e, Checking(u, n, e));
    case Checking(u, n, e) => CheckingKeeps(cfg, s, s', t, u, n, e);
  }

  lemma HelperStepKeeps(cfg: Config, s: State, s': State, t: Tid, c: Choice)
    requires Inv(cfg, s) && t in s.threads && ThreadStep(cfg, s, s', t, c) && UsesHelper(s.threads[t])
    ensures Inv(cfg, s')
  {
    hide Inv, RunningStep, InCallStep, CloseStep, RespawningStep, NotingStep, ClearStep, UnmappingStep, UnlockStep;
    match s.threads[t]
    case Running(u, e) => RunningKeeps(cfg, s, s', t, u, e, c);
    case InCall(u, e, h, first) => InCallKeeps(cfg, s, s', t, u, e, h, first, c);
    case Restarting(u, e, h) => CloseSlotKeeps(cfg, s, s', t, Respawning(u, e));
    case Respawning(u, e) => RespawningKeeps(cfg, s, s', t, u, e, c);
    case Failing(u, e, h, note) => CloseSlotKeeps(cfg, s, s', t, if note then Noting(u, e) else Marking(u, e));
    case Noting(u, e) => NotingKeeps(cfg, s, s', t, u, e);
    case Marking(u, e) => ClearKeeps(cfg, s, s', t, e, s.gone + {e}, Unmapping(u, e));
    case Unmapping(u, e) => UnmappingKeeps(cfg, s, s', t, u, e);
    case Unlocking(u, e) => UnlockingKeeps(cfg, s, s', t, u, e);
  }

  lemma OtherStepKeeps(cfg: Config, s: State, s': State, t: Tid, c: Choice)
    requires Inv(cfg, s) && t in s.threads && ThreadStep(cfg, s, s', t, c)
    requires !FindsSlot(s.threads[t]) && !UsesHelper(s.threads[t])
    ensures Inv(cfg, s')
  {
    hide Inv, WantDropStep, LockStep, DropHoldingStep, WantReapStep, ReapStep, ReapedStep, WantCloseStep, CloseNextStep,
         CloseHoldingStep, ClosingStep;
    match s.threads[t]
    case WantDrop(u) => WantDropKeeps(cfg, s, s', t, u);
    case WantDropLock(e) => LockKeeps(cfg, s, s', t, e, DropHolding(e));
    case DropHolding(e) => DropHoldingKeeps(cfg, s, s', t, e);
    case WantReap(at) => WantReapKeeps(cfg, s, s', t, at);
    case Reaping(at, rem, hs) =>
      if rem != {} { ReapKeeps(cfg, s, s', t, at, rem, hs, c.key); } else { ReapedKeeps(cfg, s, s', t, at, hs); }
    case WantClose => WantCloseKeeps(cfg, s, s', t);
    case CloseNext(ids) => CloseNextKeeps(cfg, s, s', t, ids, c.id);
    case WantCloseLock(e, ids) => LockKeeps(cfg, s, s', t, e, CloseHolding(e, ids));
    case CloseHolding(e, ids) => CloseHoldingKeeps(cfg, s, s', t, e, ids);
    case Closing(hs) => ClosingKeeps(cfg, s, s', t, hs, c.id);
  }

  lemma NextKeeps(cfg: Config, s: State, a: Action, s': State)
    requires Inv(cfg, s) && Next(cfg, s, a, s')
    ensures Inv(cfg, s')
  {
    hide Inv, Starts, ThreadStep;
    match a
    case Start(t, op) => StartKeeps(cfg, s, s', t, op);
    case Tick(d) => TickKeeps(cfg, s, s');
    case Step(t, c) =>
      if FindsSlot(s.threads[t]) {
        SlotStepKeeps(cfg, s, s', t, c);
      } else if UsesHelper(s.threads[t]) {
        HelperStepKeeps(cfg, s, s', t, c);
      } else {
        OtherStepKeeps(cfg, s, s', t, c);
      }
  }

  // Every state of every interleaving satisfies the invariant.
  lemma {:induction false} RunKeeps(cfg: Config, states: seq<State>, actions: seq<Action>, i: nat)
    requires IsRun(cfg, states, actions) && i < |states|
    ensures Inv(cfg, states[i])
  {
    hide Inv, Next;
    if i == 0 {
      InitialOk(cfg);
    } else {
      RunKeeps(cfg, states, actions, i - 1);
      NextKeeps(cfg, states[i - 1], actions[i - 1], states[i]);
    }
  }

  // One step of a run, from a state that keeps the invariant.
  lemma RunSteps(cfg: Config, states: seq<State>, actions: seq<Action>, i: nat)
    requires IsRun(cfg, states, actions) && 0 < i < |states|
    ensures i - 1 < |actions| && Inv(cfg, states[i - 1]) && Next(cfg, states[i - 1], actions[i - 1], states[i])
  {
    hide Inv, Next;
    RunKeeps(cfg, states, actions, i - 1);
    assert Next(cfg, states[i - 1], actions[i - 1], states[i - 1 + 1]);
  }
}
