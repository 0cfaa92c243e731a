// Things with at most one claimant: a lock and the threads that think they hold
// it, a helper and the threads that mean to close it.
module Claims {
  // k belongs to owner[k] exactly when that claimant lists it.
  ghost predicate Paired<K(!new), T(!new)>(owner: map<K, T>, claims: map<T, set<K>>) {
    && (forall k :: k in owner ==> owner[k] in claims && k in claims[owner[k]])
    && (forall t, k :: t in claims && k in claims[t] ==> k in owner && owner[k] == t)
  }

  // t now claims exactly ks; what others own is untouched.
  ghost predicate Reassigned<K(!new), T(!new)>(owner: map<K, T>, owner': map<K, T>, t: T, ks: set<K>) {
    && (forall k :: k in ks ==> k in owner' && owner'[k] == t)
    && (forall k :: k in ks && k in owner ==> owner[k] == t)
    && (forall k :: k in owner && owner[k] != t ==> k in owner' && owner'[k] == owner[k])
    && (forall k :: k in owner' && k !in ks ==> k in owner && owner[k] != t)
  }

  lemma ReassignKeeps<K(!new), T(!new)>(owner: map<K, T>, owner': map<K, T>, claims: map<T, set<K>>, t: T, ks: set<K>)
    requires Paired(owner, claims) && Reassigned(owner, owner', t, ks)
    ensures Paired(owner', claims[t := ks])
  {
    var claims' := claims[t := ks];
    forall k | k in owner' ensures owner'[k] in claims' && k in claims'[owner'[k]] {
      if k !in ks { assert owner'[k] == owner[k]; }
    }
    forall t1, k | t1 in claims' && k in claims'[t1] ensures k in owner' && owner'[k] == t1 {
      if t1 != t { assert t1 in claims && k in claims[t1]; }
    }
  }
}

// What every step of the warm pool keeps, whatever the interleaving.
module PoolInvariant {
  import opened Claims
  import opened PoolModel

  // ---------- what a program counter says about its thread ----------

  function Held(pc: PC): set<Lock> {
    match pc
    case Scanning(_, _, _, victim) => if victim.Victim? then {PoolMu, EntryMu(victim.id)} else {PoolMu}
    case Reaping(_, _, _) => {PoolMu}
    case Checking(_, _, e) => {EntryMu(e)}
    case Running(_, e) => {EntryMu(e)}
    case InCall(_, e, _, _) => {EntryMu(e)}
    case Restarting(_, e, _) => {EntryMu(e)}
    case Respawning(_, e) => {EntryMu(e)}
    case Failing(_, e, _, _) => {EntryMu(e)}
    case Noting(_, e) => {EntryMu(e)}
    case Marking(_, e) => {EntryMu(e)}
    case Unmapping(_, e) => {EntryMu(e)}
    case Unlocking(_, e) => {EntryMu(e)}
    case DropHolding(e) => {EntryMu(e)}
    case CloseHolding(e, _) => {EntryMu(e)}
    case _ => {}
  }

  // The helpers the thread itself must close.
  function Carried(pc: PC): set<HelperId> {
    match pc
    case ClosingEvicted(_, _, _, h) => {h}
    case Reaping(_, _, hs) => hs
    case Closing(hs) => hs
    case _ => {}
  }

  // The entries the thread has detached and will still mark gone.
  function Pending(pc: PC): set<EntryId> {
    match pc
    case WantDropLock(e) => {e}
    case DropHolding(e) => {e}
    case CloseNext(ids) => ids
    case WantCloseLock(_, ids) => ids
    case CloseHolding(_, ids) => ids
    case _ => {}
  }

  // Between closing the slot's helper and replacing it or marking the entry.
  predicate SlotIsStale(pc: PC) {
    pc.Respawning? || pc.Noting? || pc.Marking?
  }

  function HeldBy(threads: map<Tid, PC>): map<Tid, set<Lock>> {
    map t | t in threads :: Held(threads[t])
  }

  function CarriedBy(threads: map<Tid, PC>): map<Tid, set<HelperId>> {
    map t | t in threads :: Carried(threads[t])
  }

  function PendingOf(threads: map<Tid, PC>): map<Tid, set<EntryId>> {
    map t | t in threads :: Pending(threads[t])
  }

  predicate Mapped(s: State, e: EntryId) {
    e in s.udidOf && s.udidOf[e] in s.entries && s.entries[s.udidOf[e]] == e
  }

  // ---------- the invariant ----------

  ghost predicate TablesOk(cfg: Config, s: State) {
    && |s.entries| <= cfg.maxTargets
    && (s.closed ==> s.entries == map[])
    && s.lastUsed.Keys == s.udidOf.Keys
    && (forall u :: u in s.entries ==> s.entries[u] in s.udidOf && s.udidOf[s.entries[u]] == u)
  }

  ghost predicate ClaimsOk(s: State) {
    && Paired(s.lock, HeldBy(s.threads))
    && Paired(s.detacher, PendingOf(s.threads))
    && Paired(s.carrier, CarriedBy(s.threads))
  }

  // An entry that is not gone can be reached: it is mapped or its detacher is
  // pending.
  ghost predicate EntriesOk(s: State) {
    && (forall e :: e in s.gone ==> e !in s.helper)
    && (forall e :: e in s.helper ==> e in s.udidOf)
    && (forall e :: e in s.udidOf && e !in s.gone ==> Mapped(s, e) || e in s.detacher)
    && (forall e :: e in s.detacher ==> e in s.udidOf && !Mapped(s, e))
  }

  ghost predicate HelpersOk(s: State) {
    && s.live == s.slotOf.Keys + s.carrier.Keys
    && s.slotOf.Keys !! s.carrier.Keys
    && s.live <= s.spawned
    && (forall h :: s.closes[h] == if h in s.spawned && h !in s.live then 1 else 0)
    && (forall e :: e in s.helper ==> s.helper[e] in s.spawned)
    && (forall h :: h in s.slotOf ==> s.slotOf[h] in s.helper && s.helper[s.slotOf[h]] == h)
    && (forall e :: e in s.helper && s.helper[e] in s.live ==> s.helper[e] in s.slotOf && s.slotOf[s.helper[e]] == e)
  }

  // A slot holds a closed helper only while the thread that closed it still
  // holds the entry.
  ghost predicate StaleOk(s: State) {
    forall e :: e in s.helper && s.helper[e] !in s.live ==> StaleHolder(s, e)
  }

  ghost predicate StaleHolder(s: State, e: EntryId) {
    EntryMu(e) in s.lock && s.lock[EntryMu(e)] in s.threads && SlotIsStale(s.threads[s.lock[EntryMu(e)]])
  }

  ghost predicate PcOk(s: State, pc: PC) {
    match pc
    case Scanning(u, _, rem, v) =>
      && u !in s.entries && rem <= s.entries.Keys && !s.closed
      && (v.Victim? ==> v.key in s.entries && s.entries[v.key] == v.id)
    case Reaping(_, rem, _) => rem <= s.entries.Keys
    case ClosingEvicted(_, _, e, _) => e in s.udidOf
    case WantLock(_, _, e) => e in s.udidOf
    case Checking(_, _, e) => e in s.udidOf
    case Running(_, e) => e in s.udidOf && e !in s.gone
    case InCall(_, e, h, _) => e in s.udidOf && e in s.helper && s.helper[e] == h
    case Restarting(_, e, h) => e in s.udidOf && e in s.helper && s.helper[e] == h
    case Failing(_, e, h, _) => e in s.udidOf && e in s.helper && s.helper[e] == h
    case Respawning(_, e) => e in s.udidOf && e !in s.gone && e in s.helper && s.helper[e] !in s.slotOf
    case Noting(_, e) => e in s.udidOf && e !in s.gone && (e in s.helper ==> s.helper[e] !in s.slotOf)
    case Marking(_, e) => e in s.udidOf && e !in s.gone && (e in s.helper ==> s.helper[e] !in s.slotOf)
    case Unmapping(_, e) => e in s.udidOf && e in s.gone
    case Unlocking(_, e) => e in s.udidOf && e in s.gone
    case WantCloseLock(e, ids) => e in ids
    case CloseHolding(e, ids) => e in ids
    case _ => true
  }

  ghost predicate PcsOk(s: State) {
    forall t :: t in s.threads ==> PcOk(s, s.threads[t])
  }

  ghost predicate Inv(cfg: Config, s: State) {
    TablesOk(cfg, s) && ClaimsOk(s) && EntriesOk(s) && HelpersOk(s) && StaleOk(s) && PcsOk(s)
  }

  lemma InitialOk(cfg: Config)
    ensures Inv(cfg, INITIAL)
  {
  }

  // ---------- what a step of t owes the other threads ----------

  // t's step leaves alone what another thread may rely on: the entries that
  // thread has locked, and the map while that thread has the pool lock.
  ghost predicate Frame(s: State, s': State, t: Tid) {
    && s.udidOf.Keys <= s'.udidOf.Keys
    && (forall h :: h in s'.slotOf ==> h in s.slotOf || h !in s.spawned)
    && (forall e :: EntryMu(e) in s.lock && s.lock[EntryMu(e)] != t ==>
          && (e in s.gone <==> e in s'.gone)
          && (e in s.helper <==> e in s'.helper)
          && (e in s.helper ==> s.helper[e] == s'.helper[e]))
    && (PoolMu in s.lock && s.lock[PoolMu] != t ==> s'.entries == s.entries && s'.closed == s.closed)
  }

  // t's step hands over locks, detached entries and helpers cleanly.
  ghost predicate Handover(s: State, s': State, t: Tid, pc: PC) {
    && s'.threads == s.threads[t := pc]
    && Reassigned(s.lock, s'.lock, t, Held(pc))
    && Reassigned(s.detacher, s'.detacher, t, Pending(pc))
    && Reassigned(s.carrier, s'.carrier, t, Carried(pc))
  }

  lemma LocksKeep(s: State, s': State, t: Tid, pc: PC)
    requires Paired(s.lock, HeldBy(s.threads)) && Reassigned(s.lock, s'.lock, t, Held(pc))
    requires s'.threads == s.threads[t := pc]
    ensures Paired(s'.lock, HeldBy(s'.threads))
  {
    ReassignKeeps(s.lock, s'.lock, HeldBy(s.threads), t, Held(pc));
    assert HeldBy(s.threads)[t := Held(pc)] == HeldBy(s'.threads);
  }

  lemma DetachersKeep(s: State, s': State, t: Tid, pc: PC)
    requires Paired(s.detacher, PendingOf(s.threads)) && Reassigned(s.detacher, s'.detacher, t, Pending(pc))
    requires s'.threads == s.threads[t := pc]
    ensures Paired(s'.detacher, PendingOf(s'.threads))
  {
    ReassignKeeps(s.detacher, s'.detacher, PendingOf(s.threads), t, Pending(pc));
    assert PendingOf(s.threads)[t := Pending(pc)] == PendingOf(s'.threads);
  }

  lemma CarriersKeep(s: State, s': State, t: Tid, pc: PC)
    requires Paired(s.carrier, CarriedBy(s.threads)) && Reassigned(s.carrier, s'.carrier, t, Carried(pc))
    requires s'.threads == s.threads[t := pc]
    ensures Paired(s'.carrier, CarriedBy(s'.threads))
  {
    ReassignKeeps(s.carrier, s'.carrier, CarriedBy(s.threads), t, Carried(pc));
    assert CarriedBy(s.threads)[t := Carried(pc)] == CarriedBy(s'.threads);
  }

  lemma ClaimsKeep(s: State, s': State, t: Tid, pc: PC)
    requires ClaimsOk(s) && Handover(s, s', t, pc)
    ensures ClaimsOk(s')
  {
    LocksKeep(s, s', t, pc);
    DetachersKeep(s, s', t, pc);
    CarriersKeep(s, s', t, pc);
  }

  lemma HoldsItsLocks(s: State, t: Tid)
    requires ClaimsOk(s) && t in s.threads
    ensures forall l :: l in Held(s.threads[t]) ==> l in s.lock && s.lock[l] == t
    ensures forall l :: l in s.lock && s.lock[l] == t ==> l in Held(s.threads[t])
    ensures forall e :: e in Pending(s.threads[t]) ==> e in s.detacher && s.detacher[e] == t
    ensures forall e :: e in s.detacher && s.detacher[e] == t ==> e in Pending(s.threads[t])
    ensures forall h :: h in Carried(s.threads[t]) ==> h in s.carrier && s.carrier[h] == t
    ensures forall h :: h in s.carrier && s.carrier[h] == t ==> h in Carried(s.threads[t])
  {
    assert HeldBy(s.threads)[t] == Held(s.threads[t]);
    assert PendingOf(s.threads)[t] == Pending(s.threads[t]);
    assert CarriedBy(s.threads)[t] == Carried(s.threads[t]);
  }

  lemma OtherPcKeeps(s: State, s': State, t: Tid, t1: Tid)
    requires ClaimsOk(s) && Frame(s, s', t) && t1 in s.threads && t1 != t && PcOk(s, s.threads[t1])
    requires forall e :: e in s.helper ==> s.helper[e] in s.spawned
    ensures PcOk(s', s.threads[t1])
  {
    HoldsItsLocks(s, t1);
    assert PoolMu in Held(s.threads[t1]) ==> s'.entries == s.entries && s'.closed == s.closed;
    forall e | EntryMu(e) in Held(s.threads[t1])
      ensures (e in s.gone <==> e in s'.gone) && (e in s.helper <==> e in s'.helper)
      ensures e in s.helper ==> s.helper[e] == s'.helper[e]
    {
      assert EntryMu(e) in s.lock && s.lock[EntryMu(e)] == t1;
    }
  }

  lemma OthersKeep(s: State, s': State, t: Tid, pc: PC)
    requires ClaimsOk(s) && PcsOk(s) && Frame(s, s', t) && PcOk(s', pc)
    requires s'.threads == s.threads[t := pc]
    requires forall e :: e in s.helper ==> s.helper[e] in s.spawned
    ensures PcsOk(s')
  {
    forall t1 | t1 in s'.threads ensures PcOk(s', s'.threads[t1]) {
      if t1 != t { OtherPcKeeps(s, s', t, t1); }
    }
  }

  // A slot that holds a closed helper after t's step is t's own to mend, or was
  // another thread's before.
  ghost predicate StaleStep(s: State, s': State, t: Tid, pc: PC) {
    forall e :: e in s'.helper && s'.helper[e] !in s'.live ==>
      || (EntryMu(e) in Held(pc) && SlotIsStale(pc))
      || (e in s.helper && s.helper[e] !in s.live && EntryMu(e) in s.lock && s.lock[EntryMu(e)] != t)
  }

  lemma StaleKeeps(s: State, s': State, t: Tid, pc: PC)
    requires StaleOk(s) && Frame(s, s', t) && Handover(s, s', t, pc) && StaleStep(s, s', t, pc)
    ensures StaleOk(s')
  {
  }

  // Everything a step has to show.
  lemma StepOk(cfg: Config, s: State, s': State, t: Tid, pc: PC)
    requires Inv(cfg, s) && Frame(s, s', t) && Handover(s, s', t, pc) && StaleStep(s, s', t, pc)
    requires TablesOk(cfg, s') && EntriesOk(s') && HelpersOk(s') && PcOk(s', pc)
    ensures Inv(cfg, s')
  {
    hide TablesOk, ClaimsOk, EntriesOk, StaleOk, PcsOk, PcOk, Frame, StaleStep, Reassigned;
    ClaimsKeep(s, s', t, pc);
    OthersKeep(s, s', t, pc);
    StaleKeeps(s, s', t, pc);
  }

  // The invariant taken apart, for a step of t.
  lemma Parts(cfg: Config, s: State, t: Tid)
    requires Inv(cfg, s) && t in s.threads
    ensures TablesOk(cfg, s) && ClaimsOk(s) && EntriesOk(s) && HelpersOk(s) && StaleOk(s) && PcsOk(s)
    ensures PcOk(s, s.threads[t])
  {
    hide TablesOk, ClaimsOk, EntriesOk, HelpersOk, StaleOk;
  }

  // ---------- one claim at a time ----------

  lemma KeepsLocks(s: State, s': State, t: Tid, pc: PC)
    requires ClaimsOk(s) && t in s.threads && s'.lock == s.lock && Held(pc) == Held(s.threads[t])
    ensures Reassigned(s.lock, s'.lock, t, Held(pc))
  {
    HoldsItsLocks(s, t);
  }

  lemma TakesLock(s: State, s': State, t: Tid, pc: PC, l: Lock)
    requires ClaimsOk(s) && t in s.threads && l !in s.lock && s'.lock == s.lock[l := t]
    requires Held(pc) == Held(s.threads[t]) + {l}
    ensures Reassigned(s.lock, s'.lock, t, Held(pc))
  {
    HoldsItsLocks(s, t);
  }

  lemma ReleasesLocks(s: State, s': State, t: Tid, pc: PC, ls: set<Lock>)
    requires ClaimsOk(s) && t in s.threads && ls <= Held(s.threads[t]) && s'.lock == s.lock - ls
    requires Held(pc) == Held(s.threads[t]) - ls
    ensures Reassigned(s.lock, s'.lock, t, Held(pc))
  {
    HoldsItsLocks(s, t);
  }

  lemma KeepsDetachers(s: State, s': State, t: Tid, pc: PC)
    requires ClaimsOk(s) && t in s.threads && s'.detacher == s.detacher && Pending(pc) == Pending(s.threads[t])
    ensures Reassigned(s.detacher, s'.detacher, t, Pending(pc))
  {
    HoldsItsLocks(s, t);
  }

  // t detaches entries that nobody has detached.
  lemma AddsDetacher(s: State, s': State, t: Tid, pc: PC, ids: set<EntryId>)
    requires ClaimsOk(s) && t in s.threads && Pending(s.threads[t]) == {} && Pending(pc) == ids
    requires forall e :: e in ids ==> e !in s.detacher
    requires s'.detacher.Keys == s.detacher.Keys + ids
    requires forall e :: e in s'.detacher ==> s'.detacher[e] == if e in ids then t else s.detacher[e]
    ensures Reassigned(s.detacher, s'.detacher, t, Pending(pc))
  {
    HoldsItsLocks(s, t);
  }

  lemma DropsDetacher(s: State, s': State, t: Tid, pc: PC, e: EntryId)
    requires ClaimsOk(s) && t in s.threads && e in Pending(s.threads[t]) && s'.detacher == s.detacher - {e}
    requires Pending(pc) == Pending(s.threads[t]) - {e}
    ensures Reassigned(s.detacher, s'.detacher, t, Pending(pc))
  {
    HoldsItsLocks(s, t);
  }

  lemma KeepsCarriers(s: State, s': State, t: Tid, pc: PC)
    requires ClaimsOk(s) && t in s.threads && s'.carrier == s.carrier && Carried(pc) == Carried(s.threads[t])
    ensures Reassigned(s.carrier, s'.carrier, t, Carried(pc))
  {
    HoldsItsLocks(s, t);
  }

  lemma DropsCarrier(s: State, s': State, t: Tid, pc: PC, h: HelperId)
    requires ClaimsOk(s) && t in s.threads && h in Carried(s.threads[t]) && s'.carrier == s.carrier - {h}
    requires Carried(pc) == Carried(s.threads[t]) - {h}
    ensures Reassigned(s.carrier, s'.carrier, t, Carried(pc))
  {
    HoldsItsLocks(s, t);
  }

  // t adds the slot's helper, if any, to the ones it must close.
  lemma TakesCarriers(s: State, s': State, t: Tid, pc: PC, e: EntryId)
    requires ClaimsOk(s) && HelpersOk(s) && t in s.threads && Takes(s, s', t, e)
    requires e in s.helper ==> s.helper[e] in s.slotOf
    requires Carried(pc) == Carried(s.threads[t]) + Taken(s, e)
    ensures Reassigned(s.carrier, s'.carrier, t, Carried(pc))
  {
    HoldsItsLocks(s, t);
  }

  // ---------- one slot at a time ----------

  // A step that leaves every slot alone, or changes only the slot of e, leaves
  // the other threads' stale slots to them.
  lemma OthersStale(s: State, s': State, t: Tid, pc: PC, e: EntryId)
    requires ClaimsOk(s) && StaleOk(s) && t in s.threads
    requires SlotIsStale(s.threads[t]) ==> Held(s.threads[t]) == {EntryMu(e)}
    requires forall d :: d in s'.helper && s'.helper[d] !in s'.live && d != e ==> d in s.helper && s.helper[d] !in s.live
    requires e in s'.helper && s'.helper[e] !in s'.live ==>
      || (SlotIsStale(pc) && EntryMu(e) in Held(pc))
      || (e in s.helper && s.helper[e] !in s.live && EntryMu(e) !in Held(s.threads[t]))
    ensures StaleStep(s, s', t, pc)
  {
    HoldsItsLocks(s, t);
    forall d | d in s.helper && s.helper[d] !in s.live && EntryMu(d) !in Held(s.threads[t])
      ensures EntryMu(d) in s.lock && s.lock[EntryMu(d)] != t
    {
      assert StaleHolder(s, d);
    }
    forall d | d in s.helper && s.helper[d] !in s.live && EntryMu(d) in Held(s.threads[t])
      ensures SlotIsStale(s.threads[t])
    {
      assert StaleHolder(s, d);
    }
  }

  // The helper in a slot that t holds, unless t has just closed it, is the slot's.
  lemma OwnSlotIsLive(s: State, t: Tid, e: EntryId)
    requires ClaimsOk(s) && HelpersOk(s) && StaleOk(s) && t in s.threads
    requires EntryMu(e) in Held(s.threads[t]) && !SlotIsStale(s.threads[t])
    ensures e in s.helper ==> s.helper[e] in s.slotOf && s.slotOf[s.helper[e]] == e
  {
    HoldsItsLocks(s, t);
    assert EntryMu(e) in s.lock && s.lock[EntryMu(e)] == t;
    assert e in s.helper && s.helper[e] !in s.live ==> StaleHolder(s, e);
  }

  lemma FreeSlotIsLive(s: State, e: EntryId)
    requires HelpersOk(s) && StaleOk(s) && EntryMu(e) !in s.lock && e in s.helper
    ensures s.helper[e] in s.slotOf && s.slotOf[s.helper[e]] == e
  {
    assert s.helper[e] !in s.live ==> StaleHolder(s, e);
  }

  // t changes only the slot of an entry that it, or nobody, has locked.
  lemma SlotFrame(s: State, s': State, t: Tid, e: EntryId)
    requires EntryMu(e) in s.lock ==> s.lock[EntryMu(e)] == t
    requires s.udidOf.Keys <= s'.udidOf.Keys
    requires forall h :: h in s'.slotOf ==> h in s.slotOf || h !in s.spawned
    requires forall d :: d != e ==> (d in s.gone <==> d in s'.gone) && (d in s.helper <==> d in s'.helper)
    requires forall d :: d != e && d in s.helper ==> s.helper[d] == s'.helper[d]
    requires PoolMu in s.lock && s.lock[PoolMu] != t ==> s'.entries == s.entries && s'.closed == s.closed
    ensures Frame(s, s', t)
  {
  }

  // ---------- steps that only move t along and take or release locks ----------

  ghost predicate Quiet(s: State, s': State) {
    && SameMap(s, s') && SameSlots(s, s') && s'.detacher == s.detacher && s'.lastUsed.Keys == s.lastUsed.Keys
  }

  ghost predicate QuietMove(s: State, s': State, t: Tid, pc: PC)
    requires t in s.threads
  {
    && Quiet(s, s') && s'.threads == s.threads[t := pc]
    && Reassigned(s.lock, s'.lock, t, Held(pc))
    && Pending(pc) == Pending(s.threads[t]) && Carried(pc) == Carried(s.threads[t])
    && (SlotIsStale(s.threads[t]) ==> SlotIsStale(pc) && Held(pc) == Held(s.threads[t]))
    && PcOk(s, pc)
  }

  lemma QuietTables(cfg: Config, s: State, s': State)
    requires TablesOk(cfg, s) && Quiet(s, s')
    ensures TablesOk(cfg, s')
  {
  }

  lemma QuietEntries(s: State, s': State)
    requires EntriesOk(s) && Quiet(s, s')
    ensures EntriesOk(s')
  {
    assert forall e :: Mapped(s', e) == Mapped(s, e);
  }

  // A step that unmaps some entries, each of them detached or marked, and
  // perhaps maps new ones.
  ghost predicate Unmaps(s: State, s': State, removed: set<EntryId>) {
    && (forall d :: d in s'.udidOf && d !in s.udidOf ==> Mapped(s', d))
    && (forall d :: d in s.udidOf ==> Mapped(s', d) == (Mapped(s, d) && d !in removed))
  }

  ghost predicate Marks(s: State, s': State, removed: set<EntryId>) {
    && s.udidOf.Keys <= s'.udidOf.Keys && s.gone <= s'.gone
    && (forall d :: d in s'.gone ==> d !in s'.helper)
    && (forall d :: d in s'.helper ==> d in s'.udidOf)
    && (forall d :: d in s.udidOf && d !in s'.gone && (d in removed || d in s.detacher) ==> d in s'.detacher)
    && (forall d :: d in s'.detacher ==> d in s.udidOf && (d in s.detacher || d in removed))
  }

  lemma EntriesKeep(s: State, s': State, removed: set<EntryId>)
    requires EntriesOk(s) && Unmaps(s, s', removed) && Marks(s, s', removed)
    ensures EntriesOk(s')
  {
    hide Mapped;
  }

  lemma SameHelpers(s: State, s': State)
    requires HelpersOk(s) && SameSlots(s, s')
    ensures HelpersOk(s')
  {
  }

  lemma QuietHandover(s: State, s': State, t: Tid, pc: PC)
    requires ClaimsOk(s) && t in s.threads && QuietMove(s, s', t, pc)
    ensures Frame(s, s', t) && Handover(s, s', t, pc)
  {
    hide PcOk;
    KeepsDetachers(s, s', t, pc);
    KeepsCarriers(s, s', t, pc);
  }

  lemma QuietStale(s: State, s': State, t: Tid, pc: PC)
    requires ClaimsOk(s) && StaleOk(s) && t in s.threads && QuietMove(s, s', t, pc)
    ensures StaleStep(s, s', t, pc)
  {
    hide PcOk;
    HoldsItsLocks(s, t);
  }

  lemma QuietPc(s: State, s': State, t: Tid, pc: PC)
    requires t in s.threads && QuietMove(s, s', t, pc)
    ensures PcOk(s', pc) && SameSlots(s, s') && Quiet(s, s')
  {
  }

  lemma QuietKeeps(cfg: Config, s: State, s': State, t: Tid, pc: PC)
    requires Inv(cfg, s) && t in s.threads && QuietMove(s, s', t, pc)
    ensures Inv(cfg, s')
  {
    hide *;
    Parts(cfg, s, t);
    QuietPc(s, s', t, pc);
    QuietTables(cfg, s, s');
    QuietEntries(s, s');
    SameHelpers(s, s');
    QuietHandover(s, s', t, pc);
    QuietStale(s, s', t, pc);
    StepOk(cfg, s, s', t, pc);
  }

  // t moves on without touching a lock.
  lemma GoesQuietly(s: State, s': State, t: Tid, pc: PC)
    requires ClaimsOk(s) && t in s.threads && Goes(s, s', t, pc) && PcOk(s, pc)
    requires Held(pc) == Held(s.threads[t]) && Pending(pc) == Pending(s.threads[t]) && Carried(pc) == Carried(s.threads[t])
    requires SlotIsStale(s.threads[t]) ==> SlotIsStale(pc)
    ensures QuietMove(s, s', t, pc)
  {
    hide PcOk;
    KeepsLocks(s, s', t, pc);
  }
}
