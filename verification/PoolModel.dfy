// The warm helper pool as a transition system. A thread of the pool is a
// program counter; one step of a thread is what it does between two points
// where another thread can interfere: taking a lock, trying a lock, talking to
// a helper process, or releasing a lock. Helper processes answer as they like.
module PoolModel {
  type Tid = nat
  type Udid = string
  type EntryId = nat
  type HelperId = nat

  const ATTEMPTS: nat := 4

  datatype Config = Config(maxTargets: nat, idleTtl: nat, cooldown: nat)

  datatype Lock = PoolMu | EntryMu(e: EntryId)

  datatype Victim = NoVictim | Victim(key: Udid, id: EntryId)

  datatype PC =
    | Done
    // Call
    | WantEntry(u: Udid, n: nat)
    | Scanning(u: Udid, n: nat, rem: set<Udid>, victim: Victim)
    | ClosingEvicted(u: Udid, n: nat, e: EntryId, h: HelperId)
    | WantLock(u: Udid, n: nat, e: EntryId)
    | Checking(u: Udid, n: nat, e: EntryId)
    | Running(u: Udid, e: EntryId)
    | InCall(u: Udid, e: EntryId, h: HelperId, first: bool)
    | Restarting(u: Udid, e: EntryId, h: HelperId)
    | Respawning(u: Udid, e: EntryId)
    | Failing(u: Udid, e: EntryId, h: HelperId, note: bool)
    | Noting(u: Udid, e: EntryId)
    | Marking(u: Udid, e: EntryId)
    | Unmapping(u: Udid, e: EntryId)
    | Unlocking(u: Udid, e: EntryId)
    // Drop
    | WantDrop(u: Udid)
    | WantDropLock(e: EntryId)
    | DropHolding(e: EntryId)
    // reapIdle
    | WantReap(at: nat)
    | Reaping(at: nat, rem: set<Udid>, hs: set<HelperId>)
    // Close
    | WantClose
    | CloseNext(ids: set<EntryId>)
    | WantCloseLock(e: EntryId, ids: set<EntryId>)
    | CloseHolding(e: EntryId, ids: set<EntryId>)
    // the helpers Drop and reapIdle close once they hold no lock
    | Closing(hs: set<HelperId>)

  // The pool's own fields come first, then the fields of its entries (one
  // column each, indexed by entry; no helper means the field is nil), then the
  // threads and the helper processes. The last three fields are bookkeeping
  // that no step reads: who detached an entry it has not marked yet, which
  // thread must close a helper, and which slot a live helper sits in.
  datatype State = State(
    now: nat,
    entries: map<Udid, EntryId>,
    failUntil: map<Udid, nat>,
    closed: bool,
    lock: map<Lock, Tid>,
    udidOf: map<EntryId, Udid>,
    lastUsed: map<EntryId, nat>,
    helper: map<EntryId, HelperId>,
    gone: set<EntryId>,
    threads: map<Tid, PC>,
    spawned: set<HelperId>,
    live: set<HelperId>,
    closes: multiset<HelperId>,
    detacher: map<EntryId, Tid>,
    carrier: map<HelperId, Tid>,
    slotOf: map<HelperId, EntryId>)

  // What a helper call can come back with. An action-level error leaves the
  // helper healthy, so the pool treats it like a result.
  datatype Outcome = Served | Undelivered | Delivered

  // What the environment decides in one step.
  datatype Choice = Choice(
    key: Udid, id: nat, spawnOk: bool,
    outcome: Outcome, opExpired: bool, callerGone: bool)

  datatype Action = Start(t: Tid, op: PC) | Tick(d: nat) | Step(t: Tid, c: Choice)

  const INITIAL := State(0, map[], map[], false, map[], map[], map[], map[], {}, map[],
                         {}, {}, multiset{}, map[], map[], map[])

  // ---------- what a step leaves alone ----------

  predicate SameMap(s: State, s': State) {
    s'.entries == s.entries && s'.closed == s.closed && s'.udidOf == s.udidOf
  }

  predicate SameSlots(s: State, s': State) {
    && s'.helper == s.helper && s'.gone == s.gone
    && s'.spawned == s.spawned && s'.live == s.live && s'.closes == s.closes
    && s'.carrier == s.carrier && s'.slotOf == s.slotOf
  }

  predicate SameRest(s: State, s': State) {
    s'.now == s.now && s'.lastUsed == s.lastUsed && s'.failUntil == s.failUntil
  }

  // t goes to pc; only locks and the clock fields may change as well.
  predicate Quietly(s: State, s': State, t: Tid, pc: PC) {
    && SameMap(s, s') && SameSlots(s, s') && s'.detacher == s.detacher && s'.now == s.now
    && s'.threads == s.threads[t := pc]
  }

  // t goes to pc and nothing else happens.
  predicate Goes(s: State, s': State, t: Tid, pc: PC) {
    Quietly(s, s', t, pc) && s'.lock == s.lock && SameRest(s, s')
  }

  // ---------- the effects steps share ----------

  // A new, empty entry for u.
  predicate Adds(s: State, s': State, u: Udid, e: EntryId) {
    && e !in s.udidOf && s'.udidOf == s.udidOf[e := u] && s'.closed == s.closed
    && s'.lastUsed == s.lastUsed[e := s.now]
  }

  // A helper process appears and is stored in e.helper.
  predicate Spawns(s: State, s': State, e: EntryId, h: HelperId) {
    && h !in s.spawned && s'.spawned == s.spawned + {h} && s'.live == s.live + {h} && s'.closes == s.closes
    && s'.helper == s.helper[e := h] && s'.gone == s.gone
    && s'.carrier == s.carrier && s'.slotOf == s.slotOf[h := e]
  }

  // h.Close().
  predicate Closes(s: State, s': State, h: HelperId) {
    && s'.live == s.live - {h} && s'.closes == s.closes[h := s.closes[h] + 1] && s'.spawned == s.spawned
    && s'.carrier == s.carrier - {h} && s'.slotOf == s.slotOf - {h}
  }

  // e.helper = nil; e.gone = true. Thread t is left with the helper, if any.
  predicate Takes(s: State, s': State, t: Tid, e: EntryId) {
    && s'.gone == s.gone + {e} && s'.helper == s.helper - {e}
    && s'.spawned == s.spawned && s'.live == s.live && s'.closes == s.closes
    && s'.carrier == (if e in s.helper then s.carrier[s.helper[e] := t] else s.carrier)
    && s'.slotOf == (if e in s.helper then s.slotOf - {s.helper[e]} else s.slotOf)
  }

  function Taken(s: State, e: EntryId): set<HelperId> {
    if e in s.helper then {s.helper[e]} else {}
  }

  // ---------- Call ----------

  predicate CoolingDown(s: State, u: Udid) {
    u in s.failUntil && s.now < s.failUntil[u]
  }

  predicate WantEntryStep(cfg: Config, s: State, s': State, t: Tid, u: Udid, n: nat, c: Choice) {
    && PoolMu !in s.lock
    && if s.closed then Goes(s, s', t, Done)
       else if u in s.entries then Goes(s, s', t, WantLock(u, n, s.entries[u]))
       else if CoolingDown(s, u) then Goes(s, s', t, Done)
       else if |s.entries| >= cfg.maxTargets then StartsScan(s, s', t, u, n)
       else AddsSlot(s, s', t, u, n, c.id)
  }

  predicate StartsScan(s: State, s': State, t: Tid, u: Udid, n: nat) {
    && Quietly(s, s', t, Scanning(u, n, s.entries.Keys, NoVictim)) && s'.lastUsed == s.lastUsed
    && s'.failUntil == s.failUntil - {u} && s'.lock == s.lock[PoolMu := t]
  }

  predicate AddsSlot(s: State, s': State, t: Tid, u: Udid, n: nat, e: EntryId) {
    && Adds(s, s', u, e) && s'.entries == s.entries[u := e]
    && SameSlots(s, s') && s'.detacher == s.detacher && s'.now == s.now && s'.lock == s.lock
    && s'.failUntil == s.failUntil - {u} && s'.threads == s.threads[t := WantLock(u, n, e)]
  }

  // evictLRULocked looks at one more entry: TryLock, compare, keep or let go.
  predicate ScanStep(s: State, s': State, t: Tid, u: Udid, n: nat, rem: set<Udid>, v: Victim, key: Udid) {
    && key in rem && key in s.entries
    && var v' := Prefer(s, v, Victim(key, s.entries[key]));
       && Quietly(s, s', t, Scanning(u, n, rem - {key}, v')) && SameRest(s, s')
       && s'.lock == if v' == v then s.lock
                     else if v.NoVictim? then s.lock[EntryMu(v'.id) := t]
                     else (s.lock - {EntryMu(v.id)})[EntryMu(v'.id) := t]
  }

  // The less recently used of the victim so far and the entry just looked at,
  // which counts only if nobody holds it.
  function Prefer(s: State, v: Victim, w: Victim): Victim
    requires w.Victim?
  {
    if EntryMu(w.id) in s.lock then v
    else if v.NoVictim? then w
    else if LastUsed(s, w.id) < LastUsed(s, v.id) then w
    else v
  }

  function LastUsed(s: State, e: EntryId): nat {
    if e in s.lastUsed then s.lastUsed[e] else 0
  }

  // evictLRULocked has looked at every entry: detach the victim and give its
  // slot to a new entry, or report that every slot is busy.
  predicate ScannedStep(s: State, s': State, t: Tid, u: Udid, n: nat, v: Victim, e: EntryId) {
    if v.NoVictim? then
      Quietly(s, s', t, Done) && SameRest(s, s') && s'.lock == s.lock - {PoolMu}
    else
      && Takes(s, s', t, v.id) && Adds(s, s', u, e)
      && s'.entries == (s.entries - {v.key})[u := e] && s'.lock == s.lock - {PoolMu, EntryMu(v.id)}
      && s'.now == s.now && s'.failUntil == s.failUntil && s'.detacher == s.detacher
      && s'.threads == s.threads[t :=
           if v.id in s.helper then ClosingEvicted(u, n, e, s.helper[v.id]) else WantLock(u, n, e)]
  }

  // Close a helper: one that t alone knows, or one that still sits in t's slot.
  predicate CloseStep(s: State, s': State, t: Tid, h: HelperId, pc: PC) {
    && Closes(s, s', h) && s'.helper == s.helper && s'.gone == s.gone && SameMap(s, s') && SameRest(s, s')
    && s'.lock == s.lock && s'.detacher == s.detacher && s'.threads == s.threads[t := pc]
  }

  predicate LockStep(s: State, s': State, t: Tid, e: EntryId, pc: PC) {
    Quietly(s, s', t, pc) && SameRest(s, s') && EntryMu(e) !in s.lock && s'.lock == s.lock[EntryMu(e) := t]
  }

  predicate UnlockStep(s: State, s': State, t: Tid, e: EntryId, pc: PC) {
    Quietly(s, s', t, pc) && SameRest(s, s') && s'.lock == s.lock - {EntryMu(e)}
  }

  predicate CheckingStep(s: State, s': State, t: Tid, u: Udid, n: nat, e: EntryId) {
    if e in s.gone then UnlockStep(s, s', t, e, if n + 1 < ATTEMPTS then WantEntry(u, n + 1) else Done)
    else Goes(s, s', t, Running(u, e))
  }

  predicate SpawnStep(s: State, s': State, t: Tid, e: EntryId, h: HelperId, pc: PC) {
    && Spawns(s, s', e, h) && SameMap(s, s') && SameRest(s, s')
    && s'.lock == s.lock && s'.detacher == s.detacher && s'.threads == s.threads[t := pc]
  }

  predicate RunningStep(s: State, s': State, t: Tid, u: Udid, e: EntryId, c: Choice) {
    if e in s.helper then Goes(s, s', t, InCall(u, e, s.helper[e], true))
    else if c.spawnOk then SpawnStep(s, s', t, e, c.id, InCall(u, e, c.id, true))
    else Goes(s, s', t, Noting(u, e))
  }

  predicate InCallStep(s: State, s': State, t: Tid, u: Udid, e: EntryId, h: HelperId, first: bool, c: Choice) {
    && (c.callerGone ==> c.opExpired)
    && match c.outcome
       case Served =>
         && Quietly(s, s', t, Done) && s'.failUntil == s.failUntil
         && s'.lastUsed == s.lastUsed[e := s.now] && s'.lock == s.lock - {EntryMu(e)}
       case Undelivered =>
         Goes(s, s', t, if first && !c.opExpired then Restarting(u, e, h) else Failing(u, e, h, !c.callerGone))
       case Delivered => Goes(s, s', t, Failing(u, e, h, !c.callerGone))
  }

  predicate RespawningStep(s: State, s': State, t: Tid, u: Udid, e: EntryId, c: Choice) {
    if c.spawnOk then SpawnStep(s, s', t, e, c.id, InCall(u, e, c.id, false))
    else ClearStep(s, s', t, e, s.gone, Noting(u, e))
  }

  // e.helper = nil for a slot whose helper is already closed, or empty.
  predicate ClearStep(s: State, s': State, t: Tid, e: EntryId, gone: set<EntryId>, pc: PC) {
    && s'.helper == s.helper - {e} && s'.gone == gone
    && s'.spawned == s.spawned && s'.live == s.live && s'.closes == s.closes
    && s'.carrier == s.carrier && s'.slotOf == s.slotOf && s'.detacher == s.detacher
    && SameMap(s, s') && SameRest(s, s') && s'.lock == s.lock && s'.threads == s.threads[t := pc]
  }

  predicate NotingStep(cfg: Config, s: State, s': State, t: Tid, u: Udid, e: EntryId) {
    && PoolMu !in s.lock && Quietly(s, s', t, Marking(u, e))
    && s'.lock == s.lock && s'.lastUsed == s.lastUsed
    && s'.failUntil == s.failUntil[u := s.now + cfg.cooldown]
  }

  // evict deletes the entry from the map only if it is still the one there.
  predicate UnmappingStep(s: State, s': State, t: Tid, u: Udid, e: EntryId) {
    && PoolMu !in s.lock
    && s'.entries == (if u in s.entries && s.entries[u] == e then s.entries - {u} else s.entries)
    && s'.closed == s.closed && s'.udidOf == s.udidOf && SameSlots(s, s') && SameRest(s, s')
    && s'.lock == s.lock && s'.detacher == s.detacher && s'.threads == s.threads[t := Unlocking(u, e)]
  }

  // ---------- Drop ----------

  predicate WantDropStep(s: State, s': State, t: Tid, u: Udid) {
    && PoolMu !in s.lock && s'.failUntil == s.failUntil - {u} && s'.lastUsed == s.lastUsed && s'.lock == s.lock
    && if u in s.entries then DropsMapping(s, s', t, u) else Quietly(s, s', t, Done)
  }

  predicate DropsMapping(s: State, s': State, t: Tid, u: Udid)
    requires u in s.entries
  {
    && s'.entries == s.entries - {u} && s'.detacher == s.detacher[s.entries[u] := t]
    && s'.closed == s.closed && s'.udidOf == s.udidOf && SameSlots(s, s') && s'.now == s.now
    && s'.threads == s.threads[t := WantDropLock(s.entries[u])]
  }

  predicate DropHoldingStep(s: State, s': State, t: Tid, e: EntryId) {
    && Takes(s, s', t, e) && SameMap(s, s') && SameRest(s, s')
    && s'.lock == s.lock - {EntryMu(e)} && s'.detacher == s.detacher - {e}
    && s'.threads == s.threads[t := Closing(Taken(s, e))]
  }

  // ---------- reapIdle ----------

  predicate WantReapStep(s: State, s': State, t: Tid, at: nat) {
    && PoolMu !in s.lock && Quietly(s, s', t, Reaping(at, s.entries.Keys, {})) && SameRest(s, s')
    && s'.lock == s.lock[PoolMu := t]
  }

  // reapIdle looks at one more entry: TryLock, take the helper if it is idle.
  predicate ReapStep(cfg: Config, s: State, s': State, t: Tid, at: nat, rem: set<Udid>, hs: set<HelperId>, key: Udid) {
    && key in rem && key in s.entries
    && var e := s.entries[key];
       if EntryMu(e) in s.lock || e !in s.helper || at - LastUsed(s, e) < cfg.idleTtl
       then Goes(s, s', t, Reaping(at, rem - {key}, hs))
       else ReapsSlot(s, s', t, at, rem, hs, key)
  }

  predicate ReapsSlot(s: State, s': State, t: Tid, at: nat, rem: set<Udid>, hs: set<HelperId>, key: Udid)
    requires key in s.entries && s.entries[key] in s.helper
  {
    && Takes(s, s', t, s.entries[key]) && s'.entries == s.entries - {key}
    && s'.closed == s.closed && s'.udidOf == s.udidOf && SameRest(s, s')
    && s'.lock == s.lock && s'.detacher == s.detacher
    && s'.threads == s.threads[t := Reaping(at, rem - {key}, hs + {s.helper[s.entries[key]]})]
  }

  predicate ReapedStep(s: State, s': State, t: Tid, hs: set<HelperId>) {
    Quietly(s, s', t, Closing(hs)) && SameRest(s, s') && s'.lock == s.lock - {PoolMu}
  }

  // ---------- Close ----------

  predicate WantCloseStep(s: State, s': State, t: Tid) {
    && PoolMu !in s.lock
    && if s.closed then Goes(s, s', t, Done)
       else
         && s'.closed && s'.entries == map[] && s'.udidOf == s.udidOf && SameSlots(s, s') && SameRest(s, s')
         && s'.lock == s.lock
         && s'.detacher == s.detacher + (map e | e in s.entries.Values :: t)
         && s'.threads == s.threads[t := CloseNext(s.entries.Values)]
  }

  predicate CloseNextStep(s: State, s': State, t: Tid, ids: set<EntryId>, e: EntryId) {
    if ids == {} then Goes(s, s', t, Done) else e in ids && Goes(s, s', t, WantCloseLock(e, ids))
  }

  predicate CloseHoldingStep(s: State, s': State, t: Tid, e: EntryId, ids: set<EntryId>) {
    && (if e in s.helper then Closes(s, s', s.helper[e])
        else && s'.spawned == s.spawned && s'.live == s.live && s'.closes == s.closes
             && s'.carrier == s.carrier && s'.slotOf == s.slotOf)
    && s'.helper == s.helper - {e} && s'.gone == s.gone + {e} && SameMap(s, s') && SameRest(s, s')
    && s'.lock == s.lock - {EntryMu(e)} && s'.detacher == s.detacher - {e}
    && s'.threads == s.threads[t := CloseNext(ids - {e})]
  }

  predicate ClosingStep(s: State, s': State, t: Tid, hs: set<HelperId>, h: HelperId) {
    if hs == {} then Goes(s, s', t, Done)
    else h in hs && CloseStep(s, s', t, h, Closing(hs - {h}))
  }

  // ---------- one step of one thread ----------

  predicate ThreadStep(cfg: Config, s: State, s': State, t: Tid, c: Choice)
    requires t in s.threads
  {
    match s.threads[t]
    case Done => false
    case WantEntry(u, n) => WantEntryStep(cfg, s, s', t, u, n, c)
    case Scanning(u, n, rem, v) =>
      if rem != {} then ScanStep(s, s', t, u, n, rem, v, c.key) else ScannedStep(s, s', t, u, n, v, c.id)
    case ClosingEvicted(u, n, e, h) => CloseStep(s, s', t, h, WantLock(u, n, e))
    case WantLock(u, n, e) => LockStep(s, s', t, e, Checking(u, n, e))
    case Checking(u, n, e) => CheckingStep(s, s', t, u, n, e)
    case Running(u, e) => RunningStep(s, s', t, u, e, c)
    case InCall(u, e, h, first) => InCallStep(s, s', t, u, e, h, first, c)
    case Restarting(u, e, h) => CloseStep(s, s', t, h, Respawning(u, e))
    case Respawning(u, e) => RespawningStep(s, s', t, u, e, c)
    case Failing(u, e, h, note) => CloseStep(s, s', t, h, if note then Noting(u, e) else Marking(u, e))
    case Noting(u, e) => NotingStep(cfg, s, s', t, u, e)
    case Marking(u, e) => ClearStep(s, s', t, e, s.gone + {e}, Unmapping(u, e))
    case Unmapping(u, e) => UnmappingStep(s, s', t, u, e)
    case Unlocking(_, e) => UnlockStep(s, s', t, e, Done)
    case WantDrop(u) => WantDropStep(s, s', t, u)
    case WantDropLock(e) => LockStep(s, s', t, e, DropHolding(e))
    case DropHolding(e) => DropHoldingStep(s, s', t, e)
    case WantReap(at) => WantReapStep(s, s', t, at)
    case Reaping(at, rem, hs) => if rem != {} then ReapStep(cfg, s, s', t, at, rem, hs, c.key) else ReapedStep(s, s', t, hs)
    case WantClose => WantCloseStep(s, s', t)
    case CloseNext(ids) => CloseNextStep(s, s', t, ids, c.id)
    case WantCloseLock(e, ids) => LockStep(s, s', t, e, CloseHolding(e, ids))
    case CloseHolding(e, ids) => CloseHoldingStep(s, s', t, e, ids)
    case Closing(hs) => ClosingStep(s, s', t, hs, c.id)
  }

  predicate IsOperation(s: State, op: PC) {
    || (op.WantEntry? && op.n == 0)
    || op.WantDrop?
    || (op.WantReap? && op.at == s.now)
    || op.WantClose?
  }

  predicate Starts(s: State, s': State, t: Tid, op: PC) {
    t !in s.threads && IsOperation(s, op) && Goes(s, s', t, op)
  }

  predicate Next(cfg: Config, s: State, a: Action, s': State) {
    match a
    case Start(t, op) => Starts(s, s', t, op)
    case Tick(d) => s' == s.(now := s.now + d)
    case Step(t, c) => t in s.threads && ThreadStep(cfg, s, s', t, c)
  }

  // An interleaving of any number of threads, from an empty pool.
  ghost predicate IsRun(cfg: Config, states: seq<State>, actions: seq<Action>) {
    && |states| == |actions| + 1
    && states[0] == INITIAL
    && forall i :: 0 <= i < |actions| ==> Next(cfg, states[i], actions[i], states[i + 1])
  }
}
