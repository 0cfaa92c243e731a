# Verified models of the manzanas fleet

manzanas leases iOS simulators and drives them for agents. A host daemon keeps
warm helper processes, sends inputs to simulators and reads their screens; a
broker federates many daemons. This project models the parts of that system
whose correctness is hardest to see and proves what they promise, for all
inputs, all failure schedules and all interleavings.

| file | what it models |
|---|---|
| `PoolModel`, `PoolInvariant`, `PoolSteps`, `PoolTheorems`, `PoolProgress`, `PoolCall`, `PoolUse`, `PoolEviction`, `PoolReap`, `PoolDrop` | the warm helper pool: every interleaving of Call, Drop, idle reaping, LRU eviction and Close, in steps between lock operations |
| `Delivery`, `Observe` | one input through pool replay, warm dispatch and cold fallback, whole sessions of inputs, and the retry loops of observations |
| `LoadLedger`, `LoadRace` | the broker's tables and load counters, method by method, and with methods interleaving |
| `LeaseAcquire` | speculative lease acquisition, release and orphans |
| `KeepAlive` | reconciliation against a daemon's queue timeout, as a timed system |
| `Fleet`, `Ranking` | label matching, and warm-first placement with rotating ties |
| `DecisionLog`, `Hints` | the ring of placement decisions, and the advice drawn from it |
| `Breaker`, `Ladder` | the accessibility circuit breaker, and the resolution ladder over it |
| `Compaction`, `Tree`, `TreeFilter` | compaction and filtering of accessibility trees |
| `Dsl`, `DslOrder`, `FindBest` | the element query language, the order of its results, and ranked search |
| `TextSet`, `Scroll`, `Collect`, `Stability` | scroll, harvest and stability loops over arbitrary observations |

`Common` holds an option type and a few facts about sequences, maps and
remainders. `dafny verify dfyconfig.toml` verifies everything.

The outside world - daemons, helper processes, screens, clocks - is an arbitrary
input: an oracle parameter or a nondeterministic step. What is taken for granted
about it is stated where it is used: a helper performs a request at most once and
answers it under its own id, with "ok" only if it is performed and "unknown op"
only if it is not; a request whose write failed is not performed; daemons give
out lease ids once; tree hashes are not empty; a rung that reports a match off
the viewport found it among the nodes it observed; and, for the claim that
reconciliation is no keep-alive, replies that arrive do so within two minutes.

## Where the code does less than its comments say

- `LoadRace.OvertakingLeaks`: the counters are adjusted after the broker's lock is
  dropped. If reconciliation forgets a lease before its increment lands, the clamp
  at zero swallows the decrement and the host carries a lease too many for good.
  `LoadRace.BalancedIffNeverAhead` says exactly when the books balance: if and only if
  at no time more decrements than increments of the host had landed. Increments that
  land before their own decrements are enough (`LoadRace.OrderedRunsLoseNothing`).
- `LeaseAcquire.EarlierKeptUnlessOutqueued`: of two grants that both went active
  the earlier is kept, except when it was being dropped for a shallower queue;
  then the newer one is.
- `KeepAlive.RenewalsFollowLosses`: reconciliation renews an abandoned lease once for
  each lost reply to its own requests, and at most once more; so without end if they
  keep getting lost (`KeepAlive.LostRepliesRenewWithoutEnd`), at most once if they
  arrive (`KeepAlive.AbandonedLeasesEnd`), and not at all if client polls go through the
  broker and are heard (`KeepAlive.ReconciliationIsNoKeepAlive`).
- `Compaction.RecompactionIsIdentityIff`: a role is trimmed, then one `AX` prefix is
  stripped, so compacting a compacted tree is the identity exactly when reading and
  normalising any of its roles again leaves it as it is. `AXAX…` and `AX …` with a blank
  behind the prefix do not.
- `TreeFilter.FilterIsIdempotentIff`: with chrome exclusion a second filtering can
  drop more, because a bar-shaped slider is a scroll indicator only without children;
  it does so exactly when a wanted node of that kind loses all its children.
- `DslOrder.DepthFirstIffNestedInOrder`: candidates are documented as depth-first; the
  unconstrained `parent_of` form orders them by first matched child, which is
  depth-first exactly when, where one parent lies below another, every match of the
  lower one comes after some match of the upper one.
- `LoadLedger.Broker.RememberLease`, `LoadLedger.Broker.RememberRun`: remembering an id
  that already counts breaks the balance; ids that do not keep it, and only those.

## Model

| member | source | states |
|---|---|---|
| PoolSteps.NextKeeps | internal/actions/warm_pool.go:103-338 | every step of every thread keeps the pool's invariant: locks, slots, helpers, detachers and carriers agree |
| PoolSteps.RunKeeps | internal/actions/warm_pool.go:103-338 | the invariant holds in every state of every interleaving |
| PoolTheorems.CapacityHolds | internal/actions/warm_pool.go:174-231 | the map never exceeds MaxTargets, and is empty once the pool is closed |
| PoolTheorems.CallHoldsItsHelper | internal/actions/warm_pool.go:122-160 | a call in flight holds its entry's lock, and its helper is live and in that entry |
| PoolTheorems.OneCallPerHelper | internal/actions/warm_pool.go:103-160 | no helper serves two calls at once, and no call runs on a closed helper |
| PoolTheorems.LiveHelpersAreOwned | internal/actions/warm_pool.go:206-338 | every spawned helper not yet closed is in a mapped entry, in a detached entry whose detacher is pending, or carried by a running thread |
| PoolTheorems.ClosedAtMostOnce | internal/actions/warm_pool.go:103-338 | no helper is closed twice, and only spawned ones are closed |
| PoolTheorems.NoLeakAfterClose | internal/actions/warm_pool.go:318-338 | once Close has run and every operation finished, every helper ever spawned was closed exactly once |
| PoolTheorems.LateEvictSparesSuccessor | internal/actions/warm_pool.go:266-274 | in every run a late failure eviction finds its entry marked, empty and locked by itself, and leaves every other entry mapped with slot and helper as they were |
| PoolTheorems.EntriesAreAccountedFor | internal/actions/warm_pool.go:206-338 | every entry is mapped, marked gone with an empty slot, or about to be marked by its detacher |
| PoolProgress.SomebodyCanStep | internal/actions/warm_pool.go:103-338 | in a state with an unfinished operation the holder of the pool lock can step, else the holder of the entry lock waited for, else the thread itself |
| PoolProgress.DeadlockFree | internal/actions/warm_pool.go:103-338 | no reachable state with an unfinished operation is stuck |
| PoolProgress.PoolHolderNeverBlocks | internal/actions/warm_pool.go:206-315 | the holder of the pool lock can always step: it only tries entry locks |
| PoolCall.CallsAreComplete | internal/actions/warm_pool.go:103-160 | in every interleaving a finished call lost its slot four times, was turned away, had a request served (its first or one replay after an undelivered failure in time), or failed, noted that unless the caller went away, and gave its slot up; nothing else |
| PoolCall.CoolingTargetsAreTurnedAway | internal/actions/warm_pool.go:174-203 | in every interleaving a call is turned away exactly when the pool is closed, or its target has no slot and a failure was noted less than the cooldown ago with no drop since |
| PoolCall.CallsUseTheSlot | internal/actions/warm_pool.go:103-146 | a slot is lost exactly when it was detached, a call goes without a helper exactly when the slot has none and none starts, and what it talks to is the slot's helper or one just started |
| PoolCall.CallsFindTheSlot | internal/actions/warm_pool.go:174-231 | a mapped target's own slot is taken, a victim is looked for only without room, and all slots are called busy exactly when the scan ends without one |
| PoolUse.StampIsLastUse | internal/actions/warm_pool.go:122-203 | in every state of every run an entry's time stamp is the time of the last call served on it, or of its creation |
| PoolReap.ReapsExactlyTheIdle | internal/actions/warm_pool.go:294-315 | in every interleaving a finished sweep has looked at every slot mapped when it began, and took exactly the helpers of slots that nobody was on and no call had used for IdleTTL; exactly those slots left the map |
| PoolReap.SweepsGoByTheirStart | internal/actions/warm_pool.go:294-296 | a sweep compares with the time at which it was started |
| PoolDrop.DropMeansFreshHelper | internal/actions/warm_pool.go:233-255 | in every interleaving a call for a target, started after Drop took it out of the map, never runs on a helper that existed then |
| PoolEviction.EvictsLeastRecentlyUsed | internal/actions/warm_pool.go:206-231 | in every interleaving a finished scan has looked at every slot; its victim was idle then, and the last call served on it (or its creation) was no later than that of any slot found idle; without a victim all were in use when looked at |
| Delivery.AtMostOnce | internal/actions/warm_pool.go:135-146 | a trace of honest attempts that retries only after "nothing happened" performs the input at most once, exactly once on success |
| Delivery.ProcHelper.Call | internal/actions/warm_helper.go:146-200 | one request over the stream: a helper in step that answers this id gives this request's answer or its error, an unwritten request is undelivered, everything else a delivered failure; the outcome is honest |
| Delivery.ProcHelper.Close | internal/actions/warm_helper.go:202-209 | a closed helper stays closed, so later calls fail undelivered |
| Delivery.Slot.Call | internal/actions/warm_pool.go:122-160 | a helper that answers ok serves the request in one attempt; at most two attempts, the second on a fresh helper exactly after an undelivered failure within the deadline; transport failures empty the slot, and every helper ever started for it but the one inside is closed |
| Delivery.Slot.Replay | internal/actions/warm_pool.go:137-146 | the replay closes the old helper first, the restarted one's ok answer is the result, and the input is still performed at most once |
| Delivery.DispatchHid | internal/actions/axe.go:189-204 | a slot with a resident or startable helper that answers ok serves the input in one warm attempt; the input goes cold exactly when the helper left the simulator untouched, with the command line's outcome; delivered failures surface as such |
| Delivery.DispatchWarm | internal/actions/warm.go:206-230 | the warm path of an input: what the helper answers is the result, nothing delivered means the cold backend, a delivered failure surfaces |
| Delivery.Dispatch | internal/actions/warm.go:115-249 | one input through all layers reaches the simulator at most once, exactly once on success, with its own result; in one warm attempt when the helper answers ok, in two when it had to be restarted, cold alone when routed so |
| Delivery.Session | internal/actions/warm.go:115-249 | a whole session on one slot, unread lines surviving between inputs: inputs land in order, none twice, every success landed with its own result, and each input routed cold has the command line's outcome |
| Observe.WarmObserveTree | internal/actions/warm.go:410-448 | at most eight pool calls, each performed at most once; the loop goes on exactly after transient errors, unreadable descriptions and the first two empty trees; a full tree is the result at once; any transport failure ends it |
| Observe.ColdObserveTree | internal/actions/observe.go:135-174 | the same loop on the command line, each call with that command's outcome |
| Observe.DispatchObserve | internal/actions/warm.go:211-230 | the cold loop runs exactly after a refresh or a warm transport failure, delivered or not; no transport failure surfaces; at most one execution per call of either loop; the tree is the screen's own, at once if the first description is full |
| Observe.RetryAfterDelivery | internal/actions/warm.go:217-223 | on the modelled slot and command line, running an input cold after a delivered failure performs it twice, so the rule for inputs is needed |
| LoadLedger.Host.AddLease | internal/broker/health.go:195-205 | the counter and the bump move together unless the clamp fires, which is exactly when the counter would go negative |
| LoadLedger.Host.SetStats | internal/broker/health.go:219-225 | a snapshot resets the bump and leaves the counter |
| LoadLedger.Host.EffectiveLoad | internal/broker/health.go:231-241 | daemon truth plus the net grants since the snapshot, never negative; the own counter without a snapshot |
| LoadLedger.Broker.RememberLease | internal/broker/broker.go:183-188 | the books stay balanced if and only if the id does not already count |
| LoadLedger.Broker.NoteLeaseState | internal/broker/broker.go:193-204 | records the state, tombstones terminal leases, keeps every counter equal to its load |
| LoadLedger.Broker.MarkLeaseTerminal | internal/broker/broker.go:209-224 | the entry stays as a tombstone and its load is discharged exactly once |
| LoadLedger.Broker.ForgetLease | internal/broker/broker.go:227-236 | the entry goes, and its load only if it still counted |
| LoadLedger.Broker.PruneTombstones | internal/broker/reconcile.go:121-129 | exactly the tombstones past retention go, and no load moves |
| LoadLedger.Broker.ReconcileLeases | internal/broker/reconcile.go:28-83 | a round asks about exactly the host's live entries that are active, or queued and not polled for QueueWaitTTL and two minutes; a queued entry polled more recently is left as it is; what is asked about follows the daemon's answer, every other entry is untouched, counters stay equal to loads |
| LoadLedger.Broker.RememberRun | internal/broker/runs.go:55-78 | outdated routes go, each that counted is unloaded once, the new run counts if loaded; the books stay balanced if and only if the id did not still count, else its old host is one too high |
| LoadLedger.Broker.SettleRun | internal/broker/runs.go:82-93 | a settled run stops counting, once |
| LoadLedger.Broker.ReconcileRuns | internal/broker/runs.go:97-134 | exactly the runs reported finished or unknown stop counting |
| LoadRace.Conservation | internal/broker/broker.go:183-236 | in every interleaving counter plus increments under way minus decrements under way is load plus losses; no decrement is asked for twice |
| LoadRace.NothingLostIffNeverAhead | internal/broker/health.go:195-205 | the clamp swallowed nothing of a host if and only if at no time more of its decrements than increments had landed |
| LoadRace.BalancedIffNeverAhead | internal/broker/broker.go:183-236 | with nothing under way a counter equals its load if and only if decrements were never ahead of increments |
| LoadRace.LossIsPermanent | internal/broker/health.go:195-205 | a swallowed decrement is never made up for |
| LoadRace.ClampNeedsOvertaking | internal/broker/health.go:195-205 | the clamp fires only where some decrement landed before its own increment |
| LoadRace.OrderedRunsLoseNothing | internal/broker/runs.go:55-93 | if increments land before their decrements the clamp never fires and counters equal loads at rest |
| LoadRace.OvertakingLeaks | internal/broker/broker.go:183-236 | a concrete interleaving that leaves a counter at one with no entry |
| LeaseAcquire.ReleaseQuietly | internal/broker/leases.go:406-422 | a lease whose release is not confirmed becomes an orphan, and no other |
| LeaseAcquire.ReleaseSpeculative | internal/broker/leases.go:388-399 | with a reset pending a lease that went active is handed back instead of released |
| LeaseAcquire.ReleaseOrphans | internal/broker/reconcile.go:88-108 | an id leaves the orphan table exactly when its daemon answers below 500 |
| LeaseAcquire.Consider | internal/broker/leases.go:107-135 | the loop body for a received lease decides as specified and settles what it drops |
| LeaseAcquire.DecideKeepsOne | internal/broker/leases.go:107-135 | of the leases in hand one is kept and the other dropped, what is granted is active, an active answer ends the search, and no lease found active is dropped for one that waits |
| LeaseAcquire.EarlierKeptUnlessOutqueued | internal/broker/leases.go:113-135 | of two active grants the earlier is kept if and only if it was not being dropped for a shallower queue |
| LeaseAcquire.NewerCanWin | internal/broker/leases.go:113-135 | a case in which the newer grant is kept |
| LeaseAcquire.WorstErrorMeans | internal/broker/leases.go:88-104 | the daemon error reported is the first 5xx, else the first error, and none exactly when there was none |
| LeaseAcquire.Acquire | internal/broker/leases.go:62-171 | at most one lease is remembered and delivered, never a released one; every other received lease was released once, confirmed or orphaned; with a reset pending no active lease is released while the client is told to wait; when all queue the earliest of minimal depth is kept; errors only when nothing was received, ranked |
| KeepAlive.ReconciliationIsNoKeepAlive | internal/broker/reconcile.go:13-83 | where polls are heard, a queued lease is picked only QueueWaitTTL and two minutes after its last touch, so it is over and the GET touches nothing |
| KeepAlive.RenewalsFollowLosses | internal/broker/reconcile.go:28-63 | in every run, renewals since a client last asked are as many as lost replies to requests that found the lease alive, or one more; it is over after two waiting periods and one more per lost reply |
| KeepAlive.AbandonedLeasesEnd | internal/broker/reconcile.go:43-60 | with its replies heard, reconciliation prolongs an abandoned lease at most once, however clients poll |
| KeepAlive.LostRepliesRenewWithoutEnd | internal/broker/reconcile.go:32-43 | with its own replies lost it renews beyond any bound |
| KeepAlive.SnapshotFindsDead | internal/broker/reconcile.go:69-83 | a lease that passes the guard is no longer alive at its daemon |
| KeepAlive.RoundFollows | internal/broker/reconcile.go:28-83 | the broker's own reconciliation round asks about an entry exactly when the timed model lets it, and leaves it as the delivered answer does there |
| KeepAlive.PollFollows | internal/broker/broker.go:193-204 | the broker's handling of a client poll leaves the entry as the timed model's delivery does |
| KeepAlive.AcquireFollows | internal/broker/broker.go:183-188 | and a remembered lease is the entry the timed model starts with |
| Fleet.StrippingPreservesMatching | internal/broker/leases.go:337-374 | a host matches a request if and only if one of the targets its daemon lists carries every label left after stripping host labels |
| Ranking.HostTier | internal/broker/placement.go:31-43 | warm exactly with status and a matching parked or booted target, saturated exactly with status, no such target and load, disk or the boot cap against another boot, else neutral |
| Ranking.WarmIdleCounts | internal/broker/placement.go:84-96 | the idle warm count is the number of parked targets that match |
| Ranking.StableSortFacts | internal/broker/placement.go:123-131 | the sort orders, permutes, and keeps ties in configured order |
| Ranking.RotateTies | internal/broker/placement.go:132-145 | the in-place loop rotates every run of equals by the counter |
| Ranking.RankCandidates | internal/broker/placement.go:115-147 | the ranking is the rotated stable sort of the eligible hosts |
| Ranking.RankingIsOrderedPermutation | internal/broker/placement.go:115-147 | a permutation of exactly the hosts that are up and match; even after rotation tiers never fall, within a tier loads never fall, at equal load the count of matching parked targets never rises |
| Ranking.TieIsRotatedConfigOrder | internal/broker/placement.go:132-145 | tied hosts stand together behind all better ones, in configured order rotated by the counter |
| Ranking.EachTiedHostLeadsOnce | internal/broker/placement.go:122-145 | over as many consecutive calls as hosts are tied each leads exactly once |
| Ranking.RankNext | internal/broker/placement.go:115-122 | a ranking uses the next value of the broker's counter |
| Ranking.RankWholeTie | internal/broker/placement.go:122-145 | as many rankings in a row, with the broker's counter, as hosts are tied put each of them first exactly once |
| LoadLedger.Broker.NextRR | internal/broker/broker.go:240-245 | the counter grows by one per ranking |
| DecisionLog.Ring.Add | internal/broker/explain.go:75-86 | adding to the ring appends to the history it represents |
| DecisionLog.Ring.Recent | internal/broker/explain.go:89-104 | reading gives the last min(n, length, 256) decisions, newest first, all retained ones for n not positive |
| DecisionLog.Ring.Window | internal/broker/explain.go:107-116 | the window is the retained history filtered by time |
| DecisionLog.SinceMeans | internal/broker/explain.go:107-116 | a decision is in the window exactly when it is retained and not before t |
| DecisionLog.Replay | internal/broker/explain.go:67-104 | after any sequence of adds the ring reads back as the plain history |
| Hints.SortedKeys | internal/broker/rebalance.go:136-143 | the keys of a table, each once, in ascending order |
| Hints.MeasureDemand | internal/broker/rebalance.go:57-86 | every placement is counted once, cold by class or warm by host, and the counts are those of the window |
| Hints.ColdCounts | internal/broker/rebalance.go:67-85 | a class's cold count is the number of its placements that were queued, or granted on a host that was not warm |
| Hints.WarmCounts | internal/broker/rebalance.go:78-83 | a host's warm hits are the instant grants on it while warm |
| Hints.PlacedCounts | internal/broker/rebalance.go:67-71 | every decision that granted or queued is a placement |
| Hints.LabelsAreFirst | internal/broker/rebalance.go:71-75 | a class carries the labels of its first placement |
| Hints.AdviseHost | internal/broker/rebalance.go:88-131 | a grow entry, with its cold and warm counts, for exactly the classes that ask for one, in order of their keys, else shrink if unused |
| Hints.GrowIsActionable | internal/broker/rebalance.go:93-114 | a grow entry names a nonempty label set that a target listed by that daemon carries in full |
| Hints.ComputeHints | internal/broker/rebalance.go:56-134 | exactly the up hosts with something to hear are told, once each and in configured order; grow for all asking classes, shrink exactly when unused, never both |
| Breaker.OpensExactlyAtThreshold | internal/actions/resolver.go:178-205 | a key opens exactly at its third charge since its last honest observation or reset, and only a reset closes it |
| Breaker.AxBreaker.IsOpen | internal/actions/resolver.go:167-174 | the table says what the history says |
| Breaker.AxBreaker.Fail | internal/actions/resolver.go:178-194 | charges the key after clearing full tables; tables stay within 1025 keys and equal to the history |
| Breaker.AxBreaker.Succeed | internal/actions/resolver.go:198-205 | ends the key's streak and leaves open circuits open |
| Ladder.CountFailure | internal/actions/resolver.go:298-306 | the breaker is charged at most once per step |
| Ladder.TryRung | internal/actions/resolver.go:331-480 | one attempt leaves the step's variables, the cycle's counts, the clock and the breaker as the trace of answers says |
| Ladder.RunCycle | internal/actions/resolver.go:315-481 | one cycle attempts the rungs in order, all but those with an open circuit, unless the deadline passes, and counts what its own attempts say |
| Ladder.Resolve | internal/actions/resolver.go:264-543 | gives up only when its time is over, when a source broke and none may recover, or when open circuits leave nothing to try, so an element due within the budget is found; charged at most once, for a failed guarded attempt and then surely; open circuits left alone; first on-screen hit wins; verdict and evidence are those of the last answers; terminates |
| Ladder.ResolveAll | internal/actions/resolver.go:264-543 | n steps charge at most n times, so a fresh breaker opens no circuit before the third step; each finds what is due within its budget |
| Compaction.PruneDecoration | internal/actions/observe.go:260-275 | the in-place filter leaves exactly the children that are not decoration, in order |
| Compaction.DedupeSiblings | internal/actions/observe.go:288-305 | the in-place filter leaves first occurrences, in order |
| Compaction.FirstStringMeans | internal/actions/observe.go:355-367 | a text is the first candidate that holds more than blanks and nulls, else empty |
| Compaction.TrimMeans | internal/actions/observe.go:355-367 | trimming takes the blanks at either end and nothing else |
| Compaction.NodeIff | internal/actions/observe.go:228-330 | an element becomes a node exactly when its fields tell something or it is a leaf with an identifier; otherwise its contents take its place |
| Compaction.TellingSurvives | internal/actions/observe.go:212-330 | an element outside the wrapper roles, or with a text of its own, survives wherever it stands unless a labelled control around it covers it |
| Compaction.SurvivorsTell | internal/actions/observe.go:212-330 | every node of the result tells something or is a leaf with an identifier, and no control has a leaf it covers |
| Compaction.CompactTreeIsCanonical | internal/actions/observe.go:212-327 | no surviving node is noise or decoration, siblings are distinct, at every depth |
| Compaction.RecompactionIsIdentityIff | internal/actions/observe.go:202-353 | compacting again, with texts read again, changes nothing if and only if no role changes when it is read and normalised again |
| Compaction.SomeRolesChangeAgain | internal/actions/observe.go:347-369 | roles that change when read again, and a tree on which compacting again does change something |
| Compaction.CompactTreeKeepsActionable | internal/actions/observe.go:212-327 | every interactable or valued element appears with identical own fields, and no node is invented |
| Tree.OneParent | internal/actions/predicate_dsl.go:311-324 | an element of a tree has one parent |
| TreeFilter.FilterKeepsExactlyTheWanted | internal/actions/tree_filter.go:28-57 | the filtered tree is the input without chrome subtrees and without nodes wanted neither for themselves nor for a surviving descendant, in depth-first order |
| TreeFilter.LeavesFit | internal/actions/tree_filter.go:28-57 | no remaining leaf is passive or of another role when that is filtered for, and no keyboard, key or status bar remains without chrome |
| TreeFilter.FilterIsIdempotentIff | internal/actions/tree_filter.go:42-57 | filtering twice is filtering once if and only if the input has no wanted node below nothing dropped that loses all its children and is a scroll indicator without them; always without chrome exclusion |
| TreeFilter.SecondPassCanDropMore | internal/actions/chrome.go:35-53 | a tree on which a second pass drops more |
| Dsl.CollectMatches | internal/actions/predicate_dsl.go:244-248 | the collecting walk is the depth-first filter |
| Dsl.BuildParentMap | internal/actions/predicate_dsl.go:311-324 | the map gives every element its parent |
| Dsl.CollectParents | internal/actions/predicate_dsl.go:288-297 | the walk with a seen set collects direct parents in order of first matched child |
| Dsl.ContainsAnyMeans | internal/actions/predicate_dsl.go:301-308 | a strict descendant is found if and only if the walk below has one |
| Dsl.FilterForms | internal/actions/predicate_dsl.go:227-287 | the plain and field-constrained forms are the depth-first filter, by fields and by having a matched strict descendant |
| Dsl.DirectParentForm | internal/actions/predicate_dsl.go:267-298 | the unconstrained form is exactly the direct parents, ordered by first matched child |
| Dsl.CandidatesAreDistinct | internal/actions/predicate_dsl.go:227-298 | candidates are elements of the tree, no two the same |
| Dsl.NearFilters | internal/actions/predicate_dsl.go:249-260 | near filters the candidates there would be without it and never keeps the anchor |
| Dsl.NearPoints | internal/actions/predicate_dsl.go:420-461 | what is near lies on the named side of the anchor and level with it |
| Dsl.NearIsMutual | internal/actions/predicate_dsl.go:420-461 | of two elements one is near the other exactly when the other is near it on the opposite side |
| Dsl.BoxIsSmallest | internal/actions/predicate_dsl.go:369-393 | without a viewport the reference region is the smallest box around all elements with an area |
| Dsl.HalvesSplit | internal/actions/predicate_dsl.go:397-413 | a point is in exactly one of two opposite halves, corners are where their names say |
| Dsl.ResolvesIffUnique | internal/actions/predicate_dsl.go:205-223 | without an index an element is returned if and only if it is the only candidate |
| Dsl.IndexPicks | internal/actions/predicate_dsl.go:205-215 | with an index k candidate k is returned, or no match when there are not that many |
| Dsl.IndexPicksKth | internal/actions/predicate_dsl.go:205-248 | for a predicate over fields alone that is the element with exactly k matches before it in the walk |
| DslOrder.DepthFirstIffNestedInOrder | internal/actions/predicate_dsl.go:225-298 | the unconstrained form is the depth-first filter if and only if nested parents are in order |
| DslOrder.ParentsOutOfWalkOrder | internal/actions/predicate_dsl.go:288-297 | a tree and a predicate whose candidates do not come in depth-first order |
| FindBest.Search | internal/actions/predicate.go:155-174 | returns the strict minimum of the rank among all matches, nothing exactly when nothing matches |
| FindBest.BestIsUnique | internal/actions/predicate.go:128-145 | there is one best match |
| FindBest.VisibleMatchesWin | internal/actions/predicate.go:119-197 | the best match is on the viewport if any is and framed if any is; among those alike exact if any is, then interactable, then smallest, then first |
| TextSet.CollectTextSet | internal/actions/textset.go:90-111 | the walk collects exactly the normalised texts outside the masked bands |
| TextSet.BandsMean | internal/actions/textset.go:68-81 | masked is what is centred in the upper twentieth or the lowest three hundredths of the viewport |
| TextSet.Jaccard | internal/actions/textset.go:135-147 | the counting loop computes intersection over union |
| TextSet.OverlapFacts | internal/actions/textset.go:133-147 | the overlap is in [0,1], symmetric, and 1 exactly for equal sets |
| Scroll.SettleObservation | internal/actions/scroll_until.go:215-252 | settles at the first screen seen twice running with the same texts, else on the last readable one, and fails exactly at the first hard failure |
| Scroll.Grace | internal/actions/scroll_until.go:170-185 | of two looks the one that moved more counts |
| Scroll.ListScrollLoop | internal/actions/scroll_until.go:121-208 | scroll, screen and history counts, a second look at every screen that seems unmoved when time allows and the lesser overlap of the two, overlaps between consecutive screens, end of list exactly after two unmoved gestures without a stop, and why every other run ended |
| Collect.HarvestTexts | internal/actions/scroll_collect.go:85-132 | one screen yields each visible key not seen before, once, with the trimmed text and the frame of a visible element that shows it |
| Collect.CollectTexts | internal/actions/scroll_collect.go:24-43 | a finished scroll loop's screens: each key is reported exactly once, on the first screen showing it, and the count is that of all visible keys |
| Stability.TreeStable | internal/actions/wait_stable.go:54-78 | stable at the first moment the last need polls were consecutive, readable and equal, and at no other |
| Stability.Needed | internal/actions/wait_pixel_stable.go:143-148 | the exact ceiling of quiet over interval, at least one |
| Stability.PixelStable | internal/actions/wait_pixel_stable.go:150-187 | stable at the first moment the last need+1 captures were consecutive with all adjacent differences under the threshold |

## Left out

- The pool is a transition system over values, one column per entry field, because
  the interleaving of its threads is the subject; objects updated in place and
  aliasing between entries are not captured there.
- How often the janitor sweeps is not modelled: a sweep may start at any time.
- `KeepAlive` and `LoadRace` follow one lease and abstract table entries on values,
  for the same reason as the pool; the tables themselves are objects in `LoadLedger`.
- Delivery.Dispatch: the optional accessibility hashes around an input and pixel
  verification are not modelled; both only read the screen.
- LeaseAcquire.Acquire: whether a host that cannot be asked might match is an input,
  and recording the decision is not part of it.
- Ladder.Resolve: the budgets of single rungs are an input (whether an attempt ran
  out of time); message texts, the trail and the escalation screenshot are left out.
- Observe.DispatchObserve: an observation's answer does not change while it is retried;
  whether a description compacts to something is an input for each attempt.
- Compaction.RecompactionIsIdentityIff: the tree is written back under keys the reader
  looks at; the node's own wire format names id and disabled differently.
- FindBest.Search: the placeholder area of frameless elements is a constant other
  than the largest float; only frameless elements are compared by it.
- Scroll.ListScrollLoop: gestures, clocks and the visitor are inputs, and so is
  whether time remains at each point it is asked for.
- Stability.TreeStable: the polls a budget allows are an input sequence; wall time
  and the clamped last wait are not modelled.
- HTTP, JSON and XML decoding, authentication, the dashboard, the command line and
  process supervision.
- Pixel work and OCR: differences, hashes and text boxes are inputs.
- Floating-point rounding: frames, overlaps and thresholds are real numbers.
- The daemon's own lease manager beyond the queue timeout that reconciliation
  relies on.
