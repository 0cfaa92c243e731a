// Reconciliation must not keep an abandoned queued lease alive: a daemon takes
// every GET of a queued lease as a sign that its owner is waiting. A timed model
// of one lease, its daemon, the broker's entry for it and the replies under way.
module KeepAlive {
  import opened Common
  import LoadLedger

  const W := LoadLedger.QUEUE_WAIT_TTL
  const AFTER := LoadLedger.QUEUED_RECONCILE_AFTER

  // The daemon's record: queued and last asked about at `touched`, granted, or
  // over. A queued lease is over once W has passed untouched.
  datatype Daemon = DQueued(touched: int) | DActive | DEnded

  datatype Seen = SQueued | SActive | SEnded

  datatype Source = Acquire | Client | Recon

  datatype Reply = Reply(source: Source, seen: Seen, sentAt: int)

  datatype Entry = Entry(seen: Seen, lastPoll: int, terminal: bool)

  datatype State = State(
    now: int,
    daemon: Daemon,
    entry: Option<Entry>,
    inflight: set<Reply>,
    asking: bool,        // a reconciliation round picked the lease, its GET is still to come
    lastClient: int,     // when a client last asked the daemon, directly or not
    renewals: nat)       // queued touches by reconciliation since then

  predicate Alive(s: State) {
    s.daemon.DQueued? && s.now <= s.daemon.touched + W
  }

  // ---------- steps ----------

  // The acquire queued the lease; its answer is on the way to the broker.
  ghost predicate Initial(s: State) {
    && s.daemon == DQueued(s.now) && s.entry == None && s.inflight == {Reply(Acquire, SQueued, s.now)}
    && !s.asking && s.lastClient == s.now && s.renewals == 0
  }

  // What a GET does to the daemon's record, and what it answers.
  function Asked(s: State): Daemon {
    if Alive(s) then DQueued(s.now) else if s.daemon.DActive? then DActive else DEnded
  }

  function Answer(s: State): Seen {
    if Alive(s) then SQueued else if s.daemon.DActive? then SActive else SEnded
  }

  datatype Action =
    | Tick(d: nat)
    | Promote
    | End
    | ClientGet(direct: bool, lost: bool)
    | Deliver(r: Reply, last: bool, known: bool)
    | Snapshot
    | ReconGet(lost: bool)

  // Time passes, but no reply stays under way longer than the latency.
  ghost predicate TickStep(latency: nat, s: State, t: State, d: nat) {
    t == s.(now := s.now + d) && forall r :: r in s.inflight ==> t.now <= r.sentAt + latency
  }

  // A client asks, through the broker once that knows the lease, or directly.
  ghost predicate ClientGetStep(s: State, t: State, direct: bool, lost: bool) {
    && (!direct ==> s.entry.Some?)
    && t == s.(daemon := Asked(s), lastClient := s.now, renewals := 0,
               inflight := if direct || lost then s.inflight else s.inflight + {Reply(Client, Answer(s), s.now)})
  }

  // The entry after a reply: a reconciliation reply moves lastPoll only for a
  // lease still queued; a reply that the lease is over leaves a tombstone, or no
  // entry when the daemon did not know the lease.
  function Noted(e: Entry, r: Reply, now: int): Entry {
    if r.seen.SEnded? then Entry(SEnded, e.lastPoll, true)
    else Entry(r.seen, if r.source.Recon? && r.seen.SActive? then e.lastPoll else now, e.terminal)
  }

  ghost predicate DeliverStep(s: State, t: State, r: Reply, last: bool, known: bool) {
    && r in s.inflight && (r.source.Client? || last)
    && t.now == s.now && t.daemon == s.daemon && t.asking == s.asking && t.lastClient == s.lastClient && t.renewals == s.renewals
    && t.inflight == (if last then s.inflight - {r} else s.inflight)
    && t.entry == (if r.source.Acquire? then Some(Entry(r.seen, s.now, false))
                   else if s.entry.None? || (r.seen.SEnded? && !known) then None
                   else Some(Noted(s.entry.value, r, s.now)))
  }

  // A round picks the lease unless it is a tombstone or was polled too recently.
  predicate MayAsk(e: Entry, now: int) {
    !e.terminal && (e.seen.SQueued? ==> now - e.lastPoll >= AFTER)
  }

  // Rounds follow one another.
  ghost predicate SnapshotStep(s: State, t: State) {
    && s.entry.Some? && MayAsk(s.entry.value, s.now) && !s.asking
    && (forall r :: r in s.inflight ==> !r.source.Recon?)
    && t == s.(asking := true)
  }

  ghost predicate ReconGetStep(s: State, t: State, lost: bool) {
    && s.asking
    && t == s.(daemon := Asked(s), asking := false, renewals := if Alive(s) then s.renewals + 1 else s.renewals,
               inflight := if lost then s.inflight else s.inflight + {Reply(Recon, Answer(s), s.now)})
  }

  ghost predicate Next(latency: nat, s: State, t: State, a: Action) {
    match a
    case Tick(d) => TickStep(latency, s, t, d)
    case Promote => Alive(s) && t == s.(daemon := DActive)
    case End => t == s.(daemon := DEnded)
    case ClientGet(direct, lost) => ClientGetStep(s, t, direct, lost)
    case Deliver(r, last, known) => DeliverStep(s, t, r, last, known)
    case Snapshot => SnapshotStep(s, t)
    case ReconGet(lost) => ReconGetStep(s, t, lost)
  }

  ghost predicate Run(latency: nat, states: seq<State>, actions: seq<Action>) {
    && |states| == |actions| + 1 && Initial(states[0])
    && (forall i :: 0 <= i < |actions| ==> Next(latency, states[i], states[i + 1], actions[i]))
  }

  // Every client poll goes through the broker and its reply arrives.
  ghost predicate PollsHeard(actions: seq<Action>) {
    forall i :: 0 <= i < |actions| && actions[i].ClientGet? ==> !actions[i].direct && !actions[i].lost
  }

  // The replies to reconciliation's own requests arrive.
  ghost predicate ReconHeard(actions: seq<Action>) {
    forall i :: 0 <= i < |actions| && actions[i].ReconGet? ==> !actions[i].lost
  }

  // ---------- invariants of every run ----------

  // What has been seen as no longer queued is no longer queued, and nothing
  // carries a time of the future.
  ghost predicate Causal(latency: nat, s: State) {
    && (s.daemon.DQueued? ==> s.daemon.touched <= s.now)
    && (forall r :: r in s.inflight ==> r.sentAt <= s.now <= r.sentAt + latency && (!r.seen.SQueued? ==> !s.daemon.DQueued?))
    && (s.entry.Some? ==> s.entry.value.lastPoll <= s.now && (!s.entry.value.seen.SQueued? || s.entry.value.terminal ==> !s.daemon.DQueued?))
    && s.lastClient <= s.now
  }

  lemma CausalKept(latency: nat, s: State, t: State, a: Action)
    requires Causal(latency, s) && Next(latency, s, t, a)
    ensures Causal(latency, t)
  {
  }

  // ---------- polls heard: reconciliation touches nothing ----------

  // The broker is at most W behind the daemon's last touch, or a reply about to
  // tell it is under way.
  ghost predicate BrokerKnows(s: State) {
    s.entry.Some? && s.daemon.DQueued? ==>
      var touched, lastPoll := s.daemon.touched, s.entry.value.lastPoll;
      && (touched <= lastPoll || exists r :: r in s.inflight && r.sentAt == touched)
      && (Alive(s) ==> touched <= lastPoll || exists r :: r in s.inflight && r.sentAt <= lastPoll + W)
  }

  // A lease picked by a round is not alive.
  ghost predicate PickedIsDead(s: State) {
    s.asking ==> !Alive(s)
  }

  lemma SnapshotFindsDead(latency: nat, s: State, t: State)
    requires latency < AFTER - W
    requires Causal(latency, s) && BrokerKnows(s) && SnapshotStep(s, t)
    ensures !Alive(s)
    ensures s.daemon.DQueued? ==> s.now >= s.daemon.touched + AFTER
  {
  }

  lemma BrokerKnowsKept(latency: nat, s: State, t: State, a: Action)
    requires Causal(latency, s) && BrokerKnows(s) && PickedIsDead(s) && Next(latency, s, t, a)
    requires a.ClientGet? ==> !a.direct && !a.lost
    requires latency < AFTER - W
    ensures BrokerKnows(t) && PickedIsDead(t)
  {
    match a {
      case ClientGet(_, _) =>
        if Alive(s) {
          assert Reply(Client, SQueued, s.now) in t.inflight;
          assert t.inflight >= s.inflight;
        }
      case Snapshot => SnapshotFindsDead(latency, s, t);
      case _ =>
    }
  }

  lemma {:induction false} HeardRunKeeps(latency: nat, states: seq<State>, actions: seq<Action>, n: nat)
    requires Run(latency, states, actions) && PollsHeard(actions) && latency < AFTER - W && n < |states|
    ensures Causal(latency, states[n]) && BrokerKnows(states[n]) && PickedIsDead(states[n])
  {
    if n > 0 {
      HeardRunKeeps(latency, states, actions, n - 1);
      CausalKept(latency, states[n - 1], states[n], actions[n - 1]);
      BrokerKnowsKept(latency, states[n - 1], states[n], actions[n - 1]);
    }
  }

  /** Where polls are heard, a round picks a lease the daemon still records as
      queued only W and two minutes after its last touch, so the lease is already
      over, and the GET, whenever it comes, finds it so and touches nothing. */
  lemma ReconciliationIsNoKeepAlive(latency: nat, states: seq<State>, actions: seq<Action>, n: nat)
    requires Run(latency, states, actions) && PollsHeard(actions) && latency < AFTER - W && n < |actions|
    ensures actions[n].Snapshot? && states[n].daemon.DQueued? ==>
      states[n].now >= states[n].daemon.touched + W + 2 * 60 && !Alive(states[n])
    ensures actions[n].ReconGet? ==> !Alive(states[n]) && states[n + 1].renewals == states[n].renewals
    ensures actions[n].ReconGet? ==> !states[n + 1].daemon.DQueued?
  {
    HeardRunKeeps(latency, states, actions, n);
    assert Next(latency, states[n], states[n + 1], actions[n]);
    if actions[n].Snapshot? {
      SnapshotFindsDead(latency, states[n], states[n + 1]);
    }
  }

  // ---------- polls unheard: one renewal more than replies were lost ----------

  // The requests of reconciliation, since a client last asked, that found the
  // lease alive and whose replies were lost.
  function Lost(states: seq<State>, actions: seq<Action>, n: nat): nat
    requires |states| == |actions| + 1 && n < |states|
  {
    if n == 0 then 0
    else
      match actions[n - 1]
      case ClientGet(_, _) => 0
      case ReconGet(lost) => Lost(states, actions, n - 1) + if lost && Alive(states[n - 1]) then 1 else 0
      case _ => Lost(states, actions, n - 1)
  }

  // Reconciliation touched a queued lease at most once more than replies were
  // lost; that one more touch is known to the broker or about to be.
  ghost predicate RenewedFor(s: State, k: nat) {
    && k <= s.renewals <= k + 1
    && (s.daemon.DQueued? ==>
         && s.daemon.touched <= s.lastClient + s.renewals * W
         && (s.renewals == k + 1 && Alive(s) && s.entry.Some? ==>
              || s.entry.value.lastPoll >= s.daemon.touched
              || exists r :: r in s.inflight && r.source.Recon? && r.sentAt == s.daemon.touched))
    && (s.asking ==> (forall r :: r in s.inflight ==> !r.source.Recon?))
    && (forall r, q :: r in s.inflight && q in s.inflight && r.source.Recon? && q.source.Recon? ==> r == q)
    && (s.asking && Alive(s) ==> s.renewals == k)
  }

  lemma RenewedForKept(latency: nat, s: State, t: State, a: Action, k: nat)
    requires Causal(latency, s) && RenewedFor(s, k) && Next(latency, s, t, a)
    ensures a.ClientGet? ==> RenewedFor(t, 0)
    ensures a.ReconGet? ==> RenewedFor(t, if a.lost && Alive(s) then k + 1 else k)
    ensures !a.ClientGet? && !a.ReconGet? ==> RenewedFor(t, k)
  {
    if a.ReconGet? && !a.lost {
      assert Reply(Recon, Answer(s), s.now) in t.inflight;
    }
  }

  lemma {:induction false} RunRenews(latency: nat, states: seq<State>, actions: seq<Action>, n: nat)
    requires Run(latency, states, actions) && n < |states|
    ensures Causal(latency, states[n]) && RenewedFor(states[n], Lost(states, actions, n))
  {
    hide Causal, RenewedFor, Alive;
    if n == 0 {
      RenewsNothingYet(latency, states[0]);
    } else {
      RunRenews(latency, states, actions, n - 1);
      assert Next(latency, states[n - 1], states[n - 1 + 1], actions[n - 1]);
      CausalKept(latency, states[n - 1], states[n], actions[n - 1]);
      RenewedForKept(latency, states[n - 1], states[n], actions[n - 1], Lost(states, actions, n - 1));
    }
  }

  lemma RenewsNothingYet(latency: nat, s: State)
    requires Initial(s)
    ensures Causal(latency, s) && RenewedFor(s, 0)
  {
  }

  /** In every run, whatever clients do and whatever replies are lost: since a
      client last asked, reconciliation has prolonged the lease once for each lost
      reply to a request that found it alive, and at most once more; so it is over
      when two waiting periods have passed, and one more for each lost reply. */
  lemma RenewalsFollowLosses(latency: nat, states: seq<State>, actions: seq<Action>, n: nat)
    requires Run(latency, states, actions) && n < |states|
    ensures var lost := Lost(states, actions, n);
      && lost <= states[n].renewals <= lost + 1
      && (Alive(states[n]) ==> states[n].now <= states[n].lastClient + (lost + 2) * W)
  {
    RunRenews(latency, states, actions, n);
  }

  lemma {:induction false} HeardLosesNothing(states: seq<State>, actions: seq<Action>, n: nat)
    requires |states| == |actions| + 1 && n < |states| && ReconHeard(actions)
    ensures Lost(states, actions, n) == 0
  {
    if n > 0 {
      HeardLosesNothing(states, actions, n - 1);
    }
  }

  /** If the replies to its own requests arrive, reconciliation prolongs an
      abandoned lease at most once, however clients poll. */
  lemma AbandonedLeasesEnd(latency: nat, states: seq<State>, actions: seq<Action>, n: nat)
    requires Run(latency, states, actions) && ReconHeard(actions) && n < |states|
    ensures Alive(states[n]) ==> states[n].now <= states[n].lastClient + 2 * W
    ensures states[n].renewals <= 1
  {
    HeardLosesNothing(states, actions, n);
    RenewalsFollowLosses(latency, states, actions, n);
  }

  // ---------- reconciliation's own replies lost: no bound ----------

  // One more round whose reply is lost, W after the last.
  lemma OneMoreRenewal(latency: nat, s: State) returns (t1: State, t2: State, t3: State)
    requires Alive(s) && s.entry.Some? && s.entry.value.seen.SQueued? && !s.entry.value.terminal && !s.asking && s.inflight == {}
    requires s.now - s.entry.value.lastPoll >= AFTER && s.daemon.touched == s.now
    ensures Next(latency, s, t1, Tick(W)) && Next(latency, t1, t2, Snapshot) && Next(latency, t2, t3, ReconGet(true))
    ensures t3 == s.(now := s.now + W, daemon := DQueued(s.now + W), renewals := s.renewals + 1)
  {
    t1 := s.(now := s.now + W);
    t2 := t1.(asking := true);
    t3 := t2.(daemon := DQueued(t2.now), asking := false, renewals := t2.renewals + 1);
  }

  // A client that polled its daemon directly once, after W, and never again.
  lemma {:induction false} RenewedManyTimes(latency: nat, k: nat) returns (states: seq<State>, actions: seq<Action>)
    ensures Run(latency, states, actions)
    ensures states[|actions|].lastClient == W && states[|actions|].now == AFTER + k * W && states[|actions|].renewals == k + 1
    ensures states[|actions|].daemon == DQueued(AFTER + k * W) && !states[|actions|].asking && states[|actions|].inflight == {}
    ensures states[|actions|].entry == Some(Entry(SQueued, 0, false))
    decreases k
  {
    if k == 0 {
      var s0 := State(0, DQueued(0), None, {Reply(Acquire, SQueued, 0)}, false, 0, 0);
      var s1 := s0.(entry := Some(Entry(SQueued, 0, false)), inflight := {});
      var s2 := s1.(now := W);
      var s3 := s2.(daemon := DQueued(W), lastClient := W);
      var s4 := s3.(now := AFTER);
      var s5 := s4.(asking := true);
      var s6 := s5.(daemon := DQueued(AFTER), asking := false, renewals := 1);
      states := [s0, s1, s2, s3, s4, s5, s6];
      actions := [Deliver(Reply(Acquire, SQueued, 0), true, true), Tick(W), ClientGet(true, true), Tick(AFTER - W), Snapshot, ReconGet(true)];
      assert Next(latency, s0, s1, actions[0]);
      assert Next(latency, s1, s2, actions[1]);
      assert Next(latency, s2, s3, actions[2]);
      assert Next(latency, s3, s4, actions[3]);
      assert Next(latency, s4, s5, actions[4]);
      assert Next(latency, s5, s6, actions[5]);
    } else {
      var before, acts := RenewedManyTimes(latency, k - 1);
      var s := before[|acts|];
      var t1, t2, t3 := OneMoreRenewal(latency, s);
      states, actions := before + [t1, t2, t3], acts + [Tick(W), Snapshot, ReconGet(true)];
      forall i | 0 <= i < |actions| ensures Next(latency, states[i], states[i + 1], actions[i]) {
        if i < |acts| {
          assert states[i] == before[i] && states[i + 1] == before[i + 1] && actions[i] == acts[i];
        }
      }
    }
  }

  /** The condition is needed: if reconciliation's replies keep getting lost, it
      renews an abandoned lease for as long as one likes. */
  lemma LostRepliesRenewWithoutEnd(latency: nat, bound: nat)
    ensures exists states: seq<State>, actions: seq<Action> ::
      && Run(latency, states, actions) && !ReconHeard(actions)
      && Alive(states[|actions|]) && states[|actions|].now > states[|actions|].lastClient + bound
  {
    var states, actions := RenewedManyTimes(latency, bound + 2);
    if ReconHeard(actions) {
      AbandonedLeasesEnd(latency, states, actions, |actions|);
    }
  }

  // ---------- the broker's own entries ----------

  function SeenOf(state: LoadLedger.LeaseState): Seen {
    match state
    case Queued => SQueued
    case Active => SActive
    case Released => SEnded
    case Expired => SEnded
  }

  // A broker entry as this model has it.
  ghost function EntryOf(e: LoadLedger.LeaseEntry): Entry {
    Entry(SeenOf(e.state), e.lastPoll, e.Terminal())
  }

  ghost function EntryAt(leases: map<string, LoadLedger.LeaseEntry>, id: string): Option<Entry> {
    if id in leases then Some(EntryOf(leases[id])) else None
  }

  // The entry after a round has asked: as after the delivery of its reply, or as
  // it was when no reply came.
  function AfterAsking(e: Entry, a: LoadLedger.LeaseAnswer, now: int): Option<Entry> {
    match a
    case LeaseIs(state) => Some(Noted(e, Reply(Recon, SeenOf(state), now), now))
    case LeaseError(status) => if status == 404 then None else Some(e)
    case LeaseUnreachable => Some(e)
  }

  lemma RepliesAgree(e: LoadLedger.LeaseEntry, a: LoadLedger.LeaseAnswer, now: int)
    ensures var e' := LoadLedger.Broker.Reconciled(e, a, now);
      (if e'.Some? then Some(EntryOf(e'.value)) else None) == AfterAsking(EntryOf(e), a, now)
  {
  }

  /** The broker's reconciliation round does what Snapshot, ReconGet and Deliver do
      here: it asks about an entry of the host exactly when MayAsk lets it, and
      leaves it as the delivered answer does. */
  method RoundFollows(b: LoadLedger.Broker, h: LoadLedger.Host, ask: string -> LoadLedger.LeaseAnswer, now: int)
    returns (asked: set<string>)
    requires b.Valid()
    modifies b`leases, b.hosts
    ensures b.Valid()
    ensures forall id :: id in old(b.leases) && old(b.leases)[id].host == h ==>
      (id in asked <==> MayAsk(EntryOf(old(b.leases)[id]), now))
    ensures forall id :: id in asked ==> id in old(b.leases) && old(b.leases)[id].host == h
    ensures forall id :: id in asked ==>
      EntryAt(b.leases, id) == AfterAsking(EntryOf(old(b.leases)[id]), ask(id), now)
    ensures forall id :: id in old(b.leases) && id !in asked && !old(b.leases)[id].Terminal() ==>
      EntryAt(b.leases, id) == Some(EntryOf(old(b.leases)[id]))
  {
    hide LoadLedger.Broker.Reconciled, AfterAsking, LoadLedger.Broker.Valid;
    ghost var before := b.leases;
    asked := b.ReconcileLeases(h, ask, now);
    forall id | id in asked
      ensures EntryAt(b.leases, id) == AfterAsking(EntryOf(before[id]), ask(id), now)
    {
      RepliesAgree(before[id], ask(id), now);
    }
  }

  /** A poll that comes through the broker leaves the entry as the delivery of its
      reply does here. */
  method PollFollows(b: LoadLedger.Broker, id: string, state: LoadLedger.LeaseState, now: int)
    requires b.Valid()
    modifies b`leases, b.hosts
    ensures b.Valid()
    ensures EntryAt(b.leases, id) ==
      if id in old(b.leases) then Some(Noted(EntryOf(old(b.leases)[id]), Reply(Client, SeenOf(state), now), now)) else None
    ensures forall other :: other != id ==> EntryAt(b.leases, other) == EntryAt(old(b.leases), other)
  {
    hide LoadLedger.Broker.Valid;
    b.NoteLeaseState(id, state, now);
  }

  /** And an acquire that queued leaves the entry the model starts with. */
  method AcquireFollows(b: LoadLedger.Broker, id: string, h: LoadLedger.Host, state: LoadLedger.LeaseState, now: int)
    requires b.Valid() && h in b.hosts
    modifies b`leases, h
    ensures EntryAt(b.leases, id) == Some(Entry(SeenOf(state), now, false))
  {
    hide LoadLedger.Broker.Valid;
    b.RememberLease(id, state, h, now);
  }
}
