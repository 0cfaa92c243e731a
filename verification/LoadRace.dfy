// The load counters when methods interleave. A broker method changes the tables
// under the broker's lock and adjusts the host's counter afterwards, under the
// host's lock, so an increment and the decrement of the same entry may land in
// either order; the counter is clamped at zero.
module LoadRace {
  type Id = nat
  type HostId = nat

  // A lease or run in the broker's tables; `counted` until it is a tombstone or
  // settled.
  datatype Entry = Entry(host: HostId, counted: bool)

  datatype State = State(
    entries: map<Id, Entry>,
    hostOf: map<Id, HostId>,   // every id ever remembered
    plus: set<Id>,             // increments still on their way
    minus: set<Id>,            // decrements still on their way
    landed: set<Id>,           // increments that arrived
    settled: set<Id>,          // decrements that arrived
    issued: seq<Id>,           // decrements in the order they were asked for
    counter: map<HostId, nat>,
    lost: map<HostId, nat>)    // decrements swallowed by the clamp

  function At(m: map<HostId, nat>, h: HostId): nat {
    if h in m then m[h] else 0
  }

  ghost predicate Initial(s: State) {
    s == State(map[], map[], {}, {}, {}, {}, [], map[], map[])
  }

  // ---------- steps ----------

  // rememberLease and rememberRun; a fresh id, counted or not.
  ghost predicate Remember(s: State, t: State, id: Id, h: HostId, counted: bool) {
    && id !in s.hostOf
    && t.entries == s.entries[id := Entry(h, counted)] && t.hostOf == s.hostOf[id := h]
    && t.plus == (if counted then s.plus + {id} else s.plus)
    && t.minus == s.minus && t.issued == s.issued
    && Landed(s, t)
  }

  ghost predicate Landed(s: State, t: State) {
    t.landed == s.landed && t.settled == s.settled && t.counter == s.counter && t.lost == s.lost
  }

  // markLeaseTerminal and settleRun: the entry stays and stops counting.
  ghost predicate Discharge(s: State, t: State, id: Id) {
    && id in s.entries
    && t.entries == s.entries[id := s.entries[id].(counted := false)]
    && Owes(s, t, id)
  }

  // forgetLease, and the pruning of tombstones and outdated runs.
  ghost predicate Forget(s: State, t: State, id: Id) {
    && id in s.entries
    && t.entries == s.entries - {id}
    && Owes(s, t, id)
  }

  // A decrement is owed only if the entry still counted.
  ghost predicate Owes(s: State, t: State, id: Id)
    requires id in s.entries
  {
    && t.hostOf == s.hostOf && t.plus == s.plus && Landed(s, t)
    && t.minus == (if s.entries[id].counted then s.minus + {id} else s.minus)
    && t.issued == (if s.entries[id].counted then s.issued + [id] else s.issued)
  }

  ghost predicate LandPlus(s: State, t: State, id: Id) {
    && id in s.plus && id in s.hostOf
    && t.entries == s.entries && t.hostOf == s.hostOf && t.minus == s.minus && t.issued == s.issued
    && t.plus == s.plus - {id} && t.landed == s.landed + {id} && t.settled == s.settled
    && t.counter == s.counter[s.hostOf[id] := At(s.counter, s.hostOf[id]) + 1]
    && t.lost == s.lost
  }

  ghost predicate LandMinus(s: State, t: State, id: Id) {
    && id in s.minus && id in s.hostOf
    && t.entries == s.entries && t.hostOf == s.hostOf && t.plus == s.plus && t.issued == s.issued
    && t.minus == s.minus - {id} && t.settled == s.settled + {id} && t.landed == s.landed
    && var h := s.hostOf[id];
       if At(s.counter, h) == 0
       then t.counter == s.counter[h := 0] && t.lost == s.lost[h := At(s.lost, h) + 1]
       else t.counter == s.counter[h := At(s.counter, h) - 1] && t.lost == s.lost
  }

  datatype Action = ARemember(id: Id, h: HostId, counted: bool) | ADischarge(id: Id) | AForget(id: Id) | ALandPlus(id: Id) | ALandMinus(id: Id)

  ghost predicate Next(s: State, t: State, a: Action) {
    match a
    case ARemember(id, h, counted) => Remember(s, t, id, h, counted)
    case ADischarge(id) => Discharge(s, t, id)
    case AForget(id) => Forget(s, t, id)
    case ALandPlus(id) => LandPlus(s, t, id)
    case ALandMinus(id) => LandMinus(s, t, id)
  }

  ghost predicate Run(states: seq<State>, actions: seq<Action>) {
    && |states| == |actions| + 1
    && Initial(states[0])
    && (forall i :: 0 <= i < |actions| ==> Next(states[i], states[i + 1], actions[i]))
  }

  // ---------- the invariant ----------

  ghost function Counted(s: State): set<Id> {
    set id | id in s.entries && s.entries[id].counted
  }

  ghost function On(s: State, ids: set<Id>, h: HostId): set<Id> {
    set id | id in ids && id in s.hostOf && s.hostOf[id] == h
  }

  ghost predicate Routes(s: State) {
    forall id :: id in s.entries ==> id in s.hostOf && s.hostOf[id] == s.entries[id].host
  }

  // Every entry that ever counted is charged once and discharged at most once.
  ghost predicate Tickets(s: State) {
    && s.plus !! s.landed && s.minus !! s.settled
    && (forall id :: id in s.plus + s.landed ==> id in s.hostOf)
    && s.plus + s.landed == Counted(s) + s.minus + s.settled
    && Counted(s) !! s.minus + s.settled
    && (forall id :: id in s.issued <==> id in s.minus + s.settled)
    && (forall i, j :: 0 <= i < j < |s.issued| ==> s.issued[i] != s.issued[j])
  }

  // What the counter holds is what has landed, plus what the clamp lost.
  ghost predicate Arrived(s: State) {
    forall h :: At(s.counter, h) == |On(s, s.landed, h)| - |On(s, s.settled, h)| + At(s.lost, h)
  }

  ghost predicate Inv(s: State) {
    Routes(s) && Tickets(s) && Arrived(s)
  }

  lemma OnGrows(s: State, t: State, ids: set<Id>, id: Id, h: HostId)
    requires t.hostOf == s.hostOf && id !in ids && id in s.hostOf
    ensures |On(t, ids + {id}, h)| == |On(s, ids, h)| + if s.hostOf[id] == h then 1 else 0
    ensures On(t, ids, h) == On(s, ids, h)
  {
    if s.hostOf[id] == h {
      assert On(t, ids + {id}, h) == On(s, ids, h) + {id};
    } else {
      assert On(t, ids + {id}, h) == On(s, ids, h);
    }
  }

  lemma RememberKeepsTickets(s: State, t: State, id: Id, h: HostId, counted: bool)
    requires Routes(s) && Tickets(s) && Remember(s, t, id, h, counted)
    ensures Routes(t) && Tickets(t)
  {
    assert Counted(t) == if counted then Counted(s) + {id} else Counted(s);
  }

  lemma OwingKeepsTickets(s: State, t: State, id: Id)
    requires Routes(s) && Tickets(s) && id in s.entries && Owes(s, t, id) && Routes(t) && Counted(t) == Counted(s) - {id}
    ensures Tickets(t)
  {
    assert s.entries[id].counted <==> id in Counted(s);
  }

  lemma LandingKeepsTickets(s: State, t: State, id: Id)
    requires Routes(s) && Tickets(s) && (LandPlus(s, t, id) || LandMinus(s, t, id))
    ensures Routes(t) && Tickets(t)
  {
    assert Counted(t) == Counted(s);
  }

  lemma TicketsKept(s: State, t: State, a: Action)
    requires Routes(s) && Tickets(s) && Next(s, t, a)
    ensures Routes(t) && Tickets(t)
  {
    hide Tickets;
    match a {
      case ARemember(id, h, counted) => RememberKeepsTickets(s, t, id, h, counted);
      case ADischarge(id) =>
        assert Counted(t) == Counted(s) - {id};
        OwingKeepsTickets(s, t, id);
      case AForget(id) =>
        assert Counted(t) == Counted(s) - {id};
        OwingKeepsTickets(s, t, id);
      case ALandPlus(id) => LandingKeepsTickets(s, t, id);
      case ALandMinus(id) => LandingKeepsTickets(s, t, id);
    }
  }

  lemma ArrivedKept(s: State, t: State, a: Action)
    requires Tickets(s) && Arrived(s) && Next(s, t, a)
    ensures Arrived(t)
  {
    forall h ensures At(t.counter, h) == |On(t, t.landed, h)| - |On(t, t.settled, h)| + At(t.lost, h) {
      match a {
        case ARemember(id, _, _) =>
          assert On(t, t.landed, h) == On(s, s.landed, h) && On(t, t.settled, h) == On(s, s.settled, h);
        case ADischarge(_) =>
          assert On(t, t.landed, h) == On(s, s.landed, h) && On(t, t.settled, h) == On(s, s.settled, h);
        case AForget(_) =>
          assert On(t, t.landed, h) == On(s, s.landed, h) && On(t, t.settled, h) == On(s, s.settled, h);
        case ALandPlus(id) =>
          OnGrows(s, t, s.landed, id, h);
          OnGrows(s, t, s.settled - {id}, id, h);
          assert On(t, t.settled, h) == On(s, s.settled, h);
        case ALandMinus(id) =>
          OnGrows(s, t, s.settled, id, h);
          assert On(t, t.landed, h) == On(s, s.landed, h);
      }
    }
  }

  lemma {:induction false} RunKeeps(states: seq<State>, actions: seq<Action>, n: nat)
    requires Run(states, actions) && n < |states|
    ensures Inv(states[n])
  {
    if n == 0 {
      var s := states[0];
      assert Counted(s) == {};
      assert forall h :: On(s, s.landed, h) == {};
    } else {
      RunKeeps(states, actions, n - 1);
      TicketsKept(states[n - 1], states[n], actions[n - 1]);
      ArrivedKept(states[n - 1], states[n], actions[n - 1]);
    }
  }

  // ---------- what it means ----------

  ghost function LoadOf(s: State, h: HostId): nat {
    |On(s, Counted(s), h)|
  }

  /** The counter, corrected by what is under way, is the load plus what was
      lost; no decrement is asked for twice, and an entry still counts exactly
      when it was charged and none was asked for. */
  lemma Conservation(states: seq<State>, actions: seq<Action>, n: nat, h: HostId)
    requires Run(states, actions) && n < |states|
    ensures var s := states[n];
      At(s.counter, h) + |On(s, s.plus, h)| - |On(s, s.minus, h)| == LoadOf(s, h) + At(s.lost, h)
    ensures var s := states[n];
      forall id :: id in s.plus + s.landed ==> (id in Counted(s) <==> id !in s.issued)
    ensures forall i, j :: 0 <= i < j < |states[n].issued| ==> states[n].issued[i] != states[n].issued[j]
  {
    RunKeeps(states, actions, n);
    var s := states[n];
    Split(s, s.plus, s.landed, h);
    Split(s, s.minus, s.settled, h);
    Split(s, Counted(s), s.minus + s.settled, h);
    assert s.plus + s.landed == Counted(s) + (s.minus + s.settled);
  }

  lemma Split(s: State, a: set<Id>, b: set<Id>, h: HostId)
    requires a !! b
    ensures |On(s, a + b, h)| == |On(s, a, h)| + |On(s, b, h)|
  {
    assert On(s, a + b, h) == On(s, a, h) + On(s, b, h);
  }

  /** When nothing is under way, a host's counter is its load exactly when the
      clamp never swallowed a decrement of that host. */
  lemma BalancedIffNothingLost(states: seq<State>, actions: seq<Action>, n: nat, h: HostId)
    requires Run(states, actions) && n < |states|
    requires states[n].plus == {} && states[n].minus == {}
    ensures At(states[n].counter, h) == LoadOf(states[n], h) <==> At(states[n].lost, h) == 0
  {
    Conservation(states, actions, n, h);
    assert On(states[n], {}, h) == {};
  }

  /** What is lost stays lost. */
  lemma {:induction false} LossIsPermanent(states: seq<State>, actions: seq<Action>, m: nat, n: nat, h: HostId)
    requires Run(states, actions) && m <= n < |states|
    ensures At(states[m].lost, h) <= At(states[n].lost, h)
  {
    if m < n {
      LossIsPermanent(states, actions, m, n - 1, h);
      assert Next(states[n - 1], states[n], actions[n - 1]);
    }
  }

  // Of this host no more decrements than increments have landed, at any time so far.
  ghost predicate NeverAhead(states: seq<State>, n: nat, h: HostId) {
    forall m :: 0 <= m <= n && m < |states| ==> |On(states[m], states[m].settled, h)| <= |On(states[m], states[m].landed, h)|
  }

  lemma {:induction false} NeverAheadLosesNothing(states: seq<State>, actions: seq<Action>, n: nat, h: HostId)
    requires Run(states, actions) && n < |states| && NeverAhead(states, n, h)
    ensures At(states[n].lost, h) == 0
  {
    if n > 0 {
      NeverAheadLosesNothing(states, actions, n - 1, h);
      RunKeeps(states, actions, n - 1);
      var s, t, a := states[n - 1], states[n], actions[n - 1];
      assert Next(s, t, a);
      if a.ALandMinus? {
        OnGrows(s, t, s.settled, a.id, h);
        assert On(t, t.landed, h) == On(s, s.landed, h);
        assert |On(t, t.settled, h)| <= |On(t, t.landed, h)|;
      }
    }
  }

  /** The clamp has swallowed nothing of a host exactly when at no time more of its
      decrements than of its increments had landed. */
  lemma NothingLostIffNeverAhead(states: seq<State>, actions: seq<Action>, n: nat, h: HostId)
    requires Run(states, actions) && n < |states|
    ensures At(states[n].lost, h) == 0 <==> NeverAhead(states, n, h)
  {
    if NeverAhead(states, n, h) {
      NeverAheadLosesNothing(states, actions, n, h);
    }
    if At(states[n].lost, h) == 0 {
      forall m | 0 <= m <= n && m < |states|
        ensures |On(states[m], states[m].settled, h)| <= |On(states[m], states[m].landed, h)|
      {
        LossIsPermanent(states, actions, m, n, h);
        RunKeeps(states, actions, m);
      }
    }
  }

  /** When nothing is under way, a host's counter is its load exactly when at no
      time before more of its decrements than of its increments had landed. */
  lemma BalancedIffNeverAhead(states: seq<State>, actions: seq<Action>, n: nat, h: HostId)
    requires Run(states, actions) && n < |states|
    requires states[n].plus == {} && states[n].minus == {}
    ensures At(states[n].counter, h) == LoadOf(states[n], h) <==> NeverAhead(states, n, h)
  {
    BalancedIffNothingLost(states, actions, n, h);
    NothingLostIffNeverAhead(states, actions, n, h);
  }

  // A run in which no decrement lands before the increment of its entry.
  ghost predicate Ordered(states: seq<State>, actions: seq<Action>)
    requires Run(states, actions)
  {
    forall i :: 0 <= i < |actions| && actions[i].ALandMinus? ==> actions[i].id in states[i].landed
  }

  lemma {:induction false} OrderedSettles(states: seq<State>, actions: seq<Action>, n: nat)
    requires Run(states, actions) && Ordered(states, actions) && n < |states|
    ensures states[n].settled <= states[n].landed
  {
    if n > 0 {
      OrderedSettles(states, actions, n - 1);
      assert Next(states[n - 1], states[n], actions[n - 1]);
    }
  }

  /** The clamp fires only where some decrement overtook its own increment. */
  lemma ClampNeedsOvertaking(s: State, t: State, id: Id)
    requires Inv(s) && LandMinus(s, t, id)
    requires At(s.counter, s.hostOf[id]) == 0
    ensures exists x :: x in t.settled && x !in t.landed
  {
    var h := s.hostOf[id];
    if t.settled <= t.landed {
      var a, b := On(s, s.settled, h), On(s, s.landed, h);
      assert a + {id} <= b && id !in a;
      SubsetSize(a + {id}, b);
      assert false;
    }
  }

  lemma SubsetSize(a: set<Id>, b: set<Id>)
    requires a <= b
    ensures |a| <= |b|
  {
    assert b == a + (b - a);
  }

  /** If increments land before their decrements, the clamp never fires, and
      whenever nothing is under way every counter is the load. */
  lemma {:induction false} OrderedRunsLoseNothing(states: seq<State>, actions: seq<Action>, n: nat, h: HostId)
    requires Run(states, actions) && Ordered(states, actions) && n < |states|
    ensures At(states[n].lost, h) == 0
    ensures states[n].plus == {} && states[n].minus == {} ==> At(states[n].counter, h) == LoadOf(states[n], h)
  {
    if n > 0 {
      OrderedRunsLoseNothing(states, actions, n - 1, h);
      RunKeeps(states, actions, n - 1);
      OrderedSettles(states, actions, n);
      var s, t, a := states[n - 1], states[n], actions[n - 1];
      if a.ALandMinus? && At(s.counter, s.hostOf[a.id]) == 0 {
        ClampNeedsOvertaking(s, t, a.id);
      }
    }
    if states[n].plus == {} && states[n].minus == {} {
      BalancedIffNothingLost(states, actions, n, h);
    }
  }

  // The order matters: reconciliation may forget a lease between the moment
  // rememberLease drops the broker's lock and its increment. The host then
  // carries a lease that exists nowhere, for good.
  lemma OvertakingLeaks()
    ensures exists states: seq<State>, actions: seq<Action> ::
      && Run(states, actions) && |states| == 5
      && states[4].entries == map[] && states[4].plus == {} && states[4].minus == {}
      && At(states[4].counter, 7) == 1
  {
    var s0 := State(map[], map[], {}, {}, {}, {}, [], map[], map[]);
    var s1 := s0.(entries := map[1 := Entry(7, true)], hostOf := map[1 := 7], plus := {1});
    var s2 := s1.(entries := map[], minus := {1}, issued := [1]);
    var s3 := s2.(minus := {}, settled := {1}, counter := map[7 := 0], lost := map[7 := 1]);
    var s4 := s3.(plus := {}, landed := {1}, counter := map[7 := 1]);
    var states, actions := [s0, s1, s2, s3, s4], [ARemember(1, 7, true), AForget(1), ALandMinus(1), ALandPlus(1)];
    assert Next(s0, s1, actions[0]);
    assert Next(s1, s2, actions[1]);
    assert Next(s2, s3, actions[2]);
    assert Next(s3, s4, actions[3]);
    assert Run(states, actions);
  }
}
