// Speculative lease acquisition across the fleet: candidates are asked in turn,
// queued answers are held one at a time, and whatever is not kept is released
// or left in the orphan table until a daemon confirms that it is gone.
module LeaseAcquire {
  import opened Common
  import opened LoadLedger

  // ---------- the outside world ----------

  datatype PostAnswer = Lease(id: string, active: bool) | WireError(status: int) | NoAnswer

  datatype DelAnswer = Deleted | Refused(status: int) | Unreached

  // `post(i)` answers the acquire sent to candidate i; `live(id)` says whether a
  // daemon reports the lease active when asked before its release, `del(id)` what
  // it answers to the release. `depth(i, h)` is the queue depth of h as known in
  // round i, `gone(i)` whether the client has hung up when round i looks.
  datatype World = World(
    post: nat -> PostAnswer,
    live: string -> bool,
    del: string -> DelAnswer,
    depth: (nat, Host) -> int,
    gone: nat -> bool)

  const SERVER_ERROR := 500

  // The daemon answered, so the lease is gone or terminal.
  predicate Confirms(a: DelAnswer) {
    a.Deleted? || (a.Refused? && a.status < SERVER_ERROR)
  }

  ghost function Received(w: World, n: nat): set<string> {
    set i | 0 <= i < n && w.post(i).Lease? :: w.post(i).id
  }

  // Daemons give out ids once.
  ghost predicate FreshIds(w: World, leases: map<string, LeaseEntry>, orphans: map<string, Host>) {
    && (forall i: nat, j: nat :: i < j && w.post(i).Lease? && w.post(j).Lease? ==> w.post(i).id != w.post(j).id)
    && (forall i: nat :: w.post(i).Lease? ==> w.post(i).id !in leases && w.post(i).id !in orphans)
  }

  // ---------- releasing ----------

  // A release that is not confirmed becomes an orphan.
  method ReleaseQuietly(b: Broker, w: World, h: Host, id: string)
    modifies b`orphans
    ensures b.orphans == if Confirms(w.del(id)) then old(b.orphans) else old(b.orphans)[id := h]
    ensures w.del(id).Unreached? || (w.del(id).Refused? && w.del(id).status >= 500) ==> id in b.orphans && b.orphans[id] == h
    ensures w.del(id).Deleted? || (w.del(id).Refused? && w.del(id).status < 500) ==> b.orphans == old(b.orphans)
  {
    if Confirms(w.del(id)) {
      return;
    }
    b.orphans := b.orphans[id := h];
  }

  // With a reset pending, a lease that went active is handed back instead.
  method ReleaseSpeculative(b: Broker, w: World, h: Host, id: string, reset: bool) returns (adopted: bool)
    modifies b`orphans
    ensures adopted == (reset && w.live(id))
    ensures b.orphans == if adopted || Confirms(w.del(id)) then old(b.orphans) else old(b.orphans)[id := h]
  {
    if reset && w.live(id) {
      return true;
    }
    ReleaseQuietly(b, w, h, id);
    adopted := false;
  }

  /** Retrying orphans of one host: an id leaves the table exactly when the
      daemon answers below 500; no other id moves. */
  method ReleaseOrphans(b: Broker, h: Host, del: string -> DelAnswer)
    modifies b`orphans
    ensures b.orphans == map id | id in old(b.orphans) && !(old(b.orphans)[id] == h && Confirms(del(id))) :: old(b.orphans)[id]
    ensures forall id :: id in old(b.orphans) ==>
      (id !in b.orphans <==> old(b.orphans)[id] == h && (del(id).Deleted? || (del(id).Refused? && del(id).status < 500)))
  {
    var ids := set id | id in b.orphans && b.orphans[id] == h;
    ghost var before := b.orphans;
    while ids != {}
      invariant forall id :: id in b.orphans ==> id in before && b.orphans[id] == before[id]
      invariant forall id :: id in before && id !in b.orphans ==> before[id] == h && Confirms(del(id))
      invariant forall id :: id in b.orphans && b.orphans[id] == h && Confirms(del(id)) ==> id in ids
    {
      var id :| id in ids;
      ids := ids - {id};
      if Confirms(del(id)) {
        b.orphans := b.orphans - {id};
      }
    }
  }

  // ---------- one received lease ----------

  datatype Held = Held(id: string, host: Host)

  // After a received lease either one lease is held on in a queue, or one is
  // granted; `dropped` are those released on the way.
  datatype Verdict = Hold(kept: Held, dropped: seq<Held>) | Grant(kept: Held, dropped: seq<Held>)

  // What one received lease leads to; `promoted` says which leases would be
  // found active when asked, `shallower` whether the newcomer's queue is.
  function Decide(q: Option<Held>, l: Held, active: bool, shallower: bool, promoted: string -> bool): Verdict {
    if q.None? then
      if active then Grant(l, []) else Hold(l, [])
    else if active then
      if promoted(q.value.id) then Grant(q.value, [l]) else Grant(l, [q.value])
    else
      var keep, drop := if shallower then l else q.value, if shallower then q.value else l;
      if !promoted(drop.id) then Hold(keep, [drop])
      else if promoted(keep.id) then Grant(keep, [drop])
      else Grant(drop, [keep])
  }

  function Promoted(w: World, reset: bool): string -> bool {
    id => reset && w.live(id)
  }

  // One lease out, and every lease dropped was released or is an orphan.
  ghost predicate Dropped(before: map<string, Host>, after: map<string, Host>, w: World, dropped: seq<Held>) {
    && |dropped| <= 1
    && after == if dropped == [] || Confirms(w.del(dropped[0].id)) then before else before[dropped[0].id := dropped[0].host]
  }

  /** The body of the scheduling loop for a lease just received. */
  method Consider(b: Broker, w: World, q: Option<Held>, received: Held, active: bool, shallower: bool, reset: bool)
    returns (v: Verdict)
    modifies b`orphans
    ensures v == Decide(q, received, active, shallower, Promoted(w, reset))
    ensures Dropped(old(b.orphans), b.orphans, w, v.dropped)
  {
    var l := received;
    var queued := q;
    if !active {
      if queued.None? {
        return Hold(l, []);
      }
      var drop := l;
      if shallower {
        drop := queued.value;
        queued := Some(l);
      }
      var adopted := ReleaseSpeculative(b, w, drop.host, drop.id, reset);
      if !adopted {
        return Hold(queued.value, [drop]);
      }
      l := drop;
    }
    var dropped: seq<Held> := [];
    if queued.Some? {
      var a := ReleaseSpeculative(b, w, queued.value.host, queued.value.id, reset);
      if a {
        ReleaseQuietly(b, w, l.host, l.id);
        return Grant(queued.value, [l]);
      }
      dropped := [queued.value];
    }
    v := Grant(l, dropped);
  }

  // Of the leases in hand one is kept and the other, if any, is dropped.
  ghost predicate KeepsOne(q: Option<Held>, l: Held, v: Verdict) {
    || (q.None? && v.kept == l && v.dropped == [])
    || (q.Some? && v.kept == l && v.dropped == [q.value])
    || (q.Some? && v.kept == q.value && v.dropped == [l])
  }

  // Nothing is lost or kept twice, what is granted is active, an active answer
  // ends the search, and otherwise the shallower queue is held; a lease that would
  // be found active is never dropped for one that waits.
  lemma DecideKeepsOne(q: Option<Held>, l: Held, active: bool, shallower: bool, promoted: string -> bool)
    ensures var v := Decide(q, l, active, shallower, promoted);
      && KeepsOne(q, l, v)
      && (v.Grant? ==> (active && v.kept == l) || promoted(v.kept.id))
      && (active ==> v.Grant?)
      && (v.Hold? && q.Some? ==> v.kept == if shallower then l else q.value)
      && (v.Hold? ==> forall i :: 0 <= i < |v.dropped| ==> !promoted(v.dropped[i].id))
  {
  }

  /** When two grants went active, the earlier one is kept except where it is the
      one being dropped for a shallower queue: then the newer one is. */
  lemma EarlierKeptUnlessOutqueued(q: Held, l: Held, active: bool, shallower: bool, promoted: string -> bool)
    requires q.id != l.id && promoted(q.id) && (active || promoted(l.id))
    ensures var v := Decide(Some(q), l, active, shallower, promoted);
      v.Grant? && (v.kept == q <==> active || !shallower)
  {
  }

  lemma NewerCanWin(h: Host)
    ensures exists q: Held, l: Held, promoted: string -> bool ::
      promoted(q.id) && promoted(l.id) && q != l && Decide(Some(q), l, false, true, promoted).kept == l
  {
    var q, l := Held("first", h), Held("second", h);
    assert Decide(Some(q), l, false, true, (_ => true)).kept == l;
  }

  // ---------- the whole acquire ----------

  predicate Delivers(r: Reply) {
    r.Granted? || r.Waiting?
  }

  ghost predicate AnyUnreached(w: World, n: nat) {
    exists i: nat :: i < n && w.post(i).NoAnswer?
  }

  // An unreachable host outranks what the others answered: it might have granted.
  ghost function Failing(w: World, n: nat): Failure {
    if AnyUnreached(w, n) then HostUnreachable
    else if WorstError(w, n).Some? then DaemonError(WorstError(w, n).value)
    else NoMatch
  }

  datatype Reply =
    | Granted(id: string, host: Host)
    | Waiting(id: string, host: Host)
    | ClientGone
    | Failed(error: Failure)

  datatype Failure = HostUnreachable | DaemonError(status: int) | NoMatch

  // The error worth reporting among wire errors: the first 5xx, else the first.
  function WorstError(w: World, n: nat): Option<int> {
    if n == 0 then None
    else
      var before := WorstError(w, n - 1);
      match w.post(n - 1)
      case WireError(status) =>
        if before.None? || (status >= SERVER_ERROR && before.value < SERVER_ERROR) then Some(status) else before
      case _ => before
  }

  /** It is the first 5xx there is; without one, the first error; without any,
      none. */
  lemma {:induction false} WorstErrorMeans(w: World, n: nat)
    ensures WorstError(w, n).None? <==> forall i: nat :: i < n ==> !w.post(i).WireError?
    ensures WorstError(w, n).Some? ==> exists i: nat ::
      && i < n && w.post(i) == WireError(WorstError(w, n).value)
      && (if WorstError(w, n).value >= 500
          then forall j: nat :: j < i && w.post(j).WireError? ==> w.post(j).status < 500
          else && (forall j: nat :: j < n && w.post(j).WireError? ==> w.post(j).status < 500)
               && (forall j: nat :: j < i ==> !w.post(j).WireError?))
  {
    if n > 0 {
      WorstErrorMeans(w, n - 1);
      if w.post(n - 1).WireError? {
        if WorstError(w, n - 1).None? || (w.post(n - 1).status >= 500 && WorstError(w, n - 1).value < 500) {
          assert w.post(n - 1) == WireError(WorstError(w, n).value);
        }
      }
    }
  }

  // The lease with this id came from this candidate.
  ghost predicate GivenBy(w: World, candidates: seq<Host>, n: nat, x: Held) {
    exists i: nat :: i < n <= |candidates| && w.post(i).Lease? && w.post(i).id == x.id && candidates[i] == x.host
  }

  ghost predicate NoDuplicates(s: seq<Held>) {
    forall i, j :: 0 <= i < j < |s| ==> s[i].id != s[j].id
  }

  ghost function Ids(s: seq<Held>): set<string> {
    set i | 0 <= i < |s| :: s[i].id
  }

  // Every received lease but the kept one was released, once, at its own host,
  // and its release was confirmed or it is an orphan; no other orphan moved.
  ghost predicate Settled(w: World, candidates: seq<Host>, n: nat, kept: set<string>, released: seq<Held>,
                          before: map<string, Host>, after: map<string, Host>)
  {
    && NoDuplicates(released)
    && (forall i :: 0 <= i < |released| ==> GivenBy(w, candidates, n, released[i]))
    && (forall id :: id in Received(w, n) <==> id in Ids(released) || id in kept)
    && Ids(released) !! kept
    && (forall i :: 0 <= i < |released| && !Confirms(w.del(released[i].id)) ==>
         released[i].id in after && after[released[i].id] == released[i].host)
    && (forall id :: id in before ==> id in after && after[id] == before[id])
    && (forall id :: id in after && id !in before ==> id in Ids(released) && !Confirms(w.del(id)))
  }

  // Depths do not change while the loop runs.
  ghost predicate FixedDepths(w: World, candidates: seq<Host>) {
    forall i: nat, j: nat :: j < |candidates| ==> w.depth(i, candidates[j]) == w.depth(0, candidates[j])
  }

  // The earliest queued candidate of minimal depth.
  ghost predicate Shallowest(w: World, candidates: seq<Host>, n: nat, x: Held) {
    exists k: nat ::
      && k < n <= |candidates| && w.post(k).Lease? && w.post(k).id == x.id && candidates[k] == x.host
      && (forall j: nat :: j < n && w.post(j).Lease? ==>
           w.depth(0, candidates[k]) < w.depth(0, candidates[j]) || (w.depth(0, candidates[k]) == w.depth(0, candidates[j]) && k <= j))
  }

  lemma IdsAppend(s: seq<Held>, x: Held)
    ensures Ids(s + [x]) == Ids(s) + {x.id}
  {
    forall id | id in Ids(s) + {x.id} ensures id in Ids(s + [x]) {
      if id in Ids(s) {
        var i :| 0 <= i < |s| && s[i].id == id;
        assert (s + [x])[i].id == id;
      } else {
        assert (s + [x])[|s|].id == id;
      }
    }
  }

  // One more lease is received.
  lemma SettledReceives(w: World, candidates: seq<Host>, i: nat, kept: set<string>, released: seq<Held>,
                        before: map<string, Host>, o: map<string, Host>)
    requires i < |candidates| && w.post(i).Lease?
    requires forall j: nat :: j < i && w.post(j).Lease? ==> w.post(j).id != w.post(i).id
    requires Settled(w, candidates, i, kept, released, before, o)
    ensures Settled(w, candidates, i + 1, kept + {w.post(i).id}, released, before, o)
    ensures GivenBy(w, candidates, i + 1, Held(w.post(i).id, candidates[i])) && w.post(i).id !in kept
  {
    assert Received(w, i + 1) == Received(w, i) + {w.post(i).id};
    assert w.post(i).id !in Received(w, i);
  }

  // One of the leases in hand is released.
  lemma SettledDrops(w: World, candidates: seq<Host>, n: nat, kept: set<string>, x: Held, released: seq<Held>,
                     before: map<string, Host>, o1: map<string, Host>, o2: map<string, Host>)
    requires Settled(w, candidates, n, kept + {x.id}, released, before, o1) && x.id !in kept
    requires GivenBy(w, candidates, n, x) && x.id !in before
    requires o2 == if Confirms(w.del(x.id)) then o1 else o1[x.id := x.host]
    ensures Settled(w, candidates, n, kept, released + [x], before, o2)
  {
    IdsAppend(released, x);
    assert x.id in kept + {x.id};
    forall i | 0 <= i < |released| ensures released[i].id in Ids(released) && released[i].id != x.id {
    }
  }

  lemma SettledNothing(w: World, candidates: seq<Host>, i: nat, kept: set<string>, released: seq<Held>, before: map<string, Host>, o: map<string, Host>)
    requires i < |candidates| && !w.post(i).Lease?
    requires Settled(w, candidates, i, kept, released, before, o)
    ensures Settled(w, candidates, i + 1, kept, released, before, o)
  {
    assert Received(w, i + 1) == Received(w, i);
  }

  lemma StillShallowest(w: World, candidates: seq<Host>, i: nat, q: Option<Held>, x: Held)
    requires i < |candidates| && w.post(i).Lease? && FixedDepths(w, candidates)
    requires q.None? ==> forall j: nat :: j < i ==> !w.post(j).Lease?
    requires q.Some? ==> Shallowest(w, candidates, i, q.value)
    requires x == if q.None? || w.depth(i, candidates[i]) < w.depth(i, q.value.host)
                  then Held(w.post(i).id, candidates[i]) else q.value
    ensures Shallowest(w, candidates, i + 1, x)
  {
    if q.Some? {
      assert w.depth(i, q.value.host) == w.depth(0, q.value.host);
    }
    assert w.depth(i, candidates[i]) == w.depth(0, candidates[i]);
  }

  lemma SkippedShallowest(w: World, candidates: seq<Host>, i: nat, x: Held)
    requires i < |candidates| && !w.post(i).Lease?
    requires Shallowest(w, candidates, i, x)
    ensures Shallowest(w, candidates, i + 1, x)
  {
  }

  // The books after one received lease has been considered.
  lemma SettledVerdict(w: World, candidates: seq<Host>, i: nat, q: Option<Held>, v: Verdict, released: seq<Held>,
                       before: map<string, Host>, o1: map<string, Host>, o2: map<string, Host>)
    requires i < |candidates| && w.post(i).Lease? && w.post(i).id !in before
    requires forall j: nat :: j < i && w.post(j).Lease? ==> w.post(j).id != w.post(i).id
    requires q.Some? ==> GivenBy(w, candidates, i, q.value) && q.value.id !in before
    requires Settled(w, candidates, i, if q.Some? then {q.value.id} else {}, released, before, o1)
    requires KeepsOne(q, Held(w.post(i).id, candidates[i]), v) && Dropped(o1, o2, w, v.dropped)
    ensures Settled(w, candidates, i + 1, {v.kept.id}, released + v.dropped, before, o2)
    ensures GivenBy(w, candidates, i + 1, v.kept) && v.kept.id !in before
  {
    hide Settled, Confirms;
    SettledReceives(w, candidates, i, if q.Some? then {q.value.id} else {}, released, before, o1);
    if q.Some? {
      var d := v.dropped[0];
      assert {q.value.id} + {w.post(i).id} == {v.kept.id} + {d.id};
      SettledDrops(w, candidates, i + 1, {v.kept.id}, d, released, before, o1, o2);
      assert v.dropped == [d];
    } else {
      assert {} + {w.post(i).id} == {v.kept.id};
      assert released + v.dropped == released;
    }
  }

  // None of the first n released leases was active.
  ghost predicate NoneLive(w: World, released: seq<Held>, n: int) {
    forall i :: 0 <= i < n && i < |released| ==> !w.live(released[i].id)
  }

  // What the loop knows before candidate i: at most one lease is in hand, it is
  // queued, and all others have been settled; with a reset pending, none of those
  // was active when it was released.
  ghost predicate LoopHead(w: World, candidates: seq<Host>, i: nat, q: Option<Held>, released: seq<Held>,
                           before: map<string, Host>, orphans: map<string, Host>, reset: bool)
  {
    && i <= |candidates|
    && (reset ==> NoneLive(w, released, |released|))
    && (q.Some? ==> GivenBy(w, candidates, i, q.value) && q.value.id !in before)
    && Settled(w, candidates, i, if q.Some? then {q.value.id} else {}, released, before, orphans)
    && (forall j: nat :: j < i && w.post(j).Lease? ==> !w.post(j).active && q.Some?)
    && (q.Some? && FixedDepths(w, candidates) ==> Shallowest(w, candidates, i, q.value))
  }

  lemma SkipsCandidate(w: World, candidates: seq<Host>, i: nat, q: Option<Held>, released: seq<Held>,
                       before: map<string, Host>, orphans: map<string, Host>, reset: bool)
    requires i < |candidates| && !w.post(i).Lease?
    requires LoopHead(w, candidates, i, q, released, before, orphans, reset)
    ensures LoopHead(w, candidates, i + 1, q, released, before, orphans, reset)
  {
    hide Settled, Shallowest;
    SettledNothing(w, candidates, i, if q.Some? then {q.value.id} else {}, released, before, orphans);
    if q.Some? && FixedDepths(w, candidates) {
      SkippedShallowest(w, candidates, i, q.value);
    }
  }

  lemma ConsidersCandidate(w: World, candidates: seq<Host>, i: nat, q: Option<Held>, shallower: bool, reset: bool, v: Verdict,
                           released: seq<Held>, before: map<string, Host>, o1: map<string, Host>, o2: map<string, Host>)
    requires i < |candidates| && w.post(i).Lease? && w.post(i).id !in before
    requires forall j: nat :: j < i && w.post(j).Lease? ==> w.post(j).id != w.post(i).id
    requires LoopHead(w, candidates, i, q, released, before, o1, reset)
    requires shallower == (q.Some? && w.depth(i, candidates[i]) < w.depth(i, q.value.host))
    requires v == Decide(q, Held(w.post(i).id, candidates[i]), w.post(i).active, shallower, Promoted(w, reset))
    requires Dropped(o1, o2, w, v.dropped)
    ensures Settled(w, candidates, i + 1, {v.kept.id}, released + v.dropped, before, o2)
    ensures GivenBy(w, candidates, i + 1, v.kept) && v.kept.id !in before
    ensures v.Grant? ==> (reset && w.live(v.kept.id)) || w.post(i) == Lease(v.kept.id, true)
    ensures v.Hold? ==> LoopHead(w, candidates, i + 1, Some(v.kept), released + v.dropped, before, o2, reset)
    ensures reset ==> NoneLive(w, released + v.dropped, |released + v.dropped| - 1)
  {
    hide Settled, Shallowest, Decide;
    var l := Held(w.post(i).id, candidates[i]);
    DecideKeepsOne(q, l, w.post(i).active, shallower, Promoted(w, reset));
    SettledVerdict(w, candidates, i, q, v, released, before, o1, o2);
    if v.Hold? && FixedDepths(w, candidates) {
      StillShallowest(w, candidates, i, q, v.kept);
    }
  }

  // The last step: the lease is remembered for the client, or released because
  // the client hung up.
  method Deliver(b: Broker, w: World, ghost candidates: seq<Host>, x: Held, state: LeaseState, gone: bool, now: int,
                 ghost tried: nat, ghost released: seq<Held>, ghost before: map<string, Host>)
    returns (reply: Reply, ghost all: seq<Held>)
    requires b.Valid() && x.host in b.hosts && x.id !in b.leases && (state.Active? || state.Queued?)
    requires Settled(w, candidates, tried, {x.id}, released, before, b.orphans)
    requires GivenBy(w, candidates, tried, x) && x.id !in before
    modifies b`orphans, b`leases, b.hosts
    ensures b.Valid()
    ensures reply == if gone then ClientGone else if state.Active? then Granted(x.id, x.host) else Waiting(x.id, x.host)
    ensures Settled(w, candidates, tried, if gone then {} else {x.id}, all, before, b.orphans)
    ensures b.leases == if gone then old(b.leases) else old(b.leases)[x.id := LeaseEntry(x.host, state, now, None)]
    ensures !gone ==> x.id !in b.orphans && all == released
  {
    all := released;
    if gone {
      ghost var o := b.orphans;
      ReleaseQuietly(b, w, x.host, x.id);
      all := released + [x];
      assert {} + {x.id} == {x.id};
      SettledDrops(w, candidates, tried, {}, x, released, before, o, b.orphans);
      return ClientGone, all;
    }
    assert x.id in {x.id};
    b.RememberLease(x.id, state, x.host, now);
    reply := if state.Active? then Granted(x.id, x.host) else Waiting(x.id, x.host);
  }

  lemma HeadStarts(w: World, candidates: seq<Host>, orphans: map<string, Host>, reset: bool)
    ensures LoopHead(w, candidates, 0, None, [], orphans, orphans, reset)
    ensures WorstError(w, 0) == None && !AnyUnreached(w, 0)
  {
    assert Received(w, 0) == {};
  }

  lemma HeadTells(w: World, candidates: seq<Host>, n: nat, q: Option<Held>, released: seq<Held>,
                  before: map<string, Host>, orphans: map<string, Host>, reset: bool)
    requires LoopHead(w, candidates, n, q, released, before, orphans, reset)
    ensures n <= |candidates| && (reset ==> NoneLive(w, released, |released|))
    ensures Settled(w, candidates, n, if q.Some? then {q.value.id} else {}, released, before, orphans)
    ensures q.Some? ==> GivenBy(w, candidates, n, q.value) && q.value.id !in before
    ensures q.Some? && FixedDepths(w, candidates) ==> Shallowest(w, candidates, n, q.value)
    ensures q.None? ==> Received(w, n) == {}
    ensures forall j: nat :: j < n && w.post(j).Lease? ==> !w.post(j).active
  {
  }

  lemma FreshAt(w: World, leases: map<string, LeaseEntry>, orphans: map<string, Host>, i: nat)
    requires FreshIds(w, leases, orphans) && w.post(i).Lease?
    ensures w.post(i).id !in leases && w.post(i).id !in orphans
    ensures forall j: nat :: j < i && w.post(j).Lease? ==> w.post(j).id != w.post(i).id
  {
  }

  lemma GivenIsKnown(w: World, candidates: seq<Host>, n: nat, x: Held, leases: map<string, LeaseEntry>, orphans: map<string, Host>, hosts: set<Host>)
    requires GivenBy(w, candidates, n, x)
    requires forall i :: 0 <= i < |candidates| ==> candidates[i] in hosts
    requires FreshIds(w, leases, orphans)
    ensures x.host in hosts && x.id !in leases
  {
  }

  lemma ErrorsFold(w: World, n: nat)
    ensures AnyUnreached(w, n + 1) <==> AnyUnreached(w, n) || w.post(n).NoAnswer?
    ensures w.post(n).WireError? ==>
      WorstError(w, n + 1) ==
        if WorstError(w, n).None? || (w.post(n).status >= SERVER_ERROR && WorstError(w, n).value < SERVER_ERROR)
        then Some(w.post(n).status) else WorstError(w, n)
    ensures !w.post(n).WireError? ==> WorstError(w, n + 1) == WorstError(w, n)
  {
    if w.post(n).NoAnswer? {
      assert AnyUnreached(w, n + 1);
    }
  }

  /** The acquire. At most one lease is remembered and delivered; every other
      lease received was released exactly once, confirmed or in the orphan table;
      a delivered lease was never released. With a reset pending no active lease is
      released while the client is told to wait: a release that would hit one ends
      the search with a grant. A granted lease is active. If every
      answer queues, the earliest of minimal depth is kept. An error is reported
      only when no daemon gave a lease, and says what the caller can do about it;
      `outage` tells that a host which cannot be asked might have matched. */
  method Acquire(b: Broker, w: World, candidates: seq<Host>, outage: bool, reset: bool, now: int)
    returns (reply: Reply, ghost tried: nat, ghost released: seq<Held>)
    requires b.Valid() && FreshIds(w, b.leases, b.orphans)
    requires forall i :: 0 <= i < |candidates| ==> candidates[i] in b.hosts
    modifies b`orphans, b`leases, b.hosts
    ensures b.Valid() && tried <= |candidates|
    ensures Settled(w, candidates, tried, if Delivers(reply) then {reply.id} else {}, released, old(b.orphans), b.orphans)
    ensures Delivers(reply) ==> GivenBy(w, candidates, tried, Held(reply.id, reply.host)) && reply.id !in b.orphans
    ensures b.leases == match reply
                        case Granted(id, h) => old(b.leases)[id := LeaseEntry(h, Active, now, None)]
                        case Waiting(id, h) => old(b.leases)[id := LeaseEntry(h, Queued, now, None)]
                        case _ => old(b.leases)
    ensures reply.Granted? ==> tried > 0 && ((reset && w.live(reply.id)) || w.post(tried - 1) == Lease(reply.id, true))
    ensures forall i: nat :: i < tried && w.post(i).Lease? && w.post(i).active ==> i == tried - 1 && (reply.Granted? || reply.ClientGone?)
    ensures reply.Waiting? ==> tried == |candidates|
    ensures reply.Waiting? && FixedDepths(w, candidates) ==> Shallowest(w, candidates, tried, Held(reply.id, reply.host))
    ensures reply.Failed? ==> tried == |candidates| && Received(w, tried) == {}
    ensures reply.Failed? ==> reply.error == if candidates == [] && outage then HostUnreachable else Failing(w, tried)
    ensures reply.ClientGone? ==> tried > 0 && (w.gone(tried - 1) || w.gone(tried))
    ensures reset && reply.Waiting? ==> forall i :: 0 <= i < |released| ==> !w.live(released[i].id)
    ensures reset && (exists i :: 0 <= i < |released| && w.live(released[i].id)) ==> reply.Granted? || reply.ClientGone?
    ensures reset && reply.Granted? ==> forall i :: 0 <= i < |released| - 1 ==> !w.live(released[i].id)
  {
    hide Settled, Shallowest, GivenBy, FixedDepths, Decide, Dropped, Confirms, Received, AnyUnreached, LoopHead, FreshIds, WorstError, Broker.Valid;
    ghost var before := b.orphans;
    HeadStarts(w, candidates, before, reset);
    var queued: Option<Held> := None;
    var daemonErr: Option<int> := None;
    var unreachable := false;
    released := [];
    var i := 0;
    while i < |candidates|
      invariant LoopHead(w, candidates, i, queued, released, before, b.orphans, reset)
      invariant daemonErr == WorstError(w, i) && (unreachable <==> AnyUnreached(w, i))
      invariant b.leases == old(b.leases) && b.Valid()
    {
      ErrorsFold(w, i);
      HeadTells(w, candidates, i, queued, released, before, b.orphans, reset);
      match w.post(i) {
        case WireError(status) =>
          if daemonErr.None? || (status >= SERVER_ERROR && daemonErr.value < SERVER_ERROR) {
            daemonErr := Some(status);
          }
          SkipsCandidate(w, candidates, i, queued, released, before, b.orphans, reset);
        case NoAnswer =>
          unreachable := true;
          SkipsCandidate(w, candidates, i, queued, released, before, b.orphans, reset);
        case Lease(id, active) =>
          FreshAt(w, b.leases, before, i);
          var l := Held(id, candidates[i]);
          var shallower := queued.Some? && w.depth(i, l.host) < w.depth(i, queued.value.host);
          ghost var orphans := b.orphans;
          var v := Consider(b, w, queued, l, active, shallower, reset);
          ConsidersCandidate(w, candidates, i, queued, shallower, reset, v, released, before, orphans, b.orphans);
          released := released + v.dropped;
          tried := i + 1;
          if v.Grant? {
            GivenIsKnown(w, candidates, tried, v.kept, b.leases, before, b.hosts);
            reply, released := Deliver(b, w, candidates, v.kept, Active, w.gone(i), now, tried, released, before);
            return;
          }
          queued := Some(v.kept);
      }
      i := i + 1;
    }
    tried := i;
    HeadTells(w, candidates, i, queued, released, before, b.orphans, reset);
    if queued.Some? {
      GivenIsKnown(w, candidates, tried, queued.value, b.leases, before, b.hosts);
      reply, released := Deliver(b, w, candidates, queued.value, Queued, w.gone(i), now, tried, released, before);
      return;
    }
    // with nobody to ask, an outage is told from a label mismatch
    reply := Failed(if unreachable || (candidates == [] && outage) then HostUnreachable else if daemonErr.Some? then DaemonError(daemonErr.value) else NoMatch);
  }
}
