// Observations: idempotent, so unlike inputs they are retried after any failure,
// in a loop on the warm helper and another on the cold command line.
module Observe {
  import opened Delivery

  const OBSERVE_RETRIES := 8
  const EMPTY_TREE_RETRIES := 2

  // What a described screen compacts to.
  datatype Read = Full | EmptyTree | Unreadable

  // What happens around attempt n: `over` whether the request's budget ends in
  // the pause before it, `transient` whether an error it meets is the known race
  // with the accessibility bridge.
  datatype Pace = Pace(read: nat -> Read, transient: nat -> bool, over: nat -> bool)

  datatype Result =
    | Tree(body: string, empty: bool)
    | NeedsCold
    | Refused(unknownOp: bool)
    | RetryLater
    | RequestOver

  // One attempt after another, each honest and performed or not, told apart from
  // what is retried: a delivered failure is only ever the last.
  ghost predicate Loop(sim: Simulator, req: Request, trace: seq<Attempt>, calls: nat, perCall: nat) {
    && HonestTrace(trace) && calls <= |trace| <= perCall * calls && Performed(trace) <= calls
    && (forall i :: 0 <= i < |trace| - 1 ==> trace[i].outcome != Transport(true))
    && (forall i :: 0 <= i < |trace| && trace[i].outcome.Served? ==> trace[i].outcome.body == sim.answer(req))
  }

  // How many of the first n calls described an empty tree.
  ghost function Empties(outs: seq<Outcome>, p: Pace, n: nat): nat
    requires n <= |outs|
  {
    if n == 0 then 0
    else Empties(outs, p, n - 1) + if outs[n - 1].Served? && p.read(n - 1).EmptyTree? then 1 else 0
  }

  // Call k settles nothing: a transient error, an unreadable description, or one
  // of the first empty trees.
  ghost predicate Unsettled(outs: seq<Outcome>, p: Pace, k: nat)
    requires k < |outs|
  {
    || (outs[k].ActionError? && p.transient(k))
    || (outs[k].Served? && p.read(k).Unreadable?)
    || (outs[k].Served? && p.read(k).EmptyTree? && Empties(outs, p, k) < EMPTY_TREE_RETRIES)
  }

  // The loop goes on exactly while calls settle nothing and the budget lasts, and
  // r is what the last call settles.
  ghost predicate EndsFor(r: Result, outs: seq<Outcome>, p: Pace) {
    && 1 <= |outs| <= OBSERVE_RETRIES
    && (forall k :: 0 <= k < |outs| - 1 ==> Unsettled(outs, p, k))
    && (forall k :: 0 < k < |outs| ==> !p.over(k))
    && var k := |outs| - 1;
       match outs[k]
       case Transport(_) => r == NeedsCold
       case Unavailable => false
       case ActionError(unknownOp) => if p.transient(k) then GivesUp(r, outs, p) else r == Refused(unknownOp)
       case Served(body) =>
         match p.read(k)
         case Full => r == Tree(body, false)
         case EmptyTree =>
           if Empties(outs, p, k) < EMPTY_TREE_RETRIES then GivesUp(r, outs, p) else r == Tree(body, true)
         case Unreadable => GivesUp(r, outs, p)
  }

  ghost predicate GivesUp(r: Result, outs: seq<Outcome>, p: Pace) {
    if |outs| == OBSERVE_RETRIES then r == RetryLater else r == RequestOver && p.over(|outs|)
  }

  // The calls so far settled nothing.
  ghost predicate GoesOn(outs: seq<Outcome>, p: Pace) {
    && (forall k :: 0 <= k < |outs| ==> Unsettled(outs, p, k))
    && (forall k :: 0 < k < |outs| ==> !p.over(k))
  }

  lemma {:induction false} EmptiesPrefix(outs: seq<Outcome>, out: Outcome, p: Pace, n: nat)
    requires n <= |outs|
    ensures Empties(outs + [out], p, n) == Empties(outs, p, n)
  {
    if n > 0 {
      EmptiesPrefix(outs, out, p, n - 1);
    }
  }

  lemma UnsettledPrefix(outs: seq<Outcome>, out: Outcome, p: Pace)
    requires GoesOn(outs, p) && (outs != [] ==> !p.over(|outs|))
    ensures Empties(outs + [out], p, |outs|) == Empties(outs, p, |outs|)
    ensures forall k :: 0 <= k < |outs| ==> Unsettled(outs + [out], p, k)
    ensures forall k :: 0 < k < |outs + [out]| ==> !p.over(k)
  {
    EmptiesPrefix(outs, out, p, |outs|);
    forall k | 0 <= k < |outs| ensures Unsettled(outs + [out], p, k) {
      EmptiesPrefix(outs, out, p, k);
      assert Unsettled(outs, p, k);
    }
  }

  // One more call, which settles nothing.
  lemma Extends(outs: seq<Outcome>, out: Outcome, p: Pace)
    requires GoesOn(outs, p) && (outs != [] ==> !p.over(|outs|)) && Unsettled(outs + [out], p, |outs|)
    ensures GoesOn(outs + [out], p)
  {
    UnsettledPrefix(outs, out, p);
  }

  // One more call, with which the loop ends.
  lemma Settles(outs: seq<Outcome>, out: Outcome, p: Pace, r: Result)
    requires GoesOn(outs, p) && (outs != [] ==> !p.over(|outs|)) && |outs| < OBSERVE_RETRIES
    requires
      || (out.Transport? && r == NeedsCold)
      || (out.ActionError? && !p.transient(|outs|) && r == Refused(out.unknownOp))
      || (out.Served? && p.read(|outs|).Full? && r == Tree(out.body, false))
      || (out.Served? && p.read(|outs|).EmptyTree? && Empties(outs, p, |outs|) >= EMPTY_TREE_RETRIES && r == Tree(out.body, true))
    ensures EndsFor(r, outs + [out], p)
  {
    UnsettledPrefix(outs, out, p);
  }

  lemma RunsOut(outs: seq<Outcome>, p: Pace, r: Result)
    requires GoesOn(outs, p) && 1 <= |outs| <= OBSERVE_RETRIES && GivesUp(r, outs, p)
    ensures EndsFor(r, outs, p)
  {
    assert Unsettled(outs, p, |outs| - 1);
  }

  // A full tree is the result at once.
  lemma FullTreeEnds(r: Result, outs: seq<Outcome>, p: Pace)
    requires EndsFor(r, outs, p)
    ensures 1 <= |outs| <= OBSERVE_RETRIES && (r.NeedsCold? <==> outs[|outs| - 1].Transport?)
    ensures r.Tree? ==> outs[|outs| - 1] == Served(r.body)
    ensures outs[0].Served? && p.read(0).Full? ==> |outs| == 1 && r == Tree(outs[0].body, false)
  {
    if |outs| > 1 {
      assert Unsettled(outs, p, 0);
    }
  }

  lemma LoopGrows(sim: Simulator, req: Request, trace: seq<Attempt>, more: seq<Attempt>, calls: nat, perCall: nat)
    requires Loop(sim, req, trace, calls, perCall) && (trace != [] ==> !trace[|trace| - 1].outcome.Transport?)
    requires HonestTrace(more) && 1 <= |more| <= perCall && RetriesOnlyInconclusive(more)
    requires forall i :: 0 <= i < |more| && more[i].outcome.Served? ==> more[i].outcome.body == sim.answer(req)
    ensures Loop(sim, req, trace + more, calls + 1, perCall)
    ensures (trace + more)[|trace + more| - 1] == more[|more| - 1]
  {
    AtMostOnce(more);
    PerformedAppends(trace, more);
    assert perCall * (calls + 1) == perCall * calls + perCall;
  }

  lemma ServedIsLast(sim: Simulator, req: Request, trace: seq<Attempt>, out: Outcome)
    requires Sound(sim, req, trace, out) && EndsWith(trace, out)
    ensures HonestTrace(trace) && RetriesOnlyInconclusive(trace) && (out.Served? ==> out.body == sim.answer(req))
    ensures forall i :: 0 <= i < |trace| && trace[i].outcome.Served? ==> trace[i].outcome.body == sim.answer(req)
  {
  }

  lemma ReachedNothing(log: seq<Request>, req: Request)
    ensures Reached(log, log, req, [])
  {
    assert seq(0, _ => req) == [];
  }

  // One more pool call of the warm loop.
  method DescribeWarm(slot: Slot, req: Request, script: Script, ghost calls: nat, ghost before: seq<Attempt>, ghost log0: seq<Request>)
    returns (out: Outcome, ghost trace: seq<Attempt>)
    requires slot.Valid() && Loop(slot.sim, req, before, calls, 2)
    requires before != [] ==> !before[|before| - 1].outcome.Transport?
    requires (forall i :: 0 <= i < |before| ==> before[i].side == Warm) && Reached(log0, slot.sim.log, req, before)
    modifies slot, slot.helper, slot.sim
    ensures slot.Valid() && (slot.helper == old(slot.helper) || slot.helper == null || fresh(slot.helper))
    ensures Loop(slot.sim, req, trace, calls + 1, 2) && EndsWith(trace, out) && out != Unavailable
    ensures (forall i :: 0 <= i < |trace| ==> trace[i].side == Warm) && Reached(log0, slot.sim.log, req, trace)
    ensures out.Served? ==> out.body == slot.sim.answer(req)
    ensures !script.slot ==> out == Transport(false)
    ensures old(slot.WouldAnswer(script)) ==> out == Served(slot.sim.answer(req))
  {
    hide Reached, Performed, HonestTrace, Loop, Expected, Lands, Slot.WouldReplay, Slot.WouldAnswer,
         RetriesOnlyInconclusive, Sound;
    ghost var log1 := slot.sim.log;
    ghost var more;
    out, more := slot.Call(req, script);
    ServedIsLast(slot.sim, req, more, out);
    LoopGrows(slot.sim, req, before, more, calls, 2);
    ReachedThen(log0, log1, slot.sim.log, req, before, more);
    trace := before + more;
  }

  /** The warm loop: at most OBSERVE_RETRIES pool calls, each performed at most
      once; transient errors, unreadable descriptions and the first empty trees are
      tried again, a full tree is the result at once; any transport failure ends it
      and asks for the cold path. */
  method WarmObserveTree(slot: Slot, req: Request, scripts: nat -> Script, p: Pace)
    returns (r: Result, calls: nat, ghost outs: seq<Outcome>, ghost trace: seq<Attempt>)
    requires slot.Valid()
    modifies slot, slot.helper, slot.sim
    ensures slot.Valid() && (slot.helper == old(slot.helper) || slot.helper == null || fresh(slot.helper))
    ensures Loop(slot.sim, req, trace, calls, 2) && calls == |outs| && EndsFor(r, outs, p)
    ensures EndsWith(trace, outs[calls - 1])
    ensures forall i :: 0 <= i < |trace| ==> trace[i].side == Warm
    ensures forall k :: 0 <= k < calls && outs[k].Served? ==> outs[k].body == slot.sim.answer(req)
    ensures forall k :: 0 <= k < calls && !scripts(k).slot ==> outs[k] == Transport(false)
    ensures old(slot.WouldAnswer(scripts(0))) ==> outs[0] == Served(slot.sim.answer(req))
    ensures Reached(old(slot.sim.log), slot.sim.log, req, trace)
  {
    hide Reached, Performed, HonestTrace, Loop, EndsFor, GoesOn, Unsettled, Empties, Expected, Lands, Slot.WouldReplay,
         Slot.WouldAnswer, RetriesOnlyInconclusive, Sound;
    var sim := slot.sim;
    ghost var log0 := sim.log;
    calls, trace, outs := 0, [], [];
    ReachedNothing(log0, req);
    NoLoopYet(sim, req, 2);
    NothingYet(p);
    var empties := 0;
    while calls < OBSERVE_RETRIES
      invariant calls == |outs| <= OBSERVE_RETRIES && GoesOn(outs, p) && empties == Empties(outs, p, calls)
      invariant slot.Valid() && (slot.helper == old(slot.helper) || slot.helper == null || fresh(slot.helper))
      invariant Loop(sim, req, trace, calls, 2) && (calls > 0 ==> trace != [] && EndsWith(trace, outs[calls - 1]))
      invariant calls > 0 ==> !outs[calls - 1].Transport?
      invariant calls == 0 ==> trace == [] && slot.WouldAnswer(scripts(0)) == old(slot.WouldAnswer(scripts(0)))
      invariant calls > 0 && old(slot.WouldAnswer(scripts(0))) ==> outs[0] == Served(sim.answer(req))
      invariant forall i :: 0 <= i < |trace| ==> trace[i].side == Warm
      invariant forall k :: 0 <= k < calls && outs[k].Served? ==> outs[k].body == sim.answer(req)
      invariant forall k :: 0 <= k < calls && !scripts(k).slot ==> outs[k] == Transport(false)
      invariant Reached(log0, sim.log, req, trace)
    {
      if calls > 0 && p.over(calls) {
        RunsOut(outs, p, RequestOver);
        return RequestOver, calls, outs, trace;
      }
      ghost var outs0 := outs;
      var out;
      out, trace := DescribeWarm(slot, req, scripts(calls), calls, trace, log0);
      outs, calls := outs + [out], calls + 1;
      if out.Transport? {
        Settles(outs0, out, p, NeedsCold);
        return NeedsCold, calls, outs, trace;
      }
      if out.ActionError? && !p.transient(calls - 1) {
        Settles(outs0, out, p, Refused(out.unknownOp));
        return Refused(out.unknownOp), calls, outs, trace;
      }
      if out.Served? {
        match p.read(calls - 1) {
          case Unreadable =>
          case Full =>
            Settles(outs0, out, p, Tree(out.body, false));
            return Tree(out.body, false), calls, outs, trace;
          case EmptyTree =>
            if empties >= EMPTY_TREE_RETRIES {
              Settles(outs0, out, p, Tree(out.body, true));
              return Tree(out.body, true), calls, outs, trace;
            }
            empties := empties + 1;
        }
      }
      StillUnsettled(outs0, out, p);
      Extends(outs0, out, p);
    }
    r := RetryLater;
    RunsOut(outs, p, r);
  }

  lemma NothingYet(p: Pace)
    ensures GoesOn([], p) && Empties([], p, 0) == 0
  {
  }

  // What the loops do not return for settles nothing.
  lemma StillUnsettled(outs: seq<Outcome>, out: Outcome, p: Pace)
    requires (out.ActionError? && p.transient(|outs|)) || out.Served?
    requires out.Served? ==> !p.read(|outs|).Full?
    requires out.Served? && p.read(|outs|).EmptyTree? ==> Empties(outs, p, |outs|) < EMPTY_TREE_RETRIES
    ensures Unsettled(outs + [out], p, |outs|)
    ensures Empties(outs + [out], p, |outs| + 1) ==
      Empties(outs, p, |outs|) + if out.Served? && p.read(|outs|).EmptyTree? then 1 else 0
  {
    EmptiesPrefix(outs, out, p, |outs|);
  }

  lemma NoLoopYet(sim: Simulator, req: Request, perCall: nat)
    ensures Loop(sim, req, [], 0, perCall)
  {
  }

  /** The cold loop does the same, one attempt per call. */
  method ColdObserveTree(sim: Simulator, req: Request, events: nat -> ColdEvent, p: Pace)
    returns (r: Result, calls: nat, ghost outs: seq<Outcome>, ghost trace: seq<Attempt>)
    modifies sim
    ensures Loop(sim, req, trace, calls, 1) && calls == |outs| && EndsFor(r, outs, p) && !r.NeedsCold?
    ensures EndsWith(trace, outs[calls - 1])
    ensures forall i :: 0 <= i < |trace| ==> trace[i].side == Cold
    ensures forall k :: 0 <= k < calls ==>
      outs[k] == if events(k).Works? then Served(sim.answer(req)) else ActionError(false)
    ensures Reached(old(sim.log), sim.log, req, trace)
  {
    hide Reached, Performed, HonestTrace, Loop, EndsFor, GoesOn, Unsettled, Empties, RetriesOnlyInconclusive, Sound;
    ghost var log0 := sim.log;
    calls, trace, outs := 0, [], [];
    ReachedNothing(log0, req);
    NoLoopYet(sim, req, 1);
    NothingYet(p);
    var empties := 0;
    while calls < OBSERVE_RETRIES
      invariant calls == |outs| <= OBSERVE_RETRIES && GoesOn(outs, p) && empties == Empties(outs, p, calls)
      invariant Loop(sim, req, trace, calls, 1) && (calls > 0 ==> trace != [] && EndsWith(trace, outs[calls - 1]))
      invariant calls == 0 ==> trace == []
      invariant forall i :: 0 <= i < |trace| ==> trace[i].side == Cold
      invariant forall k :: 0 <= k < calls ==>
        outs[k] == if events(k).Works? then Served(sim.answer(req)) else ActionError(false)
      invariant Reached(log0, sim.log, req, trace)
    {
      if calls > 0 && p.over(calls) {
        RunsOut(outs, p, RequestOver);
        return RequestOver, calls, outs, trace;
      }
      ghost var log1, outs0 := sim.log, outs;
      var out;
      ghost var more;
      out, more := RunCold(sim, req, events(calls));
      ServedIsLast(sim, req, more, out);
      LoopGrows(sim, req, trace, more, calls, 1);
      ReachedThen(log0, log1, sim.log, req, trace, more);
      trace, outs, calls := trace + more, outs + [out], calls + 1;
      if out.ActionError? && !p.transient(calls - 1) {
        Settles(outs0, out, p, Refused(out.unknownOp));
        return Refused(out.unknownOp), calls, outs, trace;
      }
      if out.Served? {
        match p.read(calls - 1) {
          case Unreadable =>
          case Full =>
            Settles(outs0, out, p, Tree(out.body, false));
            return Tree(out.body, false), calls, outs, trace;
          case EmptyTree =>
            if empties >= EMPTY_TREE_RETRIES {
              Settles(outs0, out, p, Tree(out.body, true));
              return Tree(out.body, true), calls, outs, trace;
            }
            empties := empties + 1;
        }
      }
      StillUnsettled(outs0, out, p);
      Extends(outs0, out, p);
    }
    r := RetryLater;
    RunsOut(outs, p, r);
  }

  /** An observation through both loops. The cold one runs exactly when a refresh
      asks for it or the warm one ended in a transport failure, delivered or not;
      so no transport failure surfaces, and the screen is described at most once
      per call of either loop. */
  method DispatchObserve(slot: Slot, req: Request, refresh: bool, scripts: nat -> Script, warm: Pace, events: nat -> ColdEvent, cold: Pace)
    returns (r: Result, warmCalls: nat, coldCalls: nat, ghost outs: seq<Outcome>, ghost trace: seq<Attempt>)
    requires slot.Valid()
    modifies slot, slot.helper, slot.sim
    ensures slot.Valid() && !r.NeedsCold? && HonestTrace(trace) && trace != []
    ensures warmCalls <= OBSERVE_RETRIES && coldCalls <= OBSERVE_RETRIES && (refresh <==> warmCalls == 0)
    ensures Performed(trace) <= warmCalls + coldCalls && |trace| <= 2 * warmCalls + coldCalls
    ensures Reached(old(slot.sim.log), slot.sim.log, req, trace)
    ensures r.Tree? ==> r.body == slot.sim.answer(req)
    ensures coldCalls > 0 <==> refresh || exists i :: 0 <= i < |trace| && FallsBackAfter(trace, i)
    ensures coldCalls == 0 ==> |outs| == warmCalls && EndsFor(r, outs, warm)
    ensures coldCalls > 0 ==> |outs| == coldCalls && EndsFor(r, outs, cold)
    ensures refresh && events(0).Works? && cold.read(0).Full? ==> r == Tree(slot.sim.answer(req), false) && coldCalls == 1
    ensures !refresh && old(slot.WouldAnswer(scripts(0))) && warm.read(0).Full? ==>
      r == Tree(slot.sim.answer(req), false) && warmCalls == 1 && coldCalls == 0
  {
    hide Reached, Performed, HonestTrace, Slot.WouldAnswer, Slot.WouldReplay, EndsFor;
    var sim := slot.sim;
    ghost var log0 := sim.log;
    trace, outs, warmCalls, coldCalls := [], [], 0, 0;
    ReachedNothing(log0, req);
    NoLoopYet(sim, req, 2);
    if !refresh {
      r, warmCalls, outs, trace := WarmObserveTree(slot, req, scripts, warm);
      FullTreeEnds(r, outs, warm);
      if !r.NeedsCold? {
        WarmHasNoFallback(trace);
        return;
      }
    }
    ghost var log1, first := sim.log, trace;
    ghost var more;
    r, coldCalls, outs, more := ColdObserveTree(sim, req, events, cold);
    FullTreeEnds(r, outs, cold);
    Joined(first, more);
    ReachedThen(log0, log1, sim.log, req, first, more);
    trace := first + more;
    if first != [] {
      assert FallsBackAfter(trace, |first| - 1);
    }
  }

  // A warm transport failure at i, followed by a cold attempt.
  ghost predicate FallsBackAfter(trace: seq<Attempt>, i: nat) {
    i + 1 < |trace| && trace[i].side == Warm && trace[i].outcome.Transport? && trace[i + 1].side == Cold
  }

  lemma WarmHasNoFallback(trace: seq<Attempt>)
    requires forall i :: 0 <= i < |trace| ==> trace[i].side == Warm
    ensures forall i :: 0 <= i < |trace| ==> !FallsBackAfter(trace, i)
  {
  }

  lemma Joined(a: seq<Attempt>, b: seq<Attempt>)
    requires HonestTrace(a) && HonestTrace(b)
    ensures HonestTrace(a + b) && Performed(a + b) == Performed(a) + Performed(b)
  {
    PerformedAppends(a, b);
  }

  /** What is right for observations would be wrong for inputs: running one cold
      after a delivered warm failure performs it twice. */
  method RetryAfterDelivery(req: Request, answer: Request -> string) returns (warm: Outcome, cold: Outcome, log: seq<Request>)
    ensures warm == Transport(true) && cold.Served? && log == [req, req]
  {
    var sim := new Simulator(answer);
    var slot := new Slot(sim);
    var ev := Cancelled([], true);
    ghost var before := sim.log;
    ghost var a, b;
    warm, a := slot.Call(req, Script(true, true, ev, true, false, ev));
    assert a == [Attempt(Warm, Transport(true), true)];
    ghost var between := sim.log;
    cold, b := RunCold(sim, req, Works);
    assert b == [Attempt(Cold, cold, true)] by {
      assert Honest(b[0]);
    }
    log := sim.log;
    OnceEach(before, between, req, a);
    OnceEach(between, log, req, b);
  }

  lemma OnceEach(before: seq<Request>, after: seq<Request>, req: Request, trace: seq<Attempt>)
    requires Reached(before, after, req, trace) && |trace| == 1 && trace[0].performed
    ensures after == before + [req]
  {
    assert trace[1..] == [];
    assert Performed(trace) == 1;
    assert seq(1, _ => req) == [req];
  }
}
