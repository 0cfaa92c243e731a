// At-most-once delivery of one input across the warm helper, its single replay
// and the cold fallback, for every schedule of failures.
//
// About the outside world only this is taken for granted: performing a request
// has one result; a helper answers a request under that request's own id; it
// answers "ok" only for a request that is performed and "unknown op" only for
// one that is not; a request whose write failed is not performed. Everything
// else - stray and repeated lines, answers to older requests, failures at any
// point - is up to the schedule.
module Delivery {
  datatype Request = Request(op: string, args: string)

  // ---------- the protocol, on traces of attempts ----------

  datatype Outcome =
    | Served(body: string)
    | ActionError(unknownOp: bool)
    | Transport(delivered: bool)
    | Unavailable

  datatype Side = Warm | Cold

  datatype Attempt = Attempt(side: Side, outcome: Outcome, performed: bool)

  // What an outcome tells about the simulator.
  predicate Honest(a: Attempt) {
    && (a.outcome.Served? ==> a.performed)
    && (a.outcome == ActionError(true) ==> !a.performed)
    && (a.outcome == Transport(false) ==> !a.performed)
  }

  // Outcomes after which the same input is tried again.
  predicate Inconclusive(o: Outcome) {
    o == Transport(false) || o == ActionError(true)
  }

  // The times the input reaches the simulator.
  function Performed(trace: seq<Attempt>): nat {
    if trace == [] then 0 else (if trace[0].performed then 1 else 0) + Performed(trace[1..])
  }

  ghost predicate HonestTrace(trace: seq<Attempt>) {
    forall i :: 0 <= i < |trace| ==> Honest(trace[i])
  }

  // Every attempt but the last told that nothing happened.
  ghost predicate RetriesOnlyInconclusive(trace: seq<Attempt>) {
    forall i :: 0 <= i < |trace| - 1 ==> Inconclusive(trace[i].outcome)
  }

  lemma {:induction false} PerformedAppends(a: seq<Attempt>, b: seq<Attempt>)
    ensures Performed(a + b) == Performed(a) + Performed(b)
  {
    if a == [] {
      assert a + b == b;
    } else {
      assert (a + b)[1..] == a[1..] + b;
      PerformedAppends(a[1..], b);
    }
  }

  lemma {:induction false} InconclusiveMeansNothing(trace: seq<Attempt>)
    requires HonestTrace(trace)
    requires forall i :: 0 <= i < |trace| ==> Inconclusive(trace[i].outcome)
    ensures Performed(trace) == 0
  {
    if trace != [] {
      InconclusiveMeansNothing(trace[1..]);
    }
  }

  /** At most once, and exactly once for a success, however long the trace. */
  lemma AtMostOnce(trace: seq<Attempt>)
    requires HonestTrace(trace) && RetriesOnlyInconclusive(trace)
    ensures Performed(trace) <= 1
    ensures trace != [] && trace[|trace| - 1].outcome.Served? ==> Performed(trace) == 1
    ensures trace != [] && Inconclusive(trace[|trace| - 1].outcome) ==> Performed(trace) == 0
  {
    if trace != [] {
      var k := |trace| - 1;
      assert trace == trace[..k] + [trace[k]];
      PerformedAppends(trace[..k], [trace[k]]);
      InconclusiveMeansNothing(trace[..k]);
      assert [trace[k]][1..] == [];
    }
  }

  // ---------- the simulator and the resident helper process ----------

  class Simulator {
    const answer: Request -> string
    var log: seq<Request>

    constructor (answer: Request -> string)
      ensures this.answer == answer && log == []
    {
      this.answer := answer;
      log := [];
    }

    method Perform(req: Request)
      modifies this
      ensures log == old(log) + [req]
    {
      log := log + [req];
    }
  }

  // A line of the helper; id 0 stands for a line that carries no request's id.
  datatype Line = Line(id: nat, ok: bool, unknownOp: bool, body: string)

  // A line the helper is about to write: for which id and with which verdict.
  datatype Stub = Stub(id: nat, ok: bool, unknownOp: bool)

  // What happens to one call; `performed` says whether its request is performed
  // by the simulator, then or later, where nothing else decides it.
  datatype Event =
    | EncodeFails
    | WriteFails
    | Cancelled(stubs: seq<Stub>, performed: bool)
    | ReadFails(stubs: seq<Stub>, performed: bool)
    | Answers(stubs: seq<Stub>, performed: bool)

  // What a call must come to, seen from outside: `id` is the id it will use,
  // `stale` whether lines of the past are still unread, `own` its own answer.
  function Expected(closed: bool, id: nat, stale: bool, own: string, ev: Event): Outcome {
    if closed || ev.WriteFails? then Transport(false)
    else if ev.EncodeFails? then ActionError(false)
    else if !ev.Answers? || stale || ev.stubs == [] || ev.stubs[0].id != id then Transport(true)
    else if ev.stubs[0].ok then Served(own)
    else ActionError(ev.stubs[0].unknownOp)
  }

  // And whether its request is performed.
  function Lands(closed: bool, id: nat, stale: bool, ev: Event): bool {
    match Expected(closed, id, stale, "", ev)
    case Served(_) => true
    case ActionError(unknownOp) => !unknownOp && !ev.EncodeFails? && ev.performed
    case Transport(delivered) => delivered && ev.performed
    case Unavailable => false
  }

  // The first line the process writes says that request id was performed.
  predicate AnswersOk(ev: Event, id: nat) {
    ev.Answers? && ev.stubs != [] && ev.stubs[0].id == id && ev.stubs[0].ok
  }

  class ProcHelper {
    const sim: Simulator
    var nextID: nat
    var closed: bool
    var received: map<nat, Request>
    var pipe: seq<Line>

    constructor (sim: Simulator)
      ensures this.sim == sim && !closed && nextID == 0 && pipe == [] && Valid()
    {
      this.sim := sim;
      nextID, closed, received, pipe := 0, false, map[], [];
    }

    // Ids are given out once, and a line under an id answers that id's request.
    ghost predicate Valid()
      reads this
    {
      && (forall id :: id in received ==> 0 < id <= nextID)
      && (forall i :: 0 <= i < |pipe| ==> Truthful(pipe[i]))
    }

    ghost predicate Truthful(l: Line)
      reads this`received
    {
      l.id == 0 || (l.id in received && (l.ok ==> l.body == sim.answer(received[l.id])))
    }

    // The line the process writes for a stub.
    function Write(s: Stub): (l: Line)
      reads this`received
      ensures Truthful(l)
      ensures s.id in received ==> l.id == s.id && l.ok == s.ok && l.unknownOp == s.unknownOp
      ensures s.id !in received ==> l.id == 0
    {
      if s.id in received
      then Line(s.id, s.ok, s.unknownOp, if s.ok then sim.answer(received[s.id]) else "")
      else Line(0, s.ok, s.unknownOp, "")
    }

    // The process writes its lines behind those still unread.
    method Emit(stubs: seq<Stub>)
      requires Valid()
      modifies this`pipe
      ensures Valid()
      ensures |pipe| == |old(pipe)| + |stubs| && old(pipe) <= pipe
      ensures forall i :: 0 <= i < |stubs| ==> pipe[|old(pipe)| + i] == Write(stubs[i])
    {
      var i := 0;
      while i < |stubs|
        invariant i <= |stubs|
        invariant |pipe| == |old(pipe)| + i && old(pipe) <= pipe
        invariant forall j :: 0 <= j < i ==> pipe[|old(pipe)| + j] == Write(stubs[j])
        invariant Valid()
      {
        pipe := pipe + [Write(stubs[i])];
        i := i + 1;
      }
    }

    /** One request over the serial stream. A helper that is in step and answers
        this id gives this request's answer or its error; a request that was not
        written is undelivered; whatever else the stream holds, or its end, is a
        delivered failure. The reported outcome is honest, and a served one carries
        the answer to this request, never to another. */
    method Call(req: Request, ev: Event) returns (out: Outcome, performed: bool)
      requires Valid()
      modifies this, sim
      ensures Valid() && closed == old(closed)
      ensures Honest(Attempt(Warm, out, performed))
      ensures sim.log == old(sim.log) + if performed then [req] else []
      ensures out.Served? ==> out.body == sim.answer(req)
      ensures out == Expected(old(closed), old(nextID) + 1, old(pipe) != [], sim.answer(req), ev)
      ensures performed == Lands(old(closed), old(nextID) + 1, old(pipe) != [], ev)
      ensures old(closed) || ev.WriteFails? ==> out == Transport(false) && !performed
      ensures !old(closed) && ev.EncodeFails? ==> out == ActionError(false) && !performed
      ensures (!old(closed) && old(pipe) == [] && ev.Answers? && ev.stubs != [] && ev.stubs[0].id == old(nextID) + 1 ==>
        if ev.stubs[0].ok then out == Served(sim.answer(req)) && performed
        else out == ActionError(ev.stubs[0].unknownOp) && (performed <==> ev.performed && !ev.stubs[0].unknownOp))
      ensures !old(closed) && (ev.Cancelled? || ev.ReadFails?) ==> out == Transport(true) && performed == ev.performed
      ensures (!old(closed) && ev.Answers? && (old(pipe) != [] || ev.stubs == [] || ev.stubs[0].id != old(nextID) + 1) ==>
        out == Transport(true) && performed == ev.performed)
      ensures nextID == old(nextID) + if old(closed) then 0 else 1
      ensures old(pipe) == [] && ev.Answers? && |ev.stubs| == 1 ==> pipe == []
    {
      performed := false;
      if closed {
        return Transport(false), false;
      }
      nextID := nextID + 1;
      var id := nextID;
      if ev.EncodeFails? {
        return ActionError(false), false;
      }
      if ev.WriteFails? {
        return Transport(false), false;
      }
      received := received[id := req];
      assert Valid();
      Emit(ev.stubs);
      if ev.Answers? && pipe != [] {
        var line := pipe[0];
        pipe := pipe[1..];
        if line.id != id {
          out, performed := Transport(true), ev.performed;
        } else if line.ok {
          out, performed := Served(line.body), true;
        } else if line.unknownOp {
          out, performed := ActionError(true), false;
        } else {
          out, performed := ActionError(false), ev.performed;
        }
      } else {
        // cancelled, end of stream, or an unreadable line
        out, performed := Transport(true), ev.performed;
      }
      if performed {
        sim.Perform(req);
      }
    }

    method Close()
      requires Valid()
      modifies this`closed
      ensures Valid() && closed
    {
      closed := true;
    }
  }

  // ---------- the pool slot of one target ----------

  // What happens to one pool call: whether a slot is granted, whether helpers
  // start, and whether the operation's deadline passed before the replay.
  datatype Script = Script(slot: bool, spawn: bool, first: Event, expired: bool, respawn: bool, second: Event)

  // What the attempts of one layer did to the simulator.
  ghost predicate Reached(before: seq<Request>, after: seq<Request>, req: Request, trace: seq<Attempt>) {
    after == before + seq(Performed(trace), _ => req)
  }

  // The outcome of a layer is that of its last attempt.
  ghost predicate EndsWith(trace: seq<Attempt>, out: Outcome) {
    trace != [] && trace[|trace| - 1].outcome == out
  }

  // A well-run layer: honest, retrying only what told nothing happened, and a
  // success carries the answer to its own request.
  ghost predicate Sound(sim: Simulator, req: Request, trace: seq<Attempt>, out: Outcome) {
    && HonestTrace(trace)
    && RetriesOnlyInconclusive(trace)
    && (out.Served? ==> out.body == sim.answer(req))
  }

  lemma ReachedNow(before: seq<Request>, after: seq<Request>, req: Request, a: Attempt)
    requires after == before + if a.performed then [req] else []
    ensures Reached(before, after, req, [a])
  {
    assert [a][1..] == [];
    assert seq(1, _ => req) == [req];
  }

  lemma ReachedThen(s0: seq<Request>, s1: seq<Request>, s2: seq<Request>, req: Request,
                    a: seq<Attempt>, b: seq<Attempt>)
    requires Reached(s0, s1, req, a) && Reached(s1, s2, req, b)
    ensures Reached(s0, s2, req, a + b)
  {
    PerformedAppends(a, b);
    assert seq(Performed(a), _ => req) + seq(Performed(b), _ => req) == seq(Performed(a + b), _ => req);
  }

  lemma LandsAtMostOnce(before: seq<Request>, after: seq<Request>, req: Request, trace: seq<Attempt>)
    requires Reached(before, after, req, trace) && trace != []
    requires HonestTrace(trace) && RetriesOnlyInconclusive(trace)
    ensures after == before || after == before + [req]
    ensures trace[|trace| - 1].outcome.Served? ==> after == before + [req]
    ensures Inconclusive(trace[|trace| - 1].outcome) ==> after == before
  {
    AtMostOnce(trace);
    assert seq(0, _ => req) == [];
    assert seq(1, _ => req) == [req];
  }

  class Slot {
    const sim: Simulator
    var helper: ProcHelper?
    // Every helper ever started for this slot.
    ghost var started: set<ProcHelper>

    constructor (sim: Simulator)
      ensures this.sim == sim && helper == null && started == {} && Valid()
    {
      this.sim := sim;
      helper, started := null, {};
    }

    // The helper in the slot is open; every other one ever started is closed.
    ghost predicate Valid()
      reads this, started
    {
      && (helper != null ==> helper in started && helper.Valid() && helper.sim == sim && !helper.closed)
      && (forall h :: h in started && h != helper ==> h.closed)
    }

    // The slot's helper, or the one that would be started, answers the request ok.
    predicate WouldAnswer(s: Script)
      reads this, helper
    {
      && s.slot
      && if helper != null then helper.pipe == [] && AnswersOk(s.first, helper.nextID + 1)
         else s.spawn && AnswersOk(s.first, 1)
    }

    // The slot has or gets a helper that cannot be written to, and the one
    // restarted in time answers ok.
    predicate WouldReplay(s: Script)
      reads this
    {
      && s.slot && (helper != null || s.spawn) && s.first.WriteFails?
      && !s.expired && s.respawn && AnswersOk(s.second, 1)
    }

    method Start()
      requires Valid() && helper == null
      modifies this
      ensures Valid() && helper != null && fresh(helper) && started == old(started) + {helper}
      ensures helper.nextID == 0 && helper.pipe == [] && !helper.closed
    {
      helper := new ProcHelper(sim);
      started := started + {helper};
    }

    // Giving a helper up closes it.
    method GiveUp()
      requires helper != null ==> helper in started && helper.Valid()
      requires forall h :: h in started && h != helper ==> h.closed
      modifies this`helper, helper
      ensures Valid() && helper == null
      ensures old(helper) != null ==> old(helper).closed
    {
      if helper != null {
        helper.Close();
        helper := null;
      }
    }

    /** One pool call: at most two warm attempts, the second on a fresh helper
        and only after an undelivered failure within the deadline. A transport
        failure empties the slot; every helper it gave up is closed. */
    method Call(req: Request, s: Script) returns (out: Outcome, ghost trace: seq<Attempt>)
      requires Valid()
      modifies this, helper, sim
      ensures Valid() && (helper == old(helper) || helper == null || fresh(helper))
      ensures old(started) <= started && fresh(started - old(started))
      ensures out != Unavailable
      ensures 1 <= |trace| <= 2 && EndsWith(trace, out) && Sound(sim, req, trace, out)
      ensures forall i :: 0 <= i < |trace| ==> trace[i].side == Warm
      ensures Reached(old(sim.log), sim.log, req, trace)
      ensures |trace| == 2 ==> trace[0].outcome == Transport(false) && !s.expired
      ensures !s.slot ==> out == Transport(false)
      ensures s.slot && old(helper) != null ==>
        trace[0].outcome == Expected(false, old(helper.nextID) + 1, old(helper.pipe) != [], sim.answer(req), s.first)
      ensures s.slot && old(helper) == null && s.spawn ==>
        trace[0].outcome == Expected(false, 1, false, sim.answer(req), s.first)
      ensures |trace| == 2 && s.respawn ==> trace[1].outcome == Expected(false, 1, false, sim.answer(req), s.second)
      ensures s.slot && old(helper) == null && s.spawn ==> trace[0].performed == Lands(false, 1, false, s.first)
      ensures out == Transport(false) && s.slot && (old(helper) != null || s.spawn) && !s.expired ==> |trace| == 2
      ensures s.slot && out.Transport? ==> helper == null
      ensures helper == null && old(helper) != null ==> out.Transport?
      ensures old(WouldAnswer(s)) ==> out == Served(sim.answer(req)) && |trace| == 1 && helper != null
      ensures old(WouldAnswer(s)) && old(helper) != null ==> helper == old(helper)
      ensures old(WouldReplay(s)) ==> out == Served(sim.answer(req)) && |trace| == 2 && helper != null && fresh(helper)
    {
      if !s.slot {
        out, trace := Transport(false), [Attempt(Warm, Transport(false), false)];
        ReachedNow(old(sim.log), sim.log, req, trace[0]);
        return;
      }
      if helper == null {
        if !s.spawn {
          out, trace := Transport(false), [Attempt(Warm, Transport(false), false)];
          ReachedNow(old(sim.log), sim.log, req, trace[0]);
          return;
        }
        Start();
      }
      var performed;
      out, performed := helper.Call(req, s.first);
      trace := [Attempt(Warm, out, performed)];
      ReachedNow(old(sim.log), sim.log, req, trace[0]);
      if out == Transport(false) && !s.expired {
        out, trace := Replay(req, s, trace, old(sim.log));
      }
      if out.Transport? {
        GiveUp();
      }
    }

    // The replay: the old helper is closed first, and a helper that does not
    // start ends the call.
    method Replay(req: Request, s: Script, ghost before: seq<Attempt>, ghost log0: seq<Request>)
      returns (out: Outcome, ghost trace: seq<Attempt>)
      requires Valid() && helper != null && !s.expired
      requires |before| == 1 && before[0] == Attempt(Warm, Transport(false), false)
      requires Reached(log0, sim.log, req, before)
      modifies this, helper, sim
      ensures Valid() && old(helper).closed && (helper == null || fresh(helper))
      ensures old(started) <= started && fresh(started - old(started))
      ensures out != Unavailable && (helper == null ==> out == Transport(false))
      ensures |trace| == 2 && trace[0] == before[0] && trace[1].side == Warm
      ensures s.respawn ==> out == Expected(false, 1, false, sim.answer(req), s.second)
      ensures EndsWith(trace, out) && Sound(sim, req, trace, out)
      ensures Reached(log0, sim.log, req, trace)
      ensures s.respawn && AnswersOk(s.second, 1) ==> out == Served(sim.answer(req)) && helper != null
    {
      GiveUp();
      ghost var log1 := sim.log;
      var performed := false;
      if s.respawn {
        Start();
        out, performed := helper.Call(req, s.second);
      } else {
        out := Transport(false);
      }
      ghost var last := Attempt(Warm, out, performed);
      ReachedNow(log1, sim.log, req, last);
      ReachedThen(log0, log1, sim.log, req, before, [last]);
      trace := before + [last];
    }
  }

  // ---------- the backends ----------

  // The cold command line: it works, or fails having performed the input or not.
  datatype ColdEvent = Works | Fails(performed: bool)

  method RunCold(sim: Simulator, req: Request, ev: ColdEvent) returns (out: Outcome, ghost trace: seq<Attempt>)
    modifies sim
    ensures |trace| == 1 && trace[0].side == Cold && EndsWith(trace, out) && Sound(sim, req, trace, out)
    ensures Reached(old(sim.log), sim.log, req, trace)
    ensures out == if ev.Works? then Served(sim.answer(req)) else ActionError(false)
  {
    var performed := ev.Works? || ev.performed;
    if performed {
      sim.Perform(req);
    }
    out := if ev.Works? then Served(sim.answer(req)) else ActionError(false);
    trace := [Attempt(Cold, out, performed)];
    ReachedNow(old(sim.log), sim.log, req, trace[0]);
  }

  // A layer that gives the caller a result it can act on: whatever left the
  // simulator untouched was tried cold.
  ghost predicate FallsBack(trace: seq<Attempt>) {
    && trace != []
    && (Inconclusive(trace[|trace| - 1].outcome) ==> trace[|trace| - 1].side == Cold)
    && (forall i :: 0 <= i < |trace| - 1 ==> trace[i].side == Warm)
  }

  // The outcome the caller sees: a delivered failure surfaces as "may or may not
  // have been delivered", everything else as the last attempt had it.
  function Surface(o: Outcome): Outcome {
    if o == Transport(true) then Unavailable else o
  }

  lemma Chain(a: seq<Attempt>, b: seq<Attempt>, out: Outcome)
    requires HonestTrace(a) && RetriesOnlyInconclusive(a) && a != [] && Inconclusive(a[|a| - 1].outcome)
    requires HonestTrace(b) && RetriesOnlyInconclusive(b) && EndsWith(b, out)
    requires forall i :: 0 <= i < |a| ==> a[i].side == Warm
    ensures HonestTrace(a + b) && RetriesOnlyInconclusive(a + b) && EndsWith(a + b, out)
    ensures FallsBack(b) ==> FallsBack(a + b)
  {
  }

  /** One input through the warm helper if there is one, else - or when the
      helper left the simulator untouched - through the cold command line. */
  method DispatchHid(slot: Slot, warmHID: bool, req: Request, s: Script, cold: ColdEvent)
    returns (out: Outcome, ghost trace: seq<Attempt>)
    requires slot.Valid()
    modifies slot, slot.helper, slot.sim
    ensures slot.Valid() && (slot.helper == old(slot.helper) || slot.helper == null || fresh(slot.helper))
    ensures 1 <= |trace| <= 3 && FallsBack(trace) && !out.Transport?
    ensures Sound(slot.sim, req, trace, out) && out == Surface(trace[|trace| - 1].outcome)
    ensures Reached(old(slot.sim.log), slot.sim.log, req, trace)
    ensures cold.Works? && (!warmHID || !s.slot) ==> out.Served?
    ensures warmHID && old(slot.WouldAnswer(s)) ==>
      out == Served(slot.sim.answer(req)) && |trace| == 1 && trace[0].side == Warm
    ensures warmHID && old(slot.WouldReplay(s)) ==>
      out == Served(slot.sim.answer(req)) && |trace| == 2 && trace[1].side == Warm
    ensures trace[|trace| - 1].side == Cold ==>
      out == if cold.Works? then Served(slot.sim.answer(req)) else ActionError(false)
  {
    hide Expected, Lands, Performed, Reached, HonestTrace, RetriesOnlyInconclusive, Slot.WouldAnswer, Slot.WouldReplay,
         AnswersOk;
    var sim := slot.sim;
    ghost var log0 := sim.log;
    ghost var warm: seq<Attempt> := [];
    if warmHID {
      out, warm := slot.Call(req, s);
      // an unknown op asks for the cold path, like an undelivered failure
      if !Inconclusive(out) {
        trace := warm;
        out := if out.Transport? then Unavailable else out;
        return;
      }
    }
    ghost var log1 := sim.log;
    ghost var last;
    out, last := RunCold(sim, req, cold);
    trace := last;
    if warmHID {
      Chain(warm, last, out);
      trace := warm + last;
      ReachedThen(log0, log1, sim.log, req, warm, last);
    }
  }

  // How a warm-capable action is routed (warm.go's Dispatch and dispatchRest).
  datatype Route = Route(inTable: bool, verify: bool, logs: bool, coldAXe: bool, encodeColdOnly: bool, viaHid: bool)

  predicate RoutedCold(r: Route) {
    !r.inTable || ((r.verify || r.logs) && r.coldAXe) || r.encodeColdOnly
  }

  // The cold backend's handler for the action: the command line itself, or for
  // some inputs dispatchHID, which prefers the helper again.
  method DispatchCold(slot: Slot, r: Route, req: Request, s: Script, cold: ColdEvent)
    returns (out: Outcome, ghost trace: seq<Attempt>)
    requires slot.Valid()
    modifies slot, slot.helper, slot.sim
    ensures slot.Valid() && (slot.helper == old(slot.helper) || slot.helper == null || fresh(slot.helper))
    ensures 1 <= |trace| <= 3 && FallsBack(trace) && !out.Transport?
    ensures Sound(slot.sim, req, trace, out) && out == Surface(trace[|trace| - 1].outcome)
    ensures Reached(old(slot.sim.log), slot.sim.log, req, trace)
    ensures cold.Works? && (!r.viaHid || !s.slot) ==> out.Served?
    ensures r.viaHid && old(slot.WouldAnswer(s)) ==>
      out == Served(slot.sim.answer(req)) && |trace| == 1 && trace[0].side == Warm
    ensures !r.viaHid ==> |trace| == 1 && trace[0].side == Cold
    ensures trace[|trace| - 1].side == Cold ==>
      out == if cold.Works? then Served(slot.sim.answer(req)) else ActionError(false)
  {
    if r.viaHid {
      out, trace := DispatchHid(slot, true, req, s, cold);
    } else {
      out, trace := RunCold(slot.sim, req, cold);
    }
  }

  // The warm path of one input, and the cold backend when nothing was delivered.
  method DispatchWarm(slot: Slot, r: Route, req: Request, s: Script, s2: Script, cold: ColdEvent)
    returns (out: Outcome, ghost trace: seq<Attempt>)
    requires slot.Valid()
    modifies slot, slot.helper, slot.sim
    ensures slot.Valid() && (slot.helper == old(slot.helper) || slot.helper == null || fresh(slot.helper))
    ensures 1 <= |trace| <= 5 && Sound(slot.sim, req, trace, out) && !out.Transport?
    ensures out == Surface(trace[|trace| - 1].outcome)
    ensures Reached(old(slot.sim.log), slot.sim.log, req, trace)
    ensures cold.Works? && !s.slot && !s2.slot ==> out.Served?
    ensures old(slot.WouldAnswer(s)) ==>
      out == Served(slot.sim.answer(req)) && |trace| == 1 && trace[0].side == Warm
    ensures old(slot.WouldReplay(s)) ==>
      out == Served(slot.sim.answer(req)) && |trace| == 2 && trace[1].side == Warm
    ensures trace[|trace| - 1].side == Cold ==>
      out == if cold.Works? then Served(slot.sim.answer(req)) else ActionError(false)
  {
    hide Expected, Lands, Performed, Reached, HonestTrace, RetriesOnlyInconclusive, FallsBack, Slot.WouldAnswer,
         Slot.WouldReplay;
    var sim := slot.sim;
    ghost var log0 := sim.log;
    out, trace := slot.Call(req, s);
    if out == Transport(false) {
      ghost var log1, warm := sim.log, trace;
      ghost var last;
      out, last := DispatchCold(slot, r, req, s2, cold);
      Chain(warm, last, last[|last| - 1].outcome);
      ReachedThen(log0, log1, sim.log, req, warm, last);
      trace := warm + last;
    } else if out == Transport(true) {
      out := Unavailable;
    }
  }

  /** One non-idempotent input through every layer: pool replay, warm dispatch,
      cold backend and the cold backend's own use of the helper. It reaches the
      simulator at most once, exactly once on success, not at all when the
      outcome says so, and the result is its own. A helper that answers ok serves it
      in one warm attempt, a restarted one in two. */
  method Dispatch(slot: Slot, r: Route, req: Request, s: Script, s2: Script, cold: ColdEvent)
    returns (out: Outcome, ghost trace: seq<Attempt>)
    requires slot.Valid()
    modifies slot, slot.helper, slot.sim
    ensures slot.Valid() && (slot.helper == old(slot.helper) || slot.helper == null || fresh(slot.helper))
    ensures 1 <= |trace| <= 5 && Sound(slot.sim, req, trace, out)
    ensures out == Surface(trace[|trace| - 1].outcome)
    ensures slot.sim.log == old(slot.sim.log) || slot.sim.log == old(slot.sim.log) + [req]
    ensures out.Served? ==> slot.sim.log == old(slot.sim.log) + [req] && out.body == slot.sim.answer(req)
    ensures Inconclusive(out) ==> slot.sim.log == old(slot.sim.log)
    ensures !out.Transport?
    ensures RoutedCold(r) ==> FallsBack(trace)
    ensures cold.Works? && !s.slot && !s2.slot ==> out.Served?
    ensures r.inTable && (!r.coldAXe || (!r.verify && !r.logs)) && !r.encodeColdOnly && old(slot.WouldAnswer(s)) ==>
      out == Served(slot.sim.answer(req)) && |trace| == 1 && trace[0].side == Warm
    ensures r.inTable && (!r.coldAXe || (!r.verify && !r.logs)) && !r.encodeColdOnly && old(slot.WouldReplay(s)) ==>
      out == Served(slot.sim.answer(req)) && |trace| == 2 && trace[1].side == Warm
    ensures RoutedCold(r) && r.viaHid && old(slot.WouldAnswer(s2)) ==>
      out == Served(slot.sim.answer(req)) && |trace| == 1 && trace[0].side == Warm
    ensures (!r.inTable || (r.coldAXe && (r.verify || r.logs)) || r.encodeColdOnly) && !r.viaHid ==>
      |trace| == 1 && trace[0].side == Cold
    ensures trace[|trace| - 1].side == Cold ==>
      out == if cold.Works? then Served(slot.sim.answer(req)) else ActionError(false)
  {
    hide Expected, Lands, Performed, Reached, HonestTrace, RetriesOnlyInconclusive, FallsBack, Slot.WouldAnswer,
         Slot.WouldReplay;
    ghost var log0 := slot.sim.log;
    if RoutedCold(r) {
      out, trace := DispatchCold(slot, r, req, s2, cold);
    } else {
      out, trace := DispatchWarm(slot, r, req, s, s2, cold);
    }
    LandsAtMostOnce(log0, slot.sim.log, req, trace);
  }

  /** A whole session on one slot, helpers and their unread lines surviving from
      one input to the next: the simulator sees the inputs in order, none twice,
      every successful one, and each success is the input's own result. */
  method Session(slot: Slot, routes: seq<Route>, reqs: seq<Request>, s: seq<Script>, s2: seq<Script>, cold: seq<ColdEvent>)
    returns (outs: seq<Outcome>, ghost landed: seq<bool>)
    requires slot.Valid()
    requires |routes| == |s| == |s2| == |cold| == |reqs|
    modifies slot, slot.helper, slot.sim
    ensures slot.Valid()
    ensures |outs| == |landed| == |reqs|
    ensures slot.sim.log == old(slot.sim.log) + Kept(reqs, landed)
    ensures forall i :: 0 <= i < |reqs| && outs[i].Served? ==> landed[i] && outs[i].body == slot.sim.answer(reqs[i])
    ensures forall i :: 0 <= i < |reqs| && Inconclusive(outs[i]) ==> !landed[i]
    ensures forall i :: 0 <= i < |reqs| && cold[i].Works? && !s[i].slot && !s2[i].slot ==> outs[i].Served?
    ensures forall i :: 0 <= i < |reqs| && RoutedCold(routes[i]) && !routes[i].viaHid ==>
      outs[i] == if cold[i].Works? then Served(slot.sim.answer(reqs[i])) else ActionError(false)
  {
    hide Expected, Lands, Performed, HonestTrace, RetriesOnlyInconclusive, Sound, Reached, FallsBack, Surface,
         Slot.WouldAnswer, Slot.WouldReplay, Kept;
    NoneKept();
    outs, landed := [], [];
    var i := 0;
    while i < |reqs|
      invariant i == |outs| == |landed| <= |reqs|
      invariant slot.Valid() && (slot.helper == old(slot.helper) || slot.helper == null || fresh(slot.helper))
      invariant slot.sim.log == old(slot.sim.log) + Kept(reqs[..i], landed)
      invariant forall j :: 0 <= j < i && outs[j].Served? ==> landed[j] && outs[j].body == slot.sim.answer(reqs[j])
      invariant forall j :: 0 <= j < i && Inconclusive(outs[j]) ==> !landed[j]
      invariant forall j :: 0 <= j < i && cold[j].Works? && !s[j].slot && !s2[j].slot ==> outs[j].Served?
      invariant forall j :: 0 <= j < i && RoutedCold(routes[j]) && !routes[j].viaHid ==>
        outs[j] == if cold[j].Works? then Served(slot.sim.answer(reqs[j])) else ActionError(false)
    {
      ghost var before := slot.sim.log;
      var out, _ := Dispatch(slot, routes[i], reqs[i], s[i], s2[i], cold[i]);
      ghost var hit := slot.sim.log != before;
      outs, landed := outs + [out], landed + [hit];
      KeptOne(reqs, i, landed);
      i := i + 1;
    }
    assert reqs[..i] == reqs;
  }

  // The inputs that landed, in order.
  ghost function Kept(reqs: seq<Request>, landed: seq<bool>): seq<Request>
    requires |reqs| == |landed|
  {
    if reqs == [] then []
    else Kept(reqs[..|reqs| - 1], landed[..|reqs| - 1]) + if landed[|reqs| - 1] then [reqs[|reqs| - 1]] else []
  }

  lemma NoneKept()
    ensures Kept([], []) == []
  {
  }

  lemma KeptOne(reqs: seq<Request>, i: nat, landed: seq<bool>)
    requires i < |reqs| && |landed| == i + 1
    ensures Kept(reqs[..i + 1], landed) == Kept(reqs[..i], landed[..i]) + if landed[i] then [reqs[i]] else []
  {
    assert reqs[..i + 1][..i] == reqs[..i];
  }
}
