// One element resolution: the rungs are cycled in order until one shows the
// element on screen, the budget is spent, or waiting cannot help.
module Ladder {
  import opened Common
  import opened Breaker

  datatype Kind = MapRung | TemplateRung | AxRung | OtherRung

  // What a rung saw of the screen; no nodes at all differs from an empty list.
  datatype Obs = Obs(nodes: Option<seq<string>>)

  predicate Rich(o: Obs) {
    o.nodes.Some? && o.nodes.value != []
  }

  // What one attempt of a rung comes to.
  datatype Answer =
    | OnScreen(obs: Obs)
    | OffViewport(obs: Obs)
    | CannotServe
    | SourceDown
    | Miss(obs: Obs)
    | Exceeded
    | MatcherError
    | ConfigError
    | Broke(reason: string)
    | AmbientOver

  // The rungs and sources: `answer(n)` and `cost(n)` of the n-th attempt,
  // `over(n)` whether the request's own budget is over when n attempts are made.
  datatype World = World(answer: nat -> Answer, cost: nat -> nat, over: nat -> bool)

  // A match outside the viewport was found among the nodes of its observation.
  ghost predicate HitsAreSeen(w: World) {
    forall n :: w.answer(n).OffViewport? ==> Rich(w.answer(n).obs)
  }

  datatype Plan = Plan(rungs: seq<Kind>, guard: bool, key: string, timeout: nat, interval: nat)

  // One attempt, with what had happened to the breaker by then.
  datatype Attempt = Attempt(kind: Kind, answer: Answer, at: seq<Event>)

  datatype Outcome =
    | Found(kind: Kind, polls: nat)
    | RequestOver
    | BadMatcher
    | BadSetup
    | SourceFailed(reason: string)
    | StayedOffViewport
    | Escalated(evidence: Obs, skipped: bool)

  // The step's variables.
  datatype Locals = Locals(
    polls: nat, now: nat, skipped: bool, offScreen: bool, axCounted: bool, axDown: bool, lastObs: Obs, lastFail: Option<string>)

  // Those of one cycle over the rungs.
  datatype Cycle = Cycle(attempted: int, hardFail: Option<string>, alive: bool)

  predicate Guarded(p: Plan, kind: Kind) {
    kind == AxRung && p.guard
  }

  // ---------- what holds throughout a step ----------

  // Failures that may be charged.
  predicate Chargeable(a: Answer) {
    a.Exceeded? || a.Broke? || a.SourceDown?
  }

  predicate Evident(a: Answer) {
    (a.OffViewport? || a.Miss?) && Rich(a.obs)
  }

  ghost predicate Charged(p: Plan, trace: seq<Attempt>) {
    exists i :: 0 <= i < |trace| && Guarded(p, trace[i].kind) && Chargeable(trace[i].answer)
  }

  ghost predicate Witnessed(trace: seq<Attempt>) {
    exists i :: 0 <= i < |trace| && Evident(trace[i].answer)
  }

  ghost predicate NeverAttemptedOpen(p: Plan, trace: seq<Attempt>) {
    forall i :: 0 <= i < |trace| && Guarded(p, trace[i].kind) ==> !Opened(trace[i].at, p.key)
  }

  // The breaker has only been told about this key, at most one charge of it.
  ghost predicate Accounted(p: Plan, log0: seq<Event>, log: seq<Event>, counted: bool) {
    && log0 <= log
    && Charges(log) == Charges(log0) + (if counted then 1 else 0)
    && (forall i :: |log0| <= i < |log| ==> log[i] == Charge(p.key) || log[i] == Honest(p.key) || log[i] == Reset)
  }

  // A circuit open from the start: the guarded rung and the breaker are left alone.
  ghost predicate LeftAlone(p: Plan, log0: seq<Event>, log: seq<Event>, trace: seq<Attempt>) {
    p.guard && Opened(log0, p.key) ==> log == log0 && forall i :: 0 <= i < |trace| ==> trace[i].kind != AxRung
  }

  ghost predicate Progress(p: Plan, log0: seq<Event>, log: seq<Event>, st: Locals, trace: seq<Attempt>) {
    && Accounted(p, log0, log, st.axCounted)
    && NeverAttemptedOpen(p, trace)
    && st.polls == |trace|
    && (Rich(st.lastObs) <==> Witnessed(trace))
    && (st.axCounted || st.axDown ==> Charged(p, trace))
    && (forall i :: 0 <= i < |trace| ==> !trace[i].answer.OnScreen?)
    && LeftAlone(p, log0, log, trace)
  }

  // A step that ended within a cycle; it succeeded exactly when the last attempt
  // showed the element, and with that rung.
  ghost predicate Ended(p: Plan, log0: seq<Event>, log: seq<Event>, trace: seq<Attempt>, out: Outcome) {
    && NeverAttemptedOpen(p, trace)
    && (forall i :: 0 <= i < |trace| - 1 ==> !trace[i].answer.OnScreen?)
    && (out.Found? <==> trace != [] && trace[|trace| - 1].answer.OnScreen?)
    && (out.Found? ==> out.kind == trace[|trace| - 1].kind && out.polls == |trace|)
    && LeftAlone(p, log0, log, trace)
  }

  // The trace is what the rungs answered, and every outcome has its reason in it.
  ghost predicate Faithful(w: World, trace: seq<Attempt>) {
    forall i :: 0 <= i < |trace| ==> trace[i].answer == w.answer(i)
  }

  ghost predicate Answered(trace: seq<Attempt>, a: Answer) {
    exists i :: 0 <= i < |trace| && trace[i].answer == a
  }

  ghost predicate WentOff(trace: seq<Attempt>) {
    exists i :: 0 <= i < |trace| && trace[i].answer.OffViewport?
  }

  // The failures and the off-screen verdict remembered by a step were answered.
  ghost predicate Blames(trace: seq<Attempt>, reason: Option<string>) {
    reason.Some? ==> Answered(trace, Broke(reason.value))
  }

  lemma AnsweredGrows(trace: seq<Attempt>, last: Attempt, reason: Option<string>, off: bool)
    requires Blames(trace, reason) && (off ==> WentOff(trace))
    ensures Blames(trace + [last], reason) && (off ==> WentOff(trace + [last]))
    ensures Answered(trace + [last], last.answer)
    ensures last.answer.OffViewport? ==> WentOff(trace + [last])
  {
    var all := trace + [last];
    assert all[|trace|] == last;
    if reason.Some? {
      var i :| 0 <= i < |trace| && trace[i].answer == Broke(reason.value);
      assert all[i] == trace[i];
    }
    if off {
      var i :| 0 <= i < |trace| && trace[i].answer.OffViewport?;
      assert all[i] == trace[i];
    }
  }

  lemma BlamesLast(trace: seq<Attempt>, last: Attempt)
    ensures last.answer.Broke? ==> Blames(trace + [last], Some(last.answer.reason))
  {
    assert (trace + [last])[|trace|] == last;
  }

  // What a step remembers of its trace.
  ghost predicate Remembers(w: World, trace: seq<Attempt>, st: Locals, c: Cycle) {
    && Faithful(w, trace) && st.polls == |trace|
    && Blames(trace, st.lastFail) && Blames(trace, c.hardFail) && (st.offScreen ==> WentOff(trace))
  }

  ghost predicate Justified(w: World, trace: seq<Attempt>, out: Outcome) {
    && Faithful(w, trace)
    && (out.RequestOver? ==> w.over(|trace|) || (trace != [] && trace[|trace| - 1].answer.AmbientOver?))
    && (out.BadMatcher? ==> trace != [] && trace[|trace| - 1].answer.MatcherError?)
    && (out.BadSetup? ==> trace != [] && trace[|trace| - 1].answer.ConfigError?)
    && (out.SourceFailed? ==> Answered(trace, Broke(out.reason)))
    && (out.StayedOffViewport? ==> WentOff(trace))
  }

  // ---------- what the answers come to, told by the trace alone ----------

  // The time the first n attempts took.
  ghost function Costs(w: World, n: nat): nat {
    if n == 0 then 0 else Costs(w, n - 1) + w.cost(n - 1)
  }

  // The time n pauses take at most.
  ghost function Pauses(p: Plan, n: nat): nat {
    n * p.interval
  }

  lemma PausesGrow(p: Plan, m: nat, n: nat)
    requires m <= n
    ensures Pauses(p, m) <= Pauses(p, n) && Pauses(p, m + 1) == Pauses(p, m) + p.interval
  {
    assert n * p.interval == m * p.interval + (n - m) * p.interval;
  }

  // Attempts at real sources, less those that could not serve the matcher.
  ghost function Tries(trace: seq<Attempt>): int {
    if trace == [] then 0
    else
      var last := trace[|trace| - 1];
      Tries(trace[..|trace| - 1]) + (if last.kind != MapRung then 1 else 0) - (if last.answer.CannotServe? then 1 else 0)
  }

  // An attempt after which another cycle may help.
  predicate Lives(a: Attempt) {
    a.answer.OffViewport? || a.answer.SourceDown? || a.answer.Exceeded? || (a.answer.Miss? && a.kind != MapRung)
  }

  ghost predicate SomeLives(trace: seq<Attempt>) {
    exists i :: 0 <= i < |trace| && Lives(trace[i])
  }

  // The reason of the last source that broke.
  ghost function LastBroke(trace: seq<Attempt>): Option<string> {
    if trace == [] then None
    else
      var last := trace[|trace| - 1].answer;
      if last.Broke? then Some(last.reason) else LastBroke(trace[..|trace| - 1])
  }

  // The element was last seen, and outside the viewport.
  ghost predicate Off(trace: seq<Attempt>) {
    trace != [] &&
    match trace[|trace| - 1].answer
    case OffViewport(_) => true
    case SourceDown => false
    case Miss(_) => false
    case Exceeded => false
    case Broke(_) => false
    case _ => Off(trace[..|trace| - 1])
  }

  // What was last seen of the screen, if anything was.
  ghost function LastSeen(trace: seq<Attempt>): Option<Obs> {
    if trace == [] then None
    else
      var last := trace[|trace| - 1].answer;
      if Evident(last) then Some(last.obs) else LastSeen(trace[..|trace| - 1])
  }

  // The guarded source was down when last asked.
  ghost predicate Down(p: Plan, trace: seq<Attempt>) {
    trace != [] &&
    var last := trace[|trace| - 1];
    if last.answer.SourceDown? then Guarded(p, last.kind)
    else if Guarded(p, last.kind) && (last.answer.OffViewport? || last.answer.Miss?) then false
    else Down(p, trace[..|trace| - 1])
  }

  // The guarded source was last asked with success: it showed the screen.
  ghost predicate LastHonest(p: Plan, trace: seq<Attempt>) {
    trace != [] &&
    var last := trace[|trace| - 1];
    if Guarded(p, last.kind) then Observed(last.answer) else LastHonest(p, trace[..|trace| - 1])
  }

  predicate Observed(a: Answer) {
    a.OnScreen? || a.OffViewport? || a.Miss?
  }

  // Then no failure is held against it.
  ghost predicate Cleared(p: Plan, log: seq<Event>, trace: seq<Attempt>) {
    LastHonest(p, trace) ==> Streak(log, p.key) == 0
  }

  lemma ClearedGrows(p: Plan, log: seq<Event>, log': seq<Event>, trace: seq<Attempt>, last: Attempt)
    requires Cleared(p, log, trace) && (!Guarded(p, last.kind) ==> log' == log)
    requires Guarded(p, last.kind) && Observed(last.answer) ==> Streak(log', p.key) == 0
    ensures Cleared(p, log', trace + [last])
  {
    assert (trace + [last])[..|trace|] == trace;
  }

  lemma {:induction false} HonestIsNotDown(p: Plan, trace: seq<Attempt>)
    requires LastHonest(p, trace) && forall i :: 0 <= i < |trace| ==> !trace[i].answer.OnScreen?
    ensures !Down(p, trace)
  {
    if !Guarded(p, trace[|trace| - 1].kind) {
      HonestIsNotDown(p, trace[..|trace| - 1]);
    }
  }

  // Attempt i of a guarded rung broke, or ran out of its own budget well within
  // the step's.
  ghost predicate Owes(p: Plan, w: World, a: Attempt, i: nat) {
    && Guarded(p, a.kind)
    && (a.answer.Broke? || (a.answer.Exceeded? && p.rungs != [] && Costs(w, i + 1) + Pauses(p, i + 1) <= p.timeout))
  }

  ghost predicate OwesCharge(p: Plan, w: World, trace: seq<Attempt>) {
    exists i :: 0 <= i < |trace| && Owes(p, w, trace[i], i)
  }

  // The attempts of one cycle: the rungs in order, where guarded ones may be missing.
  ghost predicate PassOver(p: Plan, rungs: seq<Kind>, trace: seq<Attempt>)
    decreases |rungs|
  {
    if rungs == [] then trace == []
    else
      var r, rest := rungs[|rungs| - 1], rungs[..|rungs| - 1];
      || (trace != [] && trace[|trace| - 1].kind == r && PassOver(p, rest, trace[..|trace| - 1]))
      || (Guarded(p, r) && PassOver(p, rest, trace))
  }

  // The step's variables say the same as the trace.
  ghost predicate Summed(p: Plan, w: World, trace: seq<Attempt>, st: Locals) {
    && st.polls == |trace|
    && st.lastFail == LastBroke(trace)
    && (st.offScreen <==> Off(trace))
    && (LastSeen(trace).Some? ==> st.lastObs == LastSeen(trace).value && Rich(st.lastObs))
    && (st.axDown <==> Down(p, trace))
    && (OwesCharge(p, w, trace) ==> st.axCounted)
  }

  ghost predicate CycleSums(trace: seq<Attempt>, c: Cycle) {
    c.attempted == Tries(trace) && c.hardFail == LastBroke(trace) && (c.alive <==> SomeLives(trace))
  }

  // The clock stands at the costs and the pauses, no more than one pause for each
  // attempt, and no attempt began after the deadline.
  ghost predicate Timed(p: Plan, w: World, trace: seq<Attempt>, now: nat, waited: nat) {
    && now == Costs(w, |trace|) + waited
    && (p.rungs != [] ==> waited <= Pauses(p, |trace|))
    && (trace != [] ==> Costs(w, |trace| - 1) <= p.timeout)
  }

  // A skipped rung is the guarded one, and its circuit is open.
  ghost predicate Skips(p: Plan, log: seq<Event>, st: Locals) {
    st.skipped ==> p.guard && AxRung in p.rungs && Opened(log, p.key)
  }

  lemma OneMore(p: Plan, trace: seq<Attempt>, last: Attempt)
    ensures (trace + [last])[..|trace|] == trace
    ensures Tries(trace + [last]) ==
      Tries(trace) + (if last.kind != MapRung then 1 else 0) - (if last.answer.CannotServe? then 1 else 0)
    ensures LastBroke(trace + [last]) == if last.answer.Broke? then Some(last.answer.reason) else LastBroke(trace)
    ensures LastSeen(trace + [last]) == if Evident(last.answer) then Some(last.answer.obs) else LastSeen(trace)
    ensures SomeLives(trace + [last]) <==> SomeLives(trace) || Lives(last)
  {
    var all := trace + [last];
    assert all[..|trace|] == trace;
    assert all[|trace|] == last;
    if SomeLives(trace) {
      var i :| 0 <= i < |trace| && Lives(trace[i]);
      assert all[i] == trace[i];
    }
  }

  lemma OneMoreOwes(p: Plan, w: World, trace: seq<Attempt>, last: Attempt)
    ensures OwesCharge(p, w, trace + [last]) ==> OwesCharge(p, w, trace) || Owes(p, w, last, |trace|)
  {
    hide Owes;
    if OwesCharge(p, w, trace + [last]) {
      var i :| 0 <= i < |trace + [last]| && Owes(p, w, (trace + [last])[i], i);
      assert i < |trace| ==> Owes(p, w, trace[i], i);
    }
  }

  lemma SummedGrows(p: Plan, w: World, trace: seq<Attempt>, st: Locals, last: Attempt, late: bool, now: nat)
    requires Summed(p, w, trace, st) && (last.answer.OffViewport? ==> Rich(last.answer.obs))
    requires late && p.rungs != [] ==> Costs(w, |trace| + 1) + Pauses(p, |trace| + 1) > p.timeout
    ensures Summed(p, w, trace + [last], Noted(st.(polls := st.polls + 1, now := now), last.answer, Guarded(p, last.kind), late))
  {
    hide OwesCharge, Costs, Pauses;
    OneMore(p, trace, last);
    OneMoreOwes(p, w, trace, last);
  }

  lemma CycleSumsGrow(p: Plan, trace: seq<Attempt>, c: Cycle, last: Attempt)
    requires CycleSums(trace, c)
    ensures var c1 := if last.kind != MapRung then c.(attempted := c.attempted + 1) else c;
      CycleSums(trace + [last], NotedCycle(c1, last.answer, last.kind))
  {
    hide Tries, LastBroke, SomeLives;
    OneMore(p, trace, last);
  }

  lemma PassGrows(p: Plan, rungs: seq<Kind>, kind: Kind, trace: seq<Attempt>, last: Attempt)
    requires PassOver(p, rungs, trace) && last.kind == kind
    ensures PassOver(p, rungs + [kind], trace + [last])
  {
    assert (rungs + [kind])[..|rungs|] == rungs;
    assert (trace + [last])[..|trace|] == trace;
  }

  lemma PassSkips(p: Plan, rungs: seq<Kind>, kind: Kind, trace: seq<Attempt>)
    requires PassOver(p, rungs, trace) && Guarded(p, kind)
    ensures PassOver(p, rungs + [kind], trace)
  {
    assert (rungs + [kind])[..|rungs|] == rungs;
  }

  lemma TimedGrows(p: Plan, w: World, trace: seq<Attempt>, last: Attempt, now: nat, waited: nat)
    requires Timed(p, w, trace, now, waited) && now <= p.timeout
    ensures Timed(p, w, trace + [last], now + w.cost(|trace|), waited)
    ensures now + w.cost(|trace|) > p.timeout && p.rungs != [] ==> Costs(w, |trace| + 1) + Pauses(p, |trace| + 1) > p.timeout
  {
    hide Pauses;
    PausesGrow(p, |trace|, |trace|);
  }

  lemma TimedWaits(p: Plan, w: World, before: nat, trace: seq<Attempt>, now: nat, waited: nat, more: nat)
    requires Timed(p, w, trace, now, waited) && more <= p.interval
    requires p.rungs != [] ==> before < |trace| && waited <= Pauses(p, before)
    ensures Timed(p, w, trace, now + more, waited + more)
  {
    hide Pauses, Costs;
    if p.rungs != [] {
      PausesGrow(p, before, before);
      PausesGrow(p, before + 1, |trace|);
    }
  }

  // ---------- one attempt ----------

  // The breaker is charged at most once per step.
  method CountFailure(b: AxBreaker, p: Plan, counted: bool, ghost log0: seq<Event>)
    requires b.Valid() && Accounted(p, log0, b.log, counted)
    modifies b
    ensures b.Valid() && Accounted(p, log0, b.log, true)
    ensures counted ==> b.log == old(b.log)
    ensures old(b.log) <= b.log
  {
    if !counted {
      ghost var before := b.log;
      var _ := b.Fail(p.key);
      AppendEvent(before, Reset);
      AppendEvent(before, Charge(p.key));
      AppendEvent(before + [Reset], Charge(p.key));
    }
  }

  method NoteHonest(b: AxBreaker, p: Plan, ghost log0: seq<Event>, ghost counted: bool)
    requires b.Valid() && Accounted(p, log0, b.log, counted)
    modifies b
    ensures b.Valid() && Accounted(p, log0, b.log, counted) && Streak(b.log, p.key) == 0
  {
    ghost var before := b.log;
    b.Succeed(p.key);
    AppendEvent(before, Honest(p.key));
  }

  // Evidence is replaced only by evidence at least as rich.
  function Richer(last: Obs, obs: Obs): Obs {
    if obs.nodes.Some? && (obs.nodes.value != [] || last.nodes.None?) then obs else last
  }

  // The step's variables after one answer, apart from the breaker.
  function Noted(st: Locals, a: Answer, guarded: bool, late: bool): Locals {
    match a
    case OffViewport(obs) => st.(offScreen := true, lastObs := obs, axDown := if guarded then false else st.axDown)
    case SourceDown => st.(axDown := guarded, offScreen := false)
    case Miss(obs) => st.(lastObs := Richer(st.lastObs, obs), offScreen := false, axDown := if guarded then false else st.axDown)
    case Exceeded => st.(offScreen := false, axCounted := st.axCounted || (guarded && !late))
    case Broke(reason) => st.(offScreen := false, lastFail := Some(reason), axCounted := st.axCounted || guarded)
    case _ => st
  }

  function NotedCycle(c: Cycle, a: Answer, kind: Kind): Cycle {
    match a
    case OffViewport(_) => c.(alive := true)
    case CannotServe => c.(attempted := c.attempted - 1)
    case SourceDown => c.(alive := true)
    case Miss(_) => c.(alive := c.alive || kind != MapRung)
    case Exceeded => c.(alive := true)
    case Broke(reason) => c.(hardFail := Some(reason))
    case _ => c
  }

  // Answers that end the step at once.
  function Final(a: Answer, kind: Kind, polls: nat): Option<Outcome> {
    match a
    case OnScreen(_) => Some(Found(kind, polls))
    case AmbientOver => Some(RequestOver)
    case MatcherError => Some(BadMatcher)
    case ConfigError => Some(BadSetup)
    case _ => None
  }

  // The answer of an attempt reaches the breaker.
  method TellBreaker(b: AxBreaker, p: Plan, a: Answer, late: bool, counted: bool, ghost log0: seq<Event>)
    requires b.Valid() && Accounted(p, log0, b.log, counted)
    modifies b
    ensures b.Valid()
    ensures Accounted(p, log0, b.log, counted || (a.Exceeded? && !late) || a.Broke?)
    ensures Observed(a) ==> Streak(b.log, p.key) == 0
  {
    match a {
      case OnScreen(_) => NoteHonest(b, p, log0, counted);
      case OffViewport(_) => NoteHonest(b, p, log0, counted);
      case Miss(_) => NoteHonest(b, p, log0, counted);
      case Exceeded =>
        if !late {
          CountFailure(b, p, counted, log0);
        }
      case Broke(_) => CountFailure(b, p, counted, log0);
      case _ =>
    }
  }

  // What an attempt that does not end the step leaves behind.
  lemma AttemptKeepsProgress(p: Plan, log0: seq<Event>, log: seq<Event>, log': seq<Event>, st: Locals, trace: seq<Attempt>,
                             kind: Kind, a: Answer, late: bool, st': Locals)
    requires Progress(p, log0, log, st, trace)
    requires Guarded(p, kind) ==> !Opened(log, p.key)
    requires !Guarded(p, kind) ==> log' == log
    requires a.OffViewport? ==> Rich(a.obs)
    requires Final(a, kind, st.polls + 1).None?
    requires st' == Noted(st, a, Guarded(p, kind), late).(polls := st.polls + 1, now := st'.now)
    requires Accounted(p, log0, log', st'.axCounted)
    ensures Progress(p, log0, log', st', trace + [Attempt(kind, a, log)])
  {
    TraceGrows(p, trace, Attempt(kind, a, log));
  }

  lemma TraceGrows(p: Plan, trace: seq<Attempt>, last: Attempt)
    ensures Witnessed(trace + [last]) <==> Witnessed(trace) || Evident(last.answer)
    ensures Charged(p, trace + [last]) <==> Charged(p, trace) || (Guarded(p, last.kind) && Chargeable(last.answer))
  {
    var all := trace + [last];
    if Witnessed(trace) {
      var i :| 0 <= i < |trace| && Evident(trace[i].answer);
      assert all[i] == trace[i];
    }
    if Charged(p, trace) {
      var i :| 0 <= i < |trace| && Guarded(p, trace[i].kind) && Chargeable(trace[i].answer);
      assert all[i] == trace[i];
    }
    assert all[|trace|] == last;
  }

  lemma ChargeHasReason(p: Plan, trace: seq<Attempt>, last: Attempt, counted: bool)
    requires counted ==> Charged(p, trace)
    ensures counted || (Guarded(p, last.kind) && (last.answer.Exceeded? || last.answer.Broke?)) ==> Charged(p, trace + [last])
  {
    TraceGrows(p, trace, last);
  }

  lemma NotedFacts(st: Locals, a: Answer, guarded: bool, late: bool, polls: nat, now: nat)
    ensures var r := Noted(st.(polls := polls, now := now), a, guarded, late);
      && r == Noted(st, a, guarded, late).(polls := polls, now := now)
      && r.now == now && r.polls == polls && r.skipped == st.skipped
      && r.axCounted == (st.axCounted || (guarded && ((a.Exceeded? && !late) || a.Broke?)))
      && r.lastFail == (if a.Broke? then Some(a.reason) else st.lastFail)
      && (r.offScreen ==> st.offScreen || a.OffViewport?)
  {
  }

  lemma CycleFacts(c: Cycle, a: Answer, kind: Kind)
    ensures NotedCycle(c, a, kind).hardFail == if a.Broke? then Some(a.reason) else c.hardFail
  {
  }

  lemma FinalFacts(w: World, trace: seq<Attempt>, kind: Kind, a: Answer, at: seq<Event>)
    requires Faithful(w, trace) && a == w.answer(|trace|)
    ensures Faithful(w, trace + [Attempt(kind, a, at)])
    ensures Final(a, kind, |trace| + 1).Some? ==>
      Justified(w, trace + [Attempt(kind, a, at)], Final(a, kind, |trace| + 1).value) && !Waited(Final(a, kind, |trace| + 1).value)
  {
  }

  // One attempt, from its answer to the breaker and the step's variables.
  method TryRung(b: AxBreaker, p: Plan, w: World, kind: Kind, st0: Locals, c0: Cycle, ghost log0: seq<Event>,
                 ghost trace0: seq<Attempt>, ghost start: nat, ghost waited: nat)
    returns (st: Locals, c: Cycle, done: Option<Outcome>, ghost trace: seq<Attempt>)
    requires b.Valid() && HitsAreSeen(w) && Progress(p, log0, b.log, st0, trace0)
    requires Accounted(p, log0, b.log, st0.axCounted) && (st0.axCounted ==> Charged(p, trace0))
    requires Guarded(p, kind) ==> !Opened(b.log, p.key)
    requires Remembers(w, trace0, st0, c0)
    requires Summed(p, w, trace0, st0) && start <= |trace0| && CycleSums(trace0[start..], c0)
    requires Timed(p, w, trace0, st0.now, waited) && st0.now <= p.timeout && Cleared(p, b.log, trace0)
    modifies b
    ensures Cleared(p, b.log, trace)
    ensures b.Valid() && st.now >= st0.now && Remembers(w, trace, st, c)
    ensures |trace| == |trace0| + 1 && trace[..|trace0|] == trace0 && trace[|trace0|].kind == kind
    ensures Summed(p, w, trace, st) && CycleSums(trace[start..], c) && Timed(p, w, trace, st.now, waited)
    ensures st.skipped == st0.skipped && (!Guarded(p, kind) ==> b.log == old(b.log))
    ensures Accounted(p, log0, b.log, st.axCounted) && (st.axCounted ==> Charged(p, trace))
    ensures done == Final(w.answer(st0.polls), kind, st0.polls + 1)
    ensures done.Some? ==> Justified(w, trace, done.value) && !Waited(done.value)
    ensures done.None? ==> Progress(p, log0, b.log, st, trace)
    ensures done.Some? ==> Ended(p, log0, b.log, trace, done.value)
  {
    hide *;
    ghost var log := b.log;
    var a := w.answer(st0.polls);
    var now := st0.now + w.cost(st0.polls);
    var late, guarded := now > p.timeout, Guarded(p, kind);
    st := st0.(polls := st0.polls + 1, now := now);
    NotedFacts(st0, a, guarded, late, st.polls, now);
    c := if kind != MapRung then c0.(attempted := c0.attempted + 1) else c0;
    if guarded {
      TellBreaker(b, p, a, late, st.axCounted, log0);
    }
    AnswerIsRemembered(w, trace0, st0, c0, kind, a, log, guarded, late, now);
    SeenHit(w, st0.polls);
    PollsMade(p, w, trace0, st0);
    ClearedGrows(p, log, b.log, trace0, Attempt(kind, a, log));
    TimedGrows(p, w, trace0, Attempt(kind, a, log), st0.now, waited);
    SummedGrows(p, w, trace0, st0, Attempt(kind, a, log), late, now);
    CycleSumsGrow(p, trace0[start..], c0, Attempt(kind, a, log));
    assert (trace0 + [Attempt(kind, a, log)])[start..] == trace0[start..] + [Attempt(kind, a, log)];
    ChargeHasReason(p, trace0, Attempt(kind, a, log), st0.axCounted);
    st, c, done := Noted(st, a, guarded, late), NotedCycle(c, a, kind), Final(a, kind, st.polls);
    trace := trace0 + [Attempt(kind, a, log)];
    if done.Some? {
      AttemptEnds(p, log0, log, b.log, st0, trace0, kind, a);
    } else {
      AttemptKeepsProgress(p, log0, log, b.log, st0, trace0, kind, a, late, st);
    }
  }

  lemma PollsMade(p: Plan, w: World, trace: seq<Attempt>, st: Locals)
    requires Summed(p, w, trace, st)
    ensures st.polls == |trace|
  {
  }

  lemma SeenHit(w: World, n: nat)
    requires HitsAreSeen(w)
    ensures w.answer(n).OffViewport? ==> Rich(w.answer(n).obs)
  {
  }

  // The step's memory after one more answer.
  lemma AnswerIsRemembered(w: World, trace: seq<Attempt>, st: Locals, c0: Cycle, kind: Kind, a: Answer, at: seq<Event>,
                           guarded: bool, late: bool, now: nat)
    requires Remembers(w, trace, st, c0) && a == w.answer(st.polls)
    ensures var c := if kind != MapRung then c0.(attempted := c0.attempted + 1) else c0;
      var after := trace + [Attempt(kind, a, at)];
      && Remembers(w, after, Noted(st.(polls := st.polls + 1, now := now), a, guarded, late), NotedCycle(c, a, kind))
      && (Final(a, kind, st.polls + 1).Some? ==>
           Justified(w, after, Final(a, kind, st.polls + 1).value) && !Waited(Final(a, kind, st.polls + 1).value))
  {
    hide Noted, NotedCycle, Final, Faithful, Blames, WentOff, Answered, Justified, Waited;
    var c := if kind != MapRung then c0.(attempted := c0.attempted + 1) else c0;
    NotedFacts(st, a, guarded, late, st.polls + 1, now);
    CycleFacts(c, a, kind);
    FinalFacts(w, trace, kind, a, at);
    AnsweredGrows(trace, Attempt(kind, a, at), st.lastFail, st.offScreen);
    AnsweredGrows(trace, Attempt(kind, a, at), c0.hardFail, false);
    BlamesLast(trace, Attempt(kind, a, at));
  }

  // ---------- one cycle ----------

  /** The rungs once, in order, until the deadline has passed. An open circuit is
      skipped; a map miss is no attempt at a real source. What the cycle counts is
      what its own attempts say. */
  method RunCycle(b: AxBreaker, p: Plan, w: World, st0: Locals, ghost log0: seq<Event>, ghost trace0: seq<Attempt>, ghost waited: nat)
    returns (st: Locals, c: Cycle, done: Option<Outcome>, ghost trace: seq<Attempt>)
    requires b.Valid() && HitsAreSeen(w) && Progress(p, log0, b.log, st0, trace0)
    requires Remembers(w, trace0, st0, Cycle(0, None, false))
    requires Summed(p, w, trace0, st0) && Timed(p, w, trace0, st0.now, waited) && Skips(p, b.log, st0) && st0.now <= p.timeout
    requires Cleared(p, b.log, trace0)
    modifies b
    ensures Cleared(p, b.log, trace)
    ensures b.Valid() && st.now >= st0.now
    ensures Accounted(p, log0, b.log, st.axCounted) && (st.axCounted ==> Charged(p, trace))
    ensures trace0 <= trace && Summed(p, w, trace, st) && Timed(p, w, trace, st.now, waited)
    ensures done.None? ==> Progress(p, log0, b.log, st, trace) && Remembers(w, trace, st, c)
    ensures done.None? ==> CycleSums(trace[|trace0|..], c) && Skips(p, b.log, st)
    ensures done.None? ==> st.now > p.timeout || PassOver(p, p.rungs, trace[|trace0|..])
    ensures done.None? && p.rungs != [] && !st.skipped ==> |trace| > |trace0|
    ensures done.Some? ==> Ended(p, log0, b.log, trace, done.value) && Justified(w, trace, done.value) && !Waited(done.value)
  {
    hide *;
    st, c, done, trace := st0, Cycle(0, None, false), None, trace0;
    ProgressTells(p, log0, b.log, st, trace);
    CycleStarts(p, trace);
    var i := 0;
    while i < |p.rungs|
      invariant i <= |p.rungs| && b.Valid() && st.now >= st0.now && trace0 <= trace
      invariant done == None && Progress(p, log0, b.log, st, trace) && Accounted(p, log0, b.log, st.axCounted)
      invariant Remembers(w, trace, st, c)
      invariant Summed(p, w, trace, st) && Timed(p, w, trace, st.now, waited)
      invariant CycleSums(trace[|trace0|..], c) && Skips(p, b.log, st) && PassOver(p, p.rungs[..i], trace[|trace0|..])
      invariant i > 0 && !st.skipped ==> |trace| > |trace0|
      invariant Cleared(p, b.log, trace) && (i == 0 ==> st == st0)
    {
      var kind := p.rungs[i];
      i := i + 1;
      assert p.rungs[..i] == p.rungs[..i - 1] + [kind];
      ProgressTells(p, log0, b.log, st, trace);
      PollsMade(p, w, trace, st);
      if w.over(st.polls) {
        done := Some(RequestOver);
        RememberedAnswers(w, trace, st, c);
        JustifiesOver(w, trace);
        return;
      }
      if st.now > p.timeout {
        return;
      }
      var open := b.IsOpen(p.key);
      if Guarded(p, kind) && open {
        SkippingKeepsProgress(p, log0, b.log, st, trace);
        SkippingKeepsRest(p, w, b.log, st, c, trace, kind);
        PassSkips(p, p.rungs[..i - 1], kind, trace[|trace0|..]);
        st := st.(skipped := true);
        continue;
      }
      ghost var before, log := trace, b.log;
      ghost var was := st;
      st, c, done, trace := TryRung(b, p, w, kind, st, c, log0, trace, |trace0|, waited);
      OneLonger(before, trace, |trace0|);
      SkipsKept(p, log, b.log, was, st, kind);
      PassGrows(p, p.rungs[..i - 1], kind, before[|trace0|..], trace[|before|]);
      if done.Some? {
        return;
      }
    }
    ProgressTells(p, log0, b.log, st, trace);
    assert p.rungs[..i] == p.rungs;
  }

  lemma CycleStarts(p: Plan, trace: seq<Attempt>)
    ensures CycleSums(trace[|trace|..], Cycle(0, None, false)) && PassOver(p, p.rungs[..0], trace[|trace|..])
  {
    assert trace[|trace|..] == [] && p.rungs[..0] == [];
  }

  lemma SkippingKeepsRest(p: Plan, w: World, log: seq<Event>, st: Locals, c: Cycle, trace: seq<Attempt>, kind: Kind)
    requires Remembers(w, trace, st, c) && Summed(p, w, trace, st)
    requires Guarded(p, kind) && kind in p.rungs && Opened(log, p.key)
    ensures Remembers(w, trace, st.(skipped := true), c) && Summed(p, w, trace, st.(skipped := true))
    ensures Skips(p, log, st.(skipped := true))
  {
    hide Blames, WentOff, Faithful, LastBroke, LastSeen, Off, Down, OwesCharge, Opened;
  }

  lemma SkipsKept(p: Plan, log: seq<Event>, log': seq<Event>, st: Locals, st': Locals, kind: Kind)
    requires Skips(p, log, st) && st'.skipped == st.skipped
    requires Guarded(p, kind) ==> !Opened(log, p.key)
    requires !Guarded(p, kind) ==> log' == log
    ensures Skips(p, log', st')
  {
    hide Opened;
  }

  lemma RememberedAnswers(w: World, trace: seq<Attempt>, st: Locals, c: Cycle)
    requires Remembers(w, trace, st, c)
    ensures Faithful(w, trace) && st.polls == |trace|
  {
  }

  lemma OneLonger(before: seq<Attempt>, trace: seq<Attempt>, start: nat)
    requires start <= |before| && |trace| == |before| + 1 && trace[..|before|] == before
    ensures trace[start..] == before[start..] + [trace[|before|]] && before <= trace
  {
  }

  // Outcomes given only after the last cycle.
  predicate Waited(o: Outcome) {
    o.Escalated? || o.StayedOffViewport? || o.SourceFailed?
  }

  lemma ProgressTells(p: Plan, log0: seq<Event>, log: seq<Event>, st: Locals, trace: seq<Attempt>)
    requires Progress(p, log0, log, st, trace)
    ensures Accounted(p, log0, log, st.axCounted) && Ended(p, log0, log, trace, RequestOver)
    ensures st.axCounted ==> Charged(p, trace)
    ensures forall reason :: Ended(p, log0, log, trace, SourceFailed(reason))
  {
  }

  lemma SkippingKeepsProgress(p: Plan, log0: seq<Event>, log: seq<Event>, st: Locals, trace: seq<Attempt>)
    requires Progress(p, log0, log, st, trace)
    ensures Progress(p, log0, log, st.(skipped := true), trace)
  {
  }

  lemma AttemptEnds(p: Plan, log0: seq<Event>, log: seq<Event>, log': seq<Event>, st: Locals, trace: seq<Attempt>, kind: Kind, a: Answer)
    requires Progress(p, log0, log, st, trace)
    requires Guarded(p, kind) ==> !Opened(log, p.key)
    requires !Guarded(p, kind) ==> log' == log
    requires Final(a, kind, st.polls + 1).Some?
    ensures Ended(p, log0, log', trace + [Attempt(kind, a, log)], Final(a, kind, st.polls + 1).value)
  {
  }

  // ---------- the whole step ----------

  // The circuit of the guarded rung was open, at some time since the log was log0.
  ghost predicate Tripped(p: Plan, log0: seq<Event>, log: seq<Event>) {
    p.guard && AxRung in p.rungs && exists k :: |log0| <= k <= |log| && Opened(log[..k], p.key)
  }

  // No rung of the last cycle, which began at start, is worth waiting for: what was
  // attempted next to the open circuit is the map, or cannot serve the matcher.
  ghost predicate NothingToTry(p: Plan, trace: seq<Attempt>, start: nat) {
    && start <= |trace| && PassOver(p, p.rungs, trace[start..]) && Tries(trace[start..]) == 0
    && ((forall i :: start <= i < |trace| && trace[i].kind == MapRung ==> !trace[i].answer.CannotServe?) ==>
         forall i :: start <= i < |trace| ==> trace[i].kind == MapRung || trace[i].answer.CannotServe?)
  }

  // When a step may end without the element: its time is over; or its last cycle
  // met a source that broke and none that may recover; or circuits leave nothing
  // to try.
  ghost predicate MayGiveUp(p: Plan, log0: seq<Event>, log: seq<Event>, trace: seq<Attempt>, start: nat, elapsed: nat, out: Outcome) {
    || elapsed >= p.timeout
    || (out.SourceFailed? && start <= |trace| && LastBroke(trace[start..]).Some? && !SomeLives(trace[start..]))
    || (Tripped(p, log0, log) && NothingToTry(p, trace, start))
  }

  // The time a step takes: its attempts, and no more than one pause for each; no
  // attempt begins after the deadline.
  ghost predicate TookTime(p: Plan, w: World, trace: seq<Attempt>, elapsed: nat) {
    && Costs(w, |trace|) <= elapsed && (p.rungs != [] ==> elapsed <= Costs(w, |trace|) + Pauses(p, |trace|))
    && (trace != [] ==> Costs(w, |trace| - 1) <= p.timeout)
  }

  // The verdict of a step that waited: the last source to break; or that the element
  // was last seen off the viewport; or else what was last seen of the screen, and
  // whether a circuit was open.
  ghost predicate Explained(p: Plan, log0: seq<Event>, log: seq<Event>, trace: seq<Attempt>, out: Outcome) {
    && (out.SourceFailed? ==> LastBroke(trace) == Some(out.reason))
    && (out.StayedOffViewport? ==> Off(trace))
    && (out.Escalated? ==> !Off(trace) && (out.skipped ==> Tripped(p, log0, log)))
    && (out.Escalated? && LastSeen(trace).Some? ==> out.evidence == LastSeen(trace).value)
    && (out.Escalated? && LastBroke(trace).Some? && !out.skipped ==> out.evidence.nodes.Some?)
  }

  // Answers after which a step goes on.
  predicate Passing(a: Answer) {
    a.OffViewport? || a.CannotServe? || a.SourceDown? || a.Miss? || a.Exceeded?
  }

  // The circuit of a guarded rung, closed when the log was log0, stays so through
  // the first n answers; or there is no such rung.
  ghost predicate StaysClosed(p: Plan, w: World, log0: seq<Event>, n: nat) {
    || !p.guard || AxRung !in p.rungs
    || (!Opened(log0, p.key) && forall m: nat :: m < n ==> !Chargeable(w.answer(m)))
  }

  // Attempt n is the first to show the element, no circuit is in the way, and n
  // attempts with a pause after each are made within the budget.
  ghost predicate DueInTime(p: Plan, w: World, log0: seq<Event>, n: nat) {
    && p.rungs != [] && StaysClosed(p, w, log0, n)
    && w.answer(n).OnScreen? && (forall m: nat :: m < n ==> Passing(w.answer(m)))
    && (forall m: nat :: m <= n ==> !w.over(m))
    && Costs(w, n) + Pauses(p, n) < p.timeout
  }

  /** One resolution. The breaker is charged at most once, and only for a guarded
      attempt that failed, but then surely; an open circuit is never attempted, and
      one open from the start leaves breaker and rung alone; and after a rung that
      observed the screen no failure is held against it. The first rung to show
      the element on screen wins, and a step that may still see it does not give up:
      it goes on until its time is over, a source broke with none left that may
      recover, or circuits leave nothing to try. Every outcome has its reason in the
      answers, and the evidence of an escalation is what was last seen. The step ends
      for every schedule of answers. */
  method Resolve(b: AxBreaker, p: Plan, w: World)
    returns (out: Outcome, ghost trace: seq<Attempt>, ghost elapsed: nat, ghost start: nat)
    requires b.Valid() && HitsAreSeen(w) && p.interval > 0
    modifies b
    ensures b.Valid()
    ensures exists counted ::
      && Accounted(p, old(b.log), b.log, counted) && (counted ==> Charged(p, trace))
      && (OwesCharge(p, w, trace) || ((out.Escalated? || out.StayedOffViewport?) && Down(p, trace)) ==> counted)
    ensures Ended(p, old(b.log), b.log, trace, out) && Justified(w, trace, out)
    ensures out.Escalated? ==> (Rich(out.evidence) <==> Witnessed(trace))
    ensures TookTime(p, w, trace, elapsed)
    ensures Waited(out) ==> MayGiveUp(p, old(b.log), b.log, trace, start, elapsed, out)
    ensures forall n: nat :: DueInTime(p, w, old(b.log), n) ==> out.Found? && out.polls == n + 1
    ensures Cleared(p, b.log, trace)
    ensures Explained(p, old(b.log), b.log, trace, out)
  {
    hide *;
    ghost var log0 := b.log;
    var st := Locals(0, 0, false, false, false, false, Obs(None), None);
    trace, start := [], 0;
    ghost var waited: nat := 0;
    StepStarts(p, log0, st);
    StepRemembersNothing(w, st);
    StepSumsNothing(p, w, log0, st);
    var spent := false;
    while !spent
      invariant b.Valid() && Progress(p, log0, b.log, st, trace)
      invariant Remembers(w, trace, st, Cycle(0, None, false))
      invariant Summed(p, w, trace, st) && Timed(p, w, trace, st.now, waited) && Skips(p, b.log, st)
      invariant Cleared(p, b.log, trace) && (!spent ==> st.now <= p.timeout)
      invariant spent ==> st.now >= p.timeout || (st.skipped && NothingToTry(p, trace, start))
      decreases !spent, if st.now <= p.timeout then p.timeout - st.now else 0
    {
      var c, done;
      ghost var before, begun := trace, st.now;
      st, c, done, trace := RunCycle(b, p, w, st, log0, trace, waited);
      start, elapsed := |before|, st.now;
      TimedTells(p, w, trace, st.now, waited);
      SummedTells(p, w, trace, st);
      if done.Some? {
        assert Accounted(p, log0, b.log, st.axCounted);
        out := done.value;
        NeedsNoReason(p, log0, b.log, trace, out);
        FinishesStep(p, w, log0, b.log, trace, start, elapsed, out, st.axCounted);
        return;
      }
      ProgressTells(p, log0, b.log, st, trace);
      RememberedCycle(w, trace, st, c);
      CycleTells(trace[start..], c);
      if c.hardFail.Some? && !c.alive {
        FailsFast(p, log0, b.log, st, trace);
        JustifiesFailure(w, trace, c.hardFail.value);
        out := SourceFailed(c.hardFail.value);
        LastOfCycle(trace, start);
        ExplainsFailure(p, log0, b.log, trace, c.hardFail.value);
        MayFail(p, log0, b.log, trace, start, elapsed, out);
        FinishesStep(p, w, log0, b.log, trace, start, elapsed, out, st.axCounted);
        return;
      }
      if (c.attempted == 0 && st.skipped) || st.now >= p.timeout {
        spent := true;
        if st.now < p.timeout {
          NothingLeft(p, trace, start);
        }
      } else {
        var remaining := p.timeout - st.now;
        ghost var was := st;
        var pause := if p.interval > remaining then remaining else p.interval;
        PauseKeeps(p, w, log0, b.log, before, begun, trace, c, was, waited, pause);
        st := st.(now := st.now + pause);
        waited, elapsed := waited + pause, st.now;
        if w.over(st.polls) {
          out := RequestOver;
          TimedTells(p, w, trace, st.now, waited);
          ProgressTells(p, log0, b.log, st, trace);
          JustifiesOver(w, trace);
          NeedsNoReason(p, log0, b.log, trace, out);
          FinishesStep(p, w, log0, b.log, trace, start, elapsed, out, st.axCounted);
          return;
        }
      }
    }
    elapsed := st.now;
    SummedTells(p, w, trace, st);
    out := GiveUp(b, p, w, st, log0, trace, start, waited);
    FinishesStep(p, w, log0, b.log, trace, start, elapsed, out, st.axCounted || st.axDown);
  }

  lemma PauseKeeps(p: Plan, w: World, log0: seq<Event>, log: seq<Event>, before: seq<Attempt>, begun: nat, trace: seq<Attempt>,
                   c: Cycle, st: Locals, waited: nat, pause: nat)
    requires Timed(p, w, before, begun, waited) && Timed(p, w, trace, st.now, waited) && pause <= p.interval
    requires before <= trace && CycleSums(trace[|before|..], c) && (c.attempted != 0 || !st.skipped)
    requires p.rungs != [] && !st.skipped ==> |trace| > |before|
    requires Progress(p, log0, log, st, trace) && Remembers(w, trace, st, Cycle(0, None, false))
    requires Summed(p, w, trace, st) && Skips(p, log, st)
    ensures var st' := st.(now := st.now + pause);
      && Progress(p, log0, log, st', trace) && Remembers(w, trace, st', Cycle(0, None, false))
      && Summed(p, w, trace, st') && Skips(p, log, st') && Timed(p, w, trace, st'.now, waited + pause)
      && st'.polls == |trace|
  {
    hide *;
    GrewOverCycle(p, before, trace, c, st);
    TimedPauses(p, w, before, begun, trace, st.now, waited, pause);
    TimeKeepsProgress(p, log0, log, st, st.now + pause, trace);
    TimeKeepsRest(p, w, log, st, st.now + pause, trace);
    PollsMade(p, w, trace, st);
  }

  // The end of a step that found nothing, with its reasons.
  method GiveUp(b: AxBreaker, p: Plan, w: World, st: Locals, ghost log0: seq<Event>, ghost trace: seq<Attempt>, ghost start: nat,
                ghost waited: nat)
    returns (out: Outcome)
    requires b.Valid() && Progress(p, log0, b.log, st, trace) && Remembers(w, trace, st, Cycle(0, None, false))
    requires Summed(p, w, trace, st) && Timed(p, w, trace, st.now, waited) && Skips(p, b.log, st) && Cleared(p, b.log, trace)
    requires st.now >= p.timeout || (st.skipped && NothingToTry(p, trace, start))
    modifies b
    ensures b.Valid() && Waited(out) && Ended(p, log0, b.log, trace, out) && Justified(w, trace, out)
    ensures Accounted(p, log0, b.log, st.axCounted || st.axDown) && (st.axCounted || st.axDown ==> Charged(p, trace))
    ensures TookTime(p, w, trace, st.now) && MayGiveUp(p, log0, b.log, trace, start, st.now, out)
    ensures Explained(p, log0, b.log, trace, out) && Cleared(p, b.log, trace)
    ensures out.Escalated? ==> (Rich(out.evidence) <==> Witnessed(trace))
  {
    hide *;
    TimedTells(p, w, trace, st.now, waited);
    ghost var log1 := b.log;
    out := Conclude(b, p, st, log0, trace);
    JustifiesConclusion(w, trace, st, out);
    ClearedStays(p, w, log0, log1, b.log, st, trace);
    LogGrew(p, log0, log1, st, trace);
    SkippedIsTripped(p, log0, log1, b.log, st);
    ExplainsConclusion(p, w, log0, b.log, trace, st, out);
    MayConclude(p, log0, b.log, trace, start, st.now, st, out);
  }

  lemma NeedsNoReason(p: Plan, log0: seq<Event>, log: seq<Event>, trace: seq<Attempt>, out: Outcome)
    requires !Waited(out)
    ensures Explained(p, log0, log, trace, out) && !out.Escalated? && !out.StayedOffViewport?
  {
  }

  lemma ExplainsFailure(p: Plan, log0: seq<Event>, log: seq<Event>, trace: seq<Attempt>, reason: string)
    requires LastBroke(trace) == Some(reason)
    ensures Explained(p, log0, log, trace, SourceFailed(reason))
  {
  }

  lemma ExplainsConclusion(p: Plan, w: World, log0: seq<Event>, log: seq<Event>, trace: seq<Attempt>, st: Locals, out: Outcome)
    requires Summed(p, w, trace, st) && (st.skipped ==> Tripped(p, log0, log))
    requires out.SourceFailed? ==> st.lastFail == Some(out.reason)
    requires out.StayedOffViewport? ==> st.offScreen
    requires out.Escalated? ==> out == Escalated(st.lastObs, st.skipped) && !st.offScreen
    requires out.Escalated? && st.lastFail.Some? && !st.skipped ==> st.lastObs.nodes.Some?
    ensures Explained(p, log0, log, trace, out)
  {
    hide Tripped, LastBroke, LastSeen, Off, Down, OwesCharge;
  }

  lemma StepSumsNothing(p: Plan, w: World, log: seq<Event>, st: Locals)
    requires st == Locals(0, 0, false, false, false, false, Obs(None), None)
    ensures Summed(p, w, [], st) && Timed(p, w, [], 0, 0) && Skips(p, log, st) && Cleared(p, log, [])
  {
  }

  lemma TimedTells(p: Plan, w: World, trace: seq<Attempt>, now: nat, waited: nat)
    requires Timed(p, w, trace, now, waited)
    ensures TookTime(p, w, trace, now)
  {
  }

  lemma SummedTells(p: Plan, w: World, trace: seq<Attempt>, st: Locals)
    requires Summed(p, w, trace, st)
    ensures st.polls == |trace| && st.lastFail == LastBroke(trace) && (st.offScreen <==> Off(trace))
    ensures LastSeen(trace).Some? ==> st.lastObs == LastSeen(trace).value
    ensures (st.axDown <==> Down(p, trace)) && (OwesCharge(p, w, trace) ==> st.axCounted)
  {
  }

  lemma RememberedCycle(w: World, trace: seq<Attempt>, st: Locals, c: Cycle)
    requires Remembers(w, trace, st, c)
    ensures Faithful(w, trace) && st.polls == |trace| && Blames(trace, c.hardFail)
    ensures Remembers(w, trace, st, Cycle(0, None, false))
  {
  }

  lemma CycleTells(trace: seq<Attempt>, c: Cycle)
    requires CycleSums(trace, c)
    ensures c.attempted == Tries(trace) && c.hardFail == LastBroke(trace) && (c.alive <==> SomeLives(trace))
  {
  }

  lemma {:induction false} LastOfCycle(trace: seq<Attempt>, start: nat)
    requires start <= |trace| && LastBroke(trace[start..]).Some?
    ensures LastBroke(trace) == LastBroke(trace[start..])
    decreases |trace|
  {
    var k := |trace| - 1;
    assert start <= k;
    assert trace[start..][..k - start] == trace[..k][start..] && trace[start..][k - start] == trace[k];
    if !trace[k].answer.Broke? {
      LastOfCycle(trace[..k], start);
    }
  }

  lemma MayFail(p: Plan, log0: seq<Event>, log: seq<Event>, trace: seq<Attempt>, start: nat, elapsed: nat, out: Outcome)
    requires out.SourceFailed? && start <= |trace| && LastBroke(trace[start..]).Some? && !SomeLives(trace[start..])
    ensures MayGiveUp(p, log0, log, trace, start, elapsed, out)
  {
  }

  lemma {:induction false} TriesCount(trace: seq<Attempt>)
    requires forall i :: 0 <= i < |trace| && trace[i].kind == MapRung ==> !trace[i].answer.CannotServe?
    ensures Tries(trace) >= 0
    ensures Tries(trace) == 0 ==> forall i :: 0 <= i < |trace| ==> trace[i].kind == MapRung || trace[i].answer.CannotServe?
  {
    if trace != [] {
      TriesCount(trace[..|trace| - 1]);
    }
  }

  lemma NothingLeft(p: Plan, trace: seq<Attempt>, start: nat)
    requires start <= |trace| && PassOver(p, p.rungs, trace[start..]) && Tries(trace[start..]) == 0
    ensures NothingToTry(p, trace, start)
  {
    hide PassOver, Tries;
    var last := trace[start..];
    if forall i :: start <= i < |trace| && trace[i].kind == MapRung ==> !trace[i].answer.CannotServe? {
      TriesCount(last);
      forall i | start <= i < |trace| ensures trace[i].kind == MapRung || trace[i].answer.CannotServe? {
        assert last[i - start] == trace[i];
      }
    }
  }

  lemma GrewOverCycle(p: Plan, before: seq<Attempt>, trace: seq<Attempt>, c: Cycle, st: Locals)
    requires before <= trace && CycleSums(trace[|before|..], c) && (c.attempted != 0 || !st.skipped)
    requires p.rungs != [] && !st.skipped ==> |trace| > |before|
    ensures p.rungs != [] ==> |before| < |trace|
  {
    if |trace| == |before| {
      assert trace[|before|..] == [];
    }
  }

  lemma TimedPauses(p: Plan, w: World, before: seq<Attempt>, begun: nat, trace: seq<Attempt>, now: nat, waited: nat, pause: nat)
    requires Timed(p, w, before, begun, waited) && Timed(p, w, trace, now, waited) && pause <= p.interval
    requires p.rungs != [] ==> |before| < |trace|
    ensures Timed(p, w, trace, now + pause, waited + pause)
  {
    TimedWaits(p, w, |before|, trace, now, waited, pause);
  }

  lemma TimeKeepsRest(p: Plan, w: World, log: seq<Event>, st: Locals, now: nat, trace: seq<Attempt>)
    requires Remembers(w, trace, st, Cycle(0, None, false)) && Summed(p, w, trace, st) && Skips(p, log, st)
    ensures Remembers(w, trace, st.(now := now), Cycle(0, None, false))
    ensures Summed(p, w, trace, st.(now := now)) && Skips(p, log, st.(now := now))
  {
    hide Blames, WentOff, Faithful, LastBroke, LastSeen, Off, Down, OwesCharge, Opened;
  }

  // A source that is down is charged, one that was honest last is not down.
  lemma ClearedStays(p: Plan, w: World, log0: seq<Event>, log: seq<Event>, log': seq<Event>, st: Locals, trace: seq<Attempt>)
    requires Cleared(p, log, trace) && Summed(p, w, trace, st) && Progress(p, log0, log, st, trace)
    requires !st.axDown ==> log' == log
    ensures Cleared(p, log', trace)
  {
    hide Streak, Accounted, NeverAttemptedOpen, LeftAlone, Witnessed, Charged, LastBroke, LastSeen, Off, OwesCharge;
    if LastHonest(p, trace) {
      HonestIsNotDown(p, trace);
    }
  }

  lemma LogGrew(p: Plan, log0: seq<Event>, log: seq<Event>, st: Locals, trace: seq<Attempt>)
    requires Progress(p, log0, log, st, trace)
    ensures log0 <= log
  {
  }

  lemma SkippedIsTripped(p: Plan, log0: seq<Event>, log: seq<Event>, log': seq<Event>, st: Locals)
    requires Skips(p, log, st) && log0 <= log <= log'
    ensures st.skipped ==> Tripped(p, log0, log')
  {
    hide Opened;
    assert log'[..|log|] == log;
  }

  lemma MayConclude(p: Plan, log0: seq<Event>, log: seq<Event>, trace: seq<Attempt>, start: nat, elapsed: nat, st: Locals, out: Outcome)
    requires elapsed >= p.timeout || (st.skipped && NothingToTry(p, trace, start))
    requires st.skipped ==> Tripped(p, log0, log)
    ensures MayGiveUp(p, log0, log, trace, start, elapsed, out)
  {
    hide NothingToTry, Tripped;
  }

  lemma {:induction false} CostsGrow(w: World, m: nat, n: nat)
    requires m <= n
    ensures Costs(w, m) <= Costs(w, n)
    decreases n
  {
    if m < n {
      CostsGrow(w, m, n - 1);
    }
  }

  lemma StillInTime(p: Plan, w: World, log0: seq<Event>, n: nat, k: nat, elapsed: nat)
    requires DueInTime(p, w, log0, n) && k <= n && elapsed <= Costs(w, k) + Pauses(p, k)
    ensures elapsed < p.timeout && !w.over(k)
  {
    CostsGrow(w, k, n);
    PausesGrow(p, k, n);
  }

  lemma PassesSoFar(p: Plan, w: World, log0: seq<Event>, trace: seq<Attempt>, n: nat)
    requires DueInTime(p, w, log0, n) && Faithful(w, trace) && |trace| <= n
    ensures forall i :: 0 <= i < |trace| ==> Passing(trace[i].answer)
  {
  }

  // Without a charge no circuit opens.
  lemma {:induction false} OpensOnlyByCharge(log0: seq<Event>, log: seq<Event>, key: string)
    requires log0 <= log && Charges(log) == Charges(log0) && !Opened(log0, key)
    ensures !Opened(log, key)
    decreases |log|
  {
    if |log| > |log0| {
      var front, e := log[..|log| - 1], log[|log| - 1];
      assert log == front + [e] && log0 <= front;
      AppendEvent(front, e);
      ChargesGrow(log0, front);
      OpensOnlyByCharge(log0, front, key);
      OpensExactlyAtThreshold(front, e, key);
    } else {
      assert log == log0;
    }
  }

  lemma {:induction false} ChargesGrow(log0: seq<Event>, log: seq<Event>)
    requires log0 <= log
    ensures Charges(log0) <= Charges(log)
    decreases |log|
  {
    if |log| > |log0| {
      ChargesGrow(log0, log[..|log| - 1]);
    } else {
      assert log == log0;
    }
  }

  lemma NeverTripped(p: Plan, w: World, log0: seq<Event>, log: seq<Event>, trace: seq<Attempt>, counted: bool, n: nat)
    requires StaysClosed(p, w, log0, n) && Faithful(w, trace) && |trace| <= n
    requires Accounted(p, log0, log, counted) && (counted ==> Charged(p, trace))
    ensures !Tripped(p, log0, log)
  {
    hide Opened, Charges;
    if p.guard && AxRung in p.rungs {
      assert forall i :: 0 <= i < |trace| ==> !Chargeable(trace[i].answer);
      assert !counted;
      forall k | |log0| <= k <= |log| ensures !Opened(log[..k], p.key) {
        assert log0 <= log[..k] && log[..k] <= log;
        ChargesGrow(log0, log[..k]);
        ChargesGrow(log[..k], log);
        OpensOnlyByCharge(log0, log[..k], p.key);
      }
    }
  }

  // With time left, nothing but passing answers and no circuit, a step has no
  // reason to end.
  lemma NoReason(p: Plan, w: World, log0: seq<Event>, log: seq<Event>, trace: seq<Attempt>, start: nat, elapsed: nat, out: Outcome)
    requires elapsed < p.timeout && !w.over(|trace|) && !Tripped(p, log0, log)
    requires forall i :: 0 <= i < |trace| ==> Passing(trace[i].answer)
    requires Ended(p, log0, log, trace, out) && Justified(w, trace, out)
    requires Waited(out) ==> MayGiveUp(p, log0, log, trace, start, elapsed, out)
    ensures false
  {
    hide NothingToTry, LastBroke, SomeLives, NeverAttemptedOpen, LeftAlone, Tripped;
  }

  // What DueIsFound knows of a finished step.
  ghost predicate Finished(p: Plan, w: World, log0: seq<Event>, log: seq<Event>, trace: seq<Attempt>, start: nat, elapsed: nat,
                           out: Outcome, counted: bool) {
    && Ended(p, log0, log, trace, out) && Justified(w, trace, out) && TookTime(p, w, trace, elapsed)
    && Accounted(p, log0, log, counted) && (counted ==> Charged(p, trace))
    && (Waited(out) ==> MayGiveUp(p, log0, log, trace, start, elapsed, out))
  }

  // A step does not end before attempt n.
  lemma NotBeforeDue(p: Plan, w: World, log0: seq<Event>, log: seq<Event>, trace: seq<Attempt>, start: nat, elapsed: nat,
                     out: Outcome, counted: bool, n: nat)
    requires DueInTime(p, w, log0, n) && Finished(p, w, log0, log, trace, start, elapsed, out, counted)
    ensures n < |trace|
  {
    hide Ended, MayGiveUp, Costs, Waited, StaysClosed, Accounted, Charged, Tripped;
    if |trace| <= n {
      StillInTime(p, w, log0, n, |trace|, elapsed);
      PassesSoFar(p, w, log0, trace, n);
      NeverTripped(p, w, log0, log, trace, counted, n);
      NoReason(p, w, log0, log, trace, start, elapsed, out);
    }
  }

  lemma DueIsFound(p: Plan, w: World, log0: seq<Event>, log: seq<Event>, trace: seq<Attempt>, start: nat, elapsed: nat,
                   out: Outcome, counted: bool)
    requires Finished(p, w, log0, log, trace, start, elapsed, out, counted)
    ensures forall n: nat :: DueInTime(p, w, log0, n) ==> out.Found? && out.polls == n + 1
  {
    forall n: nat | DueInTime(p, w, log0, n) ensures out.Found? && out.polls == n + 1 {
      NotBeforeDue(p, w, log0, log, trace, start, elapsed, out, counted, n);
      assert trace[n].answer.OnScreen?;
      assert n == |trace| - 1;
    }
  }

  lemma FinishesStep(p: Plan, w: World, log0: seq<Event>, log: seq<Event>, trace: seq<Attempt>, start: nat, elapsed: nat,
                     out: Outcome, counted: bool)
    requires Ended(p, log0, log, trace, out) && Justified(w, trace, out) && TookTime(p, w, trace, elapsed)
    requires Accounted(p, log0, log, counted) && (counted ==> Charged(p, trace))
    requires Waited(out) ==> MayGiveUp(p, log0, log, trace, start, elapsed, out)
    ensures forall n: nat :: DueInTime(p, w, log0, n) ==> out.Found? && out.polls == n + 1
  {
    DueIsFound(p, w, log0, log, trace, start, elapsed, out, counted);
  }

  lemma StepRemembersNothing(w: World, st: Locals)
    requires st.polls == 0 && st.lastFail.None? && !st.offScreen
    ensures Remembers(w, [], st, Cycle(0, None, false))
  {
  }

  lemma BlamesNobody(trace: seq<Attempt>)
    ensures Blames(trace, None)
  {
  }

  lemma JustifiesFailure(w: World, trace: seq<Attempt>, reason: string)
    requires Faithful(w, trace) && Blames(trace, Some(reason))
    ensures Justified(w, trace, SourceFailed(reason))
  {
  }

  lemma JustifiesOver(w: World, trace: seq<Attempt>)
    requires Faithful(w, trace) && w.over(|trace|)
    ensures Justified(w, trace, RequestOver) && !Waited(RequestOver)
  {
  }

  lemma JustifiesConclusion(w: World, trace: seq<Attempt>, st: Locals, out: Outcome)
    requires Remembers(w, trace, st, Cycle(0, None, false)) && Waited(out)
    requires out.SourceFailed? ==> st.lastFail == Some(out.reason)
    requires out.StayedOffViewport? ==> st.offScreen
    ensures Justified(w, trace, out)
  {
  }

  lemma StepStarts(p: Plan, log0: seq<Event>, st: Locals)
    requires st == Locals(0, 0, false, false, false, false, Obs(None), None)
    ensures Progress(p, log0, log0, st, [])
  {
  }

  lemma TimeKeepsProgress(p: Plan, log0: seq<Event>, log: seq<Event>, st: Locals, now: nat, trace: seq<Attempt>)
    requires Progress(p, log0, log, st, trace)
    ensures Progress(p, log0, log, st.(now := now), trace)
  {
  }

  lemma FailsFast(p: Plan, log0: seq<Event>, log: seq<Event>, st: Locals, trace: seq<Attempt>)
    requires Progress(p, log0, log, st, trace)
    ensures st.axCounted ==> Charged(p, trace)
  {
  }

  // The budget is spent: a source still down is charged now, and the caller gets
  // the source's failure, the off-screen verdict or an escalation with evidence.
  method Conclude(b: AxBreaker, p: Plan, st: Locals, ghost log0: seq<Event>, ghost trace: seq<Attempt>) returns (out: Outcome)
    requires b.Valid() && Progress(p, log0, b.log, st, trace)
    modifies b
    ensures b.Valid() && Waited(out)
    ensures Accounted(p, log0, b.log, st.axCounted || st.axDown) && (st.axCounted || st.axDown ==> Charged(p, trace))
    ensures Ended(p, log0, b.log, trace, out)
    ensures out.Escalated? ==> (Rich(out.evidence) <==> Witnessed(trace))
    ensures st.lastObs.nodes.None? && st.lastFail.Some? && !st.skipped ==> out == SourceFailed(st.lastFail.value)
    ensures out.SourceFailed? ==> st.lastFail == Some(out.reason)
    ensures out.StayedOffViewport? ==> st.offScreen
    ensures out.Escalated? ==> out == Escalated(st.lastObs, st.skipped) && !st.offScreen
    ensures out.Escalated? && st.lastFail.Some? && !st.skipped ==> st.lastObs.nodes.Some?
    ensures old(b.log) <= b.log && (!st.axDown ==> b.log == old(b.log))
  {
    if st.axDown {
      CountFailure(b, p, st.axCounted, log0);
    }
    out := if st.lastObs.nodes.None? && st.lastFail.Some? && !st.skipped then SourceFailed(st.lastFail.value)
    else if st.offScreen then StayedOffViewport
    else Escalated(st.lastObs, st.skipped);
  }

  // ---------- many steps ----------

  lemma {:induction false} OpenNeedsCharges(log: seq<Event>, key: string)
    ensures Streak(log, key) <= Charges(log)
    ensures Opened(log, key) ==> Charges(log) >= THRESHOLD
  {
    if log != [] {
      OpenNeedsCharges(log[..|log| - 1], key);
    }
  }

  lemma AnyLog(p: Plan, w: World, log0: seq<Event>)
    ensures !p.guard ==> forall n: nat :: DueInTime(p, w, [], n) ==> DueInTime(p, w, log0, n)
  {
  }

  /** A sequence of steps on one breaker charges it at most once each, so on a
      fresh breaker no circuit opens before the third step. */
  method ResolveAll(b: AxBreaker, plans: seq<Plan>, worlds: seq<World>) returns (outs: seq<Outcome>)
    requires b.Valid() && |worlds| == |plans|
    requires forall i :: 0 <= i < |plans| ==> plans[i].interval > 0 && HitsAreSeen(worlds[i])
    modifies b
    ensures b.Valid() && |outs| == |plans|
    ensures old(b.log) <= b.log && Charges(b.log) <= Charges(old(b.log)) + |plans|
    ensures old(b.log) == [] && |plans| < THRESHOLD ==> b.open == {}
    ensures forall i, n: nat :: 0 <= i < |plans| && !plans[i].guard && DueInTime(plans[i], worlds[i], [], n) ==> outs[i].Found? && outs[i].polls == n + 1
  {
    outs := [];
    var i := 0;
    while i < |plans|
      invariant i == |outs| <= |plans| && b.Valid()
      invariant old(b.log) <= b.log && Charges(b.log) <= Charges(old(b.log)) + i
      invariant forall j, n: nat :: 0 <= j < i && !plans[j].guard && DueInTime(plans[j], worlds[j], [], n) ==> outs[j].Found? && outs[j].polls == n + 1
    {
      ghost var before := b.log;
      var out, _, _, _ := Resolve(b, plans[i], worlds[i]);
      ghost var counted :| Accounted(plans[i], before, b.log, counted);
      AnyLog(plans[i], worlds[i], before);
      outs := outs + [out];
      i := i + 1;
    }
    forall key ensures Opened(b.log, key) ==> Charges(b.log) >= THRESHOLD {
      OpenNeedsCharges(b.log, key);
    }
  }
}
