// The ring of recent placement decisions: a plain history of which only the last
// CAPACITY entries are retained.
module DecisionLog {
  const CAPACITY := 256

  datatype Outcome = Active | Queued | Refused

  datatype Decision = Decision(at: int, labels: seq<string>, demandClass: string, outcome: Outcome, host: string, warmTier: bool)

  // How much of a history is retained.
  function Retained(history: seq<Decision>): (n: nat)
    ensures n <= |history|
  {
    if |history| < CAPACITY then |history| else CAPACITY
  }

  // The newest n decisions retained, newest first; all of them for n <= 0.
  function Newest(history: seq<Decision>, n: int): (r: seq<Decision>)
    ensures |r| <= Retained(history)
  {
    var size := Retained(history);
    seq(if n <= 0 || n > size then size else n, i requires 0 <= i < |history| => history[|history| - 1 - i])
  }

  // Those at or after t, order kept.
  function Since(decisions: seq<Decision>, t: int): seq<Decision> {
    if decisions == [] then []
    else
      var last := decisions[|decisions| - 1];
      Since(decisions[..|decisions| - 1], t) + if last.at >= t then [last] else []
  }

  lemma {:induction false} SinceMeans(decisions: seq<Decision>, t: int)
    ensures forall d :: d in Since(decisions, t) <==> d in decisions && d.at >= t
  {
    if decisions != [] {
      SinceMeans(decisions[..|decisions| - 1], t);
      assert decisions == decisions[..|decisions| - 1] + [decisions[|decisions| - 1]];
    }
  }

  class Ring {
    var buf: array?<Decision>
    var next: nat
    var full: bool
    ghost var history: seq<Decision>

    constructor ()
      ensures Valid() && history == [] && buf == null
    {
      buf, next, full, history := null, 0, false, [];
    }

    // The slot of the i-th decision from the end.
    static function Slot(next: nat, i: nat): nat
      requires 1 <= i <= CAPACITY
    {
      (next + CAPACITY - i) % CAPACITY
    }

    ghost predicate Valid()
      reads this, buf
    {
      if buf == null then next == 0 && !full && history == []
      else
        && buf.Length == CAPACITY && next < CAPACITY
        && (!full ==> |history| == next)
        && (full ==> |history| >= CAPACITY)
        && (forall i :: 1 <= i <= Retained(history) ==> buf[Slot(next, i)] == history[|history| - i])
    }

    /** Adding a decision appends it to the history. */
    method Add(pd: Decision)
      requires Valid()
      modifies this, buf
      ensures Valid() && history == old(history) + [pd]
      ensures buf != null && (old(buf) == null ==> fresh(buf)) && (old(buf) != null ==> buf == old(buf))
    {
      if buf == null {
        buf := new Decision[CAPACITY];
      }
      ghost var before := history;
      ghost var was := buf[..];
      ghost var n := next;
      buf[next] := pd;
      next := (next + 1) % CAPACITY;
      if next == 0 {
        full := true;
      }
      history := history + [pd];
      forall i | 1 <= i <= Retained(history) ensures buf[Slot(next, i)] == history[|history| - i] {
        if i > 1 {
          assert was[Slot(n, i - 1)] == before[|before| - (i - 1)];
          assert Slot(next, i) == Slot(n, i - 1);
        }
      }
    }

    /** Reading the ring gives the newest decisions of the history. */
    method Recent(n: int) returns (out: seq<Decision>)
      requires Valid()
      ensures out == Newest(history, n)
    {
      var size := if full then CAPACITY else next;
      var count := if n <= 0 || n > size then size else n;
      out := [];
      var i := 1;
      while i <= count
        invariant 1 <= i <= count + 1 && |out| == i - 1
        invariant forall k :: 0 <= k < |out| ==> out[k] == history[|history| - 1 - k]
      {
        assert buf[Slot(next, i)] == history[|history| - i];
        out := out + [buf[(next + CAPACITY - i) % CAPACITY]];
        i := i + 1;
      }
    }

    /** The window a caller asks for is the retained history from t on. */
    method Window(t: int) returns (out: seq<Decision>)
      requires Valid()
      ensures out == Since(Newest(history, 0), t)
    {
      var all := Recent(0);
      out := [];
      var i := 0;
      while i < |all|
        invariant i <= |all| && out == Since(all[..i], t)
      {
        assert all[..i + 1][..i] == all[..i];
        if all[i].at >= t {
          out := out + [all[i]];
        }
        i := i + 1;
      }
      assert all[..i] == all;
    }
  }

  /** After any sequence of decisions, what is read back is the last
      min(n, length, CAPACITY) of them, newest first. */
  method Replay(decisions: seq<Decision>, n: int) returns (out: seq<Decision>)
    ensures out == Newest(decisions, n)
    ensures |decisions| <= CAPACITY && (n <= 0 || n >= |decisions|) ==> |out| == |decisions|
    ensures forall i :: 0 <= i < |out| ==> out[i] == decisions[|decisions| - 1 - i]
  {
    var ring := new Ring();
    var i := 0;
    while i < |decisions|
      invariant i <= |decisions| && ring.Valid() && ring.history == decisions[..i]
      invariant fresh(ring) && (ring.buf != null ==> fresh(ring.buf))
    {
      ring.Add(decisions[i]);
      i := i + 1;
    }
    assert decisions[..i] == decisions;
    out := ring.Recent(n);
  }
}
