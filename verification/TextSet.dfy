// The visible text of a screen as a set, and the overlap of two screens.
module TextSet {
  import opened Common
  import opened Compaction
  import opened Tree

  const TOP_BAND: real := 0.05
  const BOTTOM_BAND: real := 0.03

  // Clock and home-indicator strips change by themselves and are masked.
  predicate InVolatileBand(box: Option<Frame>, viewport: Option<Frame>) {
    && box.Some? && viewport.Some? && viewport.value.h > 0.0
    && (|| CenterY(box.value) < viewport.value.y + viewport.value.h * TOP_BAND
        || CenterY(box.value) > viewport.value.y + viewport.value.h * (1.0 - BOTTOM_BAND))
  }

  /** Masked is what is centred in the upper twentieth of the viewport, or in the
      lowest three hundredths; without a viewport or a frame nothing is. */
  lemma BandsMean(box: Option<Frame>, viewport: Option<Frame>)
    ensures box.None? || viewport.None? ==> !InVolatileBand(box, viewport)
    ensures box.Some? && viewport.Some? && viewport.value.h > 0.0 ==>
      var down, h := CenterY(box.value) - viewport.value.y, viewport.value.h;
      InVolatileBand(box, viewport) <==> 20.0 * down < h || 100.0 * down > 97.0 * h
  {
  }

  function Runs(n: Elem): seq<string> {
    [n.own.labelText, n.own.value, n.own.placeholder]
  }

  // `norm` lowers and trims a run, to "" when it is too short to count.
  ghost function TextsOf(walk: seq<Elem>, mask: Option<Frame>, norm: string -> string): set<string> {
    set n, s | n in walk && !InVolatileBand(n.own.frame, mask) && s in Runs(n) && norm(s) != "" :: norm(s)
  }

  /** The walk that fills the set. */
  method CollectTextSet(nodes: seq<Elem>, mask: Option<Frame>, norm: string -> string) returns (out: set<string>)
    ensures out == TextsOf(Walk(nodes), mask, norm)
  {
    var walk := Walk(nodes);
    out := {};
    var i := 0;
    while i < |walk|
      invariant i <= |walk| && out == TextsOf(walk[..i], mask, norm)
    {
      var n := walk[i];
      assert walk[..i + 1] == walk[..i] + [n];
      if !InVolatileBand(n.own.frame, mask) {
        var j := 0;
        while j < 3
          invariant 0 <= j <= 3
          invariant out == TextsOf(walk[..i], mask, norm) + (set s | s in Runs(n)[..j] && norm(s) != "" :: norm(s))
        {
          var t := norm(Runs(n)[j]);
          assert Runs(n)[..j + 1] == Runs(n)[..j] + [Runs(n)[j]];
          if t != "" {
            out := out + {t};
          }
          j := j + 1;
        }
        assert Runs(n)[..3] == Runs(n);
      }
      i := i + 1;
    }
    assert walk[..i] == walk;
  }

  // ---------- overlap ----------

  // Shared texts over all texts; two empty screens are alike.
  ghost function Overlap(a: set<string>, b: set<string>): real {
    if a == {} && b == {} then 1.0 else |a * b| as real / |a + b| as real
  }

  lemma UnionSize(a: set<string>, b: set<string>)
    ensures |a + b| == |a| + |b| - |a * b|
    ensures |a * b| <= |a + b|
    ensures a != {} || b != {} ==> |a + b| > 0
  {
    assert a + b == (a - b) + b;
    assert a == (a - b) + (a * b);
    assert a + b == (a * b) + ((a + b) - (a * b));
    if a != {} {
      var x :| x in a;
      assert x in a + b;
    }
    if b != {} {
      var x :| x in b;
      assert x in a + b;
    }
  }

  /** The loop that counts shared texts computes the overlap. */
  method Jaccard(a: set<string>, b: set<string>) returns (r: real)
    ensures r == Overlap(a, b)
  {
    if |a| == 0 && |b| == 0 {
      return 1.0;
    }
    var inter := 0;
    var rest := a;
    while rest != {}
      invariant rest <= a && inter == |(a - rest) * b|
      decreases |rest|
    {
      var k :| k in rest;
      if k in b {
        assert (a - (rest - {k})) * b == (a - rest) * b + {k};
        inter := inter + 1;
      } else {
        assert (a - (rest - {k})) * b == (a - rest) * b;
      }
      rest := rest - {k};
    }
    assert (a - rest) * b == a * b;
    UnionSize(a, b);
    r := inter as real / (|a| + |b| - inter) as real;
  }

  lemma Scales(a: real, b: real, d: real)
    requires d > 0.0
    ensures a * d <= b * d <==> a <= b
    ensures a * d == b * d <==> a == b
  {
    assert (b - a) * d == b * d - a * d;
    if a < b {
      assert (b - a) * d > 0.0;
    } else if b < a {
      assert (a - b) * d > 0.0;
    }
  }

  lemma DivFacts(x: nat, y: nat)
    requires x <= y && y > 0
    ensures 0.0 <= x as real / y as real <= 1.0
    ensures x as real / y as real == 1.0 <==> x == y
  {
    var q, d := x as real / y as real, y as real;
    Scales(q, 1.0, d);
    Scales(0.0, q, d);
    assert q * d == x as real && 1.0 * d == d && 0.0 * d == 0.0;
  }

  /** The overlap is between 0 and 1, the same both ways, and 1 exactly for equal
      texts. */
  lemma OverlapFacts(a: set<string>, b: set<string>)
    ensures 0.0 <= Overlap(a, b) <= 1.0
    ensures Overlap(a, b) == Overlap(b, a)
    ensures Overlap(a, b) == 1.0 <==> a == b
  {
    assert a * b == b * a && a + b == b + a;
    if a != {} || b != {} {
      UnionSize(a, b);
      DivFacts(|a * b|, |a + b|);
      if |a * b| == |a + b| {
        SameSize(a * b, a + b);
        assert a <= a * b && b <= a * b;
      }
      if a == b {
        assert a * b == a + b;
      }
    }
  }

  lemma SameSize(a: set<string>, b: set<string>)
    requires a <= b && |a| == |b|
    ensures a == b
  {
    assert |b - a| == |b| - |a| by {
      assert b == a + (b - a);
    }
  }
}
