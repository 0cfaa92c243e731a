// Harvesting a scrolled list: every text once, on the first screen that shows it.
module Collect {
  import opened Common
  import opened Compaction
  import opened Scroll
  import opened TextSet
  import opened Tree

  datatype Text = Text(key: string, text: string, frame: Option<Frame>)

  // An element counts when its centre is on the viewport and, if a rect is given,
  // inside that; a frame is needed only for the rect.
  predicate Visible(n: Elem, viewport: Option<Frame>, rect: Option<Frame>) {
    && (n.own.frame.Some? && viewport.Some? ==> CenteredIn(n.own.frame.value, viewport.value))
    && (rect.Some? ==> n.own.frame.Some? && CenteredIn(n.own.frame.value, rect.value))
  }

  ghost function VisibleKeys(walk: seq<Elem>, viewport: Option<Frame>, rect: Option<Frame>, norm: string -> string): set<string> {
    set n, s | n in walk && Visible(n, viewport, rect) && s in Runs(n) && norm(s) != "" :: norm(s)
  }

  ghost function Keys(texts: seq<Text>): set<string> {
    set i | 0 <= i < |texts| :: texts[i].key
  }

  ghost predicate DistinctKeys(texts: seq<Text>) {
    forall i, j :: 0 <= i < j < |texts| ==> texts[i].key != texts[j].key
  }

  lemma KeysAppend(texts: seq<Text>, t: Text)
    ensures Keys(texts + [t]) == Keys(texts) + {t.key}
    ensures DistinctKeys(texts) && t.key !in Keys(texts) ==> DistinctKeys(texts + [t])
  {
    var all := texts + [t];
    forall k | k in Keys(texts) + {t.key} ensures k in Keys(all) {
      if k in Keys(texts) {
        var i :| 0 <= i < |texts| && texts[i].key == k;
        assert all[i].key == k;
      } else {
        assert all[|texts|].key == k;
      }
    }
    if DistinctKeys(texts) && t.key !in Keys(texts) {
      forall i, j | 0 <= i < j < |all| ensures all[i].key != all[j].key {
        assert all[i].key in Keys(texts);
      }
    }
  }

  lemma {:induction false} KeysCount(texts: seq<Text>)
    requires DistinctKeys(texts)
    ensures |Keys(texts)| == |texts|
  {
    if texts != [] {
      var front, last := texts[..|texts| - 1], texts[|texts| - 1];
      assert texts == front + [last];
      KeysCount(front);
      KeysAppend(front, last);
      assert last.key !in Keys(front);
    } else {
      assert Keys(texts) == {};
    }
  }

  // What a harvest has done so far: it reports, each once, the visible keys not
  // seen before, and has seen them.
  ghost predicate Harvested(visible: set<string>, before: set<string>, seen: set<string>, texts: seq<Text>) {
    seen == before + visible && Keys(texts) == visible - before && DistinctKeys(texts)
  }

  // A reported text is a run of a visible element, trimmed, with the element's frame.
  ghost predicate ShownAs(t: Text, walk: seq<Elem>, viewport: Option<Frame>, rect: Option<Frame>, norm: string -> string, trim: string -> string) {
    exists n, s :: n in walk && s in Runs(n) && Visible(n, viewport, rect)
      && t == Text(norm(s), trim(s), n.own.frame)
  }

  ghost predicate AllShown(texts: seq<Text>, walk: seq<Elem>, viewport: Option<Frame>, rect: Option<Frame>, norm: string -> string, trim: string -> string) {
    forall i :: 0 <= i < |texts| ==> ShownAs(texts[i], walk, viewport, rect, norm, trim)
  }

  /** One run of an element. */
  method HarvestRun(n: Elem, s: string, viewport: Option<Frame>, rect: Option<Frame>, norm: string -> string,
                    trim: string -> string, seen0: set<string>, texts0: seq<Text>, ghost walk: seq<Elem>, ghost visible: set<string>,
                    ghost before: set<string>)
    returns (seen: set<string>, texts: seq<Text>)
    requires Harvested(visible, before, seen0, texts0) && n in walk && s in Runs(n)
    requires AllShown(texts0, walk, viewport, rect, norm, trim)
    ensures AllShown(texts, walk, viewport, rect, norm, trim)
    ensures Harvested(if norm(s) != "" && Visible(n, viewport, rect) then visible + {norm(s)} else visible, before, seen, texts)
  {
    seen, texts := seen0, texts0;
    var key := norm(s);
    if key == "" || key in seen {
      assert key in seen ==> (visible + {key}) - before == visible - before && before + (visible + {key}) == before + visible;
      return;
    }
    if n.own.frame.Some? && viewport.Some? && !CenteredIn(n.own.frame.value, viewport.value) {
      return;
    }
    if rect.Some? && (n.own.frame.None? || !CenteredIn(n.own.frame.value, rect.value)) {
      return;
    }
    KeysAppend(texts, Text(key, trim(s), n.own.frame));
    assert ShownAs(Text(key, trim(s), n.own.frame), walk, viewport, rect, norm, trim);
    seen, texts := seen + {key}, texts + [Text(key, trim(s), n.own.frame)];
  }

  lemma VisibleKeysGrow(walk: seq<Elem>, n: Elem, viewport: Option<Frame>, rect: Option<Frame>, norm: string -> string)
    ensures VisibleKeys(walk + [n], viewport, rect, norm) ==
      VisibleKeys(walk, viewport, rect, norm) + if Visible(n, viewport, rect) then RunKeys(n, 3, norm) else {}
  {
    assert Runs(n)[..3] == Runs(n);
  }

  ghost function RunKeys(n: Elem, j: nat, norm: string -> string): set<string>
    requires j <= 3
  {
    set s | s in Runs(n)[..j] && norm(s) != "" :: norm(s)
  }

  lemma RunKeysGrow(n: Elem, j: nat, norm: string -> string)
    requires j < 3
    ensures RunKeys(n, j + 1, norm) == RunKeys(n, j, norm) + if norm(Runs(n)[j]) != "" then {norm(Runs(n)[j])} else {}
  {
    assert Runs(n)[..j + 1] == Runs(n)[..j] + [Runs(n)[j]];
  }

  /** One screen: the keys visible on it and not seen before, each once, with the
      text and frame of an element that shows it. */
  method HarvestTexts(o: Obs, rect: Option<Frame>, norm: string -> string, trim: string -> string, before: set<string>)
    returns (seen: set<string>, texts: seq<Text>)
    ensures Harvested(VisibleKeys(Walk(o.nodes), o.viewport, rect, norm), before, seen, texts)
    ensures AllShown(texts, Walk(o.nodes), o.viewport, rect, norm, trim)
  {
    hide VisibleKeys, Harvested, RunKeys, ShownAs;
    var walk := Walk(o.nodes);
    seen, texts := before, [];
    NothingHarvested(o.viewport, rect, norm, before);
    var i := 0;
    while i < |walk|
      invariant AllShown(texts, walk, o.viewport, rect, norm, trim)
      invariant i <= |walk| && Harvested(VisibleKeys(walk[..i], o.viewport, rect, norm), before, seen, texts)
    {
      var n := walk[i];
      assert walk[..i + 1] == walk[..i] + [n];
      VisibleKeysGrow(walk[..i], n, o.viewport, rect, norm);
      ghost var done := VisibleKeys(walk[..i], o.viewport, rect, norm);
      ghost var shows := Visible(n, o.viewport, rect);
      NoRunYet(n, norm);
      var j := 0;
      assert done + (if shows then RunKeys(n, 0, norm) else {}) == done;
      while j < 3
        invariant 0 <= j <= 3 && AllShown(texts, walk, o.viewport, rect, norm, trim)
        invariant Harvested(done + if shows then RunKeys(n, j, norm) else {}, before, seen, texts)
      {
        RunKeysGrow(n, j, norm);
        ghost var visible := done + if shows then RunKeys(n, j, norm) else {};
        seen, texts := HarvestRun(n, Runs(n)[j], o.viewport, rect, norm, trim, seen, texts, walk, visible, before);
        assert done + (if shows then RunKeys(n, j + 1, norm) else {}) ==
          if norm(Runs(n)[j]) != "" && shows then visible + {norm(Runs(n)[j])} else visible;
        j := j + 1;
      }
      i := i + 1;
    }
    assert walk[..i] == walk;
  }

  lemma NoRunYet(n: Elem, norm: string -> string)
    ensures RunKeys(n, 0, norm) == {}
  {
  }

  lemma NothingHarvested(viewport: Option<Frame>, rect: Option<Frame>, norm: string -> string, before: set<string>)
    ensures Harvested(VisibleKeys([], viewport, rect, norm), before, before, [])
  {
    assert VisibleKeys([], viewport, rect, norm) == {};
    assert Keys([]) == {};
  }

  ghost function KeysOn(o: Obs, rect: Option<Frame>, norm: string -> string): set<string> {
    VisibleKeys(Walk(o.nodes), o.viewport, rect, norm)
  }

  // The keys visible on the first n screens.
  ghost function AllKeys(screens: seq<Obs>, rect: Option<Frame>, norm: string -> string): set<string> {
    if screens == [] then {} else AllKeys(screens[..|screens| - 1], rect, norm) + KeysOn(screens[|screens| - 1], rect, norm)
  }

  lemma AllKeysGrow(screens: seq<Obs>, i: nat, rect: Option<Frame>, norm: string -> string)
    requires i < |screens|
    ensures AllKeys(screens[..i + 1], rect, norm) == AllKeys(screens[..i], rect, norm) + KeysOn(screens[i], rect, norm)
  {
    hide KeysOn;
    assert screens[..i + 1][..i] == screens[..i];
  }

  lemma NoKeysYet(screens: seq<Obs>, rect: Option<Frame>, norm: string -> string)
    ensures AllKeys(screens[..0], rect, norm) == {}
  {
  }

  /** A whole run: each key is reported exactly once, on the first screen where it
      is visible, and what is counted is the keys visible anywhere. */
  method CollectTexts(w: World, maxScrolls: nat, threshold: real, norm: string -> string, norm1: string -> string,
                      trim: string -> string, rect: Option<Frame>)
    returns (out: Outcome, screens: seq<seq<Text>>, collected: nat, visited: seq<Obs>, ghost overlaps: seq<real>)
    ensures out.Done? ==> Scrolled(out, visited, overlaps, w, maxScrolls, threshold, norm) && !out.stopped
    ensures out.Done? && !out.endOfList ==> SpentAt(w, out.scrolls, maxScrolls) || GaveOut(w, out.scrolls)
    ensures !out.Done? && visited != [] ==> |visited| <= maxScrolls && Aborts(w.gestures(|visited| - 1), out)
    ensures visited == [] ==> out == if w.first.NotReadable? then NoTree else Failed
    ensures out.Done? ==>
      && |screens| == |visited| == out.screens
      && collected == |AllKeys(visited, rect, norm1)|
      && forall i :: 0 <= i < |screens| ==>
        && AllShown(screens[i], Walk(visited[i].nodes), visited[i].viewport, rect, norm1, trim)
        && DistinctKeys(screens[i]) && Keys(screens[i]) == KeysOn(visited[i], rect, norm1) - AllKeys(visited[..i], rect, norm1)
  {
    hide *;
    var seen: set<string> := {};
    out, visited, overlaps := ListScrollLoop(w.(stop := _ => false), maxScrolls, threshold, norm);
    StopsDoNotMatter(out, visited, overlaps, w, maxScrolls, threshold, norm);
    screens, collected := [], 0;
    NoKeysYet(visited, rect, norm1);
    var i := 0;
    while i < |visited|
      invariant i == |screens| <= |visited|
      invariant seen == AllKeys(visited[..i], rect, norm1) && collected == |seen|
      invariant forall k :: 0 <= k < i ==>
        && AllShown(screens[k], Walk(visited[k].nodes), visited[k].viewport, rect, norm1, trim)
        && DistinctKeys(screens[k]) && Keys(screens[k]) == KeysOn(visited[k], rect, norm1) - AllKeys(visited[..k], rect, norm1)
    {
      AllKeysGrow(visited, i, rect, norm1);
      var texts;
      seen, texts := HarvestScreen(visited[i], rect, norm1, trim, seen);
      collected := collected + |texts|;
      screens := screens + [texts];
      i := i + 1;
    }
    assert visited[..i] == visited;
  }

  // Only the visitor looks at `stop`.
  lemma StopsDoNotMatter(out: Outcome, visited: seq<Obs>, overlaps: seq<real>, w: World, maxScrolls: nat, threshold: real, norm: string -> string)
    ensures var w' := w.(stop := _ => false);
      && (out.Done? && Scrolled(out, visited, overlaps, w', maxScrolls, threshold, norm) ==>
           Scrolled(out, visited, overlaps, w, maxScrolls, threshold, norm) && out.screens == |visited|)
      && (out.Done? && SpentAt(w', out.scrolls, maxScrolls) ==> SpentAt(w, out.scrolls, maxScrolls))
      && (out.Done? && GaveOut(w', out.scrolls) ==> GaveOut(w, out.scrolls))
      && w'.gestures == w.gestures && w'.first == w.first
  {
    hide LooksTwice, Chained, RoundedFrom, StoodStill;
  }

  method HarvestScreen(o: Obs, rect: Option<Frame>, norm: string -> string, trim: string -> string, before: set<string>)
    returns (seen: set<string>, texts: seq<Text>)
    ensures seen == before + KeysOn(o, rect, norm) && |seen| == |before| + |texts|
    ensures DistinctKeys(texts) && Keys(texts) == KeysOn(o, rect, norm) - before
    ensures AllShown(texts, Walk(o.nodes), o.viewport, rect, norm, trim)
  {
    hide AllShown;
    seen, texts := HarvestTexts(o, rect, norm, trim, before);
    KeysCount(texts);
    assert seen == before + Keys(texts);
  }
}
