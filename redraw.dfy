/** The per-line redraw cache that both drivers keep in `lastLines`
    (gpio_conn.go:259-288, i2c_conn.go:120-148): which line rewrites a Display
    or DisplayLines call performs, and what the cache holds afterwards. The
    transports differ only in how a line rewrite reaches the controller. */
module RedrawCache {
  import opened Text

  /** One physical rewrite of a line: its index and the exact bytes rendered. */
  datatype Write = Write(line: nat, text: Bytes)

  /** The cache after a call and the rewrites the call performed, in order. */
  datatype Outcome = Outcome(cache: seq<Bytes>, writes: seq<Write>)

  /** The text a Display(line, text) call renders, or None when the call is a
      no-op: the device is inactive, the line is out of range, or the fitted
      text is what the cache already holds for that line. */
  function Pending(active: bool, lines: nat, width: nat, cache: seq<Bytes>, line: nat, text: Bytes): Option<Bytes>
    requires active && line < lines ==> line < |cache|
  {
    if !active || line >= lines then None
    else
      var fitted := PadOrTruncate(text, width);
      if cache[line] == fitted then None else Some(fitted)
  }

  /** The effect of one Display(line, text) call on the cache. */
  function DisplayStep(active: bool, lines: nat, width: nat, cache: seq<Bytes>, line: nat, text: Bytes): (r: Outcome)
    requires active && line < lines ==> line < |cache|
    ensures |r.cache| == |cache|
    ensures r.writes != [] ==> active
    ensures forall k :: 0 <= k < |r.writes| ==> r.writes[k].line == line < lines
  {
    match Pending(active, lines, width, cache, line, text)
    case None => Outcome(cache, [])
    case Some(fitted) => Outcome(cache[line := fitted], [Write(line, fitted)])
  }

  /** The effect of Display(i, segs[i]) for i = 0, 1, ..., |segs| - 1 in order,
      the loop of DisplayLines; defined on prefixes, as the loop runs. */
  function DisplayAll(active: bool, lines: nat, width: nat, cache: seq<Bytes>, segs: seq<Bytes>): (r: Outcome)
    requires active ==> lines <= |cache|
    ensures |r.cache| == |cache|
    ensures r.writes != [] ==> active
    ensures forall k :: 0 <= k < |r.writes| ==> r.writes[k].line < lines && r.writes[k].line < |segs|
  {
    if segs == [] then Outcome(cache, [])
    else
      var last := |segs| - 1;
      var prev := DisplayAll(active, lines, width, cache, segs[..last]);
      var step := DisplayStep(active, lines, width, prev.cache, last, segs[last]);
      Outcome(step.cache, prev.writes + step.writes)
  }

  /** Extending the message by one segment adds that segment's Display call;
      this is one iteration of the DisplayLines loop. */
  lemma DisplayAllStep(active: bool, lines: nat, width: nat, cache: seq<Bytes>, segs: seq<Bytes>, i: nat)
    requires active ==> lines <= |cache|
    requires i < |segs|
    ensures var prev := DisplayAll(active, lines, width, cache, segs[..i]);
      var step := DisplayStep(active, lines, width, prev.cache, i, segs[i]);
      DisplayAll(active, lines, width, cache, segs[..i + 1]) == Outcome(step.cache, prev.writes + step.writes)
  {
    assert segs[..i + 1][..i] == segs[..i];
  }

  /** Display is a no-op exactly when the device is inactive, the line is out of
      range or the fitted text is already cached; otherwise it renders the text
      padded or truncated to the width, updates that cache entry and no other. */
  lemma DisplayStepCases(active: bool, lines: nat, width: nat, cache: seq<Bytes>, line: nat, text: Bytes)
    requires active && line < lines ==> line < |cache|
    ensures var r := DisplayStep(active, lines, width, cache, line, text);
      && (r.writes == [] <==> !active || line >= lines || cache[line] == PadOrTruncate(text, width))
      && (r.writes == [] ==> r.cache == cache)
      && (r.writes != [] ==>
            && r.writes == [Write(line, PadOrTruncate(text, width))]
            && |r.writes[0].text| == width
            && r.cache[line] == r.writes[0].text
            && forall k :: 0 <= k < |cache| && k != line ==> r.cache[k] == cache[k])
  {}

  /** The no-op cases of DisplayStepCases, one equation each. */
  lemma DisplayStepSkips(active: bool, lines: nat, width: nat, cache: seq<Bytes>, line: nat, text: Bytes)
    requires active && line < lines ==> line < |cache|
    requires !active || line >= lines || cache[line] == PadOrTruncate(text, width)
    ensures DisplayStep(active, lines, width, cache, line, text) == Outcome(cache, [])
  {}

  /** The rewrite case of DisplayStepCases, as one equation. */
  lemma DisplayStepRewrites(lines: nat, width: nat, cache: seq<Bytes>, line: nat, text: Bytes)
    requires line < lines && line < |cache|
    requires cache[line] != PadOrTruncate(text, width)
    ensures var fitted := PadOrTruncate(text, width);
      DisplayStep(true, lines, width, cache, line, text) == Outcome(cache[line := fitted], [Write(line, fitted)])
  {}

  /** Repeating a Display call with the same arguments performs no write. */
  lemma DisplayStepIdempotent(active: bool, lines: nat, width: nat, cache: seq<Bytes>, line: nat, text: Bytes)
    requires active && line < lines ==> line < |cache|
    ensures var r := DisplayStep(active, lines, width, cache, line, text);
      DisplayStep(active, lines, width, r.cache, line, text) == Outcome(r.cache, [])
  {}

  /** A freshly allocated cache (all entries empty) never suppresses a write to a
      line of positive width: after Close and Open the next Display is not skipped. */
  lemma FreshCacheNeverSkips(lines: nat, width: nat, line: nat, text: Bytes)
    requires line < lines && width > 0
    ensures DisplayStep(true, lines, width, seq(lines, _ => []), line, text).writes
              == [Write(line, PadOrTruncate(text, width))]
  {
    assert |PadOrTruncate(text, width)| == width;
  }

  /** DisplayLines with extra segments behaves as with the first `lines`
      segments: segments at indices `lines` and beyond have no effect. */
  lemma {:induction false} DisplayAllDropsExtraSegments(active: bool, lines: nat, width: nat, cache: seq<Bytes>, segs: seq<Bytes>)
    requires active ==> lines <= |cache|
    requires lines <= |segs|
    ensures DisplayAll(active, lines, width, cache, segs) == DisplayAll(active, lines, width, cache, segs[..lines])
    decreases |segs|
  {
    if |segs| > lines {
      var last := |segs| - 1;
      var prev := DisplayAll(active, lines, width, cache, segs[..last]);
      DisplayStepSkips(active, lines, width, prev.cache, last, segs[last]);
      assert prev.writes + [] == prev.writes;
      assert segs[..last][..lines] == segs[..lines];
      DisplayAllDropsExtraSegments(active, lines, width, cache, segs[..last]);
    } else {
      assert segs[..lines] == segs;
    }
  }

  /** After DisplayLines every in-range line with a segment caches its fitted
      segment; every other entry is untouched. */
  lemma {:induction false} DisplayAllCache(active: bool, lines: nat, width: nat, cache: seq<Bytes>, segs: seq<Bytes>)
    requires active ==> lines <= |cache|
    ensures var r := DisplayAll(active, lines, width, cache, segs);
      forall i :: 0 <= i < |cache| ==>
        r.cache[i] == if active && i < lines && i < |segs| then PadOrTruncate(segs[i], width) else cache[i]
    decreases |segs|
  {
    if segs != [] {
      var last := |segs| - 1;
      var prev := DisplayAll(active, lines, width, cache, segs[..last]);
      var step := DisplayStep(active, lines, width, prev.cache, last, segs[last]);
      DisplayAllCache(active, lines, width, cache, segs[..last]);
      if !active || last >= lines || prev.cache[last] == PadOrTruncate(segs[last], width) {
        DisplayStepSkips(active, lines, width, prev.cache, last, segs[last]);
      } else {
        DisplayStepRewrites(lines, width, prev.cache, last, segs[last]);
      }
      forall i | 0 <= i < |cache|
        ensures step.cache[i] == if active && i < lines && i < |segs| then PadOrTruncate(segs[i], width) else cache[i]
      {
        assert i < last ==> segs[..last][i] == segs[i];
      }
    }
  }

  /** A line that no segment has reached yet keeps its cached text: DisplayLines
      rewrites line j only when it shows segment j. */
  lemma LaterLineUntouched(active: bool, lines: nat, width: nat, cache: seq<Bytes>, segs: seq<Bytes>, j: nat)
    requires active ==> lines <= |cache|
    requires |segs| <= j < |cache|
    ensures DisplayAll(active, lines, width, cache, segs).cache[j] == cache[j]
  {
    DisplayAllCache(active, lines, width, cache, segs);
  }

  /** When every in-range line already caches its fitted segment, DisplayLines
      performs no write and leaves the cache alone. */
  lemma {:induction false} DisplayAllUpToDate(active: bool, lines: nat, width: nat, cache: seq<Bytes>, segs: seq<Bytes>)
    requires active ==> lines <= |cache|
    requires active ==> forall i :: 0 <= i < lines && i < |segs| ==> cache[i] == PadOrTruncate(segs[i], width)
    ensures DisplayAll(active, lines, width, cache, segs) == Outcome(cache, [])
    decreases |segs|
  {
    if segs != [] {
      var last := |segs| - 1;
      DisplayAllUpToDate(active, lines, width, cache, segs[..last]);
    }
  }

  /** Repeating a DisplayLines call with the same message performs no write. */
  lemma DisplayAllIdempotent(active: bool, lines: nat, width: nat, cache: seq<Bytes>, segs: seq<Bytes>)
    requires active ==> lines <= |cache|
    ensures var r := DisplayAll(active, lines, width, cache, segs);
      DisplayAll(active, lines, width, r.cache, segs) == Outcome(r.cache, [])
  {
    DisplayAllCache(active, lines, width, cache, segs);
    var r := DisplayAll(active, lines, width, cache, segs);
    DisplayAllUpToDate(active, lines, width, r.cache, segs);
  }

  /** DisplayLines(a + "\n" + b) does what Display(0, a) then Display(1, b) do. */
  lemma DisplayTwoLines(active: bool, lines: nat, width: nat, cache: seq<Bytes>, a: Bytes, b: Bytes)
    requires active ==> lines <= |cache|
    requires Newline !in a && Newline !in b
    ensures var first := DisplayStep(active, lines, width, cache, 0, a);
      var second := DisplayStep(active, lines, width, first.cache, 1, b);
      DisplayAll(active, lines, width, cache, Split(a + [Newline] + b, Newline))
        == Outcome(second.cache, first.writes + second.writes)
  {
    assert Split(a + [Newline] + b, Newline) == [a, b] by {
      SplitAtFirstSeparator(a, Newline, b);
      SplitAtFirstSeparator(b, Newline, []);
    }
    DisplayPair(active, lines, width, cache, a, b);
  }

  /** DisplayLines over exactly two segments. */
  lemma DisplayPair(active: bool, lines: nat, width: nat, cache: seq<Bytes>, a: Bytes, b: Bytes)
    requires active ==> lines <= |cache|
    ensures var first := DisplayStep(active, lines, width, cache, 0, a);
      var second := DisplayStep(active, lines, width, first.cache, 1, b);
      DisplayAll(active, lines, width, cache, [a, b]) == Outcome(second.cache, first.writes + second.writes)
  {
    assert [a, b][..1] == [a];
    assert [a][..0] == [];
    var first := DisplayStep(active, lines, width, cache, 0, a);
    assert DisplayAll(active, lines, width, cache, [a]) == Outcome(first.cache, [] + first.writes);
  }
}
