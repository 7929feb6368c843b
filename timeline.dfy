/**
 * The chart's clean-up of a schedule's timeline before drawing: a slice that
 * carries the same label as the slice before it and starts exactly where that
 * one ends is fused into it, so a process that kept the processor across
 * several events is drawn as one bar.
 */
module Timeline {
  import opened Models

  /** `b` continues `a`: same label, and it starts at the instant `a` ends. */
  predicate Continues(a: ExecSlice, b: ExecSlice)
  {
    b.process == a.process && b.start == a.end
  }

  /** One slice taken in: fused into the last merged slice when it continues it, appended otherwise. */
  function Fuse(merged: seq<ExecSlice>, sl: ExecSlice): seq<ExecSlice>
  {
    if merged != [] && Continues(merged[|merged| - 1], sl) then
      merged[..|merged| - 1] + [ExecSlice(sl.process, merged[|merged| - 1].start, sl.end)]
    else
      merged + [sl]
  }

  /** The merged timeline, taken slice by slice from the front. */
  function Merged(tl: seq<ExecSlice>): seq<ExecSlice>
  {
    if tl == [] then [] else Fuse(Merged(tl[..|tl| - 1]), tl[|tl| - 1])
  }

  /** The chart's merge: one pass that overwrites or extends the last merged slice. */
  method MergeTimeline(timeline: seq<ExecSlice>) returns (merged: seq<ExecSlice>)
    ensures merged == Merged(timeline)
  {
    if timeline == [] {
      return [];
    }
    merged := [timeline[0]];
    assert timeline[..1][..0] == [];
    for i := 1 to |timeline|
      invariant merged == Merged(timeline[..i])
    {
      var sl := timeline[i];
      var last := merged[|merged| - 1];
      MergedPrefix(timeline, i);
      if sl.process == last.process && sl.start == last.end {
        merged := merged[..|merged| - 1] + [ExecSlice(sl.process, last.start, sl.end)];
      } else {
        merged := merged + [sl];
      }
    }
    assert timeline[..|timeline|] == timeline;
  }

  /** One more slice of the timeline is one more `Fuse`. */
  lemma MergedPrefix(tl: seq<ExecSlice>, i: nat)
    requires i < |tl|
    ensures Merged(tl[..i + 1]) == Fuse(Merged(tl[..i]), tl[i])
  {
    assert tl[..i + 1][..i] == tl[..i];
  }

  // ---------------------------------------------------------------------------
  // Size and shape.

  /** The merge is empty exactly when the timeline is, and never longer than it. */
  lemma {:induction false} MergedSize(tl: seq<ExecSlice>)
    ensures Merged(tl) == [] <==> tl == []
    ensures |Merged(tl)| <= |tl|
  {
    if tl != [] {
      MergedSize(tl[..|tl| - 1]);
    }
  }

  /** No slice of `m` is continued by the next one. */
  predicate NoTouchingRepeats(m: seq<ExecSlice>)
  {
    forall k :: 0 <= k < |m| - 1 ==> !Continues(m[k], m[k + 1])
  }

  /** After the merge no two neighbouring slices share a label while touching. */
  lemma {:induction false} MergedNoTouchingRepeats(tl: seq<ExecSlice>)
    ensures NoTouchingRepeats(Merged(tl))
  {
    if tl != [] {
      var m := Merged(tl[..|tl| - 1]);
      MergedNoTouchingRepeats(tl[..|tl| - 1]);
      var sl := tl[|tl| - 1];
      if m != [] && Continues(m[|m| - 1], sl) {
        var r := Fuse(m, sl);
        assert forall k :: 0 <= k < |r| - 1 ==> r[k] == m[k];
        if |r| >= 2 {
          assert r[|r| - 1].start == m[|m| - 1].start;
        }
      }
    }
  }

  /** A timeline with no touching repeats is left as it is: merging twice is merging once. */
  lemma {:induction false} MergedFixed(m: seq<ExecSlice>)
    requires NoTouchingRepeats(m)
    ensures Merged(m) == m
  {
    if m != [] {
      var init := m[..|m| - 1];
      assert NoTouchingRepeats(init);
      MergedFixed(init);
      assert init + [m[|m| - 1]] == m;
    }
  }

  lemma MergedIdempotent(tl: seq<ExecSlice>)
    ensures Merged(Merged(tl)) == Merged(tl)
  {
    MergedNoTouchingRepeats(tl);
    MergedFixed(Merged(tl));
  }

  // ---------------------------------------------------------------------------
  // What the merge keeps.

  /** The summed length of the slices. */
  function Duration(tl: seq<ExecSlice>): int
  {
    if tl == [] then 0 else Duration(tl[..|tl| - 1]) + (tl[|tl| - 1].end - tl[|tl| - 1].start)
  }

  lemma DurationSnoc(tl: seq<ExecSlice>, x: ExecSlice)
    ensures Duration(tl + [x]) == Duration(tl) + (x.end - x.start)
  {
    assert (tl + [x])[..|tl|] == tl;
  }

  /** Fusing trades two touching slices for one of their combined length. */
  lemma {:induction false} MergedDuration(tl: seq<ExecSlice>)
    ensures Duration(Merged(tl)) == Duration(tl)
  {
    if tl != [] {
      var m := Merged(tl[..|tl| - 1]);
      MergedDuration(tl[..|tl| - 1]);
      var sl := tl[|tl| - 1];
      if m != [] && Continues(m[|m| - 1], sl) {
        var init := m[..|m| - 1];
        assert init + [m[|m| - 1]] == m;
        DurationSnoc(init, m[|m| - 1]);
        DurationSnoc(init, ExecSlice(sl.process, m[|m| - 1].start, sl.end));
      } else {
        DurationSnoc(m, sl);
      }
    }
  }

  /** The labels appearing in a timeline. */
  function Labels(tl: seq<ExecSlice>): set<string>
  {
    set k | 0 <= k < |tl| :: tl[k].process
  }

  /** The merge drops no label and invents none. */
  lemma {:induction false} MergedLabels(tl: seq<ExecSlice>)
    ensures Labels(Merged(tl)) == Labels(tl)
  {
    if tl != [] {
      var init, sl := tl[..|tl| - 1], tl[|tl| - 1];
      var m := Merged(init);
      MergedLabels(init);
      assert Labels(tl) == Labels(init) + {sl.process} by {
        assert forall k :: 0 <= k < |init| ==> tl[k] == init[k];
      }
      FuseLabels(m, sl);
    }
  }

  lemma FuseLabels(m: seq<ExecSlice>, sl: ExecSlice)
    ensures Labels(Fuse(m, sl)) == Labels(m) + {sl.process}
  {
    var r := Fuse(m, sl);
    if m != [] && Continues(m[|m| - 1], sl) {
      assert forall k :: 0 <= k < |m| - 1 ==> r[k] == m[k];
      assert r[|r| - 1].process == m[|m| - 1].process == sl.process;
    } else {
      assert forall k :: 0 <= k < |m| ==> r[k] == m[k];
      assert r[|m|] == sl;
    }
  }

  /** The merged timeline starts where the timeline starts and ends where it ends. */
  lemma {:induction false} MergedEnds(tl: seq<ExecSlice>)
    requires tl != []
    ensures Merged(tl) != []
    ensures Merged(tl)[0].start == tl[0].start
    ensures Merged(tl)[|Merged(tl)| - 1].end == tl[|tl| - 1].end
  {
    var init, sl := tl[..|tl| - 1], tl[|tl| - 1];
    var m := Merged(init);
    if init == [] {
      assert Merged(tl) == [sl];
    } else {
      MergedEnds(init);
      assert init[0] == tl[0];
      FuseEnds(m, sl);
    }
  }

  lemma FuseEnds(m: seq<ExecSlice>, sl: ExecSlice)
    requires m != []
    ensures Fuse(m, sl) != [] && Fuse(m, sl)[0].start == m[0].start
    ensures Fuse(m, sl)[|Fuse(m, sl)| - 1].end == sl.end
  {
  }
}
