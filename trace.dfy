/**
 * Properties of a schedule that all four engines promise: every process gets
 * exactly the CPU time of its pattern, the CPU intervals of all processes are
 * pairwise disjoint (one processor), no process runs before it arrives, and
 * every timeline slice belongs to a process.
 */
module Trace {
  import opened Models

  /**
   * The CPU intervals recorded so far, per process (by input index): each is
   * non-empty, lies after the process's arrival and ends by `now`; those of
   * one process are in chronological order; no two intervals overlap.
   */
  ghost predicate IntervalsOk(procs: seq<Process>, pp: seq<seq<(int, int)>>, now: int)
  {
    && |pp| == |procs|
    && (forall i, k :: 0 <= i < |pp| && 0 <= k < |pp[i]| ==>
          procs[i].arrival <= pp[i][k].0 < pp[i][k].1 <= now)
    && (forall i, k, l :: 0 <= i < |pp| && 0 <= k < l < |pp[i]| ==> pp[i][k].1 <= pp[i][l].0)
    && (forall i, j, k, l :: 0 <= i < j < |pp| && 0 <= k < |pp[i]| && 0 <= l < |pp[j]| ==>
          pp[i][k].1 <= pp[j][l].0 || pp[j][l].1 <= pp[i][k].0)
  }

  /** The process at index `i` gets the CPU for [start, end) from `now` on. */
  lemma AddInterval(procs: seq<Process>, pp: seq<seq<(int, int)>>, now: int, i: nat, end: int)
    requires IntervalsOk(procs, pp, now) && i < |pp|
    requires procs[i].arrival <= now < end
    ensures IntervalsOk(procs, pp[i := pp[i] + [(now, end)]], end)
  {
  }

  lemma Later(procs: seq<Process>, pp: seq<seq<(int, int)>>, now: int, later: int)
    requires IntervalsOk(procs, pp, now) && now <= later
    ensures IntervalsOk(procs, pp, later)
  {
  }

  /** The lengths of the BLOCK segments of a pattern, in order. */
  function BlockLengths(pat: seq<Segment>): (ds: seq<int>)
    ensures |ds| <= |pat|
  {
    if pat == [] then []
    else (if pat[0].kind == BLOCK then [pat[0].duration] else []) + BlockLengths(pat[1..])
  }

  /** Every BLOCK segment of a pattern contributes its length. */
  lemma {:induction false} BlockLengthsHas(pat: seq<Segment>, j: nat)
    requires j < |pat| && pat[j].kind == BLOCK
    ensures pat[j].duration in BlockLengths(pat)
  {
    if j > 0 {
      BlockLengthsHas(pat[1..], j - 1);
    }
  }

  /** Every member of `BlockLengths` is the length of one of the pattern's BLOCK segments. */
  lemma {:induction false} BlockLengthsFrom(pat: seq<Segment>, d: int)
    requires d in BlockLengths(pat)
    ensures exists j :: 0 <= j < |pat| && pat[j].kind == BLOCK && pat[j].duration == d
  {
    if pat[0].kind == BLOCK && pat[0].duration == d {
      assert pat[0].kind == BLOCK;
    } else {
      BlockLengthsFrom(pat[1..], d);
      var j :| 0 <= j < |pat[1..]| && pat[1..][j].kind == BLOCK && pat[1..][j].duration == d;
      assert pat[j + 1] == pat[1..][j];
    }
  }

  /**
   * An I/O slice of process `procs[i]`: labelled `<name>_BLOCK`, starting no
   * earlier than the process's arrival, and as long as one of the BLOCK
   * segments of its plan.
   */
  ghost predicate IoSlice(procs: seq<Process>, i: int, s: ExecSlice)
    requires 0 <= i < |procs|
  {
    && s.process == BlockLabel(procs[i].name) && procs[i].arrival <= s.start <= s.end
    && s.end - s.start in BlockLengths(EffectivePattern(procs[i]))
  }

  /**
   * A timeline slice is either a CPU slice labelled with a process's name and
   * recorded among its CPU intervals, or an I/O slice of a process.
   */
  ghost predicate SliceOk(procs: seq<Process>, pp: seq<seq<(int, int)>>, s: ExecSlice)
  {
    exists i :: 0 <= i < |procs| && i < |pp| &&
      ((s.process == procs[i].name && (s.start, s.end) in pp[i]) || IoSlice(procs, i, s))
  }

  ghost predicate TimelineOk(procs: seq<Process>, pp: seq<seq<(int, int)>>, tl: seq<ExecSlice>)
  {
    forall k :: 0 <= k < |tl| ==> SliceOk(procs, pp, tl[k])
  }

  /** Recording more CPU intervals keeps every earlier slice accounted for. */
  lemma TimelineGrows(procs: seq<Process>, pp: seq<seq<(int, int)>>, pp': seq<seq<(int, int)>>, tl: seq<ExecSlice>)
    requires TimelineOk(procs, pp, tl) && |pp| == |pp'|
    requires forall i :: 0 <= i < |pp| ==> pp[i] <= pp'[i]
    ensures TimelineOk(procs, pp', tl)
  {
    forall k | 0 <= k < |tl| ensures SliceOk(procs, pp', tl[k]) {
      var i :| 0 <= i < |procs| && i < |pp| &&
        ((tl[k].process == procs[i].name && (tl[k].start, tl[k].end) in pp[i]) || IoSlice(procs, i, tl[k]));
      if tl[k].process == procs[i].name && (tl[k].start, tl[k].end) in pp[i] {
        var m :| 0 <= m < |pp[i]| && pp[i][m] == (tl[k].start, tl[k].end);
        assert pp'[i][m] == pp[i][m];
      }
    }
  }

  lemma AddCpuSlice(procs: seq<Process>, pp: seq<seq<(int, int)>>, tl: seq<ExecSlice>, i: nat, start: int, end: int)
    requires TimelineOk(procs, pp, tl) && i < |pp| == |procs|
    ensures TimelineOk(procs, pp[i := pp[i] + [(start, end)]], tl + [ExecSlice(procs[i].name, start, end)])
  {
    var pp' := pp[i := pp[i] + [(start, end)]];
    TimelineGrows(procs, pp, pp', tl);
    assert (start, end) in pp'[i];
    assert SliceOk(procs, pp', ExecSlice(procs[i].name, start, end));
  }

  lemma AddBlockSlice(procs: seq<Process>, pp: seq<seq<(int, int)>>, tl: seq<ExecSlice>, i: nat, start: int, end: int)
    requires TimelineOk(procs, pp, tl) && i < |pp| == |procs|
    requires procs[i].arrival <= start <= end && end - start in BlockLengths(EffectivePattern(procs[i]))
    ensures TimelineOk(procs, pp, tl + [ExecSlice(BlockLabel(procs[i].name), start, end)])
  {
    assert IoSlice(procs, i, ExecSlice(BlockLabel(procs[i].name), start, end));
  }

  /** The timeline entry of a BLOCK segment: drawn only when the segment lasts at all. */
  function BlockDrawn(name: string, start: int, d: int): seq<ExecSlice>
  {
    if d > 0 then [ExecSlice(BlockLabel(name), start, start + d)] else []
  }

  /** Drawing the BLOCK slice of a process that has arrived keeps every slice attributed. */
  lemma AddBlockDrawn(procs: seq<Process>, pp: seq<seq<(int, int)>>, tl: seq<ExecSlice>, tl': seq<ExecSlice>,
                      sel: nat, start: int, d: int)
    requires TimelineOk(procs, pp, tl) && sel < |pp| == |procs| && procs[sel].arrival <= start && d >= 0
    requires d in BlockLengths(EffectivePattern(procs[sel]))
    requires tl' == tl + BlockDrawn(procs[sel].name, start, d)
    ensures TimelineOk(procs, pp, tl')
  {
    if d > 0 {
      AddBlockSlice(procs, pp, tl, sel, start, start + d);
    } else {
      assert tl' == tl;
    }
  }

  // ---------------------------------------------------------------------------
  // The same properties, stated on a returned result (keyed by name).

  /** The per-process slices of the result, keyed by name. */
  function ByName(procs: seq<Process>, pp: seq<seq<(int, int)>>): (m: map<string, seq<(int, int)>>)
    requires UniqueNames(procs) && |pp| == |procs|
    ensures m.Keys == Names(procs)
    ensures forall i :: 0 <= i < |procs| ==> m[procs[i].name] == pp[i]
  {
    var m := map i | 0 <= i < |procs| :: procs[i].name := pp[i];
    assert forall x :: x in Names(procs) ==> x in m by {
      forall x | x in Names(procs) ensures x in m {
        NamesExact(procs, x);
      }
    }
    m
  }

  /** Every process received, over all its CPU slices, exactly the CPU time of its pattern. */
  ghost predicate CpuServed(procs: seq<Process>, r: ScheduleResult)
  {
    && r.perProcessSlices.Keys == Names(procs)
    && forall i :: 0 <= i < |procs| ==>
         SliceTotal(r.perProcessSlices[procs[i].name]) == CpuTotal(EffectivePattern(procs[i]))
  }

  /**
   * The CPU intervals of the result: each non-empty and after its process's
   * arrival, chronological per process, and no two of any processes overlapping.
   */
  ghost predicate OneCpu(procs: seq<Process>, r: ScheduleResult)
    requires r.perProcessSlices.Keys == Names(procs)
  {
    && (forall i, k :: 0 <= i < |procs| && 0 <= k < |r.perProcessSlices[procs[i].name]| ==>
          procs[i].arrival <= r.perProcessSlices[procs[i].name][k].0 < r.perProcessSlices[procs[i].name][k].1)
    && (forall i, k, l :: 0 <= i < |procs| && 0 <= k < l < |r.perProcessSlices[procs[i].name]| ==>
          r.perProcessSlices[procs[i].name][k].1 <= r.perProcessSlices[procs[i].name][l].0)
    && (forall i, j, k, l ::
          0 <= i < j < |procs| && 0 <= k < |r.perProcessSlices[procs[i].name]| && 0 <= l < |r.perProcessSlices[procs[j].name]|
          ==> r.perProcessSlices[procs[i].name][k].1 <= r.perProcessSlices[procs[j].name][l].0
              || r.perProcessSlices[procs[j].name][l].1 <= r.perProcessSlices[procs[i].name][k].0)
  }

  /** A slice is a CPU slice recorded for its process, or an I/O slice of a process. */
  ghost predicate Attributed(procs: seq<Process>, slices: map<string, seq<(int, int)>>, s: ExecSlice)
  {
    exists i :: 0 <= i < |procs| &&
      ((s.process == procs[i].name && procs[i].name in slices && (s.start, s.end) in slices[procs[i].name])
       || IoSlice(procs, i, s))
  }

  /** Every slice of the timeline is a CPU slice of a process or an I/O slice of one. */
  ghost predicate Labelled(procs: seq<Process>, r: ScheduleResult)
  {
    forall k :: 0 <= k < |r.timeline| ==> Attributed(procs, r.perProcessSlices, r.timeline[k])
  }

  /** What the index-based run state gives once it is keyed by name. */
  lemma Publish(procs: seq<Process>, pp: seq<seq<(int, int)>>, now: int, tl: seq<ExecSlice>, r: ScheduleResult)
    requires UniqueNames(procs) && IntervalsOk(procs, pp, now) && TimelineOk(procs, pp, tl)
    requires r.perProcessSlices == ByName(procs, pp) && r.timeline == tl
    requires forall i :: 0 <= i < |procs| ==> SliceTotal(pp[i]) == CpuTotal(EffectivePattern(procs[i]))
    ensures CpuServed(procs, r) && OneCpu(procs, r) && Labelled(procs, r)
  {
    PublishServed(procs, pp, r);
    PublishIntervals(procs, pp, now, r);
    PublishTimeline(procs, pp, tl, r);
  }

  lemma PublishServed(procs: seq<Process>, pp: seq<seq<(int, int)>>, r: ScheduleResult)
    requires UniqueNames(procs) && |pp| == |procs| && r.perProcessSlices == ByName(procs, pp)
    requires forall i :: 0 <= i < |procs| ==> SliceTotal(pp[i]) == CpuTotal(EffectivePattern(procs[i]))
    ensures CpuServed(procs, r)
  {
  }

  lemma PublishIntervals(procs: seq<Process>, pp: seq<seq<(int, int)>>, now: int, r: ScheduleResult)
    requires UniqueNames(procs) && IntervalsOk(procs, pp, now) && r.perProcessSlices == ByName(procs, pp)
    ensures OneCpu(procs, r)
  {
  }

  lemma PublishTimeline(procs: seq<Process>, pp: seq<seq<(int, int)>>, tl: seq<ExecSlice>, r: ScheduleResult)
    requires UniqueNames(procs) && |pp| == |procs| && TimelineOk(procs, pp, tl)
    requires r.perProcessSlices == ByName(procs, pp) && r.timeline == tl
    ensures Labelled(procs, r)
  {
    var m := r.perProcessSlices;
    forall k | 0 <= k < |tl| ensures Attributed(procs, m, tl[k]) {
      assert SliceOk(procs, pp, tl[k]);
      var i :| 0 <= i < |procs| && i < |pp| &&
        ((tl[k].process == procs[i].name && (tl[k].start, tl[k].end) in pp[i]) || IoSlice(procs, i, tl[k]));
      assert m[procs[i].name] == pp[i];
    }
  }

  // ---------------------------------------------------------------------------
  // What the engines' results promise, and how the run state gives it.

  /** Every interval of `pp` ends by `t`. */
  ghost predicate EndsBy(pp: seq<(int, int)>, t: int)
  {
    forall k :: 0 <= k < |pp| ==> pp[k].1 <= t
  }

  /** The CPU intervals are chronological, after each arrival and never overlap; the timeline slices are theirs or labelled I/O. */
  ghost predicate Drawn(procs: seq<Process>, r: ScheduleResult)
  {
    r.perProcessSlices.Keys == Names(procs) && OneCpu(procs, r) && Labelled(procs, r)
  }

  /** Each turnaround time is non-negative and reaches past the process's last CPU interval. */
  ghost predicate Covered(procs: seq<Process>, r: ScheduleResult)
  {
    && r.perProcessSlices.Keys == Names(procs) && r.turnaround.Keys == Names(procs)
    && (forall i :: 0 <= i < |procs| ==>
          && r.turnaround[procs[i].name] >= 0
          && EndsBy(r.perProcessSlices[procs[i].name], procs[i].arrival + r.turnaround[procs[i].name]))
  }

  lemma PublishDrawn(procs: seq<Process>, pp: seq<seq<(int, int)>>, tl: seq<ExecSlice>, now: int, r: ScheduleResult)
    requires UniqueNames(procs) && |pp| == |procs| && IntervalsOk(procs, pp, now) && TimelineOk(procs, pp, tl)
    requires r.timeline == tl && r.perProcessSlices == ByName(procs, pp)
    ensures Drawn(procs, r)
  {
    PublishIntervals(procs, pp, now, r);
    PublishTimeline(procs, pp, tl, r);
  }

  lemma PublishCovered(procs: seq<Process>, pp: seq<seq<(int, int)>>, finish: seq<int>, r: ScheduleResult)
    requires UniqueNames(procs) && |pp| == |procs| && |finish| == |procs| && r.perProcessSlices == ByName(procs, pp)
    requires r.turnaround.Keys == Names(procs)
    requires forall i :: 0 <= i < |procs| ==>
      && procs[i].arrival <= finish[i] && EndsBy(pp[i], finish[i])
      && r.turnaround[procs[i].name] == finish[i] - procs[i].arrival
    ensures Covered(procs, r)
  {
  }
}
