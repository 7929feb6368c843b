/**
 * The records exchanged between the scheduling engines and their callers:
 * a process with its CPU/BLOCK pattern, an execution slice of the timeline,
 * and the schedule result with its per-process metrics.
 */
module Models {

  datatype Option<T> = None | Some(value: T)

  /** The kind of one pattern segment: processor time, or an I/O wait. */
  datatype Kind = CPU | BLOCK

  /** One phase of a process's plan: a kind paired with an integer duration. */
  datatype Segment = Segment(kind: Kind, duration: int)

  /** One labelled interval of the timeline: `<name>` for CPU, `<name>_BLOCK` for I/O. */
  datatype ExecSlice = ExecSlice(process: string, start: int, end: int)

  /**
   * An average kept exact: the sum of the values and the divisor `max(1, n)`
   * by which the engines divide it.
   */
  datatype Average = Average(total: int, divisor: int)

  datatype ScheduleResult = ScheduleResult(
    timeline: seq<ExecSlice>,
    perProcessSlices: map<string, seq<(int, int)>>,
    turnaround: map<string, int>,
    waiting: map<string, int>,
    avgTurnaround: Option<Average>,
    avgWaiting: Option<Average>)

  /** A process: `pattern == None` means no explicit plan, only a total burst. */
  datatype Process = Process(name: string, arrival: int, burst: int, pattern: Option<seq<Segment>>)

  /** The result every field of which holds its default: empty collections, no averages. */
  function EmptyResult(): (r: ScheduleResult)
    ensures r.timeline == [] && r.perProcessSlices == map[]
    ensures r.turnaround == map[] && r.waiting == map[]
    ensures r.avgTurnaround.None? && r.avgWaiting.None?
  {
    ScheduleResult([], map[], map[], map[], None, None)
  }

  const BlockSuffix: string := "_BLOCK"

  /** The timeline label of an I/O wait of the process called `name`. */
  function BlockLabel(name: string): string
  {
    name + BlockSuffix
  }

  /**
   * The plan an engine works from: the explicit pattern when there is a
   * non-empty one (an empty list is falsy), otherwise one CPU segment of the burst.
   */
  function EffectivePattern(p: Process): (pat: seq<Segment>)
    ensures |pat| > 0
    ensures p.pattern.Some? && p.pattern.value != [] ==> pat == p.pattern.value
    ensures p.pattern.None? || p.pattern.value == [] ==> pat == [Segment(CPU, p.burst)]
  {
    if p.pattern.Some? && p.pattern.value != [] then p.pattern.value else [Segment(CPU, p.burst)]
  }

  /** Sum of the CPU durations of a pattern. */
  function CpuTotal(pat: seq<Segment>): int
  {
    if pat == [] then 0
    else (if pat[0].kind == CPU then pat[0].duration else 0) + CpuTotal(pat[1..])
  }

  /** Sum of the BLOCK durations of a pattern. */
  function BlockTotal(pat: seq<Segment>): int
  {
    if pat == [] then 0
    else (if pat[0].kind == BLOCK then pat[0].duration else 0) + BlockTotal(pat[1..])
  }

  /** Total length of a list of (start, end) intervals. */
  function SliceTotal(iv: seq<(int, int)>): int
  {
    if iv == [] then 0 else SliceTotal(iv[..|iv| - 1]) + (iv[|iv| - 1].1 - iv[|iv| - 1].0)
  }

  lemma SliceTotalAppend(iv: seq<(int, int)>, x: (int, int))
    ensures SliceTotal(iv + [x]) == SliceTotal(iv) + (x.1 - x.0)
  {
    assert (iv + [x])[..|iv|] == iv;
  }

  /** Every CPU segment lasts at least one unit; no segment is negative. */
  predicate ValidPattern(pat: seq<Segment>)
  {
    forall k :: 0 <= k < |pat| ==> pat[k].duration >= 0 && (pat[k].kind == CPU ==> pat[k].duration > 0)
  }

  predicate UniqueNames(procs: seq<Process>)
  {
    forall i, j :: 0 <= i < j < |procs| ==> procs[i].name != procs[j].name
  }

  /**
   * What the engines assume of their input: unique non-empty names, since
   * every per-process table of a run and of its result is keyed by name;
   * arrivals not negative; and every CPU duration positive. The entry form
   * checks only the non-empty name, an integer arrival and a positive burst.
   */
  predicate ValidInput(procs: seq<Process>)
  {
    && UniqueNames(procs)
    && forall i :: 0 <= i < |procs| ==>
         procs[i].name != [] && procs[i].arrival >= 0 && ValidPattern(EffectivePattern(procs[i]))
  }

  function Names(procs: seq<Process>): (s: set<string>)
    ensures forall i :: 0 <= i < |procs| ==> procs[i].name in s
  {
    if procs == [] then {} else Names(procs[..|procs| - 1]) + {procs[|procs| - 1].name}
  }

  lemma {:induction false} NamesExact(procs: seq<Process>, x: string)
    requires x in Names(procs)
    ensures exists i :: 0 <= i < |procs| && procs[i].name == x
  {
    if x != procs[|procs| - 1].name {
      NamesExact(procs[..|procs| - 1], x);
      var i :| 0 <= i < |procs| - 1 && procs[..|procs| - 1][i].name == x;
      assert procs[i].name == x;
    }
  }

  /** The larger of two instants. */
  function Max(a: int, b: int): (r: int)
    ensures r >= a && r >= b && (r == a || r == b)
  {
    if a >= b then a else b
  }

  function Max1(n: int): int
  {
    if n < 1 then 1 else n
  }

  /** `max(0, x)`, the floor the engines apply to their metrics. */
  function Floor0(x: int): int
  {
    if x < 0 then 0 else x
  }

  /** The sum of the metric of every process, in input order. */
  function SumOver(procs: seq<Process>, m: map<string, int>): int
    requires forall i :: 0 <= i < |procs| ==> procs[i].name in m
  {
    if procs == [] then 0 else SumOver(procs[..|procs| - 1], m) + m[procs[|procs| - 1].name]
  }
}
