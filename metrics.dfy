/**
 * The result assembler shared by the four engines: per-process turnaround and
 * waiting from each process's finishing instant, and their averages.
 */
module Metrics {
  import opened Models

  /** A raw metric, floored at 0 when the engine asks for it. */
  function Metric(floor: bool, raw: int): int
  {
    if floor then Floor0(raw) else raw
  }

  /**
   * Each process waited its turnaround minus the CPU and BLOCK time of its
   * plan (floored at zero when `floor` holds).
   */
  ghost predicate Waited(procs: seq<Process>, turnaround: map<string, int>, waiting: map<string, int>, floor: bool)
    requires Names(procs) <= turnaround.Keys && Names(procs) <= waiting.Keys
  {
    forall i :: 0 <= i < |procs| ==>
      waiting[procs[i].name]
      == Metric(floor, turnaround[procs[i].name] - CpuTotal(EffectivePattern(procs[i])) - BlockTotal(EffectivePattern(procs[i])))
  }

  lemma SumOverFrame(procs: seq<Process>, m: map<string, int>, m': map<string, int>)
    requires forall i :: 0 <= i < |procs| ==> procs[i].name in m && procs[i].name in m'
    requires forall i :: 0 <= i < |procs| ==> m[procs[i].name] == m'[procs[i].name]
    ensures SumOver(procs, m) == SumOver(procs, m')
  {
    if procs != [] {
      SumOverFrame(procs[..|procs| - 1], m, m');
    }
  }

  /**
   * The metrics block: for every process, turnaround is its finishing instant
   * minus its arrival and waiting is that minus the CPU and BLOCK durations of
   * `totals[i]`, each floored at 0 when `floor` holds; the averages divide the
   * sums by `max(1, n)`.
   */
  method Assemble(procs: seq<Process>, totals: seq<seq<Segment>>, finish: seq<int>, floor: bool)
    returns (turnaround: map<string, int>, waiting: map<string, int>, avgTurnaround: Average, avgWaiting: Average)
    requires UniqueNames(procs) && |totals| == |procs| && |finish| == |procs|
    ensures turnaround.Keys == Names(procs) && waiting.Keys == Names(procs)
    ensures forall i :: 0 <= i < |procs| ==>
      && turnaround[procs[i].name] == Metric(floor, finish[i] - procs[i].arrival)
      && waiting[procs[i].name]
         == Metric(floor, finish[i] - procs[i].arrival - CpuTotal(totals[i]) - BlockTotal(totals[i]))
    ensures avgTurnaround == Average(SumOver(procs, turnaround), Max1(|procs|))
    ensures avgWaiting == Average(SumOver(procs, waiting), Max1(|procs|))
  {
    turnaround, waiting := map[], map[];
    var sumT, sumW := 0, 0;
    for i := 0 to |procs|
      invariant turnaround.Keys == Names(procs[..i]) && waiting.Keys == Names(procs[..i])
      invariant forall j :: 0 <= j < i ==>
        && turnaround[procs[j].name] == Metric(floor, finish[j] - procs[j].arrival)
        && waiting[procs[j].name]
           == Metric(floor, finish[j] - procs[j].arrival - CpuTotal(totals[j]) - BlockTotal(totals[j]))
      invariant sumT == SumOver(procs[..i], turnaround) && sumW == SumOver(procs[..i], waiting)
    {
      var p := procs[i];
      var tr := finish[i] - p.arrival;
      var te := tr - CpuTotal(totals[i]) - BlockTotal(totals[i]);
      ghost var t0, w0 := turnaround, waiting;
      turnaround := turnaround[p.name := Metric(floor, tr)];
      waiting := waiting[p.name := Metric(floor, te)];
      RecordStep(procs, i, t0, Metric(floor, tr));
      RecordStep(procs, i, w0, Metric(floor, te));
      sumT := sumT + Metric(floor, tr);
      sumW := sumW + Metric(floor, te);
    }
    assert procs[..|procs|] == procs;
    avgTurnaround := Average(sumT, Max1(|procs|));
    avgWaiting := Average(sumW, Max1(|procs|));
  }

  /** Recording the metric of the `i`-th process keeps the earlier ones and extends their sum. */
  lemma RecordStep(procs: seq<Process>, i: nat, m0: map<string, int>, v: int)
    requires UniqueNames(procs) && i < |procs| && m0.Keys == Names(procs[..i])
    ensures m0[procs[i].name := v].Keys == Names(procs[..i + 1])
    ensures forall j :: 0 <= j < i ==> procs[j].name in m0 && m0[procs[i].name := v][procs[j].name] == m0[procs[j].name]
    ensures SumOver(procs[..i + 1], m0[procs[i].name := v]) == SumOver(procs[..i], m0) + v
  {
    var m := m0[procs[i].name := v];
    assert procs[..i + 1][..i] == procs[..i];
    forall j | 0 <= j < i ensures procs[j].name in m0 && m[procs[j].name] == m0[procs[j].name] {
      assert procs[..i][j] == procs[j];
      assert procs[j].name != procs[i].name;
    }
    SumOverFrame(procs[..i], m0, m);
  }

  /**
   * The metrics block of a run that served every process its whole plan:
   * turnaround from each finish instant, waiting as the turnaround minus the
   * plan's CPU and BLOCK time, both floored at zero when `floor` holds.
   */
  method PlanMetrics(procs: seq<Process>, finish: seq<int>, floor: bool)
    returns (turnaround: map<string, int>, waiting: map<string, int>, avgTurnaround: Average, avgWaiting: Average)
    requires UniqueNames(procs) && |finish| == |procs|
    requires forall i :: 0 <= i < |procs| ==> procs[i].arrival <= finish[i]
    ensures turnaround.Keys == Names(procs) && waiting.Keys == Names(procs)
    ensures forall i :: 0 <= i < |procs| ==> turnaround[procs[i].name] == finish[i] - procs[i].arrival
    ensures Waited(procs, turnaround, waiting, floor)
    ensures avgTurnaround == Average(SumOver(procs, turnaround), Max1(|procs|))
    ensures avgWaiting == Average(SumOver(procs, waiting), Max1(|procs|))
  {
    var plans := seq(|procs|, i requires 0 <= i < |procs| => EffectivePattern(procs[i]));
    turnaround, waiting, avgTurnaround, avgWaiting := Assemble(procs, plans, finish, floor);
    PlanWaiting(procs, plans, finish, turnaround, waiting, floor);
  }

  /**
   * With every finish instant no earlier than the arrival, the turnaround is
   * not floored, so the waiting time is the turnaround minus the plan's CPU
   * and BLOCK time.
   */
  lemma PlanWaiting(procs: seq<Process>, plans: seq<seq<Segment>>, finish: seq<int>,
                    turnaround: map<string, int>, waiting: map<string, int>, floor: bool)
    requires |plans| == |procs| == |finish|
    requires turnaround.Keys == Names(procs) && waiting.Keys == Names(procs)
    requires forall i :: 0 <= i < |procs| ==> plans[i] == EffectivePattern(procs[i]) && procs[i].arrival <= finish[i]
    requires forall i :: 0 <= i < |procs| ==>
      && turnaround[procs[i].name] == Metric(floor, finish[i] - procs[i].arrival)
      && waiting[procs[i].name] == Metric(floor, finish[i] - procs[i].arrival - CpuTotal(plans[i]) - BlockTotal(plans[i]))
    ensures Waited(procs, turnaround, waiting, floor)
  {
  }

  /** The metrics of a result: each waiting time from its turnaround time and plan, floored at zero, and the two averages. */
  ghost predicate Measured(procs: seq<Process>, r: ScheduleResult)
  {
    && r.turnaround.Keys == Names(procs) && r.waiting.Keys == Names(procs)
    && Waited(procs, r.turnaround, r.waiting, true)
    && r.avgTurnaround == Some(Average(SumOver(procs, r.turnaround), Max1(|procs|)))
    && r.avgWaiting == Some(Average(SumOver(procs, r.waiting), Max1(|procs|)))
  }
}
