/**
 * The FIFO engine: non-preemptive, first come first served over a ready queue
 * of processes that have arrived or come back from I/O. The active process
 * keeps the CPU until its CPU segment is used up; its run is cut into pieces
 * only at the instants where an arrival or an unblock is due, so that these
 * are queued on time.
 */
module Fifo {
  import opened Models
  import opened Ledger
  import opened Metrics
  import opened Trace
  import opened Progress

  /**
   * The engine's variables between two steps of its main loop. Processes are
   * named by their index in the input list; `pats[i]` is what is left of the
   * working copy of process `i`'s pattern, `perProc[i]` its CPU intervals.
   */
  datatype State = State(
    time: int,
    timeline: seq<ExecSlice>,
    perProc: seq<seq<(int, int)>>,
    completion: map<nat, int>,
    pats: seq<seq<Segment>>,
    blocked: seq<Block>,
    ready: seq<nat>,
    done: set<nat>,
    idx: nat,
    active: Option<nat>,
    segRem: int)

  // ---------------------------------------------------------------------------
  // The loop invariant, one piece per group of variables.

  /** What is left of process `i`'s working pattern is a suffix of its plan. */
  ghost predicate Left(procs: seq<Process>, pats: seq<seq<Segment>>, i: int)
  {
    0 <= i < |procs| && i < |pats| && IsSuffix(pats[i], EffectivePattern(procs[i])) && ValidPattern(pats[i])
  }

  /** The working patterns are what is left of each process's plan. */
  ghost predicate Shape(procs: seq<Process>, pats: seq<seq<Segment>>, perProc: seq<seq<(int, int)>>)
  {
    && |pats| == |procs| && |perProc| == |procs|
    && forall i :: 0 <= i < |procs| ==> Left(procs, pats, i)
  }

  function OnCpu(active: Option<nat>): set<nat>
  {
    if active.Some? then {active.value} else {}
  }

  /**
   * Every admitted process (index below the arrivals cursor) is in exactly one
   * place: the ready queue, the blocked table, the done set, or on the CPU; and
   * exactly the finished ones have a completion instant.
   */
  ghost predicate Places(ready: seq<nat>, blocked: seq<Block>, done: set<nat>, active: Option<nat>, idx: nat,
                         completion: map<nat, int>)
  {
    && NoDup(ready) && DistinctProcs(blocked)
    && Elems(ready) !! Parked(blocked) && Elems(ready) !! done && Elems(ready) !! OnCpu(active)
    && Parked(blocked) !! done && Parked(blocked) !! OnCpu(active) && done !! OnCpu(active)
    && Elems(ready) + Parked(blocked) + done + OnCpu(active) == Below(idx)
    && completion.Keys == done
  }

  /** The active process is inside a CPU segment; finished processes have nothing left. */
  ghost predicate Running(pats: seq<seq<Segment>>, done: set<nat>, active: Option<nat>, segRem: int)
  {
    && (active.Some? ==>
          && active.value < |pats| && pats[active.value] != [] && pats[active.value][0].kind == CPU
          && 0 <= segRem <= pats[active.value][0].duration)
    && (forall d :: d in done ==> d < |pats| && pats[d] == [])
  }

  /** Every admitted process has arrived. */
  ghost predicate Clock(procs: seq<Process>, idx: nat, time: int)
  {
    idx <= |procs| && forall j :: 0 <= j < idx ==> procs[j].arrival <= time
  }

  /** The part of the active process's current CPU segment already run. */
  function Partial(pats: seq<seq<Segment>>, active: Option<nat>, segRem: int, i: nat): int
  {
    if active == Some(i) && i < |pats| && pats[i] != [] then pats[i][0].duration - segRem else 0
  }

  /** Process `i`'s CPU time received plus CPU time left is the CPU time of its plan. */
  ghost predicate Balanced(procs: seq<Process>, perProc: seq<seq<(int, int)>>, pats: seq<seq<Segment>>,
                           active: Option<nat>, segRem: int, i: int)
  {
    0 <= i < |procs| && i < |perProc| && i < |pats| &&
    SliceTotal(perProc[i]) + CpuTotal(pats[i]) == CpuTotal(EffectivePattern(procs[i])) + Partial(pats, active, segRem, i)
  }

  ghost predicate CpuBalance(procs: seq<Process>, perProc: seq<seq<(int, int)>>, pats: seq<seq<Segment>>,
                             active: Option<nat>, segRem: int)
  {
    |pats| == |procs| && |perProc| == |procs| &&
    forall i :: 0 <= i < |procs| ==> Balanced(procs, perProc, pats, active, segRem, i)
  }

  /** A finished process completed no earlier than its arrival and than the end of its last CPU interval. */
  ghost predicate Finished(procs: seq<Process>, perProc: seq<seq<(int, int)>>, done: set<nat>, completion: map<nat, int>)
  {
    forall d :: d in done && d in completion && d < |procs| && d < |perProc| ==>
      procs[d].arrival <= completion[d] && forall k :: 0 <= k < |perProc[d]| ==> perProc[d][k].1 <= completion[d]
  }

  ghost predicate Inv(procs: seq<Process>, st: State)
  {
    && Shape(procs, st.pats, st.perProc)
    && Places(st.ready, st.blocked, st.done, st.active, st.idx, st.completion)
    && Running(st.pats, st.done, st.active, st.segRem)
    && Clock(procs, st.idx, st.time)
    && CpuBalance(procs, st.perProc, st.pats, st.active, st.segRem)
    && Finished(procs, st.perProc, st.done, st.completion)
    && IntervalsOk(procs, st.perProc, st.time)
    && TimelineOk(procs, st.perProc, st.timeline)
  }

  // ---------------------------------------------------------------------------
  // Termination: the work left decreases at every step except a clock jump,
  // which instead passes one of the future events.

  function ActivePartial(pats: seq<seq<Segment>>, active: Option<nat>, segRem: int): int
  {
    if active.Some? then Partial(pats, active, segRem, active.value) else 0
  }

  function Effort(n: nat, pats: seq<seq<Segment>>, done: set<nat>, active: Option<nat>, segRem: int): int
  {
    PatCost(pats) + (n - |done|) - ActivePartial(pats, active, segRem)
  }

  lemma EffortBound(procs: seq<Process>, st: State)
    requires Inv(procs, st)
    ensures Effort(|procs|, st.pats, st.done, st.active, st.segRem) >= 0
  {
    assert st.done <= Below(st.idx) && st.idx <= |procs|;
    forall k | 0 <= k < |st.pats| ensures ValidPattern(st.pats[k]) {
      assert Left(procs, st.pats, k);
    }
    EffortNonNegative(|procs|, st.pats, st.done, st.active, st.segRem, st.idx);
  }

  lemma EffortNonNegative(n: nat, pats: seq<seq<Segment>>, done: set<nat>, active: Option<nat>, segRem: int, idx: nat)
    requires done <= Below(idx) && idx <= n
    requires forall k :: 0 <= k < |pats| ==> ValidPattern(pats[k])
    requires Running(pats, done, active, segRem)
    ensures Effort(n, pats, done, active, segRem) >= 0
  {
    assert forall x :: x in done ==> x < n;
    BoundedCard(done, n);
    if active.Some? {
      PatCostBound(pats, active.value);
      CostBound(pats[active.value]);
    } else {
      PatCostBound(pats, 0);
    }
  }

  /** The events the clock may still jump to: arrivals beyond the cursor and unblocks, after now. */
  function Future(procs: seq<Process>, idx: nat, blocked: seq<Block>, time: int): nat
  {
    ArrivalsAfter(procs, idx, time) + BlockedAfter(blocked, time)
  }

  // ---------------------------------------------------------------------------
  // Admissions and unblocks.

  /**
   * Walk the input list from the arrivals cursor and queue every process that
   * has arrived by now, stopping at the first one that has not.
   */
  method EnqueueArrivals(procs: seq<Process>, st: State) returns (st': State)
    requires Inv(procs, st)
    ensures Inv(procs, st')
    ensures st.idx <= st'.idx <= |procs|
    ensures st' == st.(idx := st'.idx, ready := st.ready + Range(st.idx, st'.idx))
    ensures forall j :: st.idx <= j < st'.idx ==> procs[j].arrival <= st.time
    ensures st'.idx < |procs| ==> procs[st'.idx].arrival > st.time
    ensures Future(procs, st'.idx, st'.blocked, st'.time) == Future(procs, st.idx, st.blocked, st.time)
  {
    var idx, ready := st.idx, st.ready;
    while idx < |procs| && procs[idx].arrival <= st.time
      invariant st.idx <= idx <= |procs|
      invariant ready == st.ready + Range(st.idx, idx)
      invariant forall j :: 0 <= j < idx ==> procs[j].arrival <= st.time
      invariant ArrivalsAfter(procs, idx, st.time) == ArrivalsAfter(procs, st.idx, st.time)
    {
      AdmitFresh(st.ready, st.blocked, st.done, st.active, st.idx, st.completion, idx);
      if idx !in st.done && idx !in Parked(st.blocked) && idx !in ready {
        ready := ready + [idx];
      }
      idx := idx + 1;
    }
    st' := st.(idx := idx, ready := ready);
    AdmitInv(procs, st, idx);
  }

  lemma AdmitInv(procs: seq<Process>, st: State, idx: nat)
    requires Inv(procs, st) && st.idx <= idx <= |procs|
    requires forall j :: 0 <= j < idx ==> procs[j].arrival <= st.time
    ensures Inv(procs, st.(idx := idx, ready := st.ready + Range(st.idx, idx)))
  {
    AdmitPlaces(st.ready, st.blocked, st.done, st.active, st.idx, st.completion, idx);
  }

  lemma AdmitFresh(ready: seq<nat>, blocked: seq<Block>, done: set<nat>, active: Option<nat>, idx: nat,
                   completion: map<nat, int>, j: nat)
    requires Places(ready, blocked, done, active, idx, completion) && idx <= j
    ensures j !in done && j !in Parked(blocked) && j !in ready + Range(idx, j)
  {
    assert j !in Below(idx);
  }

  lemma AdmitPlaces(ready: seq<nat>, blocked: seq<Block>, done: set<nat>, active: Option<nat>, idx: nat,
                    completion: map<nat, int>, idx': nat)
    requires Places(ready, blocked, done, active, idx, completion) && idx <= idx'
    ensures Places(ready + Range(idx, idx'), blocked, done, active, idx', completion)
  {
    var r := ready + Range(idx, idx');
    assert Elems(r) == Elems(ready) + (Below(idx') - Below(idx)) by {
      forall x ensures x in Elems(r) <==> x in Elems(ready) + (Below(idx') - Below(idx)) {
        if idx <= x < idx' {
          assert r[|ready| + (x - idx)] == x;
        }
      }
    }
    forall a, b | 0 <= a < b < |r| ensures r[a] != r[b] {
      if a < |ready| <= b {
        assert r[a] in Elems(ready) && r[a] in Below(idx);
      }
    }
  }

  /**
   * Release every blocked process whose unblock instant is now or earlier, in
   * order of unblock instant, onto the back of the ready queue.
   */
  method UnblockReady(procs: seq<Process>, st: State) returns (st': State)
    requires Inv(procs, st)
    ensures Inv(procs, st')
    ensures st' == st.(ready := st.ready + Outside(DueIn(UnblockOrder(st.blocked), st.blocked, st.time), st.done),
                       blocked := Pending(st.blocked, st.time))
    ensures forall k :: 0 <= k < |st'.blocked| ==> st'.blocked[k].until > st.time
    ensures Future(procs, st'.idx, st'.blocked, st'.time) == Future(procs, st.idx, st.blocked, st.time)
  {
    DistinctIsNoDup(st.blocked);
    assert forall k :: 0 <= k < |st.blocked| ==> st.blocked[k].proc in Parked(st.blocked);
    var ready, blocked := ReleaseDue(st.ready, st.blocked, st.done, st.time);
    st' := st.(ready := ready, blocked := blocked);
    PendingMembers(st.blocked, st.time);
    BlockedAfterPending(st.blocked, st.time);
    UnblockPlaces(st.ready, st.blocked, st.done, st.active, st.idx, st.completion, st.time);
  }

  lemma UnblockPlaces(ready: seq<nat>, blocked: seq<Block>, done: set<nat>, active: Option<nat>, idx: nat,
                      completion: map<nat, int>, t: int)
    requires Places(ready, blocked, done, active, idx, completion)
    ensures Places(ready + Outside(DueIn(UnblockOrder(blocked), blocked, t), done), Pending(blocked, t), done, active, idx, completion)
  {
    var dueIn := DueIn(UnblockOrder(blocked), blocked, t);
    var due := Outside(dueIn, done);
    DueSet(blocked, t);
    OutsideMembers(dueIn, done);
    PendingSet(blocked, t);
    assert Elems(due) <= Parked(blocked);
    Extend(ready, due);
  }

  // ---------------------------------------------------------------------------
  // Moving one process between places.

  lemma PopReady(ready: seq<nat>)
    requires NoDup(ready) && ready != []
    ensures NoDup(ready[1..]) && Elems(ready[1..]) == Elems(ready) - {ready[0]} && ready[0] in Elems(ready)
  {
    assert ready == [ready[0]] + ready[1..];
    assert ready[0] !in ready[1..] by {
      forall k | 0 <= k < |ready| - 1 ensures ready[1..][k] != ready[0] {
        assert ready[1..][k] == ready[k + 1];
      }
    }
  }

  /** The head of the ready queue, its pattern used up, finishes now. */
  lemma FinishHeadPlaces(ready: seq<nat>, blocked: seq<Block>, done: set<nat>, idx: nat, completion: map<nat, int>, t: int)
    requires Places(ready, blocked, done, None, idx, completion) && ready != []
    ensures Places(ready[1..], blocked, done + {ready[0]}, None, idx, completion[ready[0] := t])
  {
    PopReady(ready);
  }

  /** The head of the ready queue is parked. */
  lemma ParkHeadPlaces(ready: seq<nat>, blocked: seq<Block>, done: set<nat>, idx: nat, completion: map<nat, int>, u: int)
    requires Places(ready, blocked, done, None, idx, completion) && ready != []
    ensures Places(ready[1..], blocked + [Block(ready[0], u)], done, None, idx, completion)
  {
    PopReady(ready);
    ParkedAppend(blocked, Block(ready[0], u));
  }

  /** The head of the ready queue gets the CPU. */
  lemma RunHeadPlaces(ready: seq<nat>, blocked: seq<Block>, done: set<nat>, idx: nat, completion: map<nat, int>)
    requires Places(ready, blocked, done, None, idx, completion) && ready != []
    ensures Places(ready[1..], blocked, done, Some(ready[0]), idx, completion)
  {
    PopReady(ready);
  }

  /** The active process is parked. */
  lemma ParkActivePlaces(ready: seq<nat>, blocked: seq<Block>, done: set<nat>, a: nat, idx: nat, completion: map<nat, int>, u: int)
    requires Places(ready, blocked, done, Some(a), idx, completion)
    ensures Places(ready, blocked + [Block(a, u)], done, None, idx, completion)
  {
    ParkedAppend(blocked, Block(a, u));
  }

  /** The active process finishes now. */
  lemma FinishActivePlaces(ready: seq<nat>, blocked: seq<Block>, done: set<nat>, a: nat, idx: nat, completion: map<nat, int>, t: int)
    requires Places(ready, blocked, done, Some(a), idx, completion)
    ensures Places(ready, blocked, done + {a}, None, idx, completion[a := t])
  {
  }

  /** Consuming the head segment of process `a` keeps its pattern a suffix of its plan. */
  lemma ShapeTail(procs: seq<Process>, pats: seq<seq<Segment>>, perProc: seq<seq<(int, int)>>, a: nat)
    requires Shape(procs, pats, perProc) && a < |pats| && pats[a] != []
    ensures Shape(procs, pats[a := pats[a][1..]], perProc)
  {
    assert Left(procs, pats, a);
    SuffixTail(pats[a], EffectivePattern(procs[a]));
    ValidTail(pats[a]);
    var pats' := pats[a := pats[a][1..]];
    forall i | 0 <= i < |procs| ensures Left(procs, pats', i) {
      assert Left(procs, pats, i);
    }
  }

  /** Consuming the head segment of `a` lowers the work left by that segment's cost. */
  lemma CostTail(pats: seq<seq<Segment>>, a: nat)
    requires a < |pats| && pats[a] != []
    ensures PatCost(pats[a := pats[a][1..]]) == PatCost(pats) - pats[a][0].duration - 1
  {
    PatCostUpdate(pats, a, pats[a][1..]);
  }

  lemma EffortFinish(n: nat, pats: seq<seq<Segment>>, done: set<nat>, a: nat, s: int)
    requires a !in done
    ensures Effort(n, pats, done + {a}, None, s) == Effort(n, pats, done, None, s) - 1
  {
  }

  lemma EffortPark(n: nat, pats: seq<seq<Segment>>, done: set<nat>, a: nat, s: int)
    requires a < |pats| && pats[a] != []
    ensures Effort(n, pats[a := pats[a][1..]], done, None, s) == Effort(n, pats, done, None, s) - pats[a][0].duration - 1
  {
    CostTail(pats, a);
  }

  /** A process that finishes at `t` did so after arriving and after all its CPU intervals. */
  lemma FinishedAdd(procs: seq<Process>, perProc: seq<seq<(int, int)>>, done: set<nat>, completion: map<nat, int>, a: nat, t: int)
    requires Finished(procs, perProc, done, completion) && a < |procs| && a < |perProc|
    requires procs[a].arrival <= t && forall k :: 0 <= k < |perProc[a]| ==> perProc[a][k].1 <= t
    ensures Finished(procs, perProc, done + {a}, completion[a := t])
  {
  }

  // ---------------------------------------------------------------------------
  // Dispatch: the CPU is idle and the ready queue is not empty.

  /**
   * Take the head of the ready queue. With nothing left of its pattern it is
   * finished now; with a BLOCK segment first it goes straight to I/O and the
   * CPU stays free; with a CPU segment first it becomes the active process.
   */
  method Dispatch(procs: seq<Process>, st: State) returns (st': State, running: bool)
    requires Inv(procs, st) && st.active.None? && st.ready != []
    ensures Inv(procs, st')
    ensures st'.time == st.time && st'.idx == st.idx && st'.ready == st.ready[1..]
    ensures running <==> st'.active.Some?
    ensures running ==>
      && st'.active == Some(st.ready[0]) && st'.segRem > 0
      && Effort(|procs|, st'.pats, st'.done, st'.active, st'.segRem) == Effort(|procs|, st.pats, st.done, st.active, st.segRem)
    ensures !running ==> Effort(|procs|, st'.pats, st'.done, st'.active, st'.segRem) < Effort(|procs|, st.pats, st.done, st.active, st.segRem)
    ensures st.ready[0] < |procs| && st.ready[0] < |st.pats|
    ensures Dispatched(procs, st, st')
  {
    var a := st.ready[0];
    HeadAdmitted(procs, st);
    // No process is queued before it arrives, so the clock never needs the bump to the arrival instant.
    assert procs[a].arrival <= st.time;
    if st.pats[a] == [] {
      st' := st.(ready := st.ready[1..], done := st.done + {a}, completion := st.completion[a := st.time]);
      assert Dispatched(procs, st, st');
      FinishHeadInv(procs, st, st');
      return st', false;
    }
    var seg := st.pats[a][0];
    if seg.kind == BLOCK {
      var end := st.time + seg.duration;
      st' := st.(ready := st.ready[1..],
                 timeline := st.timeline + [ExecSlice(BlockLabel(procs[a].name), st.time, end)],
                 blocked := st.blocked + [Block(a, end)],
                 pats := st.pats[a := st.pats[a][1..]]);
      assert Dispatched(procs, st, st');
      ParkHeadInv(procs, st, st', a, end);
      return st', false;
    }
    st' := st.(ready := st.ready[1..], active := Some(a), segRem := seg.duration);
    assert Dispatched(procs, st, st');
    RunHeadInv(procs, st, st');
    return st', true;
  }

  /**
   * The state after the head of the ready queue is taken off it: with an
   * empty plan it finishes now; with a BLOCK segment first it goes to I/O at
   * once, an I/O slice from now and parked until now plus that segment's
   * length, even when that length is zero; with a CPU segment first it gets
   * the CPU with that segment loaded.
   */
  ghost predicate Dispatched(procs: seq<Process>, st: State, st': State)
    requires st.ready != [] && st.ready[0] < |procs| && st.ready[0] < |st.pats|
  {
    var a := st.ready[0];
    if st.pats[a] == [] then
      st' == st.(ready := st.ready[1..], done := st.done + {a}, completion := st.completion[a := st.time])
    else if st.pats[a][0].kind == BLOCK then
      st' == st.(ready := st.ready[1..],
                 timeline := st.timeline + [ExecSlice(BlockLabel(procs[a].name), st.time, st.time + st.pats[a][0].duration)],
                 blocked := st.blocked + [Block(a, st.time + st.pats[a][0].duration)],
                 pats := st.pats[a := st.pats[a][1..]])
    else
      st' == st.(ready := st.ready[1..], active := Some(a), segRem := st.pats[a][0].duration)
  }

  /** The head of the ready queue is an admitted process, and so has arrived. */
  lemma HeadAdmitted(procs: seq<Process>, st: State)
    requires Inv(procs, st) && st.ready != []
    ensures st.ready[0] < st.idx <= |procs| && st.ready[0] < |st.pats| && procs[st.ready[0]].arrival <= st.time
  {
    assert st.ready[0] in Elems(st.ready);
    assert st.ready[0] in Below(st.idx);
  }

  lemma FinishHeadInv(procs: seq<Process>, st: State, st': State)
    requires Inv(procs, st) && st.active.None? && st.ready != [] && st.ready[0] < |st.pats| && st.pats[st.ready[0]] == []
    requires st' == st.(ready := st.ready[1..], done := st.done + {st.ready[0]},
                        completion := st.completion[st.ready[0] := st.time])
    ensures Inv(procs, st')
    ensures Effort(|procs|, st'.pats, st'.done, st'.active, st'.segRem) < Effort(|procs|, st.pats, st.done, st.active, st.segRem)
  {
    var a := st.ready[0];
    PopReady(st.ready);
    FinishHeadPlaces(st.ready, st.blocked, st.done, st.idx, st.completion, st.time);
    assert a in Below(st.idx);
    FinishedAdd(procs, st.perProc, st.done, st.completion, a, st.time);
    EffortFinish(|procs|, st.pats, st.done, a, st.segRem);
  }

  lemma ParkHeadInv(procs: seq<Process>, st: State, st': State, a: nat, end: int)
    requires Inv(procs, st) && st.active.None? && st.ready != [] && a == st.ready[0] && a < |st.pats|
    requires st.pats[a] != [] && st.pats[a][0].kind == BLOCK && end == st.time + st.pats[a][0].duration
    requires st' == st.(ready := st.ready[1..],
                        timeline := st.timeline + [ExecSlice(BlockLabel(procs[a].name), st.time, end)],
                        blocked := st.blocked + [Block(a, end)],
                        pats := st.pats[a := st.pats[a][1..]])
    ensures Inv(procs, st')
    ensures Effort(|procs|, st'.pats, st'.done, st'.active, st'.segRem) < Effort(|procs|, st.pats, st.done, st.active, st.segRem)
  {
    ParkHeadKeeps(procs, st, a, end);
    assert Left(procs, st.pats, a);
    EffortPark(|procs|, st.pats, st.done, a, st.segRem);
  }

  lemma ParkHeadKeeps(procs: seq<Process>, st: State, a: nat, end: int)
    requires Inv(procs, st) && st.active.None? && st.ready != [] && a == st.ready[0] && a < |st.pats|
    requires st.pats[a] != [] && st.pats[a][0].kind == BLOCK && end == st.time + st.pats[a][0].duration
    ensures Inv(procs, st.(ready := st.ready[1..],
                           timeline := st.timeline + [ExecSlice(BlockLabel(procs[a].name), st.time, end)],
                           blocked := st.blocked + [Block(a, end)],
                           pats := st.pats[a := st.pats[a][1..]]))
  {
    var pats' := st.pats[a := st.pats[a][1..]];
    PopReady(st.ready);
    assert a in Below(st.idx);
    ParkHeadPlaces(st.ready, st.blocked, st.done, st.idx, st.completion, end);
    ShapeTail(procs, st.pats, st.perProc, a);
    assert Left(procs, st.pats, a);
    SuffixBlockLength(st.pats[a], EffectivePattern(procs[a]));
    AddBlockSlice(procs, st.perProc, st.timeline, a, st.time, end);
    forall i | 0 <= i < |procs| ensures Balanced(procs, st.perProc, pats', None, st.segRem, i) {
      assert Balanced(procs, st.perProc, st.pats, None, st.segRem, i);
    }
  }

  lemma RunHeadInv(procs: seq<Process>, st: State, st': State)
    requires Inv(procs, st) && st.active.None? && st.ready != [] && st.ready[0] < |st.pats|
    requires st.pats[st.ready[0]] != [] && st.pats[st.ready[0]][0].kind == CPU
    requires st' == st.(ready := st.ready[1..], active := Some(st.ready[0]), segRem := st.pats[st.ready[0]][0].duration)
    ensures Inv(procs, st') && st'.segRem > 0
    ensures Effort(|procs|, st'.pats, st'.done, st'.active, st'.segRem) == Effort(|procs|, st.pats, st.done, st.active, st.segRem)
  {
    var a := st.ready[0];
    var d := st.pats[a][0].duration;
    RunHeadPlaces(st.ready, st.blocked, st.done, st.idx, st.completion);
    assert Left(procs, st.pats, a);
    LoadBalance(procs, st.perProc, st.pats, a, st.segRem, d);
  }

  /** Loading a fresh CPU segment puts none of it in the partial segment. */
  lemma LoadBalance(procs: seq<Process>, pp: seq<seq<(int, int)>>, pats: seq<seq<Segment>>, a: nat, rem: int, d: int)
    requires CpuBalance(procs, pp, pats, None, rem) && a < |pats| && pats[a] != [] && d == pats[a][0].duration
    ensures CpuBalance(procs, pp, pats, Some(a), d)
  {
    forall i | 0 <= i < |procs| ensures Balanced(procs, pp, pats, Some(a), d, i) {
      assert Balanced(procs, pp, pats, None, rem, i);
    }
  }

  // ---------------------------------------------------------------------------
  // The clock.

  /** The arrival instant of the next process not yet admitted, whether or not it is after now. */
  function NextArrival(procs: seq<Process>, idx: nat): Option<int>
  {
    if idx < |procs| then Some(procs[idx].arrival) else None
  }

  /**
   * Where a run step stops: the earliest of the end of the current CPU
   * segment and the next arrival and unblock, each taken only if it is after now.
   */
  function StepEnd(segEnd: int, na: Option<int>, nu: Option<int>, now: int): (r: int)
    ensures r <= segEnd
    ensures na.Some? && na.value > now ==> r <= na.value
    ensures nu.Some? && nu.value > now ==> r <= nu.value
    ensures r == segEnd || (na.Some? && na.value > now && r == na.value) || (nu.Some? && nu.value > now && r == nu.value)
  {
    var r1 := if na.Some? && na.value > now && na.value < segEnd then na.value else segEnd;
    if nu.Some? && nu.value > now && nu.value < r1 then nu.value else r1
  }

  /** Where the idle clock jumps: the earlier of the next arrival and the next unblock. */
  function JumpTo(na: Option<int>, nu: Option<int>): (r: int)
    requires na.Some? || nu.Some?
    ensures na.Some? ==> r <= na.value
    ensures nu.Some? ==> r <= nu.value
    ensures (na.Some? && r == na.value) || (nu.Some? && r == nu.value)
  {
    if na.None? then nu.value
    else if nu.None? then na.value
    else if na.value <= nu.value then na.value
    else nu.value
  }

  /** A jump of the idle clock passes at least one of the events still to come. */
  lemma JumpPasses(procs: seq<Process>, idx: nat, b: seq<Block>, t: int, na: Option<int>, nu: Option<int>)
    requires na == NextArrival(procs, idx) && nu == MinAfter(Untils(b), t)
    requires na.Some? ==> na.value > t
    requires na.Some? || nu.Some?
    ensures JumpTo(na, nu) > t
    ensures Future(procs, idx, b, JumpTo(na, nu)) < Future(procs, idx, b, t)
  {
    var t' := JumpTo(na, nu);
    ArrivalsAfterMono(procs, idx, t, t');
    BlockedAfterMono(b, t, t');
    if na.Some? && t' == na.value {
      ArrivalsAfterMono(procs, idx + 1, t, t');
    } else {
      var us := Untils(b);
      var k :| 0 <= k < |us| && us[k] == nu.value;
      BlockedAfterDrops(b, t, t', k);
    }
  }

  /** An idle clock jump forward keeps the invariant. */
  lemma JumpInv(procs: seq<Process>, st: State, t: int)
    requires Inv(procs, st) && st.time <= t
    ensures Inv(procs, st.(time := t))
  {
    Later(procs, st.perProc, st.time, t);
  }

  /** Once the unblocks due now are released, no unblock after now means an empty blocked table. */
  lemma NoneBlocked(b: seq<Block>, t: int)
    requires MinAfter(Untils(b), t).None?
    requires forall k :: 0 <= k < |b| ==> b[k].until > t
    ensures b == []
  {
    BlockedAfterAll(b, t);
    BlockedAfterNone(b, t);
  }

  /**
   * With nothing ready, the CPU idle, every process admitted and nothing
   * blocked, every process has finished: the loop's exit on "no event left"
   * never leaves a process unfinished.
   */
  lemma Drained(procs: seq<Process>, st: State)
    requires Inv(procs, st) && st.active.None? && st.ready == [] && st.blocked == []
    requires NextArrival(procs, st.idx).None?
    ensures |st.done| == |procs|
  {
    assert Elems(st.ready) == {} && Parked(st.blocked) == {};
    assert st.done == Below(|procs|);
    BoundedCard(st.done, |procs|);
  }

  // ---------------------------------------------------------------------------
  // Running the active process.

  /** A CPU slice `[now, end]` of the active process keeps the invariant and lowers the work left by its length. */
  lemma SliceInv(procs: seq<Process>, st: State, st': State, a: nat, end: int)
    requires Inv(procs, st) && st.active == Some(a) && st.time < end <= st.time + st.segRem
    requires st' == st.(timeline := st.timeline + [ExecSlice(procs[a].name, st.time, end)],
                        perProc := st.perProc[a := st.perProc[a] + [(st.time, end)]],
                        segRem := st.segRem - (end - st.time),
                        time := end)
    ensures Inv(procs, st')
  {
    assert a in Below(st.idx);
    assert a !in st.done && st.pats[a] != [];
    AddInterval(procs, st.perProc, st.time, a, end);
    AddCpuSlice(procs, st.perProc, st.timeline, a, st.time, end);
    SliceBalance(procs, st.perProc, st'.perProc, st.pats, a, st.segRem, st'.segRem, st.time, end);
    SliceFinished(procs, st.perProc, st'.perProc, st.done, st.completion, a, st.time, end);
    forall i | 0 <= i < |procs| ensures Left(procs, st.pats, i) {
      assert Left(procs, st.pats, i);
    }
  }

  /** A slice of the active process's segment moves CPU time from its partial segment to its intervals. */
  lemma SliceBalance(procs: seq<Process>, pp: seq<seq<(int, int)>>, pp': seq<seq<(int, int)>>, pats: seq<seq<Segment>>,
                     a: nat, rem: int, rem': int, t: int, end: int)
    requires CpuBalance(procs, pp, pats, Some(a), rem) && a < |procs| && pats[a] != []
    requires pp' == pp[a := pp[a] + [(t, end)]] && rem' == rem - (end - t)
    ensures CpuBalance(procs, pp', pats, Some(a), rem')
  {
    SliceTotalAppend(pp[a], (t, end));
    forall i | 0 <= i < |procs| ensures Balanced(procs, pp', pats, Some(a), rem', i) {
      assert Balanced(procs, pp, pats, Some(a), rem, i);
    }
  }

  /** A slice of an unfinished process leaves the intervals of the finished ones alone. */
  lemma SliceFinished(procs: seq<Process>, pp: seq<seq<(int, int)>>, pp': seq<seq<(int, int)>>,
                      done: set<nat>, completion: map<nat, int>, a: nat, t: int, end: int)
    requires Finished(procs, pp, done, completion) && a !in done && a < |pp|
    requires pp' == pp[a := pp[a] + [(t, end)]]
    ensures Finished(procs, pp', done, completion)
  {
  }

  lemma EffortSlice(n: nat, pats: seq<seq<Segment>>, done: set<nat>, a: nat, s: int, s': int)
    requires a < |pats| && pats[a] != []
    ensures Effort(n, pats, done, Some(a), s') == Effort(n, pats, done, Some(a), s) - (s - s')
  {
  }

  /**
   * One run step of the active process: run it up to the next event or the
   * end of its CPU segment, release the unblocks and admit the arrivals due
   * at the new instant, and if the segment is used up, move to what follows.
   */
  method RunActive(procs: seq<Process>, st: State) returns (st': State, ghost mid: State)
    requires Inv(procs, st) && st.active.Some? && st.segRem > 0
    ensures Inv(procs, st') && (st'.active.Some? ==> st'.segRem > 0)
    ensures st'.time > st.time
    ensures Effort(|procs|, st'.pats, st'.done, st'.active, st'.segRem) < Effort(|procs|, st.pats, st.done, st.active, st.segRem)
    ensures st.active.value < |procs| && st.active.value < |st.perProc|
    ensures st'.time == StepEnd(st.time + st.segRem, NextArrival(procs, st.idx), MinAfter(Untils(st.blocked), st.time), st.time)
    ensures Ran(procs, st, mid)
    ensures mid.segRem > 0 ==> st' == mid
    ensures mid.segRem == 0 ==> SegmentEnded(procs, mid, st')
  {
    var a := st.active.value;
    ActiveFacts(procs, st, a);
    var na := NextArrival(procs, st.idx);
    var nu := MinAfter(Untils(st.blocked), st.time);
    var tNext := StepEnd(st.time + st.segRem, na, nu, st.time);
    StepLater(procs, st, na, nu);
    var s := st.(timeline := st.timeline + [ExecSlice(procs[a].name, st.time, tNext)],
                 perProc := st.perProc[a := st.perProc[a] + [(st.time, tNext)]],
                 segRem := st.segRem - (tNext - st.time),
                 time := tNext);
    SliceInv(procs, st, s, a, tNext);
    EffortSlice(|procs|, st.pats, st.done, a, st.segRem, s.segRem);
    var s1 := UnblockReady(procs, s);
    var s2 := EnqueueArrivals(procs, s1);
    mid := s2;
    RanFrom(procs, st, s, s1, s2);
    if s2.segRem == 0 {
      st' := EndSegment(procs, s2);
    } else {
      st' := s2;
    }
  }

  /**
   * The run step up to the events: one CPU slice of the active process from
   * the clock to the new instant, its segment shortened by as much, then the
   * unblocks due by the new instant queued in unblock order and the arrivals
   * due by it admitted; the active process keeps the CPU.
   */
  ghost predicate Ran(procs: seq<Process>, st: State, mid: State)
    requires st.active.Some? && st.active.value < |procs| && st.active.value < |st.perProc|
  {
    var a := st.active.value;
    && st.idx <= mid.idx <= |procs|
    && mid == st.(timeline := st.timeline + [ExecSlice(procs[a].name, st.time, mid.time)],
                  perProc := st.perProc[a := st.perProc[a] + [(st.time, mid.time)]],
                  segRem := st.segRem - (mid.time - st.time),
                  time := mid.time,
                  ready := st.ready + Outside(DueIn(UnblockOrder(st.blocked), st.blocked, mid.time), st.done)
                           + Range(st.idx, mid.idx),
                  blocked := Pending(st.blocked, mid.time),
                  idx := mid.idx)
    && (forall j :: st.idx <= j < mid.idx ==> procs[j].arrival <= mid.time)
    && (mid.idx < |procs| ==> procs[mid.idx].arrival > mid.time)
  }

  lemma RanFrom(procs: seq<Process>, st: State, s: State, s1: State, s2: State)
    requires st.active.Some? && st.active.value < |procs| && st.active.value < |st.perProc|
    requires s == st.(timeline := st.timeline + [ExecSlice(procs[st.active.value].name, st.time, s.time)],
                      perProc := st.perProc[st.active.value := st.perProc[st.active.value] + [(st.time, s.time)]],
                      segRem := st.segRem - (s.time - st.time),
                      time := s.time)
    requires s1 == s.(ready := s.ready + Outside(DueIn(UnblockOrder(s.blocked), s.blocked, s.time), s.done),
                      blocked := Pending(s.blocked, s.time))
    requires s.idx <= s2.idx <= |procs| && s2 == s1.(idx := s2.idx, ready := s1.ready + Range(s1.idx, s2.idx))
    requires forall j :: s1.idx <= j < s2.idx ==> procs[j].arrival <= s1.time
    requires s2.idx < |procs| ==> procs[s2.idx].arrival > s1.time
    ensures Ran(procs, st, s2)
  {
  }

  /** The run step always ends after the clock: the segment has time left, and later events are taken only when later. */
  lemma StepLater(procs: seq<Process>, st: State, na: Option<int>, nu: Option<int>)
    requires st.segRem > 0
    ensures StepEnd(st.time + st.segRem, na, nu, st.time) > st.time
  {
  }

  /**
   * The state after the active process used up its CPU segment: with a BLOCK
   * segment next it is parked until now plus that segment's length, with an
   * I/O slice from now, and frees the CPU; with a CPU segment next it keeps
   * the CPU with that segment loaded and is not queued again; with nothing
   * left it finishes now.
   */
  ghost predicate SegmentEnded(procs: seq<Process>, st: State, st': State)
  {
    && st.active.Some? && st.active.value < |procs| && st.active.value < |st.pats| && st.pats[st.active.value] != []
    && var a := st.active.value;
       var rest := st.pats[a][1..];
       if rest == [] then
         st' == st.(pats := st.pats[a := rest], done := st.done + {a}, completion := st.completion[a := st.time],
                    active := None, segRem := 0)
       else if rest[0].kind == BLOCK then
         st' == st.(timeline := st.timeline + [ExecSlice(BlockLabel(procs[a].name), st.time, st.time + rest[0].duration)],
                    blocked := st.blocked + [Block(a, st.time + rest[0].duration)],
                    pats := st.pats[a := rest[1..]],
                    active := None, segRem := 0)
       else
         st' == st.(pats := st.pats[a := rest], segRem := rest[0].duration)
  }

  /**
   * The active process has used up its CPU segment: drop it, then go to I/O
   * at once if a BLOCK segment follows, load the next CPU segment without
   * giving up the CPU if one follows, or finish now if nothing is left.
   */
  method EndSegment(procs: seq<Process>, st: State) returns (st': State)
    requires Inv(procs, st) && st.active.Some? && st.segRem == 0
    ensures Inv(procs, st') && (st'.active.Some? ==> st'.segRem > 0)
    ensures st'.time == st.time && st'.idx == st.idx && st'.ready == st.ready
    ensures Effort(|procs|, st'.pats, st'.done, st'.active, st'.segRem) < Effort(|procs|, st.pats, st.done, st.active, st.segRem)
    ensures SegmentEnded(procs, st, st')
  {
    var a := st.active.value;
    ActiveFacts(procs, st, a);
    var pats: seq<seq<Segment>> := st.pats[a := st.pats[a][1..]];
    if pats[a] != [] {
      var next: Segment := pats[a][0];
      if next.kind == BLOCK {
        var end := st.time + next.duration;
        st' := st.(timeline := st.timeline + [ExecSlice(BlockLabel(procs[a].name), st.time, end)],
                   blocked := st.blocked + [Block(a, end)],
                   pats := pats[a := pats[a][1..]],
                   active := None, segRem := 0);
        ParkedEnded(procs, st, st', a, pats);
        ParkActiveInv(procs, st, st', a, pats, end);
      } else {
        st' := st.(pats := pats, segRem := next.duration);
        NextCpuInv(procs, st, st', a, pats);
      }
    } else {
      st' := st.(pats := pats, done := st.done + {a}, completion := st.completion[a := st.time],
                 active := None, segRem := 0);
      FinishActiveInv(procs, st, st', a, pats);
    }
  }

  /** Dropping the used CPU segment and then the BLOCK segment after it leaves the rest of the plan. */
  lemma ParkedEnded(procs: seq<Process>, st: State, st': State, a: nat, pats: seq<seq<Segment>>)
    requires st.active == Some(a) && a < |procs| && a < |st.pats| && st.pats[a] != []
    requires pats == st.pats[a := st.pats[a][1..]] && pats[a] != [] && pats[a][0].kind == BLOCK
    requires st' == st.(timeline := st.timeline + [ExecSlice(BlockLabel(procs[a].name), st.time, st.time + pats[a][0].duration)],
                        blocked := st.blocked + [Block(a, st.time + pats[a][0].duration)],
                        pats := pats[a := pats[a][1..]],
                        active := None, segRem := 0)
    ensures SegmentEnded(procs, st, st')
  {
    assert pats[a := pats[a][1..]] == st.pats[a := st.pats[a][1..][1..]];
  }

  /** Facts about the active process at the end of its CPU segment. */
  lemma ActiveFacts(procs: seq<Process>, st: State, a: nat)
    requires Inv(procs, st) && st.active == Some(a)
    ensures a < |procs| && a < st.idx && a !in st.done && procs[a].arrival <= st.time
    ensures Left(procs, st.pats, a) && Balanced(procs, st.perProc, st.pats, st.active, st.segRem, a)
  {
    assert a in OnCpu(st.active);
    assert a in Below(st.idx);
  }

  lemma ParkActiveInv(procs: seq<Process>, st: State, st': State, a: nat, pats: seq<seq<Segment>>, end: int)
    requires Inv(procs, st) && st.active == Some(a) && st.segRem == 0
    requires a < |st.pats| && st.pats[a] != [] && pats == st.pats[a := st.pats[a][1..]]
    requires pats[a] != [] && pats[a][0].kind == BLOCK && end == st.time + pats[a][0].duration
    requires st' == st.(timeline := st.timeline + [ExecSlice(BlockLabel(procs[a].name), st.time, end)],
                        blocked := st.blocked + [Block(a, end)],
                        pats := pats[a := pats[a][1..]],
                        active := None, segRem := 0)
    ensures Inv(procs, st')
    ensures Effort(|procs|, st'.pats, st'.done, st'.active, st'.segRem) < Effort(|procs|, st.pats, st.done, st.active, st.segRem)
  {
    ActiveFacts(procs, st, a);
    ParkActiveKeeps(procs, st, a, pats, end);
    ShapeTail(procs, st.pats, st.perProc, a);
    assert Left(procs, pats, a);
    CostTail(st.pats, a);
    CostTail(pats, a);
  }

  lemma ParkActiveKeeps(procs: seq<Process>, st: State, a: nat, pats: seq<seq<Segment>>, end: int)
    requires Inv(procs, st) && st.active == Some(a) && st.segRem == 0
    requires a < |st.pats| && st.pats[a] != [] && pats == st.pats[a := st.pats[a][1..]]
    requires pats[a] != [] && pats[a][0].kind == BLOCK && end == st.time + pats[a][0].duration
    ensures Inv(procs, st.(timeline := st.timeline + [ExecSlice(BlockLabel(procs[a].name), st.time, end)],
                           blocked := st.blocked + [Block(a, end)],
                           pats := pats[a := pats[a][1..]],
                           active := None, segRem := 0))
  {
    var pats' := pats[a := pats[a][1..]];
    ActiveFacts(procs, st, a);
    ShapeTail(procs, st.pats, st.perProc, a);
    ShapeTail(procs, pats, st.perProc, a);
    assert Left(procs, pats, a);
    ParkActivePlaces(st.ready, st.blocked, st.done, a, st.idx, st.completion, end);
    SuffixBlockLength(pats[a], EffectivePattern(procs[a]));
    AddBlockSlice(procs, st.perProc, st.timeline, a, st.time, end);
    ParkActiveBalance(procs, st, a, pats);
  }

  /** Parking the active process after its used-up CPU segment keeps every process's CPU balance. */
  lemma ParkActiveBalance(procs: seq<Process>, st: State, a: nat, pats: seq<seq<Segment>>)
    requires CpuBalance(procs, st.perProc, st.pats, st.active, st.segRem) && st.active == Some(a) && st.segRem == 0
    requires Running(st.pats, st.done, st.active, st.segRem)
    requires a < |st.pats| && st.pats[a] != [] && pats == st.pats[a := st.pats[a][1..]]
    requires pats[a] != [] && pats[a][0].kind == BLOCK
    ensures CpuBalance(procs, st.perProc, pats[a := pats[a][1..]], None, 0)
  {
    var pats' := pats[a := pats[a][1..]];
    assert CpuTotal(pats'[a]) == CpuTotal(st.pats[a]) - st.pats[a][0].duration;
    forall i | 0 <= i < |procs| ensures Balanced(procs, st.perProc, pats', None, 0, i) {
      assert Balanced(procs, st.perProc, st.pats, st.active, st.segRem, i);
    }
  }

  lemma NextCpuInv(procs: seq<Process>, st: State, st': State, a: nat, pats: seq<seq<Segment>>)
    requires Inv(procs, st) && st.active == Some(a) && st.segRem == 0
    requires a < |st.pats| && st.pats[a] != [] && pats == st.pats[a := st.pats[a][1..]]
    requires pats[a] != [] && pats[a][0].kind == CPU
    requires st' == st.(pats := pats, segRem := pats[a][0].duration)
    ensures Inv(procs, st') && st'.segRem > 0
    ensures Effort(|procs|, st'.pats, st'.done, st'.active, st'.segRem) < Effort(|procs|, st.pats, st.done, st.active, st.segRem)
  {
    NextCpuKeeps(procs, st, a, pats);
    CostTail(st.pats, a);
  }

  lemma NextCpuKeeps(procs: seq<Process>, st: State, a: nat, pats: seq<seq<Segment>>)
    requires Inv(procs, st) && st.active == Some(a) && st.segRem == 0
    requires a < |st.pats| && st.pats[a] != [] && pats == st.pats[a := st.pats[a][1..]]
    requires pats[a] != [] && pats[a][0].kind == CPU
    ensures Inv(procs, st.(pats := pats, segRem := pats[a][0].duration)) && pats[a][0].duration > 0
  {
    ActiveFacts(procs, st, a);
    ShapeTail(procs, st.pats, st.perProc, a);
    assert Left(procs, pats, a);
    assert CpuTotal(pats[a]) == CpuTotal(st.pats[a]) - st.pats[a][0].duration;
    forall i | 0 <= i < |procs| ensures Balanced(procs, st.perProc, pats, Some(a), pats[a][0].duration, i) {
      assert Balanced(procs, st.perProc, st.pats, st.active, st.segRem, i);
    }
  }

  lemma FinishActiveInv(procs: seq<Process>, st: State, st': State, a: nat, pats: seq<seq<Segment>>)
    requires Inv(procs, st) && st.active == Some(a) && st.segRem == 0
    requires a < |st.pats| && st.pats[a] != [] && pats == st.pats[a := st.pats[a][1..]] && pats[a] == []
    requires st' == st.(pats := pats, done := st.done + {a}, completion := st.completion[a := st.time],
                        active := None, segRem := 0)
    ensures Inv(procs, st')
    ensures Effort(|procs|, st'.pats, st'.done, st'.active, st'.segRem) < Effort(|procs|, st.pats, st.done, st.active, st.segRem)
  {
    ActiveFacts(procs, st, a);
    ShapeTail(procs, st.pats, st.perProc, a);
    FinishActivePlaces(st.ready, st.blocked, st.done, a, st.idx, st.completion, st.time);
    FinishedAdd(procs, st.perProc, st.done, st.completion, a, st.time);
    forall i | 0 <= i < |procs| ensures Balanced(procs, st.perProc, pats, None, 0, i) {
      assert Balanced(procs, st.perProc, st.pats, st.active, st.segRem, i);
    }
    CostTail(st.pats, a);
  }

  // ---------------------------------------------------------------------------
  // The engine.

  /**
   * The state before the first admission: clock at 0, nothing run, and each
   * working pattern a fresh copy of the process's plan, so that the caller's
   * patterns are never consumed.
   */
  function Start(procs: seq<Process>): State
  {
    State(0, [], seq(|procs|, _ => []), map[], seq(|procs|, i requires 0 <= i < |procs| => EffectivePattern(procs[i])),
          [], [], {}, 0, None, 0)
  }

  lemma StartInv(procs: seq<Process>)
    requires ValidInput(procs)
    ensures Inv(procs, Start(procs))
  {
    var st := Start(procs);
    forall i | 0 <= i < |procs| ensures Left(procs, st.pats, i) {
      assert st.pats[i] == EffectivePattern(procs[i]);
    }
    forall i | 0 <= i < |procs| ensures Balanced(procs, st.perProc, st.pats, st.active, st.segRem, i) {
      assert st.perProc[i] == [];
    }
    assert Elems([]) == {} && Parked([]) == {} && Below(0) == {};
  }

  /** Once every process is done, nobody is on the CPU and each process got exactly the CPU time of its plan. */
  lemma AllDone(procs: seq<Process>, st: State)
    requires Inv(procs, st) && |st.done| >= |procs|
    ensures st.active.None?
    ensures forall i :: 0 <= i < |procs| ==> i in st.done && i in st.completion
    ensures forall i :: 0 <= i < |procs| ==>
      && procs[i].arrival <= st.completion[i]
      && forall k :: 0 <= k < |st.perProc[i]| ==> st.perProc[i][k].1 <= st.completion[i]
  {
    assert st.done + OnCpu(st.active) <= Below(st.idx) && st.done !! OnCpu(st.active);
    EveryoneDone(|procs|, st.done, st.active, st.idx);
    assert Finished(procs, st.perProc, st.done, st.completion);
  }

  /** Once `n` processes are finished, all of them are, and none is on the CPU. */
  lemma EveryoneDone(n: nat, done: set<nat>, active: Option<nat>, idx: nat)
    requires done + OnCpu(active) <= Below(idx) && done !! OnCpu(active) && idx <= n && |done| >= n
    ensures active.None? && forall i :: 0 <= i < n ==> i in done
  {
    assert forall x :: x in done ==> x < n;
    BoundedCard(done, n);
    assert Below(idx) <= done;
    assert OnCpu(active) == {};
  }

  /** Once every process is done, each got exactly the CPU time of its plan. */
  lemma AllServed(procs: seq<Process>, st: State)
    requires Inv(procs, st) && st.active.None? && forall i :: 0 <= i < |procs| ==> i in st.done
    ensures forall i :: 0 <= i < |procs| ==> SliceTotal(st.perProc[i]) == CpuTotal(EffectivePattern(procs[i]))
  {
    forall i | 0 <= i < |procs| ensures SliceTotal(st.perProc[i]) == CpuTotal(EffectivePattern(procs[i])) {
      assert i in st.done && Balanced(procs, st.perProc, st.pats, st.active, st.segRem, i);
    }
  }

  /**
   * FIFO scheduling of `procs`: run the engine until every process is done,
   * then report the timeline, the CPU intervals of each process, and its
   * turnaround (completion minus arrival) and waiting (turnaround minus its
   * CPU and BLOCK time), neither of them floored.
   */
  method Schedule(procs: seq<Process>) returns (r: ScheduleResult)
    requires ValidInput(procs)
    ensures CpuServed(procs, r) && OneCpu(procs, r) && Labelled(procs, r)
    ensures r.turnaround.Keys == Names(procs) && r.waiting.Keys == Names(procs)
    ensures Waited(procs, r.turnaround, r.waiting, false)
    ensures forall i :: 0 <= i < |procs| ==>
      && r.turnaround[procs[i].name] >= 0
      && forall k :: 0 <= k < |r.perProcessSlices[procs[i].name]| ==>
           r.perProcessSlices[procs[i].name][k].1 <= procs[i].arrival + r.turnaround[procs[i].name]
    ensures r.avgTurnaround == Some(Average(SumOver(procs, r.turnaround), Max1(|procs|)))
    ensures r.avgWaiting == Some(Average(SumOver(procs, r.waiting), Max1(|procs|)))
    ensures Outcome(procs, r)
  {
    var st := Run(procs);
    r := Report(procs, st.perProc, st.timeline, Finish(procs, st.completion), st.time);
  }

  /**
   * Everything a result of this engine promises: the trace, the metrics keyed
   * by name, turnaround bounding every CPU interval, and the averages.
   */
  ghost predicate Outcome(procs: seq<Process>, r: ScheduleResult)
  {
    && CpuServed(procs, r) && OneCpu(procs, r) && Labelled(procs, r)
    && r.turnaround.Keys == Names(procs) && r.waiting.Keys == Names(procs)
    && Waited(procs, r.turnaround, r.waiting, false)
    && (forall i :: 0 <= i < |procs| ==>
          && r.turnaround[procs[i].name] >= 0
          && forall k :: 0 <= k < |r.perProcessSlices[procs[i].name]| ==>
               r.perProcessSlices[procs[i].name][k].1 <= procs[i].arrival + r.turnaround[procs[i].name])
    && r.avgTurnaround == Some(Average(SumOver(procs, r.turnaround), Max1(|procs|)))
    && r.avgWaiting == Some(Average(SumOver(procs, r.waiting), Max1(|procs|)))
  }

  /** The engine's main loop, from the start state until every process is done. */
  method Run(procs: seq<Process>) returns (st: State)
    requires ValidInput(procs)
    ensures forall i :: 0 <= i < |procs| ==> i in st.completion
    ensures Final(procs, st.perProc, st.timeline, Finish(procs, st.completion), st.time)
  {
    st := Start(procs);
    StartInv(procs);
    st := EnqueueArrivals(procs, st);
    while |st.done| < |procs|
      invariant Inv(procs, st) && (st.active.Some? ==> st.segRem > 0)
      decreases Effort(|procs|, st.pats, st.done, st.active, st.segRem), Future(procs, st.idx, st.blocked, st.time)
    {
      EffortBound(procs, st);
      var stop;
      ghost var s, d, mid;
      st, stop, s, d, mid := Step(procs, st);
      if stop {
        break;
      }
    }
    FinalState(procs, st);
  }

  /**
   * One pass of the main loop: the unblocks due now are queued before the
   * arrivals due now, then the CPU acts.
   */
  method Step(procs: seq<Process>, st: State) returns (st': State, stop: bool, ghost s: State, ghost d: State, ghost mid: State)
    requires Inv(procs, st) && (st.active.Some? ==> st.segRem > 0)
    ensures Inv(procs, st') && (st'.active.Some? ==> st'.segRem > 0)
    ensures stop ==> |st'.done| == |procs|
    ensures !stop ==>
      || Effort(|procs|, st'.pats, st'.done, st'.active, st'.segRem) < Effort(|procs|, st.pats, st.done, st.active, st.segRem)
      || (&& Effort(|procs|, st'.pats, st'.done, st'.active, st'.segRem) == Effort(|procs|, st.pats, st.done, st.active, st.segRem)
          && Future(procs, st'.idx, st'.blocked, st'.time) < Future(procs, st.idx, st.blocked, st.time))
    ensures Gathered(procs, st, s) && Acted(procs, s, d, mid, st', stop)
  {
    var s1 := UnblockReady(procs, st);
    var s2 := EnqueueArrivals(procs, s1);
    s := s2;
    st', stop, d, mid := Act(procs, s2);
  }

  /** The unblocks due now, in unblock-instant order, are queued ahead of the arrivals due now. */
  ghost predicate Gathered(procs: seq<Process>, st: State, s: State)
  {
    var s1 := st.(ready := st.ready + Outside(DueIn(UnblockOrder(st.blocked), st.blocked, st.time), st.done),
                  blocked := Pending(st.blocked, st.time));
    && s1.idx <= s.idx <= |procs|
    && s == s1.(idx := s.idx, ready := s1.ready + Range(s1.idx, s.idx))
    && (forall j :: s1.idx <= j < s.idx ==> procs[j].arrival <= st.time)
    && (s.idx < |procs| ==> procs[s.idx].arrival > st.time)
  }

  /**
   * An idle CPU takes the head of the ready queue; with nothing ready the
   * clock jumps to the next arrival or unblock, and with none left the loop
   * stops; a busy CPU runs one step.
   */
  method Act(procs: seq<Process>, st: State) returns (st': State, stop: bool, ghost d: State, ghost mid: State)
    requires Inv(procs, st) && (st.active.Some? ==> st.segRem > 0)
    requires forall k :: 0 <= k < |st.blocked| ==> st.blocked[k].until > st.time
    requires st.idx < |procs| ==> procs[st.idx].arrival > st.time
    ensures Inv(procs, st') && (st'.active.Some? ==> st'.segRem > 0)
    ensures stop ==> |st'.done| == |procs|
    ensures !stop ==>
      || Effort(|procs|, st'.pats, st'.done, st'.active, st'.segRem) < Effort(|procs|, st.pats, st.done, st.active, st.segRem)
      || (&& Effort(|procs|, st'.pats, st'.done, st'.active, st'.segRem) == Effort(|procs|, st.pats, st.done, st.active, st.segRem)
          && Future(procs, st'.idx, st'.blocked, st'.time) < Future(procs, st.idx, st.blocked, st.time))
    ensures Acted(procs, st, d, mid, st', stop)
  {
    d, mid := st, st;
    if st.active.Some? {
      st', mid := RunActive(procs, st);
      assert Worked(procs, st, mid, st');
      return st', false, d, mid;
    }
    if st.ready == [] {
      st', stop := Idle(procs, st);
      return;
    }
    st', d, mid := Take(procs, st);
    stop := false;
  }

  /** An idle CPU with a ready process dispatches the head and, if that loaded a CPU segment, works one step. */
  method Take(procs: seq<Process>, st: State) returns (st': State, ghost d: State, ghost mid: State)
    requires Inv(procs, st) && st.active.None? && st.ready != []
    ensures Inv(procs, st') && (st'.active.Some? ==> st'.segRem > 0)
    ensures Effort(|procs|, st'.pats, st'.done, st'.active, st'.segRem) < Effort(|procs|, st.pats, st.done, st.active, st.segRem)
    ensures st.ready[0] < |procs| && st.ready[0] < |st.pats| && Dispatched(procs, st, d)
    ensures d.active.Some? ==> Worked(procs, d, mid, st')
    ensures d.active.None? ==> st' == d
  {
    var running;
    st', running := Dispatch(procs, st);
    d, mid := st', st';
    if running {
      st', mid := RunActive(procs, st');
      assert Worked(procs, d, mid, st');
    }
  }

  /** One step of the active process: a slice up to `StepEnd`, then the end of its segment if that used it up. */
  ghost predicate Worked(procs: seq<Process>, st: State, mid: State, st': State)
  {
    && st.active.Some? && st.active.value < |procs| && st.active.value < |st.perProc|
    && st'.time == StepEnd(st.time + st.segRem, NextArrival(procs, st.idx), MinAfter(Untils(st.blocked), st.time), st.time)
    && Ran(procs, st, mid)
    && (mid.segRem > 0 ==> st' == mid)
    && (mid.segRem == 0 ==> SegmentEnded(procs, mid, st'))
  }

  /**
   * What the CPU does in one pass: a busy CPU works one step; an idle one with
   * nothing ready stops exactly when no arrival or unblock is left and
   * otherwise only jumps the clock; an idle one with a ready process
   * dispatches the head and, if that loaded a CPU segment, works one step.
   */
  ghost predicate Acted(procs: seq<Process>, st: State, d: State, mid: State, st': State, stop: bool)
  {
    if st.active.Some? then
      !stop && Worked(procs, st, mid, st')
    else if st.ready == [] then
      var na, nu := NextArrival(procs, st.idx), MinAfter(Untils(st.blocked), st.time);
      && (stop <==> na.None? && nu.None?)
      && (stop ==> st' == st)
      && (!stop ==> st' == st.(time := JumpTo(na, nu)))
    else
      && !stop && st.ready[0] < |procs| && st.ready[0] < |st.pats| && Dispatched(procs, st, d)
      && (d.active.Some? ==> Worked(procs, d, mid, st'))
      && (d.active.None? ==> st' == d)
  }

  /** Nothing is ready and the CPU is free: jump to the next event, or stop when there is none. */
  method Idle(procs: seq<Process>, st: State) returns (st': State, stop: bool)
    requires Inv(procs, st) && st.active.None? && st.ready == []
    requires forall k :: 0 <= k < |st.blocked| ==> st.blocked[k].until > st.time
    requires st.idx < |procs| ==> procs[st.idx].arrival > st.time
    ensures Inv(procs, st') && st'.active.None?
    ensures stop ==> |st'.done| == |procs|
    ensures stop <==> NextArrival(procs, st.idx).None? && MinAfter(Untils(st.blocked), st.time).None?
    ensures stop ==> st' == st
    ensures !stop ==>
      && st' == st.(time := st'.time) && st'.time > st.time
      && (NextArrival(procs, st.idx).Some? || MinAfter(Untils(st.blocked), st.time).Some?)
      && st'.time == JumpTo(NextArrival(procs, st.idx), MinAfter(Untils(st.blocked), st.time))
      && Future(procs, st'.idx, st'.blocked, st'.time) < Future(procs, st.idx, st.blocked, st.time)
  {
    var na := NextArrival(procs, st.idx);
    var nu := MinAfter(Untils(st.blocked), st.time);
    if na.None? && nu.None? {
      NoneBlocked(st.blocked, st.time);
      Drained(procs, st);
      return st, true;
    }
    JumpPasses(procs, st.idx, st.blocked, st.time, na, nu);
    JumpInv(procs, st, JumpTo(na, nu));
    return st.(time := JumpTo(na, nu)), false;
  }

  /**
   * What the end of the main loop leaves behind: one CPU, labelled slices,
   * each process served the CPU time of its plan, and a completion instant for
   * each process, no earlier than its arrival and the end of its CPU intervals.
   */
  ghost predicate Final(procs: seq<Process>, perProc: seq<seq<(int, int)>>, timeline: seq<ExecSlice>,
                        finish: seq<int>, time: int)
  {
    && |perProc| == |procs| && |finish| == |procs|
    && IntervalsOk(procs, perProc, time) && TimelineOk(procs, perProc, timeline)
    && (forall i :: 0 <= i < |procs| ==> SliceTotal(perProc[i]) == CpuTotal(EffectivePattern(procs[i])))
    && (forall i :: 0 <= i < |procs| ==>
          && procs[i].arrival <= finish[i]
          && forall k :: 0 <= k < |perProc[i]| ==> perProc[i][k].1 <= finish[i])
  }

  lemma FinalState(procs: seq<Process>, st: State)
    requires Inv(procs, st) && |st.done| >= |procs|
    ensures forall i :: 0 <= i < |procs| ==> i in st.completion
    ensures Final(procs, st.perProc, st.timeline, Finish(procs, st.completion), st.time)
  {
    AllDone(procs, st);
    AllServed(procs, st);
  }

  /** The metrics block: unfloored turnaround and waiting per process, and their averages. */
  method Report(procs: seq<Process>, perProc: seq<seq<(int, int)>>, timeline: seq<ExecSlice>,
                finish: seq<int>, time: int) returns (r: ScheduleResult)
    requires UniqueNames(procs) && Final(procs, perProc, timeline, finish, time)
    ensures CpuServed(procs, r) && OneCpu(procs, r) && Labelled(procs, r)
    ensures r.turnaround.Keys == Names(procs) && r.waiting.Keys == Names(procs)
    ensures forall i :: 0 <= i < |procs| ==> r.turnaround[procs[i].name] == finish[i] - procs[i].arrival
    ensures Waited(procs, r.turnaround, r.waiting, false)
    ensures forall i :: 0 <= i < |procs| ==>
      && r.turnaround[procs[i].name] >= 0
      && forall k :: 0 <= k < |r.perProcessSlices[procs[i].name]| ==>
           r.perProcessSlices[procs[i].name][k].1 <= procs[i].arrival + r.turnaround[procs[i].name]
    ensures r.avgTurnaround == Some(Average(SumOver(procs, r.turnaround), Max1(|procs|)))
    ensures r.avgWaiting == Some(Average(SumOver(procs, r.waiting), Max1(|procs|)))
  {
    var turnaround, waiting, avgTurnaround, avgWaiting := PlanMetrics(procs, finish, false);
    r := ScheduleResult(timeline, ByName(procs, perProc), turnaround, waiting, Some(avgTurnaround), Some(avgWaiting));
    assert r.waiting == waiting && r.turnaround == turnaround;
    Publish(procs, perProc, time, timeline, r);
  }

  /** The completion instant of every process, in input order. */
  function Finish(procs: seq<Process>, completion: map<nat, int>): (f: seq<int>)
    requires forall i :: 0 <= i < |procs| ==> i in completion
    ensures |f| == |procs| && forall i :: 0 <= i < |procs| ==> f[i] == completion[i]
  {
    seq(|procs|, i requires 0 <= i < |procs| => completion[i])
  }
}
