/**
 * The SJF engine: non-preemptive shortest job first, one pattern segment at a
 * time. Whenever the CPU is free it takes, among the ready processes, the one
 * with the least CPU time left in its plan (the first such in queue order) and
 * consumes its next segment: a CPU segment is run whole, a BLOCK segment parks
 * the process until its end without advancing the clock. A process that comes
 * back from a CPU segment with more CPU next competes again from the back of
 * the ready queue.
 */
module Sjf {
  import opened Models
  import opened Ledger
  import opened Metrics
  import opened Trace
  import opened Progress

  /**
   * The engine's variables between two steps of its main loop. Processes are
   * named by their index in the input list; `cursor[i]` is the index of
   * process `i`'s next segment in its plan (plans are never consumed),
   * `lastEnd[i]` the end of the last segment it ran or started to block in.
   */
  datatype State = State(
    time: int,
    timeline: seq<ExecSlice>,
    perProc: seq<seq<(int, int)>>,
    completion: map<nat, int>,
    cursor: seq<nat>,
    ready: seq<nat>,
    blocked: seq<Block>,
    lastEnd: seq<int>,
    done: set<nat>)

  /** The CPU durations of a pattern, in order. */
  function CpuBursts(pat: seq<Segment>): seq<int>
  {
    if pat == [] then []
    else CpuBursts(pat[..|pat| - 1]) + (if pat[|pat| - 1].kind == CPU then [pat[|pat| - 1].duration] else [])
  }

  /** The lengths of a list of (start, end) intervals, in order. */
  function Lengths(iv: seq<(int, int)>): seq<int>
  {
    if iv == [] then [] else Lengths(iv[..|iv| - 1]) + [iv[|iv| - 1].1 - iv[|iv| - 1].0]
  }

  lemma CpuBurstsSnoc(pat: seq<Segment>, x: Segment)
    ensures CpuBursts(pat + [x]) == CpuBursts(pat) + (if x.kind == CPU then [x.duration] else [])
  {
    assert (pat + [x])[..|pat|] == pat;
  }

  lemma LengthsSnoc(iv: seq<(int, int)>, x: (int, int))
    ensures Lengths(iv + [x]) == Lengths(iv) + [x.1 - x.0]
  {
    assert (iv + [x])[..|iv|] == iv;
  }

  /** The CPU time left in process `i`'s plan from its cursor on (none once the cursor is past the end). */
  function Remaining(procs: seq<Process>, cursor: seq<nat>, i: nat): int
    requires i < |procs| && i < |cursor|
  {
    var plan := EffectivePattern(procs[i]);
    if cursor[i] <= |plan| then CpuTotal(plan[cursor[i]..]) else 0
  }

  /**
   * The position of the smallest key, the first one among equals: the choice
   * of a minimum over a list by key.
   */
  function FirstMin(keys: seq<int>): (k: nat)
    requires keys != []
    ensures k < |keys|
    ensures forall j :: 0 <= j < |keys| ==> keys[k] <= keys[j]
    ensures forall j :: 0 <= j < k ==> keys[k] < keys[j]
  {
    if |keys| == 1 then 0
    else
      var k := FirstMin(keys[..|keys| - 1]);
      if keys[|keys| - 1] < keys[k] then |keys| - 1 else k
  }

  /** The ready processes' CPU time left, in queue order. */
  function Keys(procs: seq<Process>, st: State): (keys: seq<int>)
    requires |st.cursor| == |procs| && forall k :: 0 <= k < |st.ready| ==> st.ready[k] < |procs|
    ensures |keys| == |st.ready|
    ensures forall k :: 0 <= k < |st.ready| ==> keys[k] == Remaining(procs, st.cursor, st.ready[k])
  {
    seq(|st.ready|, k requires 0 <= k < |st.ready| => Remaining(procs, st.cursor, st.ready[k]))
  }

  // ---------------------------------------------------------------------------
  // The loop invariant. `held` is the process taken off the ready queue and not
  // yet put anywhere else.

  /**
   * Process `i`'s cursor lies within its plan, its CPU intervals are exactly
   * the CPU segments before the cursor, one interval per segment, and its last
   * end is no earlier than its arrival and than each of its intervals.
   */
  ghost predicate Track(procs: seq<Process>, st: State, i: int)
  {
    && 0 <= i < |procs| && i < |st.cursor| && i < |st.perProc| && i < |st.lastEnd|
    && st.cursor[i] <= |EffectivePattern(procs[i])|
    && SliceTotal(st.perProc[i]) == CpuTotal(EffectivePattern(procs[i])[..st.cursor[i]])
    && Lengths(st.perProc[i]) == CpuBursts(EffectivePattern(procs[i])[..st.cursor[i]])
    && procs[i].arrival <= st.lastEnd[i]
    && forall k :: 0 <= k < |st.perProc[i]| ==> st.perProc[i][k].1 <= st.lastEnd[i]
  }

  /**
   * The ready queue, the blocked table and the process in hand hold distinct
   * processes; no finished process is ready or in hand (a finished process may
   * still sit in the blocked table); exactly the finished ones have a
   * completion instant.
   */
  ghost predicate Places(n: nat, st: State, held: Option<nat>)
  {
    && NoDup(st.ready) && DistinctProcs(st.blocked)
    && Elems(st.ready) !! Parked(st.blocked) && Elems(st.ready) !! st.done
    && InHand(held) !! Elems(st.ready) && InHand(held) !! Parked(st.blocked) && InHand(held) !! st.done
    && Elems(st.ready) + Parked(st.blocked) + st.done + InHand(held) <= Below(n)
    && st.completion.Keys == st.done
  }

  /** Process `i` is finished, ready, blocked, in hand, or has not started. */
  ghost predicate Accounted(st: State, held: Option<nat>, i: nat)
  {
    || i in st.done || i in Elems(st.ready) || i in Parked(st.blocked) || held == Some(i)
    || (i < |st.cursor| && st.cursor[i] == 0)
  }

  /** A finished process has used up its plan and completed at its last end. */
  ghost predicate Closed(procs: seq<Process>, st: State)
  {
    forall d :: d in st.done ==>
      && d < |procs| && d < |st.cursor| && d < |st.lastEnd|
      && st.cursor[d] == |EffectivePattern(procs[d])|
      && d in st.completion && st.completion[d] == st.lastEnd[d]
  }

  /** Every ready, blocked or in-hand process has arrived. */
  ghost predicate Arrived(procs: seq<Process>, st: State, held: Option<nat>)
  {
    forall i :: 0 <= i < |procs| && (i in Elems(st.ready) || i in Parked(st.blocked) || held == Some(i)) ==>
      procs[i].arrival <= st.time
  }

  ghost predicate Inv(procs: seq<Process>, st: State, held: Option<nat>)
  {
    && ValidInput(procs)
    && |st.cursor| == |procs| && |st.perProc| == |procs| && |st.lastEnd| == |procs|
    && (forall i :: 0 <= i < |procs| ==> Track(procs, st, i))
    && Places(|procs|, st, held)
    && (forall i: nat :: i < |procs| ==> Accounted(st, held, i))
    && Closed(procs, st)
    && Arrived(procs, st, held)
    && IntervalsOk(procs, st.perProc, st.time)
    && TimelineOk(procs, st.perProc, st.timeline)
  }

  // ---------------------------------------------------------------------------
  // Termination: every step consumes a segment or finishes a process, except a
  // clock jump, which instead passes one of the future events.

  /** The segments not yet consumed by the processes below `j`. */
  function Todo(procs: seq<Process>, cursor: seq<nat>, j: nat): int
    requires j <= |procs| && j <= |cursor|
  {
    if j == 0 then 0 else Todo(procs, cursor, j - 1) + |EffectivePattern(procs[j - 1])| - cursor[j - 1]
  }

  lemma {:induction false} TodoUpdate(procs: seq<Process>, cursor: seq<nat>, j: nat, a: nat, v: nat)
    requires j <= |procs| && j <= |cursor| && a < |cursor|
    ensures Todo(procs, cursor[a := v], j) == Todo(procs, cursor, j) - (if a < j then v - cursor[a] else 0)
  {
    if j > 0 {
      TodoUpdate(procs, cursor, j - 1, a, v);
    }
  }

  lemma {:induction false} TodoBound(procs: seq<Process>, cursor: seq<nat>, j: nat)
    requires j <= |procs| && j <= |cursor|
    requires forall i :: 0 <= i < j ==> cursor[i] <= |EffectivePattern(procs[i])|
    ensures Todo(procs, cursor, j) >= 0
  {
    if j > 0 {
      TodoBound(procs, cursor, j - 1);
    }
  }

  function Effort(procs: seq<Process>, st: State): int
    requires |st.cursor| == |procs|
  {
    Todo(procs, st.cursor, |procs|) + (|procs| - |st.done|)
  }

  lemma EffortBound(procs: seq<Process>, st: State)
    requires Inv(procs, st, None)
    ensures Effort(procs, st) >= 0
  {
    BoundedCard(st.done, |procs|);
    forall i | 0 <= i < |procs| ensures st.cursor[i] <= |EffectivePattern(procs[i])| {
      assert Track(procs, st, i);
    }
    TodoBound(procs, st.cursor, |procs|);
  }

  /** The next instant after now at which an unstarted process arrives or a blocked one unblocks. */
  function NextEvent(procs: seq<Process>, st: State): Option<int>
    requires |st.cursor| == |procs|
  {
    MinAfter(Unstarted(procs, st.cursor, st.done, |procs|) + Untils(st.blocked), st.time)
  }

  /** How many of those events lie after now. */
  function Future(procs: seq<Process>, st: State): nat
    requires |st.cursor| == |procs|
  {
    CountAfter(Unstarted(procs, st.cursor, st.done, |procs|), st.time) + BlockedAfter(st.blocked, st.time)
  }

  // ---------------------------------------------------------------------------
  // Admissions and unblocks.

  /** Process `i` has arrived, not started, and is neither finished nor blocked. */
  ghost predicate Waiting(procs: seq<Process>, st: State, i: nat)
    requires i < |procs| && |st.cursor| == |procs|
  {
    st.cursor[i] == 0 && i !in st.done && i !in Parked(st.blocked) && procs[i].arrival <= st.time
  }

  /** The processes below `j` that join the ready queue on admission, in input order. */
  ghost function Joining(procs: seq<Process>, st: State, j: nat): (r: seq<nat>)
    requires j <= |procs| && |st.cursor| == |procs|
    ensures forall x :: x in r ==> x < j
  {
    if j == 0 then []
    else Joining(procs, st, j - 1) + (if Waiting(procs, st, j - 1) && j - 1 !in st.ready then [j - 1] else [])
  }

  /** Every waiting process is ready. */
  ghost predicate Admitted(procs: seq<Process>, st: State)
    requires |st.cursor| == |procs|
  {
    forall i :: 0 <= i < |procs| && Waiting(procs, st, i) ==> i in st.ready
  }

  /**
   * Walk the whole input list and queue, in input order, every process that
   * has arrived by now and has not started, unless it is finished, blocked or
   * already queued.
   */
  method Admit(procs: seq<Process>, st: State) returns (st': State)
    requires |st.cursor| == |procs|
    ensures st' == st.(ready := st.ready + Joining(procs, st, |procs|))
    ensures Admitted(procs, st')
  {
    var ready := st.ready;
    for i := 0 to |procs|
      invariant ready == st.ready + Joining(procs, st, i)
    {
      if i in st.done {
        continue;
      }
      if i in Parked(st.blocked) {
        continue;
      }
      if st.cursor[i] == 0 && procs[i].arrival <= st.time && i !in ready {
        ready := ready + [i];
      }
    }
    st' := st.(ready := ready);
    forall j | 0 <= j < |procs| && Waiting(procs, st', j) ensures j in st'.ready {
      if j !in st.ready {
        JoiningHas(procs, st, |procs|, j);
      }
    }
  }

  /** Every waiting process below `i` that is not already ready joins. */
  lemma {:induction false} JoiningHas(procs: seq<Process>, st: State, i: nat, j: nat)
    requires j < i <= |procs| && |st.cursor| == |procs|
    requires Waiting(procs, st, j) && j !in st.ready
    ensures j in Joining(procs, st, i)
  {
    if j < i - 1 {
      JoiningHas(procs, st, i - 1, j);
    }
  }

  lemma AdmitInv(procs: seq<Process>, st: State, st': State)
    requires Inv(procs, st, None)
    requires st' == st.(ready := st.ready + Joining(procs, st, |procs|))
    ensures Inv(procs, st', None)
  {
    var add := Joining(procs, st, |procs|);
    JoiningFacts(procs, st, |procs|);
    Extend(st.ready, add);
    assert Places(|procs|, st', None);
    forall i: nat | i < |procs| ensures Accounted(st', None, i) {
      assert Accounted(st, None, i);
    }
    assert Arrived(procs, st', None) by {
      forall i | 0 <= i < |procs| && i in Elems(st'.ready) ensures procs[i].arrival <= st'.time {
        if i !in Elems(st.ready) {
          assert Waiting(procs, st, i);
        }
      }
    }
    Regroup(procs, st, st', None, None);
  }

  lemma {:induction false} JoiningFacts(procs: seq<Process>, st: State, j: nat)
    requires j <= |procs| && |st.cursor| == |procs|
    ensures NoDup(Joining(procs, st, j))
    ensures forall x :: x in Joining(procs, st, j) ==> x < |procs| && Waiting(procs, st, x) && x !in st.ready
  {
    if j > 0 {
      JoiningFacts(procs, st, j - 1);
      var r := Joining(procs, st, j - 1);
      if Waiting(procs, st, j - 1) && j - 1 !in st.ready {
        assert j - 1 !in Elems(r);
        Extend(r, [j - 1]);
      }
    }
  }

  /** A change of the ready queue and the blocked table keeps the invariant once places, accounting and arrivals are shown. */
  lemma Regroup(procs: seq<Process>, st: State, st': State, held: Option<nat>, held': Option<nat>)
    requires Inv(procs, st, held) && st' == st.(ready := st'.ready, blocked := st'.blocked)
    requires Places(|procs|, st', held') && (forall i: nat :: i < |procs| ==> Accounted(st', held', i))
    requires Arrived(procs, st', held')
    ensures Inv(procs, st', held')
  {
    forall i | 0 <= i < |procs| ensures Track(procs, st', i) {
      assert Track(procs, st, i);
    }
  }

  /**
   * Release every blocked process whose unblock instant is now or earlier, in
   * order of unblock instant, onto the back of the ready queue unless it is
   * finished.
   */
  method Release(procs: seq<Process>, st: State) returns (st': State)
    requires NoDup(Procs(st.blocked)) && Elems(st.ready) !! Parked(st.blocked)
    ensures st' == st.(ready := st.ready + Outside(DueIn(UnblockOrder(st.blocked), st.blocked, st.time), st.done),
                       blocked := Pending(st.blocked, st.time))
    ensures forall k :: 0 <= k < |st'.blocked| ==> st'.blocked[k].until > st.time
  {
    assert forall k :: 0 <= k < |st.blocked| ==> st.blocked[k].proc in Parked(st.blocked);
    var ready, blocked := ReleaseDue(st.ready, st.blocked, st.done, st.time);
    st' := st.(ready := ready, blocked := blocked);
    PendingMembers(st.blocked, st.time);
  }

  lemma ReleaseInv(procs: seq<Process>, st: State, st': State)
    requires Inv(procs, st, None)
    requires st' == st.(ready := st.ready + Outside(DueIn(UnblockOrder(st.blocked), st.blocked, st.time), st.done),
                        blocked := Pending(st.blocked, st.time))
    ensures Inv(procs, st', None)
  {
    ReleasePlaces(|procs|, st, st');
    forall i: nat | i < |procs| ensures Accounted(st', None, i) {
      assert Accounted(st, None, i);
    }
    assert Arrived(procs, st', None) by {
      assert Arrived(procs, st, None);
    }
    Regroup(procs, st, st', None, None);
  }

  /** The release keeps the places apart and only moves blocked processes to the queue or drops finished ones. */
  lemma ReleasePlaces(n: nat, st: State, st': State)
    requires Places(n, st, None)
    requires st' == st.(ready := st.ready + Outside(DueIn(UnblockOrder(st.blocked), st.blocked, st.time), st.done),
                        blocked := Pending(st.blocked, st.time))
    ensures Places(n, st', None)
    ensures Elems(st'.ready) + Parked(st'.blocked) <= Elems(st.ready) + Parked(st.blocked)
    ensures Elems(st.ready) + Parked(st.blocked) <= Elems(st'.ready) + Parked(st'.blocked) + st.done
  {
    var due := Outside(DueIn(UnblockOrder(st.blocked), st.blocked, st.time), st.done);
    ReleaseSets(st.blocked, st.done, st.time);
    var r, d := Elems(st.ready), st.done;
    assert r !! Parked(st.blocked) && r !! d;
    Extend(st.ready, due);
  }

  /** The released processes and the ones left blocked split the blocked table. */
  lemma ReleaseSets(b: seq<Block>, done: set<nat>, t: int)
    requires DistinctProcs(b)
    ensures var all := DueIn(UnblockOrder(b), b, t);
      && NoDup(Outside(all, done)) && DistinctProcs(Pending(b, t))
      && Elems(Outside(all, done)) == Elems(all) - done
      && Parked(b) == Elems(all) + Parked(Pending(b, t)) && Elems(all) !! Parked(Pending(b, t))
  {
    var all := DueIn(UnblockOrder(b), b, t);
    DueSet(b, t);
    OutsideMembers(all, done);
    PendingSet(b, t);
  }

  /**
   * The events due now: first the unblocks, then the arrivals. Afterwards
   * every blocked process unblocks later and every arrived process that has
   * not started is ready, finished or blocked.
   */
  method Events(procs: seq<Process>, st: State) returns (st': State)
    requires Inv(procs, st, None)
    ensures Inv(procs, st', None)
    ensures st'.time == st.time && st'.cursor == st.cursor && st'.done == st.done
    ensures forall k :: 0 <= k < |st'.blocked| ==> st'.blocked[k].until > st'.time
    ensures Admitted(procs, st')
    ensures Future(procs, st') == Future(procs, st)
    ensures st' == Admitting(procs, Releasing(st))
  {
    DistinctIsNoDup(st.blocked);
    var s := Release(procs, st);
    assert s == Releasing(st);
    ReleaseInv(procs, st, s);
    BlockedAfterPending(st.blocked, st.time);
    st' := Admit(procs, s);
    assert st' == Admitting(procs, s);
    AdmitInv(procs, s, st');
  }

  /** The state after the unblocks due now: see `Release`. */
  function Releasing(st: State): State
  {
    st.(ready := st.ready + Outside(DueIn(UnblockOrder(st.blocked), st.blocked, st.time), st.done),
        blocked := Pending(st.blocked, st.time))
  }

  /** The state after the arrivals due now: see `Admit`. */
  ghost function Admitting(procs: seq<Process>, st: State): State
    requires |st.cursor| == |procs|
  {
    st.(ready := st.ready + Joining(procs, st, |procs|))
  }

  // ---------------------------------------------------------------------------
  // Taking the shortest ready process and consuming its next segment.

  /**
   * The position in the ready queue of the process served next: the one with
   * the least CPU time left, the first in queue order among equals.
   */
  ghost function Pick(procs: seq<Process>, st: State): (k: nat)
    requires Inv(procs, st, None) && st.ready != []
    ensures k < |st.ready| && st.ready[k] < |procs|
  {
    ReadyBelow(procs, st);
    FirstMin(Keys(procs, st))
  }

  /** Every ready process is one of the input's. */
  lemma ReadyBelow(procs: seq<Process>, st: State)
    requires Inv(procs, st, None)
    ensures |st.cursor| == |procs| && forall k :: 0 <= k < |st.ready| ==> st.ready[k] < |procs|
  {
    assert forall k :: 0 <= k < |st.ready| ==> st.ready[k] in Elems(st.ready);
  }

  /** Process `sel` finishes at the end of its last segment. */
  function Closing(st: State, sel: nat): State
    requires sel < |st.lastEnd|
  {
    st.(completion := st.completion[sel := st.lastEnd[sel]], done := st.done + {sel})
  }

  /** A process whose plan is used up is closed; any other is left as it is. */
  function Retiring(procs: seq<Process>, st: State, sel: nat): State
    requires sel < |procs| && sel < |st.cursor| && sel < |st.lastEnd|
  {
    if st.cursor[sel] >= |EffectivePattern(procs[sel])| then Closing(st, sel) else st
  }

  /**
   * Process `sel`, with the CPU free, goes on by the segment at its cursor:
   * with none left it is closed; with a BLOCK segment it is parked, and closed
   * at once if that was its last segment; with a CPU segment it goes to the
   * back of the ready queue.
   */
  function Following(procs: seq<Process>, st: State, sel: nat): (r: State)
    requires sel < |procs| && sel < |st.cursor| && sel < |st.lastEnd|
    ensures |r.cursor| == |st.cursor| && |r.perProc| == |st.perProc| && |r.lastEnd| == |st.lastEnd|
  {
    var plan := EffectivePattern(procs[sel]);
    if st.cursor[sel] >= |plan| then Closing(st, sel)
    else if plan[st.cursor[sel]].kind == BLOCK then
      Retiring(procs, Parking(procs, st, sel, plan[st.cursor[sel]].duration), sel)
    else st.(ready := st.ready + [sel])
  }

  /** Taking the process at position `k` off the ready queue puts it in hand. */
  lemma PickInv(procs: seq<Process>, st: State, k: nat, st': State)
    requires Inv(procs, st, None) && k < |st.ready|
    requires st' == st.(ready := RemoveAt(st.ready, k))
    ensures Inv(procs, st', Some(st.ready[k]))
  {
    var sel := st.ready[k];
    RemoveAtProps(st.ready, k);
    assert sel in Elems(st.ready);
    assert Places(|procs|, st', Some(sel));
    forall i: nat | i < |procs| ensures Accounted(st', Some(sel), i) {
      assert Accounted(st, None, i);
    }
    assert Arrived(procs, st', Some(sel)) by {
      assert Arrived(procs, st, None);
    }
    Regroup(procs, st, st', None, Some(sel));
  }

  /** The process in hand, or a blocked one, whose plan is used up completes at its last end. */
  method Close(procs: seq<Process>, st: State, sel: nat) returns (st': State)
    requires Inv(procs, st, Some(sel)) && sel < |procs| && st.cursor[sel] >= |EffectivePattern(procs[sel])|
    ensures Inv(procs, st', None)
    ensures st' == Closing(st, sel)
    ensures Effort(procs, st') == Effort(procs, st) - 1
  {
    st' := st.(completion := st.completion[sel := st.lastEnd[sel]], done := st.done + {sel});
    CloseInv(procs, st, st', sel, Some(sel));
  }

  lemma CloseInv(procs: seq<Process>, st: State, st': State, sel: nat, held: Option<nat>)
    requires Inv(procs, st, held) && sel < |procs| && st.cursor[sel] >= |EffectivePattern(procs[sel])|
    requires held == Some(sel) || (held.None? && sel in Parked(st.blocked) && sel !in st.done)
    requires st' == st.(completion := st.completion[sel := st.lastEnd[sel]], done := st.done + {sel})
    ensures Inv(procs, st', None)
    ensures Effort(procs, st') == Effort(procs, st) - 1
  {
    assert Track(procs, st, sel);
    ClosePlaces(|procs|, st, st', sel, held, st.lastEnd[sel]);
    forall i | 0 <= i < |procs| ensures Track(procs, st', i) {
      TrackSame(procs, st, st', i);
    }
    FinishedOn(procs, st, st', sel, held);
  }

  /**
   * Finishing process `sel` (in hand, or blocked) keeps every process
   * accounted for and every queued one arrived.
   */
  lemma FinishedOn(procs: seq<Process>, st: State, st': State, sel: nat, held: Option<nat>)
    requires forall i: nat :: i < |procs| ==> Accounted(st, held, i)
    requires Arrived(procs, st, held)
    requires held == Some(sel) || held.None?
    requires st'.ready == st.ready && st'.blocked == st.blocked && st'.time == st.time
    requires st'.done == st.done + {sel} && st'.cursor == st.cursor
    ensures forall i: nat :: i < |procs| ==> Accounted(st', None, i)
    ensures Arrived(procs, st', None)
  {
    forall i: nat | i < |procs| ensures Accounted(st', None, i) {
      assert Accounted(st, held, i);
    }
  }

  /** Closing the process in hand, or a blocked unfinished one, keeps the places apart. */
  lemma ClosePlaces(n: nat, st: State, st': State, sel: nat, held: Option<nat>, v: int)
    requires Places(n, st, held) && sel < n
    requires held == Some(sel) || (held.None? && sel in Parked(st.blocked) && sel !in st.done)
    requires st' == st.(completion := st.completion[sel := v], done := st.done + {sel})
    ensures Places(n, st', None) && |st'.done| == |st.done| + 1
  {
    if held.Some? {
      assert sel !in st.done && sel !in Elems(st.ready);
    } else {
      assert sel !in Elems(st.ready);
    }
    assert Elems(st'.ready) !! st'.done;
    assert st'.completion.Keys == st'.done;
    CloseBelow(n, st, st', sel, held);
  }

  lemma CloseBelow(n: nat, st: State, st': State, sel: nat, held: Option<nat>)
    requires Elems(st.ready) + Parked(st.blocked) + st.done + InHand(held) <= Below(n) && sel < n
    requires st'.ready == st.ready && st'.blocked == st.blocked && st'.done == st.done + {sel}
    ensures Elems(st'.ready) + Parked(st'.blocked) + st'.done + InHand(None) <= Below(n)
  {
  }

  /**
   * The state after parking process `sel` on its next segment, a BLOCK
   * segment of length `d`: the segment drawn on the timeline, the process
   * blocked until the segment's end, its cursor past the segment, the clock
   * unmoved.
   */
  function Parking(procs: seq<Process>, st: State, sel: nat, d: int): (r: State)
    requires sel < |procs| && sel < |st.cursor| && sel < |st.lastEnd|
    ensures |r.cursor| == |st.cursor| && |r.perProc| == |st.perProc| && |r.lastEnd| == |st.lastEnd|
  {
    st.(timeline := st.timeline + BlockDrawn(procs[sel].name, st.time, d),
        lastEnd := st.lastEnd[sel := Max(st.lastEnd[sel], st.time + d)],
        blocked := st.blocked + [Block(sel, st.time + d)],
        cursor := st.cursor[sel := st.cursor[sel] + 1])
  }

  /** The next segment of the process in hand is a BLOCK segment: park the process. */
  method Park(procs: seq<Process>, st: State, sel: nat) returns (st': State)
    requires Inv(procs, st, Some(sel)) && sel < |procs|
    requires st.cursor[sel] < |EffectivePattern(procs[sel])|
    requires EffectivePattern(procs[sel])[st.cursor[sel]].kind == BLOCK
    ensures st' == Parking(procs, st, sel, EffectivePattern(procs[sel])[st.cursor[sel]].duration)
    ensures Inv(procs, st', None)
    ensures Effort(procs, st') == Effort(procs, st) - 1
    ensures sel in Parked(st'.blocked) && sel !in st'.done
  {
    var d := EffectivePattern(procs[sel])[st.cursor[sel]].duration;
    st' := Parking(procs, st, sel, d);
    ParkInv(procs, st, st', sel, d);
    EffortStep(procs, st, st', sel);
    ParkedAppend(st.blocked, Block(sel, st.time + d));
  }

  /** A parked process whose cursor passed its last segment is closed at once. */
  method Retire(procs: seq<Process>, st: State, sel: nat) returns (st': State)
    requires Inv(procs, st, None) && sel < |procs| && sel in Parked(st.blocked) && sel !in st.done
    ensures Inv(procs, st', None)
    ensures Effort(procs, st') <= Effort(procs, st)
    ensures st'.cursor[sel] >= |EffectivePattern(procs[sel])| ==>
      st' == st.(completion := st.completion[sel := st.lastEnd[sel]], done := st.done + {sel})
    ensures st'.cursor[sel] < |EffectivePattern(procs[sel])| ==> st' == st
    ensures st' == Retiring(procs, st, sel)
  {
    if st.cursor[sel] >= |EffectivePattern(procs[sel])| {
      st' := st.(completion := st.completion[sel := st.lastEnd[sel]], done := st.done + {sel});
      CloseInv(procs, st, st', sel, None);
    } else {
      st' := st;
    }
  }

  lemma ParkInv(procs: seq<Process>, st: State, st': State, sel: nat, d: int)
    requires Inv(procs, st, Some(sel)) && sel < |procs|
    requires st.cursor[sel] < |EffectivePattern(procs[sel])|
    requires EffectivePattern(procs[sel])[st.cursor[sel]].kind == BLOCK
    requires d == EffectivePattern(procs[sel])[st.cursor[sel]].duration
    requires st' == Parking(procs, st, sel, d)
    ensures Inv(procs, st', None)
  {
    assert ValidPattern(EffectivePattern(procs[sel]));
    ParkTrack(procs, st, st', sel);
    forall i | 0 <= i < |procs| && i != sel ensures Track(procs, st', i) {
      TrackSame(procs, st, st', i);
    }
    ParkPlaces(|procs|, st, st', sel);
    ParkedAppend(st.blocked, Block(sel, st.time + d));
    assert sel !in st.done;
    ParkedOn(procs, st, st', sel);
    ClosedOn(procs, st, st', sel);
    BlockLengthsHas(EffectivePattern(procs[sel]), st.cursor[sel]);
    AddBlockDrawn(procs, st.perProc, st.timeline, st'.timeline, sel, st.time, d);
  }

  /**
   * Moving the process in hand to the blocked table, with its cursor moved
   * on and the clock unmoved, keeps every process accounted for and every
   * queued one arrived.
   */
  lemma ParkedOn(procs: seq<Process>, st: State, st': State, sel: nat)
    requires forall i: nat :: i < |procs| ==> Accounted(st, Some(sel), i)
    requires Arrived(procs, st, Some(sel))
    requires st'.ready == st.ready && st'.done == st.done && st'.time == st.time
    requires Parked(st'.blocked) == Parked(st.blocked) + {sel}
    requires |st'.cursor| == |st.cursor|
    requires forall i :: 0 <= i < |st.cursor| && i != sel ==> st'.cursor[i] == st.cursor[i]
    ensures forall i: nat :: i < |procs| ==> Accounted(st', None, i)
    ensures Arrived(procs, st', None)
  {
    forall i: nat | i < |procs| ensures Accounted(st', None, i) {
      assert Accounted(st, Some(sel), i);
    }
  }

  /** Parking the process in hand keeps the places apart. */
  lemma ParkPlaces(n: nat, st: State, st': State, sel: nat)
    requires Places(n, st, Some(sel))
    requires st'.ready == st.ready && st'.done == st.done && st'.completion == st.completion
    requires |st'.blocked| == |st.blocked| + 1 && st'.blocked[..|st.blocked|] == st.blocked
    requires st'.blocked[|st.blocked|].proc == sel
    ensures Places(n, st', None)
  {
    assert st'.blocked == st.blocked + [st'.blocked[|st.blocked|]];
    ParkedAppend(st.blocked, st'.blocked[|st.blocked|]);
  }

  /** Consuming one segment of process `sel` lowers the work left by one. */
  lemma EffortStep(procs: seq<Process>, st: State, st': State, sel: nat)
    requires |st.cursor| == |procs| && sel < |procs|
    requires st'.cursor == st.cursor[sel := st.cursor[sel] + 1] && st'.done == st.done
    ensures Effort(procs, st') == Effort(procs, st) - 1
  {
    TodoUpdate(procs, st.cursor, |procs|, sel, st.cursor[sel] + 1);
  }

  /** A BLOCK segment adds no CPU interval: the track of the parked process still holds past it. */
  lemma ParkTrack(procs: seq<Process>, st: State, st': State, sel: nat)
    requires sel < |procs| && Track(procs, st, sel)
    requires st.cursor[sel] < |EffectivePattern(procs[sel])|
    requires EffectivePattern(procs[sel])[st.cursor[sel]].kind == BLOCK
    requires st'.perProc == st.perProc && |st'.cursor| == |st.cursor| && |st'.lastEnd| == |st.lastEnd|
    requires st'.cursor[sel] == st.cursor[sel] + 1 && st'.lastEnd[sel] >= st.lastEnd[sel]
    ensures Track(procs, st', sel)
  {
    var plan := EffectivePattern(procs[sel]);
    var c := st.cursor[sel];
    assert plan[..c + 1] == plan[..c] + [plan[c]];
    assert plan[..c + 1][..c] == plan[..c];
    CpuTotalSnoc(plan[..c], plan[c]);
  }

  /** The state after the CPU segment at process `sel`'s cursor runs whole from the current instant. */
  function Running(procs: seq<Process>, st: State, sel: nat): (r: State)
    requires sel < |procs| && sel < |st.cursor| && sel < |st.perProc| && sel < |st.lastEnd|
    requires st.cursor[sel] < |EffectivePattern(procs[sel])|
    ensures |r.cursor| == |st.cursor| && |r.perProc| == |st.perProc| && |r.lastEnd| == |st.lastEnd|
  {
    var end := st.time + EffectivePattern(procs[sel])[st.cursor[sel]].duration;
    st.(time := end,
        timeline := st.timeline + [ExecSlice(procs[sel].name, st.time, end)],
        perProc := st.perProc[sel := st.perProc[sel] + [(st.time, end)]],
        lastEnd := st.lastEnd[sel := Max(st.lastEnd[sel], end)],
        cursor := st.cursor[sel := st.cursor[sel] + 1])
  }

  /** The next segment of the process in hand is a CPU segment: run it whole, from now to its end. */
  method RunCpu(procs: seq<Process>, st: State, sel: nat) returns (st': State)
    requires Inv(procs, st, Some(sel)) && sel < |procs|
    requires st.cursor[sel] < |EffectivePattern(procs[sel])|
    requires EffectivePattern(procs[sel])[st.cursor[sel]].kind == CPU
    ensures Inv(procs, st', Some(sel))
    ensures Effort(procs, st') == Effort(procs, st) - 1
    ensures st' == Running(procs, st, sel) && st'.time > st.time
  {
    var end := st.time + EffectivePattern(procs[sel])[st.cursor[sel]].duration;
    st' := st.(time := end,
               timeline := st.timeline + [ExecSlice(procs[sel].name, st.time, end)],
               perProc := st.perProc[sel := st.perProc[sel] + [(st.time, end)]],
               lastEnd := st.lastEnd[sel := Max(st.lastEnd[sel], end)],
               cursor := st.cursor[sel := st.cursor[sel] + 1]);
    RunInv(procs, st, st', sel, end);
    EffortStep(procs, st, st', sel);
  }

  lemma RunInv(procs: seq<Process>, st: State, st': State, sel: nat, end: int)
    requires Inv(procs, st, Some(sel)) && sel < |procs|
    requires st.cursor[sel] < |EffectivePattern(procs[sel])|
    requires EffectivePattern(procs[sel])[st.cursor[sel]].kind == CPU
    requires end == st.time + EffectivePattern(procs[sel])[st.cursor[sel]].duration
    requires st' == Running(procs, st, sel)
    ensures end > st.time
    ensures Inv(procs, st', Some(sel))
  {
    var plan := EffectivePattern(procs[sel]);
    assert ValidPattern(plan);
    assert plan[st.cursor[sel]].duration > 0;
    RunTrack(procs, st, st', sel, end);
    forall i | 0 <= i < |procs| && i != sel ensures Track(procs, st', i) {
      TrackSame(procs, st, st', i);
    }
    PlacesSame(|procs|, st, st', Some(sel));
    assert sel !in st.done;
    ClosedOn(procs, st, st', sel);
    MovedOn(procs, st, st', sel);
    AddInterval(procs, st.perProc, st.time, sel, end);
    AddCpuSlice(procs, st.perProc, st.timeline, sel, st.time, end);
  }

  /** Track of process `i` only reads its own cursor, intervals and last end. */
  lemma TrackSame(procs: seq<Process>, st: State, st': State, i: nat)
    requires Track(procs, st, i)
    requires |st'.cursor| == |st.cursor| && |st'.perProc| == |st.perProc| && |st'.lastEnd| == |st.lastEnd|
    requires st'.cursor[i] == st.cursor[i] && st'.perProc[i] == st.perProc[i] && st'.lastEnd[i] == st.lastEnd[i]
    ensures Track(procs, st', i)
  {
  }

  /** Places only reads the queues, the finished set and the completion map. */
  lemma PlacesSame(n: nat, st: State, st': State, held: Option<nat>)
    requires Places(n, st, held)
    requires st'.ready == st.ready && st'.blocked == st.blocked && st'.done == st.done
    requires st'.completion == st.completion
    ensures Places(n, st', held)
  {
  }

  /** Changing the cursor and last end of an unfinished process keeps the finished ones closed. */
  lemma ClosedOn(procs: seq<Process>, st: State, st': State, sel: nat)
    requires Closed(procs, st) && sel !in st.done
    requires st'.done == st.done && st'.completion == st.completion
    requires |st'.cursor| == |st.cursor| && |st'.lastEnd| == |st.lastEnd|
    requires forall i :: 0 <= i < |st.cursor| && i != sel ==> st'.cursor[i] == st.cursor[i]
    requires forall i :: 0 <= i < |st.lastEnd| && i != sel ==> st'.lastEnd[i] == st.lastEnd[i]
    ensures Closed(procs, st')
  {
  }

  /**
   * Advancing the clock and the cursor of the process in hand, with the
   * queues unchanged, keeps every process accounted for and every queued one arrived.
   */
  lemma MovedOn(procs: seq<Process>, st: State, st': State, sel: nat)
    requires forall i: nat :: i < |procs| ==> Accounted(st, Some(sel), i)
    requires Arrived(procs, st, Some(sel))
    requires st'.ready == st.ready && st'.blocked == st.blocked && st'.done == st.done
    requires st'.time >= st.time && |st'.cursor| == |st.cursor|
    requires forall i :: 0 <= i < |st.cursor| && i != sel ==> st'.cursor[i] == st.cursor[i]
    ensures forall i: nat :: i < |procs| ==> Accounted(st', Some(sel), i)
    ensures Arrived(procs, st', Some(sel))
  {
    forall i: nat | i < |procs| ensures Accounted(st', Some(sel), i) {
      assert Accounted(st, Some(sel), i);
    }
  }

  /** A CPU segment run whole adds one interval as long as the segment. */
  lemma RunTrack(procs: seq<Process>, st: State, st': State, sel: nat, end: int)
    requires sel < |procs| && Track(procs, st, sel)
    requires st.cursor[sel] < |EffectivePattern(procs[sel])|
    requires EffectivePattern(procs[sel])[st.cursor[sel]].kind == CPU
    requires end == st.time + EffectivePattern(procs[sel])[st.cursor[sel]].duration
    requires |st'.perProc| == |st.perProc| && |st'.cursor| == |st.cursor| && |st'.lastEnd| == |st.lastEnd|
    requires st'.perProc[sel] == st.perProc[sel] + [(st.time, end)]
    requires st'.cursor[sel] == st.cursor[sel] + 1 && st'.lastEnd[sel] == Max(st.lastEnd[sel], end)
    ensures Track(procs, st', sel)
  {
    RunTotals(EffectivePattern(procs[sel]), st.cursor[sel], st.perProc[sel], (st.time, end));
    EndsBelow(st.perProc[sel], (st.time, end), st.lastEnd[sel], st'.lastEnd[sel]);
  }

  /** Running the CPU segment at cursor `c` whole adds its length to the served time and to the lengths. */
  lemma RunTotals(plan: seq<Segment>, c: nat, pp: seq<(int, int)>, x: (int, int))
    requires c < |plan| && plan[c].kind == CPU && x.1 - x.0 == plan[c].duration
    requires SliceTotal(pp) == CpuTotal(plan[..c]) && Lengths(pp) == CpuBursts(plan[..c])
    ensures SliceTotal(pp + [x]) == CpuTotal(plan[..c + 1]) && Lengths(pp + [x]) == CpuBursts(plan[..c + 1])
  {
    assert plan[..c + 1] == plan[..c] + [plan[c]];
    CpuTotalSnoc(plan[..c], plan[c]);
    CpuBurstsSnoc(plan[..c], plan[c]);
    SliceTotalAppend(pp, x);
    LengthsSnoc(pp, x);
  }

  /** An interval ending no later than a new bound, added to intervals ending no later than an old one. */
  lemma EndsBelow(pp: seq<(int, int)>, x: (int, int), m0: int, m: int)
    requires forall k :: 0 <= k < |pp| ==> pp[k].1 <= m0
    requires m >= m0 && m >= x.1
    ensures forall k :: 0 <= k < |pp + [x]| ==> (pp + [x])[k].1 <= m
  {
    forall k | 0 <= k < |pp + [x]| ensures (pp + [x])[k].1 <= m {
      if k < |pp| {
        assert (pp + [x])[k] == pp[k];
      }
    }
  }

  /**
   * The process in hand goes back to the ready queue, unless it is already
   * there, blocked or finished; in hand it is none of these, so it always goes.
   */
  method Requeue(procs: seq<Process>, st: State, sel: nat) returns (st': State)
    requires Inv(procs, st, Some(sel)) && sel < |procs|
    ensures Inv(procs, st', None)
    ensures st' == st.(ready := st.ready + [sel])
  {
    if sel !in st.ready && sel !in Parked(st.blocked) && sel !in st.done {
      st' := st.(ready := st.ready + [sel]);
      RequeueInv(procs, st, st', sel);
    } else {
      st' := st;
    }
  }

  lemma RequeueInv(procs: seq<Process>, st: State, st': State, sel: nat)
    requires Inv(procs, st, Some(sel)) && sel < |procs|
    requires st' == st.(ready := st.ready + [sel])
    ensures Inv(procs, st', None)
  {
    assert sel !in Elems(st.ready);
    Extend(st.ready, [sel]);
    assert Places(|procs|, st', None);
    forall i: nat | i < |procs| ensures Accounted(st', None, i) {
      assert Accounted(st, Some(sel), i);
    }
    assert Arrived(procs, st', None) by {
      assert Arrived(procs, st, Some(sel));
    }
    Regroup(procs, st, st', Some(sel), None);
  }

  /** After a CPU segment: close the process, park it on its next BLOCK segment, or queue it again. */
  method AfterCpu(procs: seq<Process>, st: State, sel: nat) returns (st': State)
    requires Inv(procs, st, Some(sel)) && sel < |procs|
    ensures Inv(procs, st', None)
    ensures Effort(procs, st') <= Effort(procs, st)
    ensures st' == Following(procs, st, sel)
  {
    var plan := EffectivePattern(procs[sel]);
    if st.cursor[sel] >= |plan| {
      st' := Close(procs, st, sel);
    } else if plan[st.cursor[sel]].kind == BLOCK {
      st' := Park(procs, st, sel);
      st' := Retire(procs, st', sel);
    } else {
      st' := Requeue(procs, st, sel);
    }
  }

  /**
   * The CPU is free and some process is ready: take the ready process with
   * the least CPU time left (the first in queue order among equals) and
   * consume its next segment. After a CPU segment the events due at its end
   * are processed, and with nothing ready the clock jumps to the next event,
   * or the loop stops when there is none.
   */
  method Serve(procs: seq<Process>, st: State) returns (st': State, stop: bool, ghost after: State)
    requires Inv(procs, st, None) && st.ready != []
    ensures Inv(procs, st', None)
    ensures stop ==> |st'.done| >= |procs|
    ensures !stop ==> Effort(procs, st') < Effort(procs, st)
    ensures Consumed(procs, st.(ready := RemoveAt(st.ready, Pick(procs, st))), st.ready[Pick(procs, st)], after, st', stop)
  {
    ReadyBelow(procs, st);
    var k := FirstMin(Keys(procs, st));
    var sel := st.ready[k];
    var s := st.(ready := RemoveAt(st.ready, k));
    PickInv(procs, st, k, s);
    st', stop, after := Consume(procs, s, sel);
  }

  /** The process in hand consumes the segment at its cursor; see `Consumed`. */
  method Consume(procs: seq<Process>, s: State, sel: nat) returns (st': State, stop: bool, ghost after: State)
    requires Inv(procs, s, Some(sel)) && sel < |procs|
    ensures Inv(procs, st', None)
    ensures stop ==> |st'.done| >= |procs|
    ensures !stop ==> Effort(procs, st') < Effort(procs, s)
    ensures Consumed(procs, s, sel, after, st', stop)
  {
    var plan := EffectivePattern(procs[sel]);
    after := s;
    if s.cursor[sel] >= |plan| {
      st' := Close(procs, s, sel);
      return st', false, after;
    }
    if plan[s.cursor[sel]].kind == BLOCK {
      st' := Park(procs, s, sel);
      st' := Retire(procs, st', sel);
      return st', false, after;
    }
    st', stop, after := RunServed(procs, s, sel);
  }

  /**
   * The process in hand runs its CPU segment whole and goes on by the
   * segment after it; then the events at the new instant, and the idle jump
   * when nothing is ready.
   */
  method RunServed(procs: seq<Process>, s: State, sel: nat) returns (st': State, stop: bool, ghost after: State)
    requires Inv(procs, s, Some(sel)) && sel < |procs|
    requires s.cursor[sel] < |EffectivePattern(procs[sel])|
    requires EffectivePattern(procs[sel])[s.cursor[sel]].kind == CPU
    ensures Inv(procs, st', None)
    ensures stop ==> |st'.done| >= |procs|
    ensures !stop ==> Effort(procs, st') < Effort(procs, s)
    ensures after == Admitting(procs, Releasing(Following(procs, Running(procs, s, sel), sel)))
    ensures after.ready != [] ==> st' == after && !stop
    ensures after.ready == [] ==> Jumped(procs, after, st', stop)
  {
    var s1 := RunCpu(procs, s, sel);
    var s2 := AfterCpu(procs, s1, sel);
    var s3 := Events(procs, s2);
    after := s3;
    if s3.ready == [] {
      st', stop := Idle(procs, s3);
      return;
    }
    return s3, false, after;
  }

  /**
   * The served process `sel`, taken off the ready queue in `s`, consumes the
   * segment at its cursor. With none left, or a BLOCK segment, the step ends
   * there. A CPU segment runs whole from now, the process goes on by the
   * segment after it, and the events at the new instant are processed (`after`
   * is the state then); with nothing ready the clock jumps to the next event,
   * or the loop stops when there is none.
   */
  ghost predicate Consumed(procs: seq<Process>, s: State, sel: nat, after: State, st': State, stop: bool)
  {
    && sel < |procs| && |s.cursor| == |procs| && |s.perProc| == |procs| && |s.lastEnd| == |procs|
    && var plan := EffectivePattern(procs[sel]);
       if s.cursor[sel] >= |plan| || plan[s.cursor[sel]].kind == BLOCK then
         st' == Following(procs, s, sel) && !stop
       else
         && after == Admitting(procs, Releasing(Following(procs, Running(procs, s, sel), sel)))
         && (after.ready != [] ==> st' == after && !stop)
         && (after.ready == [] ==> Jumped(procs, after, st', stop))
  }

  // ---------------------------------------------------------------------------
  // An idle CPU.

  /** Nothing is ready: jump to the next arrival or unblock, or stop when there is none. */
  method Idle(procs: seq<Process>, st: State) returns (st': State, stop: bool)
    requires Inv(procs, st, None) && st.ready == []
    requires forall k :: 0 <= k < |st.blocked| ==> st.blocked[k].until > st.time
    requires Admitted(procs, st)
    ensures Inv(procs, st', None)
    ensures stop ==> |st'.done| >= |procs|
    ensures !stop ==> st' == st.(time := st'.time) && st'.time > st.time && Future(procs, st') < Future(procs, st)
    ensures Jumped(procs, st, st', stop)
  {
    var next := NextEvent(procs, st);
    if next.None? {
      Drained(procs, st);
      return st, true;
    }
    JumpPasses(procs, st, next.value);
    JumpInv(procs, st, next.value);
    return st.(time := next.value), false;
  }

  /**
   * The idle jump: the clock moves to the next event, and only the clock
   * changes; with no event left the loop stops with the state unchanged.
   */
  ghost predicate Jumped(procs: seq<Process>, st: State, st': State, stop: bool)
  {
    && |st.cursor| == |procs|
    && (stop <==> NextEvent(procs, st).None?)
    && (stop ==> st' == st)
    && (!stop ==> st' == st.(time := NextEvent(procs, st).value))
  }

  /** The next event lies after now, and jumping to it passes at least one of the future events. */
  lemma JumpPasses(procs: seq<Process>, st: State, t: int)
    requires |st.cursor| == |procs| && NextEvent(procs, st) == Some(t)
    ensures t > st.time
    ensures Future(procs, st.(time := t)) < Future(procs, st)
  {
    var u := Unstarted(procs, st.cursor, st.done, |procs|);
    var xs := u + Untils(st.blocked);
    var k :| 0 <= k < |xs| && xs[k] == t;
    if k < |u| {
      assert u[k] == t;
      CountAfterDrops(u, st.time, t, k);
      BlockedAfterMono(st.blocked, st.time, t);
    } else {
      assert st.blocked[k - |u|].until == t;
      BlockedAfterDrops(st.blocked, st.time, t, k - |u|);
      CountAfterMono(u, st.time, t);
    }
  }

  lemma JumpInv(procs: seq<Process>, st: State, t: int)
    requires Inv(procs, st, None) && st.time <= t
    ensures Inv(procs, st.(time := t), None)
  {
    Later(procs, st.perProc, st.time, t);
    forall i | 0 <= i < |procs| ensures Track(procs, st.(time := t), i) {
      assert Track(procs, st, i);
    }
    forall i: nat | i < |procs| ensures Accounted(st.(time := t), None, i) {
      assert Accounted(st, None, i);
    }
  }

  /**
   * With nothing ready, every unblock in the future and every arrived
   * unstarted process admitted, no event left means every process is done:
   * the loop's exit on "no event left" never leaves a process unfinished.
   */
  lemma Drained(procs: seq<Process>, st: State)
    requires Inv(procs, st, None) && st.ready == []
    requires forall k :: 0 <= k < |st.blocked| ==> st.blocked[k].until > st.time
    requires Admitted(procs, st) && NextEvent(procs, st).None?
    ensures |st.done| >= |procs|
  {
    var u := Unstarted(procs, st.cursor, st.done, |procs|);
    MinAfterSplit(u, Untils(st.blocked), st.time);
    BlockedAfterAll(st.blocked, st.time);
    BlockedAfterNone(st.blocked, st.time);
    forall i | 0 <= i < |procs| ensures st.cursor[i] > 0 {
      UnstartedHas(procs, st.cursor, st.done, |procs|, i);
      assert |EffectivePattern(procs[i])| > 0;
      assert !Waiting(procs, st, i);
    }
    assert Elems(st.ready) + Parked(st.blocked) + st.done + InHand(None) <= Below(|procs|);
    AllDone(|procs|, st);
  }

  /** With nothing ready or blocked and every process started, all `n` processes are finished. */
  lemma AllDone(n: nat, st: State)
    requires forall i: nat :: i < n ==> Accounted(st, None, i)
    requires st.ready == [] && st.blocked == [] && |st.cursor| == n && st.done <= Below(n)
    requires forall i :: 0 <= i < n ==> st.cursor[i] > 0
    ensures |st.done| >= n
  {
    assert Parked(st.blocked) == {} && Elems(st.ready) == {};
    forall i: nat | i < n ensures i in st.done {
      assert Accounted(st, None, i);
    }
    assert Below(n) <= st.done;
    BoundedCard(st.done, n);
  }

  // ---------------------------------------------------------------------------
  // The engine.

  /** The state before the first admission: clock at 0, nothing run, every cursor at the first segment. */
  function Start(procs: seq<Process>): State
  {
    State(0, [], seq(|procs|, _ => []), map[], seq(|procs|, _ => 0), [], [],
          seq(|procs|, i requires 0 <= i < |procs| => procs[i].arrival), {})
  }

  lemma StartInv(procs: seq<Process>)
    requires ValidInput(procs)
    ensures Inv(procs, Start(procs), None)
  {
    var st := Start(procs);
    forall i | 0 <= i < |procs| ensures Track(procs, st, i) {
      assert EffectivePattern(procs[i])[..0] == [];
      assert st.perProc[i] == [];
    }
    assert Elems([]) == {} && Parked([]) == {};
    forall i: nat | i < |procs| ensures Accounted(st, None, i) {
      assert st.cursor[i] == 0;
    }
  }

  /**
   * SJF scheduling of `procs`: run the engine until every process is done,
   * then report the timeline, the CPU intervals of each process, and its
   * turnaround and waiting, both floored at zero.
   */
  method Schedule(procs: seq<Process>) returns (r: ScheduleResult)
    requires ValidInput(procs)
    ensures CpuServed(procs, r) && OneCpu(procs, r) && Labelled(procs, r)
    ensures r.turnaround.Keys == Names(procs) && r.waiting.Keys == Names(procs)
    ensures forall i :: 0 <= i < |procs| ==>
      Lengths(r.perProcessSlices[procs[i].name]) == CpuBursts(EffectivePattern(procs[i]))
    ensures Waited(procs, r.turnaround, r.waiting, true)
    ensures forall i :: 0 <= i < |procs| ==>
      && r.turnaround[procs[i].name] >= 0
      && forall k :: 0 <= k < |r.perProcessSlices[procs[i].name]| ==>
           r.perProcessSlices[procs[i].name][k].1 <= procs[i].arrival + r.turnaround[procs[i].name]
    ensures r.avgTurnaround == Some(Average(SumOver(procs, r.turnaround), Max1(|procs|)))
    ensures r.avgWaiting == Some(Average(SumOver(procs, r.waiting), Max1(|procs|)))
    ensures Outcome(procs, r)
  {
    var st := Run(procs);
    r := Report(procs, st.perProc, st.timeline, Finish(procs, st), st.time);
  }

  /**
   * Everything a result of this engine promises: the trace, the metrics keyed
   * by name, turnaround bounding every CPU interval, and the averages.
   */
  ghost predicate Outcome(procs: seq<Process>, r: ScheduleResult)
  {
    && CpuServed(procs, r) && OneCpu(procs, r) && Labelled(procs, r)
    && r.turnaround.Keys == Names(procs) && r.waiting.Keys == Names(procs)
    && (forall i :: 0 <= i < |procs| ==>
          Lengths(r.perProcessSlices[procs[i].name]) == CpuBursts(EffectivePattern(procs[i])))
    && Waited(procs, r.turnaround, r.waiting, true)
    && (forall i :: 0 <= i < |procs| ==>
          && r.turnaround[procs[i].name] >= 0
          && forall k :: 0 <= k < |r.perProcessSlices[procs[i].name]| ==>
               r.perProcessSlices[procs[i].name][k].1 <= procs[i].arrival + r.turnaround[procs[i].name])
    && r.avgTurnaround == Some(Average(SumOver(procs, r.turnaround), Max1(|procs|)))
    && r.avgWaiting == Some(Average(SumOver(procs, r.waiting), Max1(|procs|)))
  }

  /** The engine's main loop, from the first admission until every process is done. */
  method Run(procs: seq<Process>) returns (st: State)
    requires ValidInput(procs)
    ensures |st.lastEnd| == |procs|
    ensures Final(procs, st.perProc, st.timeline, Finish(procs, st), st.time)
  {
    StartInv(procs);
    st := Admit(procs, Start(procs));
    AdmitInv(procs, Start(procs), st);
    while |st.done| < |procs|
      invariant Inv(procs, st, None)
      decreases Effort(procs, st), Future(procs, st)
    {
      EffortBound(procs, st);
      var stop;
      ghost var after;
      st, stop, after := Step(procs, st);
      if stop {
        break;
      }
    }
    FinalState(procs, st);
  }

  /** One pass of the main loop: the events due now, then an idle jump or a served process. */
  method Step(procs: seq<Process>, st: State) returns (st': State, stop: bool, ghost after: State)
    requires Inv(procs, st, None)
    ensures Inv(procs, st', None)
    ensures stop ==> |st'.done| >= |procs|
    ensures !stop ==>
      || Effort(procs, st') < Effort(procs, st)
      || (Effort(procs, st') == Effort(procs, st) && Future(procs, st') < Future(procs, st))
    ensures Passed(procs, st, after, st', stop)
  {
    var s := Events(procs, st);
    after := s;
    if s.ready == [] {
      st', stop := Idle(procs, s);
      return;
    }
    st', stop, after := Serve(procs, s);
  }

  /**
   * One pass of the loop as a whole: after the unblocks and arrivals due now,
   * an empty ready list makes the idle jump or the stop, and otherwise the
   * process at `Pick` is taken off the list and served.
   */
  ghost predicate Passed(procs: seq<Process>, st: State, after: State, st': State, stop: bool)
    requires Inv(procs, st, None)
  {
    var s := Admitting(procs, Releasing(st));
    && (s.ready == [] ==> Jumped(procs, s, st', stop))
    && (s.ready != [] ==>
          && Inv(procs, s, None)
          && Consumed(procs, s.(ready := RemoveAt(s.ready, Pick(procs, s))), s.ready[Pick(procs, s)], after, st', stop))
  }

  /** The instant each process finished: its completion instant, or its last end if it has none. */
  function Finish(procs: seq<Process>, st: State): (f: seq<int>)
    requires |st.lastEnd| == |procs|
    ensures |f| == |procs|
    ensures forall i :: 0 <= i < |procs| ==> f[i] == if i in st.completion then st.completion[i] else st.lastEnd[i]
  {
    seq(|procs|, i requires 0 <= i < |procs| => if i in st.completion then st.completion[i] else st.lastEnd[i])
  }

  /**
   * What the end of the main loop leaves behind: one CPU, labelled slices,
   * each process served its CPU segments whole and in order, and a finish
   * instant no earlier than its arrival and the end of its CPU intervals.
   */
  ghost predicate Final(procs: seq<Process>, perProc: seq<seq<(int, int)>>, timeline: seq<ExecSlice>,
                        finish: seq<int>, time: int)
  {
    && |perProc| == |procs| && |finish| == |procs|
    && IntervalsOk(procs, perProc, time) && TimelineOk(procs, perProc, timeline)
    && (forall i :: 0 <= i < |procs| ==>
          && SliceTotal(perProc[i]) == CpuTotal(EffectivePattern(procs[i]))
          && Lengths(perProc[i]) == CpuBursts(EffectivePattern(procs[i])))
    && (forall i :: 0 <= i < |procs| ==>
          && procs[i].arrival <= finish[i]
          && forall k :: 0 <= k < |perProc[i]| ==> perProc[i][k].1 <= finish[i])
  }

  lemma FinalState(procs: seq<Process>, st: State)
    requires Inv(procs, st, None) && |st.done| >= |procs|
    ensures Final(procs, st.perProc, st.timeline, Finish(procs, st), st.time)
  {
    var f := Finish(procs, st);
    assert Elems(st.ready) + Parked(st.blocked) + st.done + InHand(None) <= Below(|procs|);
    AllFinished(|procs|, st.done);
    forall i | 0 <= i < |procs|
      ensures SliceTotal(st.perProc[i]) == CpuTotal(EffectivePattern(procs[i]))
      ensures Lengths(st.perProc[i]) == CpuBursts(EffectivePattern(procs[i]))
      ensures procs[i].arrival <= f[i]
      ensures forall k :: 0 <= k < |st.perProc[i]| ==> st.perProc[i][k].1 <= f[i]
    {
      assert i in st.done;
      FinalTrack(procs, st, i, f[i]);
    }
  }

  /** A set of at least `n` processes below `n` holds every one of them. */
  lemma AllFinished(n: nat, done: set<nat>)
    requires done <= Below(n) && |done| >= n
    ensures forall i :: 0 <= i < n ==> i in done
  {
    BoundedCard(done, n);
  }

  /** A process whose cursor passed its last segment was served its whole plan by its finish instant. */
  lemma FinalTrack(procs: seq<Process>, st: State, i: nat, fi: int)
    requires Track(procs, st, i) && st.cursor[i] == |EffectivePattern(procs[i])| && fi == st.lastEnd[i]
    ensures SliceTotal(st.perProc[i]) == CpuTotal(EffectivePattern(procs[i]))
    ensures Lengths(st.perProc[i]) == CpuBursts(EffectivePattern(procs[i]))
    ensures procs[i].arrival <= fi
    ensures forall k :: 0 <= k < |st.perProc[i]| ==> st.perProc[i][k].1 <= fi
  {
    var plan := EffectivePattern(procs[i]);
    assert plan[..|plan|] == plan;
  }

  /** The metrics block: turnaround and waiting per process, both floored at zero, and their averages. */
  method Report(procs: seq<Process>, perProc: seq<seq<(int, int)>>, timeline: seq<ExecSlice>,
                finish: seq<int>, time: int) returns (r: ScheduleResult)
    requires UniqueNames(procs) && Final(procs, perProc, timeline, finish, time)
    ensures CpuServed(procs, r) && OneCpu(procs, r) && Labelled(procs, r)
    ensures r.turnaround.Keys == Names(procs) && r.waiting.Keys == Names(procs)
    ensures forall i :: 0 <= i < |procs| ==> r.turnaround[procs[i].name] == finish[i] - procs[i].arrival
    ensures forall i :: 0 <= i < |procs| ==>
      Lengths(r.perProcessSlices[procs[i].name]) == CpuBursts(EffectivePattern(procs[i]))
    ensures Waited(procs, r.turnaround, r.waiting, true)
    ensures forall i :: 0 <= i < |procs| ==>
      && r.turnaround[procs[i].name] >= 0
      && forall k :: 0 <= k < |r.perProcessSlices[procs[i].name]| ==>
           r.perProcessSlices[procs[i].name][k].1 <= procs[i].arrival + r.turnaround[procs[i].name]
    ensures r.avgTurnaround == Some(Average(SumOver(procs, r.turnaround), Max1(|procs|)))
    ensures r.avgWaiting == Some(Average(SumOver(procs, r.waiting), Max1(|procs|)))
  {
    var turnaround, waiting, avgTurnaround, avgWaiting := PlanMetrics(procs, finish, true);
    r := ScheduleResult(timeline, ByName(procs, perProc), turnaround, waiting, Some(avgTurnaround), Some(avgWaiting));
    assert r.waiting == waiting && r.turnaround == turnaround;
    Publish(procs, perProc, time, timeline, r);
  }
}
