/**
 * The SRTF engine: preemptive shortest remaining time first. At every instant
 * the engine first releases the blocked processes that are due, then admits
 * the arrivals, then gives the CPU to the ready process with the least CPU
 * time left in its whole plan (ties broken by arrival, then input position).
 * The chosen process runs until its CPU segment ends or the next arrival or
 * unblock, whichever comes first, and then competes again.
 */
module Srtf {
  import opened Models
  import opened Ledger
  import opened Metrics
  import opened Trace
  import opened Progress

  /**
   * The engine's variables between two steps of its main loop. Processes are
   * named by their index in the input list; `cursor[i]` is the index of
   * process `i`'s current segment in its plan, and `rem[i]`, when present,
   * the CPU time still to run of that segment (`rem_cpu_seg`).
   */
  datatype State = State(
    time: int,
    timeline: seq<ExecSlice>,
    perProc: seq<seq<(int, int)>>,
    completion: map<nat, int>,
    cursor: seq<nat>,
    rem: map<nat, int>,
    ready: seq<nat>,
    blocked: seq<Block>,
    done: set<nat>)

  /** No plan has a zero-length BLOCK segment right after another BLOCK segment. */
  predicate ChainFree(procs: seq<Process>)
  {
    forall i :: 0 <= i < |procs| ==> NoZeroChain(EffectivePattern(procs[i]))
  }

  /** Every BLOCK segment that directly follows another BLOCK segment lasts a positive time. */
  predicate NoZeroChain(pat: seq<Segment>)
  {
    forall j :: 0 < j < |pat| ==> !ZeroChainAt(pat, j)
  }

  /** Segment `j` is a zero-length BLOCK segment right after another BLOCK segment. */
  predicate ZeroChainAt(pat: seq<Segment>, j: nat)
  {
    0 < j < |pat| && pat[j - 1].kind == BLOCK && pat[j].kind == BLOCK && pat[j].duration <= 0
  }

  /** The CPU time process `i` has already had of the segment at its cursor. */
  function Used(procs: seq<Process>, st: State, i: nat): int
    requires i < |procs| && i < |st.cursor|
  {
    var plan := EffectivePattern(procs[i]);
    if i in st.rem && st.cursor[i] < |plan| then plan[st.cursor[i]].duration - st.rem[i] else 0
  }

  /**
   * `total_cpu_remaining`: the remainder of the current CPU segment when the
   * process has one, plus the CPU segments after it; otherwise the CPU
   * segments from the cursor on.
   */
  function Rest(procs: seq<Process>, st: State, i: nat): int
    requires i < |procs| && i < |st.cursor|
  {
    var plan := EffectivePattern(procs[i]);
    var c := st.cursor[i];
    if i in st.rem then st.rem[i] + (if c < |plan| then CpuTotal(plan[c + 1..]) else 0)
    else if c <= |plan| then CpuTotal(plan[c..]) else 0
  }

  /** The selection key of a ready process: CPU time left, then arrival, then input position. */
  function Key(procs: seq<Process>, st: State, i: nat): (int, int, int)
    requires i < |procs| && i < |st.cursor|
  {
    (Rest(procs, st, i), procs[i].arrival, i)
  }

  /** Lexicographic order on selection keys. */
  predicate Before(a: (int, int, int), b: (int, int, int))
  {
    a.0 < b.0 || (a.0 == b.0 && (a.1 < b.1 || (a.1 == b.1 && a.2 < b.2)))
  }

  /**
   * The head of a stable sort by key: a position whose key no other key
   * precedes, and which every earlier position's key follows.
   */
  function Least(keys: seq<(int, int, int)>): (k: nat)
    requires keys != []
    ensures k < |keys|
    ensures forall j :: 0 <= j < |keys| ==> !Before(keys[j], keys[k])
    ensures forall j :: 0 <= j < k ==> Before(keys[k], keys[j])
  {
    if |keys| == 1 then 0
    else
      var k := Least(keys[..|keys| - 1]);
      if Before(keys[|keys| - 1], keys[k]) then |keys| - 1 else k
  }

  /** The ready processes' keys, in list order. */
  function Keys(procs: seq<Process>, st: State): (keys: seq<(int, int, int)>)
    requires |st.cursor| == |procs| && forall k :: 0 <= k < |st.ready| ==> st.ready[k] < |procs|
    ensures |keys| == |st.ready|
    ensures forall k :: 0 <= k < |st.ready| ==> keys[k] == Key(procs, st, st.ready[k])
  {
    seq(|st.ready|, k requires 0 <= k < |st.ready| => Key(procs, st, st.ready[k]))
  }

  /**
   * `make_ready_if_cpu(i, now)`: nothing for a finished or blocked process;
   * otherwise a process whose plan is used up completes at `now`; one facing
   * a BLOCK segment is parked until `now` plus the segment's length (drawn
   * when positive), its cursor past the segment; one facing a CPU segment
   * gets the segment's length as its remainder unless it has one already,
   * and joins the ready list unless it is on it.
   */
  function MakeReady(procs: seq<Process>, st: State, i: nat, now: int): (r: State)
    requires i < |procs| && |st.cursor| == |procs|
    ensures r.time == st.time && |r.cursor| == |st.cursor| && r.perProc == st.perProc
  {
    var plan := EffectivePattern(procs[i]);
    var c := st.cursor[i];
    if i in st.done || i in Parked(st.blocked) then st
    else if c >= |plan| then
      st.(completion := st.completion[i := now], done := st.done + {i}, rem := st.rem - {i})
    else if plan[c].kind == BLOCK then
      st.(timeline := st.timeline + BlockDrawn(procs[i].name, now, plan[c].duration),
          blocked := st.blocked + [Block(i, now + plan[c].duration)],
          cursor := st.cursor[i := c + 1],
          rem := st.rem - {i})
    else
      st.(rem := if i in st.rem then st.rem else st.rem[i := plan[c].duration],
          ready := if i in st.ready then st.ready else st.ready + [i])
  }

  /** The release of blocked process `p`: its entry is popped and it is made ready at its unblock instant `u`. */
  function Unblock(procs: seq<Process>, st: State, p: nat, u: int): State
    requires p < |procs| && |st.cursor| == |procs|
  {
    MakeReady(procs, st.(blocked := Without(st.blocked, p)), p, u)
  }

  // ---------------------------------------------------------------------------
  // The loop invariant. `held` is the process taken off the ready list to run.

  /**
   * Process `i`'s cursor lies within its plan; a remainder belongs to a CPU
   * segment at the cursor and is between zero and its length; the CPU time
   * given so far is that of the segments before the cursor plus what was
   * used of the current one.
   */
  ghost predicate Track(procs: seq<Process>, st: State, i: int)
  {
    var ok :=
      && 0 <= i < |procs| && i < |st.cursor| && i < |st.perProc|
      && st.cursor[i] <= |EffectivePattern(procs[i])|
      && (i in st.rem ==>
            && st.cursor[i] < |EffectivePattern(procs[i])|
            && EffectivePattern(procs[i])[st.cursor[i]].kind == CPU
            && 0 <= st.rem[i] <= EffectivePattern(procs[i])[st.cursor[i]].duration)
      && SliceTotal(st.perProc[i]) == CpuTotal(EffectivePattern(procs[i])[..st.cursor[i]]) + Used(procs, st, i);
    ok
  }

  /**
   * The ready list and the blocked table hold no process twice; a process
   * with a remainder is neither blocked nor finished; the process in hand
   * has a remainder; exactly the finished ones have a completion instant.
   */
  ghost predicate Places(n: nat, st: State, held: Option<nat>)
  {
    var ok :=
      && NoDup(st.ready) && DistinctProcs(st.blocked)
      && st.rem.Keys !! Parked(st.blocked) && st.rem.Keys !! st.done
      && Elems(st.ready) <= Below(n) && Parked(st.blocked) <= Below(n) && st.done <= Below(n) && st.rem.Keys <= Below(n)
      && InHand(held) <= st.rem.Keys
      && st.completion.Keys == st.done;
    ok
  }

  /** Every process with a remainder, except the one in hand, has CPU time left and is ready. */
  ghost predicate Queued(st: State, held: Option<nat>)
  {
    forall i :: i in st.rem && held != Some(i) ==> st.rem[i] > 0 && i in st.ready
  }

  /** A finished process has used up its plan and completed no earlier than its arrival and its CPU intervals. */
  ghost predicate Closed(procs: seq<Process>, st: State)
  {
    forall d :: d in st.done ==>
      && d < |procs| && d < |st.cursor| && d < |st.perProc|
      && st.cursor[d] == |EffectivePattern(procs[d])|
      && d in st.completion && procs[d].arrival <= st.completion[d]
      && EndsBy(st.perProc[d], st.completion[d])
  }

  /** Process `i` has been seen by the engine. */
  ghost predicate Started(st: State, i: nat)
    requires i < |st.cursor|
  {
    i in st.done || i in Parked(st.blocked) || i in st.rem || st.cursor[i] > 0
  }

  /** Every process the engine has seen has arrived. */
  ghost predicate Arrived(procs: seq<Process>, st: State)
  {
    forall i :: 0 <= i < |procs| && i < |st.cursor| && Started(st, i) ==> procs[i].arrival <= st.time
  }

  /**
   * A blocked entry: its process's cursor is just past a BLOCK segment, and
   * it unblocks no earlier than the process's arrival and its CPU intervals.
   */
  ghost predicate EntryOk(procs: seq<Process>, st: State, e: Block)
  {
    && e.proc < |procs| && e.proc < |st.cursor| && e.proc < |st.perProc|
    && 1 <= st.cursor[e.proc] <= |EffectivePattern(procs[e.proc])|
    && EffectivePattern(procs[e.proc])[st.cursor[e.proc] - 1].kind == BLOCK
    && procs[e.proc].arrival <= e.until
    && EndsBy(st.perProc[e.proc], e.until)
  }

  ghost predicate Entries(procs: seq<Process>, st: State)
  {
    forall k :: 0 <= k < |st.blocked| ==> EntryOk(procs, st, st.blocked[k])
  }

  /** Without chained zero-length BLOCK segments, no entry of the blocked table is overdue. */
  ghost predicate Fresh(procs: seq<Process>, st: State)
  {
    ChainFree(procs) ==> forall k :: 0 <= k < |st.blocked| ==> st.blocked[k].until >= st.time
  }

  /** The invariant apart from where each process is. */
  ghost predicate Core(procs: seq<Process>, st: State, held: Option<nat>)
  {
    && Frame(procs, st)
    && (forall i :: 0 <= i < |procs| ==> Track(procs, st, i))
    && Places(|procs|, st, held)
    && Queued(st, held)
    && Closed(procs, st)
    && Arrived(procs, st)
  }

  /** The parts of the invariant about the input, the table of entries and the intervals drawn. */
  ghost predicate Frame(procs: seq<Process>, st: State)
  {
    var ok :=
      && ValidInput(procs)
      && |st.cursor| == |procs| && |st.perProc| == |procs|
      && Entries(procs, st)
      && Fresh(procs, st)
      && IntervalsOk(procs, st.perProc, st.time)
      && TimelineOk(procs, st.perProc, st.timeline);
    ok
  }

  /** Those parts hold as long as the table, the cursors, the clock and what was drawn stay. */
  lemma FrameKeep(procs: seq<Process>, st: State, st': State)
    requires Frame(procs, st)
    requires st'.blocked == st.blocked && st'.cursor == st.cursor && st'.perProc == st.perProc
    requires st'.time == st.time && st'.timeline == st.timeline
    ensures Frame(procs, st')
  {
  }

  /** Process `i` is finished, blocked, has a remainder, or has not started and is not ready. */
  ghost predicate Accounted(st: State, i: nat)
  {
    || i in st.done || i in Parked(st.blocked) || i in st.rem
    || (i < |st.cursor| && st.cursor[i] == 0 && i !in st.ready)
  }

  /**
   * Every process is accounted for, and a ready process is finished, blocked
   * (both left behind on the list) or has a remainder.
   */
  ghost predicate Roles(n: nat, st: State)
  {
    var ok :=
      && (forall i: nat :: i < n ==> Accounted(st, i))
      && (forall i :: i in Elems(st.ready) ==> i in st.done || i in Parked(st.blocked) || i in st.rem);
    ok
  }

  /**
   * The loop invariant. (Bound to a name so that the verifier takes it as one
   * fact where it is passed along whole, rather than conjunct by conjunct.)
   */
  ghost predicate Inv(procs: seq<Process>, st: State, held: Option<nat>)
  {
    var ok := Core(procs, st, held) && Roles(|procs|, st); ok
  }

  /** Dropping entries from the table keeps those parts. */
  lemma FrameSub(procs: seq<Process>, st: State, st': State)
    requires Frame(procs, st)
    requires forall e :: e in st'.blocked ==> e in st.blocked
    requires st'.cursor == st.cursor && st'.perProc == st.perProc
    requires st'.time == st.time && st'.timeline == st.timeline
    ensures Frame(procs, st')
  {
    forall k | 0 <= k < |st'.blocked|
      ensures EntryOk(procs, st', st'.blocked[k]) && (ChainFree(procs) ==> st'.blocked[k].until >= st'.time)
    {
      assert st'.blocked[k] in st.blocked;
      var j :| 0 <= j < |st.blocked| && st.blocked[j] == st'.blocked[k];
      assert EntryOk(procs, st, st.blocked[j]);
    }
  }

  lemma CoreOf(procs: seq<Process>, st: State, held: Option<nat>)
    requires Frame(procs, st)
    requires forall i :: 0 <= i < |procs| ==> Track(procs, st, i)
    requires Places(|procs|, st, held) && Queued(st, held)
    requires Closed(procs, st) && Arrived(procs, st)
    ensures Core(procs, st, held)
  {
  }

  /** The invariant, assembled from its parts. */
  lemma InvOf(procs: seq<Process>, st: State, held: Option<nat>)
    requires Frame(procs, st)
    requires forall i :: 0 <= i < |procs| ==> Track(procs, st, i)
    requires Places(|procs|, st, held) && Queued(st, held)
    requires Closed(procs, st) && Arrived(procs, st) && Roles(|procs|, st)
    ensures Inv(procs, st, held)
  {
  }

  /** The invariant, except that process `x`, neither finished nor blocked, is between places. */
  ghost predicate Loose(procs: seq<Process>, st: State, held: Option<nat>, x: nat)
  {
    && Core(procs, st, held)
    && x < |procs| && x !in st.done && x !in Parked(st.blocked)
    && (forall i: nat :: i < |procs| && i != x ==> Accounted(st, i))
    && (forall i :: i in Elems(st.ready) && i != x ==> i in st.done || i in Parked(st.blocked) || i in st.rem)
  }

  // make_ready_if_cpu keeps the invariant.

  /**
   * Making process `x` ready at an instant no earlier than its arrival and
   * its CPU intervals, and no later than the clock, puts it in a place again.
   */
  lemma MakeReadyInv(procs: seq<Process>, st: State, held: Option<nat>, x: nat, now: int)
    requires Loose(procs, st, held, x)
    requires procs[x].arrival <= now <= st.time && EndsBy(st.perProc[x], now)
    requires ChainFree(procs) ==> now >= st.time
    ensures Inv(procs, MakeReady(procs, st, x, now), held)
  {
    DoneCase(procs, st, held, x, now);
    BlockCase(procs, st, held, x, now);
    CpuCase(procs, st, held, x, now);
  }

  lemma DoneCase(procs: seq<Process>, st: State, held: Option<nat>, x: nat, now: int)
    requires Loose(procs, st, held, x)
    requires procs[x].arrival <= now <= st.time && EndsBy(st.perProc[x], now)
    ensures st.cursor[x] >= |EffectivePattern(procs[x])| ==> Inv(procs, MakeReady(procs, st, x, now), held)
  {
    if st.cursor[x] >= |EffectivePattern(procs[x])| {
      assert Track(procs, st, x);
      DoneInv(procs, st, MakeReady(procs, st, x, now), held, x, now);
    }
  }

  lemma BlockCase(procs: seq<Process>, st: State, held: Option<nat>, x: nat, now: int)
    requires Loose(procs, st, held, x)
    requires procs[x].arrival <= now <= st.time && EndsBy(st.perProc[x], now)
    requires ChainFree(procs) ==> now >= st.time
    ensures st.cursor[x] < |EffectivePattern(procs[x])| && EffectivePattern(procs[x])[st.cursor[x]].kind == BLOCK ==>
              Inv(procs, MakeReady(procs, st, x, now), held)
  {
    if st.cursor[x] < |EffectivePattern(procs[x])| && EffectivePattern(procs[x])[st.cursor[x]].kind == BLOCK {
      assert Track(procs, st, x);
      assert ValidPattern(EffectivePattern(procs[x]));
      BlockShape(procs, st, held, x, now);
      BlockInv(procs, st, MakeReady(procs, st, x, now), held, x, now);
    }
  }

  /** The state make_ready_if_cpu leaves for a process facing a BLOCK segment. */
  lemma BlockShape(procs: seq<Process>, st: State, held: Option<nat>, x: nat, now: int)
    requires x < |procs| && |st.cursor| == |procs| && x !in st.done && x !in Parked(st.blocked)
    requires st.cursor[x] < |EffectivePattern(procs[x])| && EffectivePattern(procs[x])[st.cursor[x]].kind == BLOCK
    ensures MakeReady(procs, st, x, now) ==
              st.(timeline := st.timeline + BlockDrawn(procs[x].name, now, EffectivePattern(procs[x])[st.cursor[x]].duration),
                  blocked := st.blocked + [Block(x, now + EffectivePattern(procs[x])[st.cursor[x]].duration)],
                  cursor := st.cursor[x := st.cursor[x] + 1],
                  rem := st.rem - {x})
  {
  }

  lemma CpuCase(procs: seq<Process>, st: State, held: Option<nat>, x: nat, now: int)
    requires Loose(procs, st, held, x)
    requires procs[x].arrival <= now <= st.time
    ensures st.cursor[x] < |EffectivePattern(procs[x])| && EffectivePattern(procs[x])[st.cursor[x]].kind == CPU ==>
              Inv(procs, MakeReady(procs, st, x, now), held)
  {
    if st.cursor[x] < |EffectivePattern(procs[x])| && EffectivePattern(procs[x])[st.cursor[x]].kind == CPU {
      assert Track(procs, st, x);
      assert ValidPattern(EffectivePattern(procs[x]));
      CpuInv(procs, st, MakeReady(procs, st, x, now), held, x, now);
    }
  }

  lemma MinusAbsent(m: map<nat, int>, x: nat)
    requires x !in m
    ensures m - {x} == m
  {
  }

  lemma MinusUpdate(m: map<nat, int>, x: nat, v: int)
    ensures m[x := v] - {x} == m - {x}
  {
  }

  /** Track of process `i` only reads its own cursor, remainder and intervals. */
  lemma TrackSame(procs: seq<Process>, st: State, st': State, i: nat)
    requires Track(procs, st, i)
    requires |st'.cursor| == |st.cursor| && |st'.perProc| == |st.perProc|
    requires st'.cursor[i] == st.cursor[i] && st'.perProc[i] == st.perProc[i]
    requires (i in st'.rem <==> i in st.rem) && (i in st.rem ==> st'.rem[i] == st.rem[i])
    ensures Track(procs, st', i)
  {
  }

  /** A change confined to process `x` keeps every other process's track. */
  lemma TracksFrom(procs: seq<Process>, st: State, st': State, x: nat)
    requires |st.cursor| == |procs| && |st.perProc| == |procs| && |st'.cursor| == |procs| && |st'.perProc| == |procs|
    requires forall i :: 0 <= i < |procs| ==> Track(procs, st, i)
    requires x < |procs| && Track(procs, st', x)
    requires forall i :: 0 <= i < |procs| && i != x ==> st'.cursor[i] == st.cursor[i] && st'.perProc[i] == st.perProc[i]
    requires st'.rem - {x} == st.rem - {x}
    ensures forall i :: 0 <= i < |procs| ==> Track(procs, st', i)
  {
    forall i | 0 <= i < |procs| && i != x ensures Track(procs, st', i) {
      assert (i in st'.rem <==> i in st'.rem - {x}) && (i in st.rem <==> i in st.rem - {x});
      if i in st.rem {
        assert st'.rem[i] == (st'.rem - {x})[i] == (st.rem - {x})[i] == st.rem[i];
      }
      TrackSame(procs, st, st', i);
    }
  }

  /** A change confined to process `x`, which has arrived, keeps every seen process arrived. */
  lemma ArrivedFrom(procs: seq<Process>, st: State, st': State, x: nat)
    requires Arrived(procs, st)
    requires |st.cursor| == |procs| && |st'.cursor| == |procs| && x < |procs|
    requires st'.time == st.time && procs[x].arrival <= st.time
    requires st'.done <= st.done + {x} && Parked(st'.blocked) <= Parked(st.blocked) + {x}
    requires st'.rem.Keys <= st.rem.Keys + {x}
    requires forall i :: 0 <= i < |procs| && i != x ==> st'.cursor[i] == st.cursor[i]
    ensures Arrived(procs, st')
  {
    forall i | 0 <= i < |procs| && i < |st'.cursor| && Started(st', i) ensures procs[i].arrival <= st'.time {
      if i != x {
        assert Started(st, i);
      }
    }
  }

  /** The finished processes other than `x` keep their cursor, completion and intervals. */
  lemma ClosedKeep(procs: seq<Process>, st: State, st': State, x: nat)
    requires Closed(procs, st) && x !in st.done
    requires st'.done == st.done && st'.completion == st.completion && st'.perProc == st.perProc
    requires |st'.cursor| == |st.cursor|
    requires forall i :: 0 <= i < |st.cursor| && i != x ==> st'.cursor[i] == st.cursor[i]
    ensures Closed(procs, st')
  {
    forall d | d in st'.done ensures d < |st'.cursor| && st'.cursor[d] == st.cursor[d] {
    }
  }

  /**
   * Moving process `x` into a place, when nothing else moves out of one,
   * leaves every process accounted for.
   */
  lemma RolesFrom(n: nat, st: State, st': State, x: nat)
    requires x < n
    requires forall i: nat :: i < n && i != x ==> Accounted(st, i)
    requires Elems(st.ready) - {x} <= st.done + Parked(st.blocked) + st.rem.Keys
    requires Accounted(st', x)
    requires st.done <= st'.done && Parked(st.blocked) <= Parked(st'.blocked) && st.rem.Keys <= st'.rem.Keys
    requires |st'.cursor| == |st.cursor|
    requires forall i :: 0 <= i < |st.cursor| && i != x ==> st'.cursor[i] == st.cursor[i]
    requires Elems(st'.ready) <= Elems(st.ready) + {x}
    requires x in st'.ready ==> x in st'.done + Parked(st'.blocked) + st'.rem.Keys
    ensures Roles(n, st')
  {
    forall i: nat | i < n ensures Accounted(st', i) {
      if i != x {
        assert Accounted(st, i);
      }
    }
    forall y | y in Elems(st'.ready) ensures y in st'.done + Parked(st'.blocked) + st'.rem.Keys {
      if y != x {
        assert y in Elems(st.ready) - {x};
      }
    }
  }

  lemma UpdateKeys(m: map<nat, int>, x: nat, v: int)
    ensures m[x := v].Keys == m.Keys + {x}
    ensures forall i :: i in m && i != x ==> m[x := v][i] == m[i]
  {
  }

  // The completion branch.

  ghost predicate DoneMove(procs: seq<Process>, st: State, st': State, held: Option<nat>, x: nat, now: int)
  {
    && Loose(procs, st, held, x) && Track(procs, st, x)
    && st.cursor[x] >= |EffectivePattern(procs[x])|
    && procs[x].arrival <= now <= st.time && EndsBy(st.perProc[x], now)
    && st' == st.(completion := st.completion[x := now], done := st.done + {x}, rem := st.rem - {x})
  }

  /** A process with its plan used up completes at `now`. */
  lemma DoneInv(procs: seq<Process>, st: State, st': State, held: Option<nat>, x: nat, now: int)
    requires DoneMove(procs, st, st', held, x, now)
    ensures Inv(procs, st', held)
  {
    DoneTracks(procs, st, st', held, x, now);
    DonePlaces(procs, st, st', held, x, now);
    DoneClosed(procs, st, st', x, now);
    DoneArrived(procs, st, st', held, x, now);
    DoneRoles(procs, st, st', held, x, now);
    FrameKeep(procs, st, st');
    InvOf(procs, st', held);
  }

  lemma DoneTracks(procs: seq<Process>, st: State, st': State, held: Option<nat>, x: nat, now: int)
    requires DoneMove(procs, st, st', held, x, now)
    ensures forall i :: 0 <= i < |procs| ==> Track(procs, st', i)
  {
    MinusAbsent(st.rem, x);
    TracksKeep(procs, st, st');
  }

  /** Tracks read only cursors, remainders and intervals. */
  lemma TracksKeep(procs: seq<Process>, st: State, st': State)
    requires forall i :: 0 <= i < |procs| ==> Track(procs, st, i)
    requires st'.cursor == st.cursor && st'.perProc == st.perProc && st'.rem == st.rem
    ensures forall i :: 0 <= i < |procs| ==> Track(procs, st', i)
  {
    forall i | 0 <= i < |procs| ensures Track(procs, st', i) {
      assert Track(procs, st, i);
    }
  }

  lemma DonePlaces(procs: seq<Process>, st: State, st': State, held: Option<nat>, x: nat, now: int)
    requires DoneMove(procs, st, st', held, x, now)
    ensures Places(|procs|, st', held) && Queued(st', held)
  {
    MinusAbsent(st.rem, x);
  }

  lemma DoneClosed(procs: seq<Process>, st: State, st': State, x: nat, now: int)
    requires Closed(procs, st) && |st.cursor| == |procs| && |st.perProc| == |procs| && x < |procs|
    requires st.cursor[x] == |EffectivePattern(procs[x])| && procs[x].arrival <= now && EndsBy(st.perProc[x], now)
    requires st' == st.(completion := st.completion[x := now], done := st.done + {x}, rem := st.rem - {x})
    ensures Closed(procs, st')
  {
    forall d | d in st'.done && d != x ensures st'.completion[d] == st.completion[d] {
    }
  }

  lemma DoneArrived(procs: seq<Process>, st: State, st': State, held: Option<nat>, x: nat, now: int)
    requires DoneMove(procs, st, st', held, x, now)
    ensures Arrived(procs, st')
  {
    MinusAbsent(st.rem, x);
    ArrivedFrom(procs, st, st', x);
  }

  lemma DoneRoles(procs: seq<Process>, st: State, st': State, held: Option<nat>, x: nat, now: int)
    requires DoneMove(procs, st, st', held, x, now)
    ensures Roles(|procs|, st')
  {
    MinusAbsent(st.rem, x);
    RolesFrom(|procs|, st, st', x);
  }

  // The BLOCK branch.

  ghost predicate BlockMove(procs: seq<Process>, st: State, st': State, held: Option<nat>, x: nat, now: int)
  {
    && Loose(procs, st, held, x) && Track(procs, st, x) && ValidPattern(EffectivePattern(procs[x]))
    && st.cursor[x] < |EffectivePattern(procs[x])|
    && EffectivePattern(procs[x])[st.cursor[x]].kind == BLOCK
    && procs[x].arrival <= now <= st.time && EndsBy(st.perProc[x], now)
    && (ChainFree(procs) ==> now >= st.time)
    && st' == st.(timeline := st.timeline + BlockDrawn(procs[x].name, now, EffectivePattern(procs[x])[st.cursor[x]].duration),
                  blocked := st.blocked + [Block(x, now + EffectivePattern(procs[x])[st.cursor[x]].duration)],
                  cursor := st.cursor[x := st.cursor[x] + 1],
                  rem := st.rem - {x})
  }

  /** A process facing a BLOCK segment is parked until the segment's end. */
  lemma BlockInv(procs: seq<Process>, st: State, st': State, held: Option<nat>, x: nat, now: int)
    requires BlockMove(procs, st, st', held, x, now)
    ensures Inv(procs, st', held)
  {
    BlockTracks(procs, st, st', held, x, now);
    BlockPlaces(procs, st, st', held, x, now);
    BlockClosed(procs, st, st', held, x, now);
    BlockArrived(procs, st, st', held, x, now);
    BlockEntries(procs, st, st', held, x, now);
    BlockRoles(procs, st, st', held, x, now);
    InvOf(procs, st', held);
  }

  lemma BlockTracks(procs: seq<Process>, st: State, st': State, held: Option<nat>, x: nat, now: int)
    requires BlockMove(procs, st, st', held, x, now)
    ensures forall i :: 0 <= i < |procs| ==> Track(procs, st', i)
  {
    MinusAbsent(st.rem, x);
    BlockTrack(procs, st, st', x);
    TracksFrom(procs, st, st', x);
  }

  /** A BLOCK segment adds no CPU time: the parked process's track still holds past it. */
  lemma BlockTrack(procs: seq<Process>, st: State, st': State, x: nat)
    requires x < |procs| && Track(procs, st, x) && x !in st.rem && x !in st'.rem
    requires st.cursor[x] < |EffectivePattern(procs[x])|
    requires EffectivePattern(procs[x])[st.cursor[x]].kind == BLOCK
    requires st'.perProc == st.perProc && |st'.cursor| == |st.cursor|
    requires st'.cursor[x] == st.cursor[x] + 1
    ensures Track(procs, st', x)
  {
    var plan := EffectivePattern(procs[x]);
    var c := st.cursor[x];
    assert plan[..c + 1] == plan[..c] + [plan[c]];
    CpuTotalSnoc(plan[..c], plan[c]);
  }

  lemma BlockPlaces(procs: seq<Process>, st: State, st': State, held: Option<nat>, x: nat, now: int)
    requires BlockMove(procs, st, st', held, x, now)
    ensures Places(|procs|, st', held) && Queued(st', held)
  {
    MinusAbsent(st.rem, x);
    ParkedAppend(st.blocked, st'.blocked[|st.blocked|]);
    assert st'.blocked == st.blocked + [st'.blocked[|st.blocked|]];
  }

  lemma BlockClosed(procs: seq<Process>, st: State, st': State, held: Option<nat>, x: nat, now: int)
    requires BlockMove(procs, st, st', held, x, now)
    ensures Closed(procs, st')
  {
    ClosedKeep(procs, st, st', x);
  }

  lemma BlockArrived(procs: seq<Process>, st: State, st': State, held: Option<nat>, x: nat, now: int)
    requires BlockMove(procs, st, st', held, x, now)
    ensures Arrived(procs, st')
  {
    MinusAbsent(st.rem, x);
    ParkedAppend(st.blocked, st'.blocked[|st.blocked|]);
    assert st'.blocked == st.blocked + [st'.blocked[|st.blocked|]];
    ArrivedFrom(procs, st, st', x);
  }

  lemma BlockEntries(procs: seq<Process>, st: State, st': State, held: Option<nat>, x: nat, now: int)
    requires BlockMove(procs, st, st', held, x, now)
    ensures Frame(procs, st')
  {
    ParkEntries(procs, st, st', x, now);
    var plan := EffectivePattern(procs[x]);
    BlockLengthsHas(plan, st.cursor[x]);
    AddBlockDrawn(procs, st.perProc, st.timeline, st'.timeline, x, now, plan[st.cursor[x]].duration);
  }

  /** The new blocked entry is well formed, the old ones keep their processes' state, and none is overdue. */
  lemma ParkEntries(procs: seq<Process>, st: State, st': State, x: nat, now: int)
    requires Entries(procs, st) && Fresh(procs, st) && ValidInput(procs)
    requires |st.cursor| == |procs| && |st.perProc| == |procs| && x < |procs| && x !in Parked(st.blocked)
    requires st.cursor[x] < |EffectivePattern(procs[x])|
    requires EffectivePattern(procs[x])[st.cursor[x]].kind == BLOCK
    requires procs[x].arrival <= now && EndsBy(st.perProc[x], now)
    requires ChainFree(procs) ==> now >= st.time
    requires st'.time == st.time && st'.perProc == st.perProc
    requires st'.blocked == st.blocked + [Block(x, now + EffectivePattern(procs[x])[st.cursor[x]].duration)]
    requires st'.cursor == st.cursor[x := st.cursor[x] + 1]
    ensures Entries(procs, st') && Fresh(procs, st')
  {
    var d := EffectivePattern(procs[x])[st.cursor[x]].duration;
    assert ValidPattern(EffectivePattern(procs[x]));
    assert d >= 0;
    forall k | 0 <= k < |st'.blocked| ensures EntryOk(procs, st', st'.blocked[k]) {
      if k < |st.blocked| {
        assert EntryOk(procs, st, st.blocked[k]);
        assert st.blocked[k].proc in Parked(st.blocked);
      }
    }
  }

  lemma BlockRoles(procs: seq<Process>, st: State, st': State, held: Option<nat>, x: nat, now: int)
    requires BlockMove(procs, st, st', held, x, now)
    ensures Roles(|procs|, st')
  {
    MinusAbsent(st.rem, x);
    ParkedAppend(st.blocked, st'.blocked[|st.blocked|]);
    assert st'.blocked == st.blocked + [st'.blocked[|st.blocked|]];
    RolesFrom(|procs|, st, st', x);
  }

  // The CPU branch.

  ghost predicate CpuMove(procs: seq<Process>, st: State, st': State, held: Option<nat>, x: nat, now: int)
  {
    && Loose(procs, st, held, x) && Track(procs, st, x) && ValidPattern(EffectivePattern(procs[x]))
    && st.cursor[x] < |EffectivePattern(procs[x])|
    && EffectivePattern(procs[x])[st.cursor[x]].kind == CPU
    && procs[x].arrival <= now <= st.time
    && st' == st.(rem := if x in st.rem then st.rem else st.rem[x := EffectivePattern(procs[x])[st.cursor[x]].duration],
                  ready := if x in st.ready then st.ready else st.ready + [x])
  }

  /** A process facing a CPU segment keeps or takes a remainder and is on the ready list. */
  lemma CpuInv(procs: seq<Process>, st: State, st': State, held: Option<nat>, x: nat, now: int)
    requires CpuMove(procs, st, st', held, x, now)
    ensures Inv(procs, st', held)
  {
    CpuTracks(procs, st, st', held, x, now);
    CpuQueue(procs, st, st', held, x, now);
    CpuClosed(procs, st, st', held, x, now);
    CpuArrived(procs, st, st', held, x, now);
    CpuRoles(procs, st, st', held, x, now);
    CpuRest(procs, st, st', held, x, now);
    InvOf(procs, st', held);
  }

  lemma CpuRest(procs: seq<Process>, st: State, st': State, held: Option<nat>, x: nat, now: int)
    requires CpuMove(procs, st, st', held, x, now)
    ensures Frame(procs, st')
  {
    FrameKeep(procs, st, st');
  }

  lemma CpuTracks(procs: seq<Process>, st: State, st': State, held: Option<nat>, x: nat, now: int)
    requires CpuMove(procs, st, st', held, x, now)
    ensures forall i :: 0 <= i < |procs| ==> Track(procs, st', i)
  {
    CpuFacts(procs, st, st', held, x, now);
    TracksFrom(procs, st, st', x);
  }

  lemma CpuQueue(procs: seq<Process>, st: State, st': State, held: Option<nat>, x: nat, now: int)
    requires CpuMove(procs, st, st', held, x, now)
    ensures Places(|procs|, st', held) && Queued(st', held)
  {
    CpuFacts(procs, st, st', held, x, now);
    CpuPlaces(procs, st, st', held, x);
    CpuQueued(st, st', held, x);
  }

  /** What the CPU branch changes, field by field. */
  lemma CpuFacts(procs: seq<Process>, st: State, st': State, held: Option<nat>, x: nat, now: int)
    requires CpuMove(procs, st, st', held, x, now)
    ensures forall i :: 0 <= i < |procs| ==> Track(procs, st, i)
    ensures Track(procs, st', x)
    ensures st'.cursor == st.cursor && st'.perProc == st.perProc
    ensures st'.rem.Keys == st.rem.Keys + {x} && st'.rem - {x} == st.rem - {x}
    ensures forall i :: i in st.rem && i != x ==> st'.rem[i] == st.rem[i]
    ensures x in st.rem ==> st'.rem == st.rem
    ensures x in st'.rem && (held != Some(x) ==> st'.rem[x] > 0)
    ensures x !in st.rem ==> st'.rem[x] == EffectivePattern(procs[x])[st.cursor[x]].duration
    ensures st'.done == st.done
    ensures Elems(st'.ready) == Elems(st.ready) + {x}
  {
    RemFacts(st.rem, st'.rem, x, EffectivePattern(procs[x])[st.cursor[x]].duration);
    if x in st.rem && held != Some(x) {
      assert Queued(st, held);
    }
  }

  /** Giving `x` the remainder `d` unless it has one. */
  lemma RemFacts(m: map<nat, int>, m': map<nat, int>, x: nat, d: int)
    requires m' == if x in m then m else m[x := d]
    ensures m'.Keys == m.Keys + {x} && m' - {x} == m - {x}
    ensures forall i :: i in m && i != x ==> m'[i] == m[i]
    ensures x in m ==> m' == m
    ensures x in m' && (x !in m ==> m'[x] == d)
  {
    if x !in m {
      MinusUpdate(m, x, d);
      UpdateKeys(m, x, d);
    }
  }

  /** The CPU-facing process is ready with time left, and stays off the blocked table and the finished set. */
  lemma CpuPlaces(procs: seq<Process>, st: State, st': State, held: Option<nat>, x: nat)
    requires Places(|procs|, st, held) && x < |procs|
    requires x !in st.done && x !in Parked(st.blocked)
    requires st'.rem.Keys == st.rem.Keys + {x}
    requires st'.ready == if x in st.ready then st.ready else st.ready + [x]
    requires st'.blocked == st.blocked && st'.done == st.done && st'.completion == st.completion
    ensures Places(|procs|, st', held)
  {
    assert NoDup(st'.ready) && Elems(st'.ready) == Elems(st.ready) + {x} by {
      if x !in st.ready {
        Extend(st.ready, [x]);
      }
    }
  }

  /** The CPU-facing process is ready with time left, and the other remainders stay. */
  lemma CpuQueued(st: State, st': State, held: Option<nat>, x: nat)
    requires Queued(st, held)
    requires st'.rem.Keys == st.rem.Keys + {x} && x in st'.rem && (held != Some(x) ==> st'.rem[x] > 0)
    requires forall i :: i in st.rem && i != x ==> st'.rem[i] == st.rem[i]
    requires st'.ready == if x in st.ready then st.ready else st.ready + [x]
    ensures Queued(st', held)
  {
    forall i | i in st'.rem && held != Some(i) ensures st'.rem[i] > 0 && i in st'.ready {
      if i != x {
        assert i in st.rem;
      }
    }
  }

  lemma CpuClosed(procs: seq<Process>, st: State, st': State, held: Option<nat>, x: nat, now: int)
    requires CpuMove(procs, st, st', held, x, now)
    ensures Closed(procs, st')
  {
    ClosedKeep(procs, st, st', x);
  }

  lemma CpuArrived(procs: seq<Process>, st: State, st': State, held: Option<nat>, x: nat, now: int)
    requires CpuMove(procs, st, st', held, x, now)
    ensures Arrived(procs, st')
  {
    CpuFacts(procs, st, st', held, x, now);
    ArrivedFrom(procs, st, st', x);
  }

  lemma CpuRoles(procs: seq<Process>, st: State, st': State, held: Option<nat>, x: nat, now: int)
    requires CpuMove(procs, st, st', held, x, now)
    ensures Roles(|procs|, st')
  {
    CpuFacts(procs, st, st', held, x, now);
    RolesFrom(|procs|, st, st', x);
  }

  // ---------------------------------------------------------------------------
  // The release of one blocked process keeps the invariant.

  /** The blocked table with the entry of `p` popped. */
  ghost predicate Lift(procs: seq<Process>, st: State, st': State, held: Option<nat>, p: nat)
  {
    Inv(procs, st, held) && p in Parked(st.blocked) && st' == st.(blocked := Without(st.blocked, p))
  }

  lemma LiftFacts(procs: seq<Process>, st: State, st': State, held: Option<nat>, p: nat)
    requires Lift(procs, st, st', held, p)
    ensures DistinctProcs(st'.blocked) && Parked(st'.blocked) == Parked(st.blocked) - {p}
    ensures forall e :: e in st'.blocked ==> e in st.blocked
  {
    WithoutMembers(st.blocked, p);
  }

  lemma LiftCore(procs: seq<Process>, st: State, st': State, held: Option<nat>, p: nat)
    requires Lift(procs, st, st', held, p)
    ensures Core(procs, st', held)
  {
    TracksKeep(procs, st, st');
    LiftArrived(procs, st, st', held, p);
    LiftEntries(procs, st, st', held, p);
    LiftPlaces(procs, st, st', held, p);
    KeepClosed(procs, st, st');
    CoreOf(procs, st', held);
  }

  lemma LiftPlaces(procs: seq<Process>, st: State, st': State, held: Option<nat>, p: nat)
    requires Lift(procs, st, st', held, p)
    ensures Places(|procs|, st', held) && Queued(st', held)
  {
    LiftFacts(procs, st, st', held, p);
  }

  lemma LiftArrived(procs: seq<Process>, st: State, st': State, held: Option<nat>, p: nat)
    requires Lift(procs, st, st', held, p)
    ensures Arrived(procs, st')
  {
    LiftFacts(procs, st, st', held, p);
    forall i | 0 <= i < |procs| && i < |st'.cursor| && Started(st', i) ensures procs[i].arrival <= st'.time {
      assert Started(st, i);
    }
  }

  lemma LiftEntries(procs: seq<Process>, st: State, st': State, held: Option<nat>, p: nat)
    requires Lift(procs, st, st', held, p)
    ensures Frame(procs, st')
  {
    LiftFacts(procs, st, st', held, p);
    FrameSub(procs, st, st');
  }

  /** With the entry of a process not yet finished popped, that process is between places. */
  lemma LiftLoose(procs: seq<Process>, st: State, st': State, held: Option<nat>, p: nat)
    requires Lift(procs, st, st', held, p) && p !in st.done
    ensures Loose(procs, st', held, p)
  {
    LiftFacts(procs, st, st', held, p);
    LiftCore(procs, st, st', held, p);
    forall i: nat | i < |procs| && i != p ensures Accounted(st', i) {
      assert Accounted(st, i);
    }
  }

  /** The entry of a finished process is popped and nothing else happens. */
  lemma LiftDone(procs: seq<Process>, st: State, st': State, held: Option<nat>, p: nat)
    requires Lift(procs, st, st', held, p) && p in st.done
    ensures Inv(procs, st', held) && Unblock(procs, st, p, UntilOf(st.blocked, p)) == st'
  {
    LiftFacts(procs, st, st', held, p);
    LiftCore(procs, st, st', held, p);
    forall i: nat | i < |procs| ensures Accounted(st', i) {
      assert Accounted(st, i);
    }
  }

  /** The recorded unblock instant of a blocked process comes after its arrival and CPU intervals, and is not overdue. */
  lemma EntryFacts(procs: seq<Process>, st: State, held: Option<nat>, p: nat)
    requires Inv(procs, st, held) && p in Parked(st.blocked)
    ensures p < |procs| && procs[p].arrival <= UntilOf(st.blocked, p) && EndsBy(st.perProc[p], UntilOf(st.blocked, p))
    ensures ChainFree(procs) ==> UntilOf(st.blocked, p) >= st.time
    ensures 1 <= st.cursor[p] <= |EffectivePattern(procs[p])|
    ensures EffectivePattern(procs[p])[st.cursor[p] - 1].kind == BLOCK
  {
    EntryOf(procs, st, p);
  }

  lemma EntryOf(procs: seq<Process>, st: State, p: nat)
    requires Entries(procs, st) && Fresh(procs, st) && DistinctProcs(st.blocked) && p in Parked(st.blocked)
    ensures p < |procs| && p < |st.perProc| && p < |st.cursor|
    ensures procs[p].arrival <= UntilOf(st.blocked, p) && EndsBy(st.perProc[p], UntilOf(st.blocked, p))
    ensures ChainFree(procs) ==> UntilOf(st.blocked, p) >= st.time
    ensures 1 <= st.cursor[p] <= |EffectivePattern(procs[p])|
    ensures EffectivePattern(procs[p])[st.cursor[p] - 1].kind == BLOCK
  {
    var k :| 0 <= k < |st.blocked| && st.blocked[k].proc == p;
    DistinctIsNoDup(st.blocked);
    UntilOfAt(st.blocked, k);
    var e := st.blocked[k];
    assert EntryOk(procs, st, e) && e.proc == p && e.until == UntilOf(st.blocked, p);
  }

  /** Releasing a blocked process at its recorded instant, when that instant has come, keeps the invariant. */
  lemma UnblockInv(procs: seq<Process>, st: State, held: Option<nat>, p: nat)
    requires Inv(procs, st, held) && p in Parked(st.blocked) && UntilOf(st.blocked, p) <= st.time
    ensures p < |procs| && Inv(procs, Unblock(procs, st, p, UntilOf(st.blocked, p)), held)
  {
    var st' := st.(blocked := Without(st.blocked, p));
    EntryFacts(procs, st, held, p);
    if p in st.done {
      LiftDone(procs, st, st', held, p);
    } else {
      LiftLoose(procs, st, st', held, p);
      MakeReadyInv(procs, st', held, p, UntilOf(st.blocked, p));
    }
  }

  // ---------------------------------------------------------------------------
  // The measures that bound the main loop.

  /** The work left for process `i`: its CPU time left plus one step per segment from its cursor on. */
  function Left(procs: seq<Process>, st: State, i: nat): int
    requires i < |procs| && i < |st.cursor|
  {
    Rest(procs, st, i) + (|EffectivePattern(procs[i])| - st.cursor[i])
  }

  /** The work left for the processes below `j`. */
  function Todo(procs: seq<Process>, st: State, j: nat): int
    requires j <= |procs| && |st.cursor| == |procs|
  {
    if j == 0 then 0 else Todo(procs, st, j - 1) + Left(procs, st, j - 1)
  }

  /** The work left, plus one step per process not yet finished. */
  function Effort(procs: seq<Process>, st: State): int
    requires |st.cursor| == |procs|
  {
    Todo(procs, st, |procs|) + (|procs| - |st.done|)
  }

  /** The arrivals and unblocks still to come after the clock. */
  function Future(procs: seq<Process>, st: State): nat
    requires |st.cursor| == |procs|
  {
    CountAfter(Unstarted(procs, st.cursor, st.done, |procs|), st.time) + BlockedAfter(st.blocked, st.time)
  }

  /** The ready entries left behind by a process that finished or blocked. */
  function Phantoms(st: State): nat
  {
    |Elems(st.ready) - st.rem.Keys|
  }

  /** `st'` is no further from the end than `st`, lexicographically on work, events and stale entries. */
  ghost predicate Within(procs: seq<Process>, st': State, st: State)
    requires |st.cursor| == |procs| && |st'.cursor| == |procs|
  {
    || Effort(procs, st') < Effort(procs, st)
    || (&& Effort(procs, st') == Effort(procs, st)
        && (|| Future(procs, st') < Future(procs, st)
            || (Future(procs, st') == Future(procs, st) && Phantoms(st') <= Phantoms(st))))
  }

  /** `st'` is strictly closer to the end than `st`. */
  ghost predicate Gains(procs: seq<Process>, st': State, st: State)
    requires |st.cursor| == |procs| && |st'.cursor| == |procs|
  {
    || Effort(procs, st') < Effort(procs, st)
    || (&& Effort(procs, st') == Effort(procs, st)
        && (|| Future(procs, st') < Future(procs, st)
            || (Future(procs, st') == Future(procs, st) && Phantoms(st') < Phantoms(st))))
  }

  lemma WithinTrans(procs: seq<Process>, a: State, b: State, c: State)
    requires |a.cursor| == |procs| && |b.cursor| == |procs| && |c.cursor| == |procs|
    requires Within(procs, c, b) && Within(procs, b, a)
    ensures Within(procs, c, a)
    ensures Gains(procs, b, a) ==> Gains(procs, c, a)
    ensures Gains(procs, c, b) ==> Gains(procs, c, a)
  {
  }

  lemma SubsetCard(a: set<nat>, b: set<nat>)
    requires a <= b
    ensures |a| <= |b|
  {
    assert b == a + (b - a);
  }

  lemma ValidSuffix(pat: seq<Segment>, c: nat)
    requires ValidPattern(pat) && c <= |pat|
    ensures ValidPattern(pat[c..])
  {
    assert forall k :: 0 <= k < |pat| - c ==> pat[c..][k] == pat[c + k];
  }

  /** Under the invariant no process has negative work left. */
  lemma LeftNonNeg(procs: seq<Process>, st: State, i: nat)
    requires ValidInput(procs) && i < |procs| && Track(procs, st, i)
    ensures Left(procs, st, i) >= 0
  {
    var plan := EffectivePattern(procs[i]);
    var c := st.cursor[i];
    assert ValidPattern(plan);
    if i in st.rem {
      ValidSuffix(plan, c + 1);
      CpuTotalNonNeg(plan[c + 1..]);
    } else {
      ValidSuffix(plan, c);
      CpuTotalNonNeg(plan[c..]);
    }
  }

  lemma {:induction false} TodoNonNeg(procs: seq<Process>, st: State, j: nat)
    requires ValidInput(procs) && j <= |procs| && |st.cursor| == |procs|
    requires forall i :: 0 <= i < |procs| ==> Track(procs, st, i)
    ensures Todo(procs, st, j) >= 0
  {
    if j > 0 {
      TodoNonNeg(procs, st, j - 1);
      LeftNonNeg(procs, st, j - 1);
    }
  }

  lemma EffortNonNeg(procs: seq<Process>, st: State, held: Option<nat>)
    requires Core(procs, st, held)
    ensures Effort(procs, st) >= 0
  {
    TodoNonNeg(procs, st, |procs|);
    BoundedCard(st.done, |procs|);
  }

  /** Changing only process `x`'s work changes the total by the same amount. */
  lemma {:induction false} TodoFrame(procs: seq<Process>, st: State, st': State, x: nat, j: nat)
    requires j <= |procs| && |st.cursor| == |procs| && |st'.cursor| == |procs|
    requires forall i :: 0 <= i < |procs| && i != x ==> Left(procs, st', i) == Left(procs, st, i)
    ensures Todo(procs, st', j) == Todo(procs, st, j) + (if x < j then Left(procs, st', x) - Left(procs, st, x) else 0)
  {
    if j > 0 {
      TodoFrame(procs, st, st', x, j - 1);
    }
  }

  /** The work of a process reads only its cursor and remainder. */
  lemma LeftsFrom(procs: seq<Process>, st: State, st': State, x: nat)
    requires |st.cursor| == |procs| && |st'.cursor| == |procs|
    requires forall i :: 0 <= i < |procs| && i != x ==> st'.cursor[i] == st.cursor[i]
    requires st'.rem - {x} == st.rem - {x}
    ensures forall i :: 0 <= i < |procs| && i != x ==> Left(procs, st', i) == Left(procs, st, i)
  {
    forall i | 0 <= i < |procs| && i != x ensures Left(procs, st', i) == Left(procs, st, i) {
      assert (i in st'.rem <==> i in st'.rem - {x}) && (i in st.rem <==> i in st.rem - {x});
      if i in st.rem {
        assert st'.rem[i] == (st'.rem - {x})[i] == (st.rem - {x})[i] == st.rem[i];
      }
    }
  }

  /** Completing a process takes one step off the work left. */
  lemma DoneWithin(procs: seq<Process>, st: State, st': State, x: nat, now: int)
    requires |st.cursor| == |procs| && x < |procs| && x !in st.done && x !in st.rem
    requires st.cursor[x] == |EffectivePattern(procs[x])|
    requires st' == st.(completion := st.completion[x := now], done := st.done + {x}, rem := st.rem - {x})
    ensures Effort(procs, st') == Effort(procs, st) - 1
  {
    MinusAbsent(st.rem, x);
    LeftsFrom(procs, st, st', x);
    TodoFrame(procs, st, st', x, |procs|);
  }

  /** Parking a process moves its cursor past a segment that holds no CPU time. */
  lemma BlockWithin(procs: seq<Process>, st: State, st': State, x: nat)
    requires |st.cursor| == |procs| && x < |procs| && x !in st.rem
    requires st.cursor[x] < |EffectivePattern(procs[x])| && EffectivePattern(procs[x])[st.cursor[x]].kind == BLOCK
    requires st'.cursor == st.cursor[x := st.cursor[x] + 1] && st'.rem == st.rem - {x} && st'.done == st.done
    ensures Effort(procs, st') == Effort(procs, st) - 1
  {
    var plan := EffectivePattern(procs[x]);
    var c := st.cursor[x];
    MinusAbsent(st.rem, x);
    assert plan[c..][1..] == plan[c + 1..];
    LeftsFrom(procs, st, st', x);
    TodoFrame(procs, st, st', x, |procs|);
  }

  /** Readying a process for a CPU segment keeps the work and the events, and takes no stale entry in. */
  lemma CpuWithin(procs: seq<Process>, st: State, st': State, held: Option<nat>, x: nat, now: int)
    requires CpuMove(procs, st, st', held, x, now)
    ensures Effort(procs, st') == Effort(procs, st) && Future(procs, st') == Future(procs, st)
    ensures Phantoms(st') <= Phantoms(st)
  {
    CpuEffort(procs, st, st', held, x, now);
    CpuFacts(procs, st, st', held, x, now);
    PhantomsShrink(st, st', x);
  }

  lemma CpuEffort(procs: seq<Process>, st: State, st': State, held: Option<nat>, x: nat, now: int)
    requires CpuMove(procs, st, st', held, x, now)
    ensures Effort(procs, st') == Effort(procs, st)
  {
    CpuFacts(procs, st, st', held, x, now);
    TakeRemainder(procs, st, st', x);
  }

  /** Giving a process the length of its CPU segment as remainder leaves its work unchanged. */
  lemma TakeRemainder(procs: seq<Process>, st: State, st': State, x: nat)
    requires |st.cursor| == |procs| && st'.cursor == st.cursor && st'.done == st.done && x < |procs|
    requires st.cursor[x] < |EffectivePattern(procs[x])| && EffectivePattern(procs[x])[st.cursor[x]].kind == CPU
    requires st'.rem - {x} == st.rem - {x} && x in st'.rem
    requires x in st.rem ==> st'.rem[x] == st.rem[x]
    requires x !in st.rem ==> st'.rem[x] == EffectivePattern(procs[x])[st.cursor[x]].duration
    ensures Effort(procs, st') == Effort(procs, st)
  {
    var plan := EffectivePattern(procs[x]);
    var c := st.cursor[x];
    assert plan[c..][1..] == plan[c + 1..];
    LeftsFrom(procs, st, st', x);
    TodoFrame(procs, st, st', x, |procs|);
  }

  /** A process that joins the ready list together with a remainder leaves no stale entry. */
  lemma PhantomsShrink(st: State, st': State, x: nat)
    requires Elems(st'.ready) == Elems(st.ready) + {x} && st'.rem.Keys == st.rem.Keys + {x}
    ensures Phantoms(st') <= Phantoms(st)
  {
    SubsetCard(Elems(st'.ready) - st'.rem.Keys, Elems(st.ready) - st.rem.Keys);
  }

  /** make_ready_if_cpu never moves the engine further from the end. */
  lemma MakeReadyWithin(procs: seq<Process>, st: State, held: Option<nat>, x: nat, now: int)
    requires Loose(procs, st, held, x)
    requires procs[x].arrival <= now <= st.time && EndsBy(st.perProc[x], now)
    requires ChainFree(procs) ==> now >= st.time
    ensures Within(procs, MakeReady(procs, st, x, now), st)
  {
    var st' := MakeReady(procs, st, x, now);
    var plan := EffectivePattern(procs[x]);
    var c := st.cursor[x];
    assert Track(procs, st, x);
    assert ValidPattern(plan);
    if c >= |plan| {
      DoneWithin(procs, st, st', x, now);
    } else if plan[c].kind == BLOCK {
      BlockWithin(procs, st, st', x);
    } else {
      CpuWithin(procs, st, st', held, x, now);
    }
  }

  // ---------------------------------------------------------------------------
  // What the release of one process changes besides the invariant.

  /** The unblock order visits every blocked process once, and only those. */
  lemma OrderFacts(b: seq<Block>)
    requires DistinctProcs(b)
    ensures NoDup(UnblockOrder(b))
    ensures forall j :: 0 <= j < |UnblockOrder(b)| ==> UnblockOrder(b)[j] in Parked(b)
    ensures forall i :: 0 <= i < |b| ==> b[i].proc in UnblockOrder(b)
  {
    var o := UnblockOrder(b);
    DistinctIsNoDup(b);
    SortByNoDup(Procs(b), UntilKey(b));
    SortByMultiset(Procs(b), UntilKey(b));
    forall j | 0 <= j < |o| ensures o[j] in Parked(b) {
      assert o[j] in multiset(o);
      assert o[j] in Procs(b);
    }
    forall i | 0 <= i < |b| ensures b[i].proc in o {
      assert Procs(b)[i] in multiset(Procs(b));
    }
  }

  /** Releasing a due process never moves the engine further from the end. */
  lemma UnblockWithin(procs: seq<Process>, st: State, held: Option<nat>, p: nat)
    requires Inv(procs, st, held) && p in Parked(st.blocked) && UntilOf(st.blocked, p) <= st.time
    ensures p < |procs| && |Unblock(procs, st, p, UntilOf(st.blocked, p)).cursor| == |procs|
    ensures Within(procs, Unblock(procs, st, p, UntilOf(st.blocked, p)), st)
  {
    var st0 := st.(blocked := Without(st.blocked, p));
    EntryFacts(procs, st, held, p);
    LiftSame(procs, st, st0, p);
    if p in st.done {
      LiftDone(procs, st, st0, held, p);
    } else {
      LiftLoose(procs, st, st0, held, p);
      MakeReadyWithin(procs, st0, held, p, UntilOf(st.blocked, p));
      WithinTrans(procs, st, st0, Unblock(procs, st, p, UntilOf(st.blocked, p)));
    }
  }

  /** Popping a due entry changes neither the work, nor the events to come, nor the stale entries. */
  lemma LiftSame(procs: seq<Process>, st: State, st': State, p: nat)
    requires |st.cursor| == |procs| && DistinctProcs(st.blocked) && UntilOf(st.blocked, p) <= st.time
    requires st' == st.(blocked := Without(st.blocked, p))
    ensures Effort(procs, st') == Effort(procs, st) && Future(procs, st') == Future(procs, st)
    ensures Phantoms(st') == Phantoms(st)
  {
    LeftsFrom(procs, st, st', p);
    TodoFrame(procs, st, st', p, |procs|);
    BlockedAfterWithout(st.blocked, p, st.time);
  }

  /** Making a process ready keeps every arrived, unstarted process admitted. */
  lemma AdmitKeep(procs: seq<Process>, st: State, x: nat, now: int, j: nat)
    requires x < |procs| && |st.cursor| == |procs| && j <= |procs| && AdmittedBelow(procs, st, j)
    ensures AdmittedBelow(procs, MakeReady(procs, st, x, now), j)
  {
  }

  /** Making ready an arrived process that is neither finished nor blocked admits it. */
  lemma AdmitNew(procs: seq<Process>, st: State, x: nat, now: int)
    requires x < |procs| && |st.cursor| == |procs| && AdmittedBelow(procs, st, x)
    requires x !in st.done && x !in Parked(st.blocked)
    ensures AdmittedBelow(procs, MakeReady(procs, st, x, now), x + 1)
  {
    AdmitKeep(procs, st, x, now, x);
  }

  /** Every process that has arrived by the clock and not started, among the first `j`, is ready or holds a remainder. */
  ghost predicate AdmittedBelow(procs: seq<Process>, st: State, j: nat)
  {
    forall i :: 0 <= i < j && i < |procs| && i < |st.cursor| && st.cursor[i] == 0 && i !in st.done && procs[i].arrival <= st.time
      ==> i in st.ready || i in st.rem
  }

  ghost predicate Admitted(procs: seq<Process>, st: State)
  {
    AdmittedBelow(procs, st, |procs|)
  }

  /** Making a process ready leaves the blocked table alone or appends the entry of that process. */
  lemma ReadyBlocked(procs: seq<Process>, st: State, x: nat, now: int)
    requires x < |procs| && |st.cursor| == |procs|
    ensures || MakeReady(procs, st, x, now).blocked == st.blocked
            || (&& x !in st.done && x !in Parked(st.blocked)
                && st.cursor[x] < |EffectivePattern(procs[x])| && EffectivePattern(procs[x])[st.cursor[x]].kind == BLOCK
                && MakeReady(procs, st, x, now).blocked == st.blocked + [Block(x, now + EffectivePattern(procs[x])[st.cursor[x]].duration)])
  {
  }

  /** Releasing a process keeps every other blocked process blocked until the same instant. */
  lemma UnblockOthers(procs: seq<Process>, st: State, p: nat, u: int, q: nat)
    requires p < |procs| && |st.cursor| == |procs| && DistinctProcs(st.blocked)
    requires q != p && q in Parked(st.blocked)
    ensures q in Parked(Unblock(procs, st, p, u).blocked)
    ensures UntilOf(Unblock(procs, st, p, u).blocked, q) == UntilOf(st.blocked, q)
  {
    var st0 := st.(blocked := Without(st.blocked, p));
    WithoutMembers(st.blocked, p);
    UntilOfWithout(st.blocked, p, q);
    ReadyBlocked(procs, st0, p, u);
    var b' := Unblock(procs, st, p, u).blocked;
    if b' != st0.blocked {
      var e := b'[|b'| - 1];
      assert b' == st0.blocked + [e];
      ParkedConcat(st0.blocked, [e]);
      UntilOfAppend(st0.blocked, e, q);
    }
  }

  /**
   * After releasing `p`, the table holds the old entries of the other
   * processes and at most a new entry of `p`, which lies after the clock
   * when no plan chains zero-length BLOCK segments.
   */
  lemma UnblockEntries(procs: seq<Process>, st: State, p: nat, b': seq<Block>)
    requires Entries(procs, st) && Fresh(procs, st) && DistinctProcs(st.blocked) && p in Parked(st.blocked)
    requires |st.cursor| == |procs| && UntilOf(st.blocked, p) <= st.time
    requires p < |procs| && b' == Unblock(procs, st, p, UntilOf(st.blocked, p)).blocked
    ensures forall i :: 0 <= i < |b'| ==>
              || (b'[i].proc != p && b'[i] in st.blocked)
              || (b'[i].proc == p && (ChainFree(procs) ==> b'[i].until > st.time))
  {
    EntryOf(procs, st, p);
    var u := UntilOf(st.blocked, p);
    var w := Without(st.blocked, p);
    WithoutOthers(st.blocked, p);
    ReadyBlocked(procs, st.(blocked := w), p, u);
    var c := st.cursor[p];
    var e := Block(p, u + if c < |EffectivePattern(procs[p])| then EffectivePattern(procs[p])[c].duration else 0);
    if b' != w {
      ChainStep(procs, p, c);
    }
    TableShape(st.blocked, w, b', e, st.time, ChainFree(procs));
  }

  /** The entries left once `p` is popped belong to other processes and were there before. */
  lemma WithoutOthers(b: seq<Block>, p: nat)
    requires DistinctProcs(b)
    ensures forall e :: e in Without(b, p) ==> e.proc != p && e in b
  {
    WithoutMembers(b, p);
    forall e | e in Without(b, p) ensures e.proc != p {
      assert e.proc in Parked(Without(b, p));
    }
  }

  lemma TableShape(b: seq<Block>, w: seq<Block>, b': seq<Block>, e: Block, t: int, late: bool)
    requires forall f :: f in w ==> f.proc != e.proc && f in b
    requires b' == w || (b' == w + [e] && (late ==> e.until > t))
    ensures forall i :: 0 <= i < |b'| ==>
              || (b'[i].proc != e.proc && b'[i] in b)
              || (b'[i].proc == e.proc && (late ==> b'[i].until > t))
  {
    forall i | 0 <= i < |b'|
      ensures || (b'[i].proc != e.proc && b'[i] in b)
              || (b'[i].proc == e.proc && (late ==> b'[i].until > t))
    {
      if i < |w| {
        assert b'[i] == w[i];
      }
    }
  }

  /** Without chained zero-length BLOCK segments, a BLOCK segment right after another lasts a positive time. */
  lemma ChainStep(procs: seq<Process>, p: nat, c: nat)
    requires p < |procs| && 1 <= c < |EffectivePattern(procs[p])|
    requires EffectivePattern(procs[p])[c - 1].kind == BLOCK && EffectivePattern(procs[p])[c].kind == BLOCK
    ensures ChainFree(procs) ==> EffectivePattern(procs[p])[c].duration > 0
  {
    if ChainFree(procs) {
      assert NoZeroChain(EffectivePattern(procs[p]));
      assert !ZeroChainAt(EffectivePattern(procs[p]), c);
    }
  }

  // ---------------------------------------------------------------------------
  // Step 1 of the event processing: releasing the due blocked processes.

  /** Releases `p` when it is blocked and its unblock instant has come. */
  function ReleaseOne(procs: seq<Process>, st: State, p: nat): (r: State)
    requires |st.cursor| == |procs|
    ensures r.time == st.time && |r.cursor| == |st.cursor|
  {
    if p < |procs| && p in Parked(st.blocked) && UntilOf(st.blocked, p) <= st.time then
      Unblock(procs, st, p, UntilOf(st.blocked, p))
    else
      st
  }

  /** Visits the processes of `order` in turn, releasing each one that is due. */
  function ReleaseAll(procs: seq<Process>, st: State, order: seq<nat>): (r: State)
    requires |st.cursor| == |procs|
    ensures r.time == st.time && |r.cursor| == |st.cursor|
  {
    if order == [] then st else ReleaseOne(procs, ReleaseAll(procs, st, order[..|order| - 1]), order[|order| - 1])
  }

  /** Every entry of the blocked table lies after the clock. */
  ghost predicate Clear(st: State)
  {
    forall k :: 0 <= k < |st.blocked| ==> st.blocked[k].until > st.time
  }

  /** What the release loop keeps of the engine's state after `k` visits. */
  ghost predicate Kept(procs: seq<Process>, st: State, cur: State, held: Option<nat>)
  {
    && |st.cursor| == |procs|
    && Inv(procs, cur, held) && cur.time == st.time && Within(procs, cur, st)
    && (Admitted(procs, st) ==> Admitted(procs, cur))
  }

  /** The processes still to visit are blocked. */
  ghost predicate Pending(cur: State, order: seq<nat>, k: nat)
  {
    forall j :: k <= j < |order| ==> order[j] in Parked(cur.blocked)
  }

  /** Without chained zero-length BLOCK segments, every due entry belongs to a process still to visit. */
  ghost predicate Due(procs: seq<Process>, cur: State, order: seq<nat>, k: nat)
    requires k <= |order|
  {
    ChainFree(procs) ==> forall i :: 0 <= i < |cur.blocked| ==> cur.blocked[i].until > cur.time || cur.blocked[i].proc in order[k..]
  }

  lemma StepKept(procs: seq<Process>, st: State, cur: State, cur': State, held: Option<nat>, p: nat)
    requires Kept(procs, st, cur, held) && p in Parked(cur.blocked) && cur' == ReleaseOne(procs, cur, p)
    ensures Kept(procs, st, cur', held)
  {
    if UntilOf(cur.blocked, p) <= cur.time {
      UnblockInv(procs, cur, held, p);
      UnblockWithin(procs, cur, held, p);
      WithinTrans(procs, st, cur, cur');
      if Admitted(procs, st) {
        AdmitKeep(procs, cur.(blocked := Without(cur.blocked, p)), p, UntilOf(cur.blocked, p), |procs|);
      }
    }
  }

  lemma StepPending(procs: seq<Process>, cur: State, cur': State, order: seq<nat>, k: nat)
    requires |cur.cursor| == |procs| && DistinctProcs(cur.blocked)
    requires k < |order| && NoDup(order) && Pending(cur, order, k) && cur' == ReleaseOne(procs, cur, order[k])
    ensures Pending(cur', order, k + 1)
  {
    var p := order[k];
    if p < |procs| && p in Parked(cur.blocked) && UntilOf(cur.blocked, p) <= cur.time {
      forall j | k + 1 <= j < |order| ensures order[j] in Parked(cur'.blocked) {
        UnblockOthers(procs, cur, p, UntilOf(cur.blocked, p), order[j]);
      }
    }
  }

  lemma StepDue(procs: seq<Process>, cur: State, cur': State, order: seq<nat>, k: nat)
    requires |cur.cursor| == |procs| && Entries(procs, cur) && Fresh(procs, cur) && DistinctProcs(cur.blocked)
    requires k < |order| && order[k] in Parked(cur.blocked) && Due(procs, cur, order, k)
    requires cur' == ReleaseOne(procs, cur, order[k])
    ensures Due(procs, cur', order, k + 1)
  {
    var p := order[k];
    if ChainFree(procs) {
      EntryOf(procs, cur, p);
      if UntilOf(cur.blocked, p) <= cur.time {
        UnblockEntries(procs, cur, p, cur'.blocked);
      } else {
        StillBlocked(cur.blocked, p, cur.time);
      }
      DueShift(cur.blocked, cur'.blocked, cur.time, order, k, true);
    }
  }

  /** When `p` is not yet due, its entry lies after `t`. */
  lemma StillBlocked(b: seq<Block>, p: nat, t: int)
    requires DistinctProcs(b) && UntilOf(b, p) > t
    ensures forall i :: 0 <= i < |b| ==> (b[i].proc != p && b[i] in b) || (b[i].proc == p && (true ==> b[i].until > t))
  {
    DistinctIsNoDup(b);
    forall i | 0 <= i < |b| && b[i].proc == p ensures b[i].until > t {
      UntilOfAt(b, i);
    }
  }

  /** Once `order[k]` is visited, the due entries belong to the processes after it. */
  lemma DueShift(b: seq<Block>, b': seq<Block>, t: int, order: seq<nat>, k: nat, late: bool)
    requires k < |order| && late
    requires forall i :: 0 <= i < |b| ==> b[i].until > t || b[i].proc in order[k..]
    requires forall i :: 0 <= i < |b'| ==> (b'[i].proc != order[k] && b'[i] in b) || (b'[i].proc == order[k] && (late ==> b'[i].until > t))
    ensures forall i :: 0 <= i < |b'| ==> b'[i].until > t || b'[i].proc in order[k + 1..]
  {
    assert order[k..] == [order[k]] + order[k + 1..];
    forall i | 0 <= i < |b'| && b'[i].until <= t ensures b'[i].proc in order[k + 1..] {
      var m :| 0 <= m < |b| && b[m] == b'[i];
    }
  }

  /** The unblock order visits the blocked processes; its first step keeps everything. */
  lemma ReleaseStart(procs: seq<Process>, st: State, held: Option<nat>)
    requires Inv(procs, st, held)
    ensures RelInv(procs, st, st, held, UnblockOrder(st.blocked), 0)
  {
    OrderFacts(st.blocked);
  }

  /** The release loop's invariant after `k` visits of `order` (one fact, as `Inv` is). */
  ghost predicate RelInv(procs: seq<Process>, st: State, cur: State, held: Option<nat>, order: seq<nat>, k: nat)
  {
    var ok := k <= |order| && NoDup(order) && Kept(procs, st, cur, held) && Pending(cur, order, k) && Due(procs, cur, order, k);
    ok
  }

  lemma ReleaseStep(procs: seq<Process>, st: State, cur: State, cur': State, held: Option<nat>, order: seq<nat>, k: nat)
    requires RelInv(procs, st, cur, held, order, k) && k < |order| && cur' == ReleaseOne(procs, cur, order[k])
    ensures RelInv(procs, st, cur', held, order, k + 1)
  {
    StepDue(procs, cur, cur', order, k);
    StepPending(procs, cur, cur', order, k);
    StepKept(procs, st, cur, cur', held, order[k]);
  }

  lemma PrefixStep(procs: seq<Process>, st: State, order: seq<nat>, k: nat)
    requires |st.cursor| == |procs| && k < |order|
    ensures ReleaseAll(procs, st, order[..k + 1]) == ReleaseOne(procs, ReleaseAll(procs, st, order[..k]), order[k])
  {
    assert order[..k + 1][..k] == order[..k];
  }

  /** When the visit is over the invariant holds and, without chained zero-length BLOCK segments, nothing is due. */
  lemma ReleaseEnd(procs: seq<Process>, st: State, cur: State, held: Option<nat>, order: seq<nat>)
    requires RelInv(procs, st, cur, held, order, |order|)
    ensures Kept(procs, st, cur, held)
    ensures ChainFree(procs) ==> Clear(cur)
  {
  }

  lemma WholePrefix<T>(s: seq<T>)
    ensures s[..|s|] == s
  {
  }

  /** Step 1 of the event processing at the clock: the blocked processes, by unblock instant, released when due. */
  method Release(procs: seq<Process>, st: State, ghost held: Option<nat>) returns (st': State)
    requires Inv(procs, st, held)
    ensures st' == ReleaseAll(procs, st, UnblockOrder(st.blocked))
    ensures Kept(procs, st, st', held)
    ensures ChainFree(procs) ==> Clear(st')
  {
    var order := UnblockOrder(st.blocked);
    ReleaseStart(procs, st, held);
    st' := st;
    for k := 0 to |order|
      invariant RelInv(procs, st, st', held, order, k)
      invariant st' == ReleaseAll(procs, st, order[..k])
    {
      var p := order[k];
      ghost var cur := st';
      PrefixStep(procs, st, order, k);
      if p < |procs| && p in Parked(st'.blocked) && UntilOf(st'.blocked, p) <= st'.time {
        st' := Unblock(procs, st', p, UntilOf(st'.blocked, p));
      }
      ReleaseStep(procs, st, cur, st', held, order, k);
    }
    WholePrefix(order);
    ReleaseEnd(procs, st, st', held, order);
  }

  // ---------------------------------------------------------------------------
  // Step 2 of the event processing: admitting the processes that have arrived.

  /** Makes process `i` ready at the clock when it has arrived, has not started and is neither finished, blocked nor ready. */
  function AdmitOne(procs: seq<Process>, st: State, i: nat): (r: State)
    requires i < |procs| && |st.cursor| == |procs|
    ensures r.time == st.time && |r.cursor| == |st.cursor|
  {
    if i !in st.done && i !in Parked(st.blocked) && st.cursor[i] == 0 && procs[i].arrival <= st.time && i !in st.ready then
      MakeReady(procs, st, i, st.time)
    else
      st
  }

  /** The processes below `j` visited in input order. */
  function AdmitAll(procs: seq<Process>, st: State, j: nat): (r: State)
    requires j <= |procs| && |st.cursor| == |procs|
    ensures r.time == st.time && |r.cursor| == |st.cursor|
  {
    if j == 0 then st else AdmitOne(procs, AdmitAll(procs, st, j - 1), j - 1)
  }

  /** What the admission loop keeps after visiting the processes below `j` (one fact, as `Inv` is). */
  ghost predicate ScanInv(procs: seq<Process>, st: State, cur: State, held: Option<nat>, j: nat)
  {
    var ok := ScanFacts(procs, st, cur, held, j); ok
  }

  ghost predicate ScanFacts(procs: seq<Process>, st: State, cur: State, held: Option<nat>, j: nat)
  {
    && j <= |procs| && |st.cursor| == |procs|
    && Inv(procs, cur, held) && cur.time == st.time && Within(procs, cur, st)
    && AdmittedBelow(procs, cur, j)
  }

  /** Every interval ends by the clock. */
  lemma EndsNow(procs: seq<Process>, st: State, x: nat)
    requires IntervalsOk(procs, st.perProc, st.time) && x < |st.perProc|
    ensures EndsBy(st.perProc[x], st.time)
  {
  }

  lemma AdmitInv(procs: seq<Process>, st: State, held: Option<nat>, i: nat)
    requires Inv(procs, st, held) && i < |procs|
    ensures Inv(procs, AdmitOne(procs, st, i), held) && Within(procs, AdmitOne(procs, st, i), st)
  {
    if i !in st.done && i !in Parked(st.blocked) && st.cursor[i] == 0 && procs[i].arrival <= st.time && i !in st.ready {
      assert Loose(procs, st, held, i);
      EndsNow(procs, st, i);
      MakeReadyInv(procs, st, held, i, st.time);
      MakeReadyWithin(procs, st, held, i, st.time);
    }
  }

  lemma AdmitBelow(procs: seq<Process>, st: State, i: nat)
    requires |st.cursor| == |procs| && Entries(procs, st) && Fresh(procs, st) && DistinctProcs(st.blocked)
    requires i < |procs| && AdmittedBelow(procs, st, i)
    ensures AdmittedBelow(procs, AdmitOne(procs, st, i), i + 1)
  {
    if i !in st.done && i !in Parked(st.blocked) && st.cursor[i] == 0 && procs[i].arrival <= st.time && i !in st.ready {
      AdmitNew(procs, st, i, st.time);
    } else {
      if i in Parked(st.blocked) {
        EntryOf(procs, st, i);
      }
      assert AdmitOne(procs, st, i) == st;
    }
  }

  lemma ScanStep(procs: seq<Process>, st: State, cur: State, cur': State, held: Option<nat>, i: nat, j: nat)
    requires ScanInv(procs, st, cur, held, i) && j == i + 1 && i < |procs| && cur' == AdmitOne(procs, cur, i)
    ensures ScanInv(procs, st, cur', held, j)
  {
    AdmitInv(procs, cur, held, i);
    AdmitBelow(procs, cur, i);
    WithinTrans(procs, st, cur, cur');
  }

  lemma ScanStart(procs: seq<Process>, st: State, held: Option<nat>)
    requires Inv(procs, st, held)
    ensures ScanInv(procs, st, st, held, 0)
  {
  }

  /**
   * With nobody in hand and every arrived, unstarted process admitted, the
   * admission loop finds nothing to do.
   */
  lemma {:induction false} AdmitIdle(procs: seq<Process>, st: State, j: nat)
    requires |st.cursor| == |procs| && Queued(st, None) && Admitted(procs, st) && j <= |procs|
    ensures AdmitAll(procs, st, j) == st
  {
    if j > 0 {
      AdmitIdle(procs, st, j - 1);
      var i := j - 1;
      if i !in st.done && i !in Parked(st.blocked) && st.cursor[i] == 0 && procs[i].arrival <= st.time {
        assert i in st.ready || i in st.rem;
        assert i in st.rem ==> i in st.ready;
      }
    }
  }

  /** Step 2 of the event processing at the clock: every arrived, unstarted process is made ready. */
  method Scan(procs: seq<Process>, st: State, ghost held: Option<nat>) returns (st': State)
    requires Inv(procs, st, held)
    ensures st' == AdmitAll(procs, st, |procs|)
    ensures ScanInv(procs, st, st', held, |procs|)
    ensures held == None && Admitted(procs, st) ==> st' == st
  {
    ScanStart(procs, st, held);
    st' := st;
    for i := 0 to |procs|
      invariant ScanInv(procs, st, st', held, i)
      invariant st' == AdmitAll(procs, st, i)
    {
      ghost var cur := st';
      if i !in st'.done && i !in Parked(st'.blocked) && st'.cursor[i] == 0 && procs[i].arrival <= st'.time && i !in st'.ready {
        st' := MakeReady(procs, st', i, st'.time);
      }
      ScanStep(procs, st, cur, st', held, i, i + 1);
    }
    ScanIdle(procs, st, held);
  }

  lemma ScanIdle(procs: seq<Process>, st: State, held: Option<nat>)
    requires Inv(procs, st, held)
    ensures held == None && Admitted(procs, st) ==> AdmitAll(procs, st, |procs|) == st
  {
    if held == None && Admitted(procs, st) {
      AdmitIdle(procs, st, |procs|);
    }
  }

  // ---------------------------------------------------------------------------
  // The event processing at the clock, and the idle jump.

  /** `process_unblocks_and_arrivals` at the clock: releases by unblock instant, then admissions in input order. */
  function Settle(procs: seq<Process>, st: State): (r: State)
    requires |st.cursor| == |procs|
    ensures r.time == st.time && |r.cursor| == |st.cursor|
  {
    AdmitAll(procs, ReleaseAll(procs, st, UnblockOrder(st.blocked)), |procs|)
  }

  method Events(procs: seq<Process>, st: State, ghost held: Option<nat>) returns (st': State)
    requires Inv(procs, st, held)
    ensures st' == Settle(procs, st)
    ensures ScanInv(procs, st, st', held, |procs|)
    ensures held == None && Admitted(procs, st) && ChainFree(procs) ==> Clear(st')
  {
    var r := Release(procs, st, held);
    st' := Scan(procs, r, held);
    EventsJoin(procs, st, r, st', held);
  }

  lemma EventsJoin(procs: seq<Process>, st: State, r: State, st': State, held: Option<nat>)
    requires Kept(procs, st, r, held) && ScanInv(procs, r, st', held, |procs|)
    requires held == None && Admitted(procs, r) ==> st' == r
    requires ChainFree(procs) ==> Clear(r)
    ensures ScanInv(procs, st, st', held, |procs|)
    ensures held == None && Admitted(procs, st) && ChainFree(procs) ==> Clear(st')
  {
    WithinTrans(procs, st, r, st');
  }

  /** `next_future_event_after`: the earliest arrival of an unstarted process or unblock instant after the clock. */
  function NextEvent(procs: seq<Process>, st: State): Option<int>
    requires |st.cursor| == |procs|
  {
    MinAfter(Unstarted(procs, st.cursor, st.done, |procs|) + Untils(st.blocked), st.time)
  }

  /** The next event lies after the clock, and jumping to it passes at least one of the events to come. */
  lemma JumpPasses(procs: seq<Process>, st: State, t: int)
    requires |st.cursor| == |procs| && NextEvent(procs, st) == Some(t)
    ensures t > st.time
    ensures Future(procs, st.(time := t)) < Future(procs, st)
  {
    var u := Unstarted(procs, st.cursor, st.done, |procs|);
    var xs := u + Untils(st.blocked);
    var k :| 0 <= k < |xs| && xs[k] == t;
    if k < |u| {
      assert u[k] == t;
      CountAfterDrops(u, st.time, t, k);
      BlockedAfterMono(st.blocked, st.time, t);
    } else {
      assert st.blocked[k - |u|].until == t;
      BlockedAfterDrops(st.blocked, st.time, t, k - |u|);
      CountAfterMono(u, st.time, t);
    }
  }

  /** No unblock instant lies strictly between the clock and the next event. */
  lemma JumpBounded(procs: seq<Process>, st: State, t: int)
    requires |st.cursor| == |procs| && NextEvent(procs, st) == Some(t)
    ensures forall k :: 0 <= k < |st.blocked| ==> st.blocked[k].until <= st.time || st.blocked[k].until >= t
  {
    var u := Unstarted(procs, st.cursor, st.done, |procs|);
    forall k | 0 <= k < |st.blocked| ensures st.blocked[k].until <= st.time || st.blocked[k].until >= t {
      assert (u + Untils(st.blocked))[|u| + k] == st.blocked[k].until;
    }
  }

  /** Moving the clock forward to the next event keeps the invariant; the jump leaves nothing in hand. */
  lemma JumpInv(procs: seq<Process>, st: State, t: int)
    requires Inv(procs, st, None) && NextEvent(procs, st) == Some(t)
    requires ChainFree(procs) ==> Clear(st)
    ensures t > st.time && Inv(procs, st.(time := t), None)
    ensures Gains(procs, st.(time := t), st)
  {
    JumpPasses(procs, st, t);
    JumpBounded(procs, st, t);
    Later(procs, st.perProc, st.time, t);
    JumpCore(procs, st, st.(time := t), t);
    JumpGains(procs, st, t);
  }

  /** Jumping to the next event passes an event and changes no work. */
  lemma JumpGains(procs: seq<Process>, st: State, t: int)
    requires |st.cursor| == |procs| && NextEvent(procs, st) == Some(t)
    ensures Gains(procs, st.(time := t), st)
  {
    JumpPasses(procs, st, t);
    TodoFrame(procs, st, st.(time := t), 0, |procs|);
  }

  lemma JumpCore(procs: seq<Process>, st: State, st': State, t: int)
    requires Inv(procs, st, None) && st' == st.(time := t) && t > st.time
    requires IntervalsOk(procs, st.perProc, t)
    requires ChainFree(procs) ==> forall k :: 0 <= k < |st.blocked| ==> st.blocked[k].until >= t
    ensures Inv(procs, st', None)
  {
    LaterCore(procs, st, st', t);
    RolesKeep(|procs|, st, st');
  }

  lemma LaterCore(procs: seq<Process>, st: State, st': State, t: int)
    requires Core(procs, st, None) && st' == st.(time := t) && t > st.time
    requires IntervalsOk(procs, st.perProc, t)
    requires ChainFree(procs) ==> forall k :: 0 <= k < |st.blocked| ==> st.blocked[k].until >= t
    ensures Core(procs, st', None)
  {
    TracksKeep(procs, st, st');
    KeepPlaces(|procs|, st, st', None);
    KeepClosed(procs, st, st');
    FrameLater(procs, st, st', t);
    ArrivedLater(procs, st, st');
    CoreOf(procs, st', None);
  }

  /** A later clock keeps the entries, and keeps them not overdue when none falls before it. */
  lemma FrameLater(procs: seq<Process>, st: State, st': State, t: int)
    requires Frame(procs, st) && st' == st.(time := t)
    requires IntervalsOk(procs, st.perProc, t)
    requires ChainFree(procs) ==> forall k :: 0 <= k < |st.blocked| ==> st.blocked[k].until >= t
    ensures Frame(procs, st')
  {
    KeepEntries(procs, st, st');
  }

  /** Where the processes are does not depend on the clock, the timeline or the CPU intervals. */
  lemma KeepPlaces(n: nat, st: State, st': State, held: Option<nat>)
    requires Places(n, st, held) && Queued(st, held)
    requires st'.ready == st.ready && st'.blocked == st.blocked && st'.rem == st.rem
    requires st'.done == st.done && st'.completion == st.completion
    ensures Places(n, st', held) && Queued(st', held)
  {
  }

  lemma KeepClosed(procs: seq<Process>, st: State, st': State)
    requires Closed(procs, st)
    requires st'.done == st.done && st'.completion == st.completion && st'.cursor == st.cursor && st'.perProc == st.perProc
    ensures Closed(procs, st')
  {
  }

  lemma KeepEntries(procs: seq<Process>, st: State, st': State)
    requires Entries(procs, st)
    requires st'.blocked == st.blocked && st'.cursor == st.cursor && st'.perProc == st.perProc
    ensures Entries(procs, st')
  {
  }

  /** Every process seen by the engine has still arrived by a later clock. */
  lemma ArrivedLater(procs: seq<Process>, st: State, st': State)
    requires Arrived(procs, st) && st'.time >= st.time
    requires st'.done == st.done && st'.blocked == st.blocked && st'.rem.Keys == st.rem.Keys && st'.cursor == st.cursor
    ensures Arrived(procs, st')
  {
    forall i | 0 <= i < |procs| && i < |st'.cursor| && Started(st', i) ensures procs[i].arrival <= st'.time {
      assert Started(st, i);
    }
  }

  /** Roles do not depend on the clock, the timeline or the CPU intervals. */
  lemma RolesKeep(n: nat, st: State, st': State)
    requires Roles(n, st)
    requires st'.cursor == st.cursor && st'.ready == st.ready && st'.blocked == st.blocked
    requires st'.rem.Keys == st.rem.Keys && st'.done == st.done
    ensures Roles(n, st')
  {
    forall i: nat | i < n ensures Accounted(st', i) {
      assert Accounted(st, i);
    }
  }

  /**
   * Where the loop's exit on "nothing ready and no event left" leaves the
   * processes: each is finished or blocked with an unblock instant that has
   * already passed.
   */
  lemma Stuck(procs: seq<Process>, st: State)
    requires |st.cursor| == |procs| && Roles(|procs|, st) && Queued(st, None) && DistinctProcs(st.blocked)
    requires Admitted(procs, st) && st.ready == [] && NextEvent(procs, st).None?
    ensures Ended(procs, st)
  {
    forall i | 0 <= i < |procs| && i !in st.done
      ensures i in Parked(st.blocked) && UntilOf(st.blocked, i) <= st.time
    {
      StuckAt(procs, st, i);
    }
  }

  /** Process `i` of a stuck state, unless finished, is blocked and overdue. */
  lemma StuckAt(procs: seq<Process>, st: State, i: nat)
    requires |st.cursor| == |procs| && Roles(|procs|, st) && Queued(st, None) && DistinctProcs(st.blocked)
    requires Admitted(procs, st) && st.ready == [] && NextEvent(procs, st).None?
    requires i < |procs| && i !in st.done
    ensures i in Parked(st.blocked) && UntilOf(st.blocked, i) <= st.time
  {
    var u := Unstarted(procs, st.cursor, st.done, |procs|);
    MinAfterSplit(u, Untils(st.blocked), st.time);
    DistinctIsNoDup(st.blocked);
    assert Accounted(st, i);
    UnstartedHas(procs, st.cursor, st.done, |procs|, i);
    assert i !in Elems(st.ready);
    assert i !in st.rem;
    assert i in Parked(st.blocked);
    var k :| 0 <= k < |st.blocked| && st.blocked[k].proc == i;
    UntilOfAt(st.blocked, k);
    assert Untils(st.blocked)[k] == st.blocked[k].until;
  }

  /**
   * Without chained zero-length BLOCK segments, the loop's exit on "nothing
   * ready and no event left" never leaves a process unfinished.
   */
  lemma Drained(procs: seq<Process>, st: State)
    requires Inv(procs, st, None) && Admitted(procs, st) && st.ready == [] && NextEvent(procs, st).None?
    requires ChainFree(procs) ==> Clear(st)
    ensures ChainFree(procs) ==> |st.done| >= |procs|
  {
    Stuck(procs, st);
    if ChainFree(procs) {
      assert st.done <= Below(|procs|);
      FinishedAll(|procs|, st);
    }
  }

  /** When every process is finished or overdue and no entry is overdue, all `n` are finished. */
  lemma FinishedAll(n: nat, st: State)
    requires forall i :: 0 <= i < n ==> i in st.done || (i in Parked(st.blocked) && UntilOf(st.blocked, i) <= st.time)
    requires Clear(st) && DistinctProcs(st.blocked) && st.done <= Below(n)
    ensures |st.done| >= n
  {
    DistinctIsNoDup(st.blocked);
    forall i | 0 <= i < n ensures i in st.done {
      if i !in st.done {
        var k :| 0 <= k < |st.blocked| && st.blocked[k].proc == i;
        UntilOfAt(st.blocked, k);
      }
    }
    BoundedCard(st.done, n);
  }

  // ---------------------------------------------------------------------------
  // Picking the next process: the ready list sorted stably by key, then its head.

  /** `rem_cpu_seg.get(a, 0)`: the CPU time left of the segment at the cursor, zero when there is none. */
  function RemOf(st: State, a: nat): int
  {
    if a in st.rem then st.rem[a] else 0
  }

  /** Every ready process is one of the input's. */
  lemma ReadyBelow(procs: seq<Process>, st: State, held: Option<nat>)
    requires Places(|procs|, st, held)
    ensures forall k :: 0 <= k < |st.ready| ==> st.ready[k] < |procs|
  {
    forall k | 0 <= k < |st.ready| ensures st.ready[k] < |procs| {
      assert st.ready[k] in Elems(st.ready);
    }
  }

  /**
   * The position of the ready process the stable sort puts first: no ready
   * process has a smaller key, and every one before it has a larger key.
   */
  function Pick(procs: seq<Process>, st: State): (k: nat)
    requires |st.cursor| == |procs| && st.ready != []
    requires forall k :: 0 <= k < |st.ready| ==> st.ready[k] < |procs|
    ensures k < |st.ready|
    ensures forall j :: 0 <= j < |st.ready| ==> !Before(Key(procs, st, st.ready[j]), Key(procs, st, st.ready[k]))
    ensures forall j :: 0 <= j < k ==> Before(Key(procs, st, st.ready[k]), Key(procs, st, st.ready[j]))
  {
    Least(Keys(procs, st))
  }

  /**
   * Keys end with the input position, so two ready processes never tie: the
   * process picked precedes every other ready process, whatever the list's order.
   */
  lemma PickFirst(procs: seq<Process>, st: State)
    requires |st.cursor| == |procs| && st.ready != [] && NoDup(st.ready)
    requires forall k :: 0 <= k < |st.ready| ==> st.ready[k] < |procs|
    ensures forall j :: 0 <= j < |st.ready| && j != Pick(procs, st) ==>
              Before(Key(procs, st, st.ready[Pick(procs, st)]), Key(procs, st, st.ready[j]))
  {
    var k := Pick(procs, st);
    forall j | 0 <= j < |st.ready| && j != k
      ensures Before(Key(procs, st, st.ready[k]), Key(procs, st, st.ready[j]))
    {
      assert st.ready[j] != st.ready[k];
      assert !Before(Key(procs, st, st.ready[j]), Key(procs, st, st.ready[k]));
    }
  }

  // ---------------------------------------------------------------------------
  // Popping the picked entry.

  /** Popping a ready entry: a process with a remainder is now in hand, any other was a stale entry. */
  lemma PopPlaces(n: nat, st: State, s1: State, k: nat, held: Option<nat>)
    requires Places(n, st, None) && Queued(st, None) && k < |st.ready|
    requires s1 == st.(ready := RemoveAt(st.ready, k))
    requires held == if st.ready[k] in st.rem then Some(st.ready[k]) else None
    ensures Places(n, s1, held) && Queued(s1, held)
    ensures Elems(s1.ready) == Elems(st.ready) - {st.ready[k]}
  {
    RemoveAtProps(st.ready, k);
  }

  lemma PopRoles(n: nat, st: State, s1: State, k: nat)
    requires Roles(n, st) && k < |st.ready| && s1 == st.(ready := RemoveAt(st.ready, k))
    requires Elems(s1.ready) == Elems(st.ready) - {st.ready[k]}
    ensures Roles(n, s1)
  {
    forall i: nat | i < n ensures Accounted(s1, i) {
      assert Accounted(st, i);
      if i == st.ready[k] {
        assert i in Elems(st.ready);
      }
    }
  }

  /** Only the ready list changed: the rest of the invariant holds as it did. */
  lemma PopCore(procs: seq<Process>, st: State, s1: State, held: Option<nat>)
    requires Core(procs, st, None) && s1 == st.(ready := s1.ready)
    requires Places(|procs|, s1, held) && Queued(s1, held)
    ensures Core(procs, s1, held)
  {
    TracksKeep(procs, st, s1);
    KeepClosed(procs, st, s1);
    KeepEntries(procs, st, s1);
    ArrivedLater(procs, st, s1);
  }

  lemma PopInv(procs: seq<Process>, st: State, k: nat, s1: State, held: Option<nat>)
    requires Inv(procs, st, None) && k < |st.ready| && s1 == st.(ready := RemoveAt(st.ready, k))
    requires held == if st.ready[k] in st.rem then Some(st.ready[k]) else None
    ensures Inv(procs, s1, held)
    ensures Elems(s1.ready) == Elems(st.ready) - {st.ready[k]}
  {
    PopPlaces(|procs|, st, s1, k, held);
    PopCore(procs, st, s1, held);
    PopRoles(|procs|, st, s1, k);
  }

  /** The work left reads only cursors and remainders. */
  lemma TodoSame(procs: seq<Process>, st: State, st': State)
    requires |st.cursor| == |procs| && st'.cursor == st.cursor && st'.rem == st.rem
    ensures Todo(procs, st', |procs|) == Todo(procs, st, |procs|)
  {
    LeftsFrom(procs, st, st', 0);
    TodoFrame(procs, st, st', 0, |procs|);
  }

  /** Popping a ready entry changes no process's work. */
  lemma TodoPop(procs: seq<Process>, st: State, k: nat, s1: State)
    requires |st.cursor| == |procs| && k < |st.ready| && s1 == st.(ready := RemoveAt(st.ready, k))
    ensures Todo(procs, s1, |procs|) == Todo(procs, st, |procs|)
  {
    TodoSame(procs, st, s1);
  }

  /** Popping a stale entry takes one stale entry away. */
  lemma PhantomDrop(st: State, s1: State, a: nat)
    requires a in Elems(st.ready) && a !in st.rem && s1.rem == st.rem
    requires Elems(s1.ready) == Elems(st.ready) - {a}
    ensures Phantoms(s1) < Phantoms(st)
  {
    var stale := Elems(st.ready) - st.rem.Keys;
    assert Elems(s1.ready) - s1.rem.Keys == stale - {a};
    assert stale == (stale - {a}) + {a};
  }

  /** A stale entry belongs to a finished or blocked process, which has arrived and moved past its first segment. */
  lemma PhantomStarted(procs: seq<Process>, st: State, a: nat)
    requires Inv(procs, st, None) && a in Elems(st.ready) && a !in st.rem
    ensures a < |procs| && st.cursor[a] > 0 && procs[a].arrival <= st.time
    ensures a in st.done || a in Parked(st.blocked)
  {
    if a in Parked(st.blocked) {
      EntryOf(procs, st, a);
    }
    assert Started(st, a);
  }

  /** Popping the entry of a process that has moved past its first segment keeps every arrival admitted. */
  lemma PopAdmitted(procs: seq<Process>, st: State, s1: State, a: nat)
    requires |st.cursor| == |procs| && Admitted(procs, st)
    requires Elems(s1.ready) == Elems(st.ready) - {a}
    requires s1.cursor == st.cursor && s1.done == st.done && s1.rem == st.rem && s1.time == st.time
    requires a < |st.cursor| ==> st.cursor[a] > 0 || a in st.rem
    ensures Admitted(procs, s1)
  {
    forall i | 0 <= i < |procs| && i < |s1.cursor| && s1.cursor[i] == 0 && i !in s1.done && procs[i].arrival <= s1.time
      ensures i in s1.ready || i in s1.rem
    {
      assert i in st.ready || i in st.rem;
    }
  }

  /**
   * Popping a stale entry (a process without a remainder, hence finished or
   * blocked) keeps the invariant and the admissions, and takes one stale
   * entry away.
   */
  lemma PopPhantom(procs: seq<Process>, st: State, k: nat, s1: State)
    requires Inv(procs, st, None) && Admitted(procs, st) && k < |st.ready| && st.ready[k] !in st.rem
    requires s1 == st.(ready := RemoveAt(st.ready, k))
    ensures Inv(procs, s1, None) && Admitted(procs, s1)
    ensures Effort(procs, s1) == Effort(procs, st) && Future(procs, s1) == Future(procs, st)
    ensures Phantoms(s1) < Phantoms(st)
  {
    var a := st.ready[k];
    PopInv(procs, st, k, s1, None);
    assert a in Elems(st.ready);
    PhantomStarted(procs, st, a);
    PopMeasures(procs, st, k, s1);
    PopAdmitted(procs, st, s1, a);
  }

  lemma PopMeasures(procs: seq<Process>, st: State, k: nat, s1: State)
    requires |st.cursor| == |procs| && NoDup(st.ready) && k < |st.ready| && st.ready[k] !in st.rem
    requires s1 == st.(ready := RemoveAt(st.ready, k))
    ensures Effort(procs, s1) == Effort(procs, st) && Future(procs, s1) == Future(procs, st)
    ensures Phantoms(s1) < Phantoms(st)
  {
    RemoveAtProps(st.ready, k);
    assert st.ready[k] in Elems(st.ready);
    PhantomDrop(st, s1, st.ready[k]);
    TodoPop(procs, st, k, s1);
  }

  /** A stale entry of a process facing a segment of its plan belongs to a blocked process. */
  lemma PhantomParked(procs: seq<Process>, st: State, a: nat)
    requires Inv(procs, st, None) && a in Elems(st.ready) && a !in st.rem
    requires a < |procs| && st.cursor[a] < |EffectivePattern(procs[a])|
    ensures a in Parked(st.blocked)
  {
    assert Closed(procs, st);
    assert a !in st.done;
  }

  // The completion of a popped process whose plan is used up.

  lemma CompletePlaces(n: nat, s1: State, st': State, a: nat)
    requires Places(n, s1, None) && Queued(s1, None) && a < n && a !in s1.rem
    requires st'.ready == s1.ready && st'.blocked == s1.blocked && st'.rem == s1.rem
    requires st'.done == s1.done + {a} && st'.completion.Keys == s1.completion.Keys + {a}
    ensures Places(n, st', None) && Queued(st', None)
  {
  }

  lemma CompleteClosed(procs: seq<Process>, s1: State, st': State, a: nat)
    requires Closed(procs, s1) && a < |procs| && Track(procs, s1, a)
    requires s1.cursor[a] >= |EffectivePattern(procs[a])| && procs[a].arrival <= s1.time
    requires IntervalsOk(procs, s1.perProc, s1.time)
    requires st' == s1.(completion := s1.completion[a := s1.time], done := s1.done + {a}, rem := s1.rem)
    ensures Closed(procs, st')
  {
    EndsNow(procs, s1, a);
    forall d | d in st'.done && d != a ensures st'.completion[d] == s1.completion[d] {
    }
  }

  lemma CompleteRoles(n: nat, s1: State, st': State, a: nat)
    requires Roles(n, s1)
    requires st' == s1.(completion := s1.completion[a := s1.time], done := s1.done + {a}, rem := s1.rem)
    ensures Roles(n, st')
  {
    forall i: nat | i < n ensures Accounted(st', i) {
      assert Accounted(s1, i);
    }
  }

  /** Completing a process at the clock keeps the invariant and the admissions. */
  lemma CompleteInv(procs: seq<Process>, s1: State, st': State, a: nat)
    requires Inv(procs, s1, None) && Admitted(procs, s1) && a < |procs| && a !in s1.rem
    requires s1.cursor[a] >= |EffectivePattern(procs[a])| && procs[a].arrival <= s1.time
    requires st' == s1.(completion := s1.completion[a := s1.time], done := s1.done + {a}, rem := s1.rem - {a})
    ensures Inv(procs, st', None) && Admitted(procs, st')
  {
    MinusAbsent(s1.rem, a);
    assert st' == s1.(completion := s1.completion[a := s1.time], done := s1.done + {a}, rem := s1.rem);
    CompleteShape(procs, s1, st', a);
    CompleteOrder(procs, s1, st', a);
    InvOf(procs, st', None);
    AdmittedMore(procs, s1, st');
  }

  /** Completing keeps the frame, the tracks, the places and the queue. */
  lemma CompleteShape(procs: seq<Process>, s1: State, st': State, a: nat)
    requires Inv(procs, s1, None) && a < |procs| && a !in s1.rem
    requires st' == s1.(completion := s1.completion[a := s1.time], done := s1.done + {a}, rem := s1.rem)
    ensures Frame(procs, st') && forall i :: 0 <= i < |procs| ==> Track(procs, st', i)
    ensures Places(|procs|, st', None) && Queued(st', None)
  {
    TracksKeep(procs, s1, st');
    CompletePlaces(|procs|, s1, st', a);
    FrameKeep(procs, s1, st');
  }

  /** Completing keeps the finished processes closed, the arrivals and the roles. */
  lemma CompleteOrder(procs: seq<Process>, s1: State, st': State, a: nat)
    requires Inv(procs, s1, None) && a < |procs| && a !in s1.rem
    requires s1.cursor[a] >= |EffectivePattern(procs[a])| && procs[a].arrival <= s1.time
    requires st' == s1.(completion := s1.completion[a := s1.time], done := s1.done + {a}, rem := s1.rem)
    ensures Closed(procs, st') && Arrived(procs, st') && Roles(|procs|, st')
  {
    CompleteClosed(procs, s1, st', a);
    ArrivedFrom(procs, s1, st', a);
    CompleteRoles(|procs|, s1, st', a);
  }

  /** More finished processes, with the same clock, cursors, ready list and remainders, keep the admissions. */
  lemma AdmittedMore(procs: seq<Process>, st: State, st': State)
    requires Admitted(procs, st) && st'.time == st.time && st'.cursor == st.cursor
    requires st.done <= st'.done && st'.ready == st.ready && st'.rem == st.rem
    ensures Admitted(procs, st')
  {
  }

  /** Completing a process takes one step off the work, unless it was finished already. */
  lemma CompleteEffort(procs: seq<Process>, s1: State, st': State, a: nat)
    requires |s1.cursor| == |procs| && a !in s1.rem
    requires st' == s1.(completion := s1.completion[a := s1.time], done := s1.done + {a}, rem := s1.rem - {a})
    ensures a !in s1.done ==> Effort(procs, st') == Effort(procs, s1) - 1
    ensures a in s1.done ==> Effort(procs, st') == Effort(procs, s1) && Future(procs, st') == Future(procs, s1)
    ensures a in s1.done ==> Phantoms(st') == Phantoms(s1)
  {
    MinusAbsent(s1.rem, a);
    TodoSame(procs, s1, st');
    if a in s1.done {
      assert st'.done == s1.done;
    }
  }

  /** A popped process whose plan is used up completes at the clock, even when it is a stale entry. */
  lemma PopDone(procs: seq<Process>, st: State, k: nat, st': State)
    requires Inv(procs, st, None) && Admitted(procs, st) && k < |st.ready| && st.ready[k] < |procs|
    requires st.cursor[st.ready[k]] >= |EffectivePattern(procs[st.ready[k]])|
    requires st' == st.(ready := RemoveAt(st.ready, k)).(completion := st.completion[st.ready[k] := st.time],
                        done := st.done + {st.ready[k]}, rem := st.rem - {st.ready[k]})
    ensures Inv(procs, st', None) && Admitted(procs, st') && Gains(procs, st', st)
  {
    var a := st.ready[k];
    var s1 := st.(ready := RemoveAt(st.ready, k));
    assert Track(procs, st, a);
    PopPhantom(procs, st, k, s1);
    assert a in Elems(st.ready);
    PhantomStarted(procs, st, a);
    CompleteInv(procs, s1, st', a);
    CompleteEffort(procs, s1, st', a);
  }

  /** A popped stale entry of a blocked process facing a BLOCK segment: make_ready_if_cpu does nothing. */
  lemma PopBlock(procs: seq<Process>, st: State, k: nat, st': State)
    requires Inv(procs, st, None) && Admitted(procs, st) && k < |st.ready| && st.ready[k] < |procs|
    requires st.cursor[st.ready[k]] < |EffectivePattern(procs[st.ready[k]])|
    requires EffectivePattern(procs[st.ready[k]])[st.cursor[st.ready[k]]].kind != CPU
    requires st' == MakeReady(procs, st.(ready := RemoveAt(st.ready, k)), st.ready[k], st.time)
    ensures Inv(procs, st', None) && Admitted(procs, st') && Gains(procs, st', st)
  {
    var a := st.ready[k];
    var s1 := st.(ready := RemoveAt(st.ready, k));
    assert Track(procs, st, a);
    PopPhantom(procs, st, k, s1);
    assert a in Elems(st.ready);
    PhantomParked(procs, st, a);
    assert st' == s1;
  }

  /** A popped entry without CPU time left of its segment is skipped. */
  lemma PopSkip(procs: seq<Process>, st: State, k: nat, st': State)
    requires Inv(procs, st, None) && Admitted(procs, st) && k < |st.ready| && RemOf(st, st.ready[k]) <= 0
    requires st' == st.(ready := RemoveAt(st.ready, k))
    ensures Inv(procs, st', None) && Admitted(procs, st') && Gains(procs, st', st)
  {
    assert Queued(st, None);
    PopPhantom(procs, st, k, st');
  }

  /** A popped process with CPU time left is in hand. */
  lemma PopLive(procs: seq<Process>, st: State, k: nat, s1: State)
    requires Inv(procs, st, None) && k < |st.ready| && st.ready[k] in st.rem
    requires s1 == st.(ready := RemoveAt(st.ready, k))
    ensures Inv(procs, s1, Some(st.ready[k])) && Effort(procs, s1) == Effort(procs, st)
  {
    TodoPop(procs, st, k, s1);
    PopInv(procs, st, k, s1, Some(st.ready[k]));
  }

  lemma ClearKeep(st: State, st': State)
    requires Clear(st) && st'.blocked == st.blocked && st'.time == st.time
    ensures Clear(st')
  {
  }

  // ---------------------------------------------------------------------------
  // The run of the process in hand.

  /**
   * The instant the process in hand stops: the end of its CPU segment, or
   * the next arrival or unblock when that comes first.
   */
  function Horizon(procs: seq<Process>, st: State, a: nat): int
    requires |st.cursor| == |procs|
  {
    var segEnd := st.time + RemOf(st, a);
    match NextEvent(procs, st)
    case None => segEnd
    case Some(e) => if e < segEnd then e else segEnd
  }

  /**
   * The run lasts a positive time, at most what is left of the segment; it
   * ends with the segment or at the next event; and no arrival of a process
   * not yet started and no unblock falls strictly inside it, so the process
   * is preempted at the first instant another could compete.
   */
  lemma HorizonBounds(procs: seq<Process>, st: State, a: nat)
    requires |st.cursor| == |procs| && RemOf(st, a) > 0
    ensures st.time < Horizon(procs, st, a) <= st.time + RemOf(st, a)
    ensures Horizon(procs, st, a) == st.time + RemOf(st, a) || NextEvent(procs, st) == Some(Horizon(procs, st, a))
    ensures forall k :: 0 <= k < |st.blocked| ==>
              st.blocked[k].until <= st.time || st.blocked[k].until >= Horizon(procs, st, a)
    ensures forall i :: 0 <= i < |procs| && st.cursor[i] == 0 && i !in st.done ==>
              procs[i].arrival <= st.time || procs[i].arrival >= Horizon(procs, st, a)
  {
    var t := Horizon(procs, st, a);
    var u := Unstarted(procs, st.cursor, st.done, |procs|);
    var xs := u + Untils(st.blocked);
    forall k | 0 <= k < |st.blocked| ensures st.blocked[k].until <= st.time || st.blocked[k].until >= t {
      assert xs[|u| + k] == st.blocked[k].until;
    }
    forall i | 0 <= i < |procs| && st.cursor[i] == 0 && i !in st.done
      ensures procs[i].arrival <= st.time || procs[i].arrival >= t
    {
      UnstartedHas(procs, st.cursor, st.done, |procs|, i);
      var m :| 0 <= m < |u| && u[m] == procs[i].arrival;
      assert xs[m] == procs[i].arrival;
    }
  }

  /** The run of `a` from the clock to `t`: a CPU slice, an interval of `a`, and `t - time` off its remainder. */
  function Ran(procs: seq<Process>, st: State, a: nat, t: int): State
    requires a < |procs| && a < |st.perProc|
  {
    st.(timeline := st.timeline + [ExecSlice(procs[a].name, st.time, t)],
        perProc := st.perProc[a := st.perProc[a] + [(st.time, t)]],
        rem := st.rem[a := RemOf(st, a) - (t - st.time)],
        time := t)
  }

  ghost predicate RanMove(procs: seq<Process>, st: State, st': State, a: nat, t: int)
  {
    && Inv(procs, st, Some(a)) && a < |procs| && a in st.rem
    && st.time < t <= st.time + st.rem[a]
    && (ChainFree(procs) ==> forall k :: 0 <= k < |st.blocked| ==> st.blocked[k].until >= t)
    && st' == Ran(procs, st, a, t)
  }

  /** Running keeps the track of the process in hand: its CPU time grows by what its remainder loses. */
  lemma RanTrack(procs: seq<Process>, st: State, st': State, a: nat, t: int)
    requires a < |procs| && Track(procs, st, a) && a in st.rem && st.time < t <= st.time + st.rem[a]
    requires st' == Ran(procs, st, a, t)
    ensures Track(procs, st', a)
  {
    SliceTotalAppend(st.perProc[a], (st.time, t));
  }

  lemma RanTracks(procs: seq<Process>, st: State, st': State, a: nat, t: int)
    requires RanMove(procs, st, st', a, t)
    ensures forall i :: 0 <= i < |procs| ==> Track(procs, st', i)
  {
    assert Track(procs, st, a);
    RanTrack(procs, st, st', a, t);
    MinusUpdate(st.rem, a, st'.rem[a]);
    TracksFrom(procs, st, st', a);
  }

  lemma RanPlaces(procs: seq<Process>, st: State, st': State, a: nat, t: int)
    requires RanMove(procs, st, st', a, t)
    ensures Places(|procs|, st', Some(a)) && Queued(st', Some(a)) && st'.rem.Keys == st.rem.Keys
  {
    UpdateKeys(st.rem, a, st'.rem[a]);
  }

  lemma RanClosed(procs: seq<Process>, st: State, st': State, a: nat, t: int)
    requires RanMove(procs, st, st', a, t)
    ensures Closed(procs, st')
  {
    forall d | d in st'.done ensures d != a && st'.perProc[d] == st.perProc[d] {
    }
  }

  lemma RanEntries(procs: seq<Process>, st: State, st': State, a: nat, t: int)
    requires RanMove(procs, st, st', a, t)
    ensures Entries(procs, st') && Fresh(procs, st')
  {
    EntriesOther(procs, st, st', a);
  }

  /** The blocked table's entries keep their processes' state when only a process with no entry changes. */
  lemma EntriesOther(procs: seq<Process>, st: State, st': State, a: nat)
    requires Entries(procs, st) && a !in Parked(st.blocked) && st'.blocked == st.blocked
    requires |st'.cursor| == |st.cursor| && |st'.perProc| == |st.perProc|
    requires forall i :: 0 <= i < |st.cursor| && i != a ==> st'.cursor[i] == st.cursor[i]
    requires forall i :: 0 <= i < |st.perProc| && i != a ==> st'.perProc[i] == st.perProc[i]
    ensures Entries(procs, st')
  {
    forall k | 0 <= k < |st'.blocked| ensures EntryOk(procs, st', st'.blocked[k]) {
      assert EntryOk(procs, st, st.blocked[k]);
      assert st.blocked[k].proc in Parked(st.blocked);
    }
  }

  lemma RanSlices(procs: seq<Process>, st: State, st': State, a: nat, t: int)
    requires RanMove(procs, st, st', a, t)
    ensures IntervalsOk(procs, st'.perProc, st'.time) && TimelineOk(procs, st'.perProc, st'.timeline)
  {
    assert Started(st, a);
    AddInterval(procs, st.perProc, st.time, a, t);
    AddCpuSlice(procs, st.perProc, st.timeline, a, st.time, t);
  }

  /** The run keeps the invariant, the process staying in hand. */
  lemma RanInv(procs: seq<Process>, st: State, st': State, a: nat, t: int)
    requires RanMove(procs, st, st', a, t)
    ensures Inv(procs, st', Some(a))
  {
    RanTracks(procs, st, st', a, t);
    RanPlaces(procs, st, st', a, t);
    RanClosed(procs, st, st', a, t);
    ArrivedLater(procs, st, st');
    RanEntries(procs, st, st', a, t);
    RanSlices(procs, st, st', a, t);
    RolesKeep(|procs|, st, st');
  }

  /** The run takes its length off the work left. */
  lemma RanEffort(procs: seq<Process>, st: State, st': State, a: nat, t: int)
    requires RanMove(procs, st, st', a, t)
    ensures Effort(procs, st') == Effort(procs, st) - (t - st.time)
  {
    RanWork(procs, st, st', a, t);
  }

  /** Running `a` from the clock to `t` takes exactly `t` minus the clock off its remainder, and off the work left. */
  lemma RanWork(procs: seq<Process>, st: State, st': State, a: nat, t: int)
    requires a < |procs| && |st.cursor| == |procs| && a < |st.perProc| && a in st.rem
    requires st' == Ran(procs, st, a, t)
    ensures Effort(procs, st') == Effort(procs, st) - (t - st.time)
  {
    MinusUpdate(st.rem, a, st'.rem[a]);
    LeftsFrom(procs, st, st', a);
    TodoFrame(procs, st, st', a, |procs|);
  }

  /** The run up to the horizon keeps the invariant and takes work off. */
  lemma SliceInv(procs: seq<Process>, s1: State, a: nat, t: int, s3: State)
    requires Inv(procs, s1, Some(a)) && RemOf(s1, a) > 0 && (ChainFree(procs) ==> Clear(s1))
    requires t == Horizon(procs, s1, a) && s3 == (if t > s1.time then Ran(procs, s1, a, t) else s1)
    ensures Inv(procs, s3, Some(a)) && Effort(procs, s3) < Effort(procs, s1)
  {
    HorizonBounds(procs, s1, a);
    assert InHand(Some(a)) <= s1.rem.Keys;
    RanInv(procs, s1, s3, a, t);
    RanEffort(procs, s1, s3, a, t);
  }

  // ---------------------------------------------------------------------------
  // After the run: the process in hand is placed again.

  /**
   * The code after the run and the events at its end. When the CPU segment is
   * used up (`rem_cpu_seg.get(a, 0) == 0`) the cursor moves past it, and the
   * process then completes, parks for the next BLOCK segment (drawn when it
   * lasts; the process holds a remainder, so it has no entry to overwrite),
   * or takes the next CPU segment as its remainder and joins the ready list
   * unless it is on it, blocked or finished. A preempted process joins the
   * ready list on the same condition.
   */
  function AfterRun(procs: seq<Process>, st: State, a: nat): State
    requires a < |procs| && |st.cursor| == |procs|
  {
    var plan := EffectivePattern(procs[a]);
    var requeue := a !in st.ready && a !in Parked(st.blocked) && a !in st.done;
    if RemOf(st, a) == 0 then
      var c := if st.cursor[a] < |plan| && plan[st.cursor[a]].kind == CPU then st.cursor[a] + 1 else st.cursor[a];
      if c >= |plan| then
        st.(cursor := st.cursor[a := c], completion := st.completion[a := st.time],
            done := st.done + {a}, rem := st.rem - {a})
      else if plan[c].kind == BLOCK then
        st.(timeline := st.timeline + BlockDrawn(procs[a].name, st.time, plan[c].duration),
            blocked := st.blocked + [Block(a, st.time + plan[c].duration)],
            cursor := st.cursor[a := c + 1],
            rem := st.rem - {a})
      else
        st.(cursor := st.cursor[a := c], rem := st.rem[a := plan[c].duration],
            ready := if requeue then st.ready + [a] else st.ready)
    else
      st.(ready := if requeue then st.ready + [a] else st.ready)
  }

  /** The used-up CPU segment of `a` consumed: its cursor moves past it and its remainder goes. */
  function Advance(st: State, a: nat): State
    requires a < |st.cursor|
  {
    st.(cursor := st.cursor[a := st.cursor[a] + 1], rem := st.rem - {a})
  }

  /**
   * For a process with a remainder that is neither finished nor blocked, the
   * code after the run is make_ready_if_cpu at the clock: on the state with
   * the segment consumed when it is used up, on the state as it is otherwise.
   */
  lemma AfterRunReady(procs: seq<Process>, st: State, a: nat)
    requires a < |procs| && |st.cursor| == |procs| && a in st.rem && a !in st.done && a !in Parked(st.blocked)
    requires st.cursor[a] < |EffectivePattern(procs[a])| && EffectivePattern(procs[a])[st.cursor[a]].kind == CPU
    ensures RemOf(st, a) == 0 ==> AfterRun(procs, st, a) == MakeReady(procs, Advance(st, a), a, st.time)
    ensures RemOf(st, a) != 0 ==> AfterRun(procs, st, a) == MakeReady(procs, st, a, st.time)
  {
    if RemOf(st, a) == 0 {
      var plan := EffectivePattern(procs[a]);
      var c := st.cursor[a] + 1;
      assert (st.rem - {a}) - {a} == st.rem - {a};
      if c < |plan| && plan[c].kind == CPU {
        assert (st.rem - {a})[a := plan[c].duration] == st.rem[a := plan[c].duration];
      }
    }
  }

  /** What the invariant says of the process in hand. */
  lemma HeldFacts(procs: seq<Process>, st: State, a: nat)
    requires Inv(procs, st, Some(a))
    ensures a < |procs| && a in st.rem && a !in st.done && a !in Parked(st.blocked)
    ensures st.cursor[a] < |EffectivePattern(procs[a])| && EffectivePattern(procs[a])[st.cursor[a]].kind == CPU
    ensures 0 <= st.rem[a] && procs[a].arrival <= st.time && EndsBy(st.perProc[a], st.time)
  {
    assert InHand(Some(a)) <= st.rem.Keys;
    assert Track(procs, st, a);
    assert Started(st, a);
    EndsNow(procs, st, a);
  }

  ghost predicate AdvanceMove(procs: seq<Process>, st: State, st': State, a: nat)
  {
    && Inv(procs, st, Some(a)) && a < |procs| && a in st.rem && st.rem[a] == 0
    && st' == Advance(st, a)
  }

  /** A used-up CPU segment moves from the remainder into the CPU time of the segments before the cursor. */
  lemma AdvanceTrack(procs: seq<Process>, st: State, st': State, a: nat)
    requires a < |procs| && Track(procs, st, a) && a in st.rem && st.rem[a] == 0 && st' == Advance(st, a)
    ensures Track(procs, st', a)
  {
    var plan := EffectivePattern(procs[a]);
    var c := st.cursor[a];
    assert plan[..c + 1] == plan[..c] + [plan[c]];
    CpuTotalSnoc(plan[..c], plan[c]);
  }

  lemma AdvanceTracks(procs: seq<Process>, st: State, st': State, a: nat)
    requires AdvanceMove(procs, st, st', a)
    ensures forall i :: 0 <= i < |procs| ==> Track(procs, st', i)
  {
    assert Track(procs, st, a);
    AdvanceTrack(procs, st, st', a);
    assert (st.rem - {a}) - {a} == st.rem - {a};
    TracksFrom(procs, st, st', a);
  }

  lemma AdvancePlaces(procs: seq<Process>, st: State, st': State, a: nat)
    requires AdvanceMove(procs, st, st', a)
    ensures Places(|procs|, st', None) && Queued(st', None)
  {
  }

  lemma AdvanceRest(procs: seq<Process>, st: State, st': State, a: nat)
    requires AdvanceMove(procs, st, st', a)
    ensures Closed(procs, st') && Arrived(procs, st') && Entries(procs, st')
  {
    HeldFacts(procs, st, a);
    ClosedKeep(procs, st, st', a);
    ArrivedFrom(procs, st, st', a);
    EntriesOther(procs, st, st', a);
  }

  lemma AdvanceCore(procs: seq<Process>, st: State, st': State, a: nat)
    requires AdvanceMove(procs, st, st', a)
    ensures Core(procs, st', None)
  {
    AdvanceTracks(procs, st, st', a);
    AdvancePlaces(procs, st, st', a);
    AdvanceRest(procs, st, st', a);
  }

  /** With its segment consumed, the process that ran is between places. */
  lemma AdvanceLoose(procs: seq<Process>, st: State, st': State, a: nat)
    requires AdvanceMove(procs, st, st', a)
    ensures Loose(procs, st', None, a)
  {
    HeldFacts(procs, st, a);
    AdvanceCore(procs, st, st', a);
    forall i: nat | i < |procs| && i != a ensures Accounted(st', i) {
      assert Accounted(st, i);
    }
    forall y | y in Elems(st'.ready) - {a} ensures y in st'.done + Parked(st'.blocked) + st'.rem.Keys {
      assert y in Elems(st.ready);
    }
  }

  /** Consuming a used-up segment takes one step off the work. */
  lemma AdvanceEffort(procs: seq<Process>, st: State, st': State, a: nat)
    requires a < |procs| && |st.cursor| == |procs| && a in st.rem && st.rem[a] == 0
    requires st.cursor[a] < |EffectivePattern(procs[a])| && st' == Advance(st, a)
    ensures Effort(procs, st') == Effort(procs, st) - 1
  {
    assert (st.rem - {a}) - {a} == st.rem - {a};
    LeftsFrom(procs, st, st', a);
    TodoFrame(procs, st, st', a, |procs|);
  }

  lemma AdvanceAdmitted(procs: seq<Process>, st: State, st': State, a: nat)
    requires |st.cursor| == |procs| && a < |procs| && AdmittedBelow(procs, st, |procs|) && st' == Advance(st, a)
    ensures AdmittedBelow(procs, st', |procs|)
  {
  }

  /** The process in hand, with the invariant otherwise intact, is between places. */
  lemma HeldLoose(procs: seq<Process>, st: State, a: nat)
    requires Inv(procs, st, Some(a))
    ensures Loose(procs, st, Some(a), a)
  {
    HeldFacts(procs, st, a);
    forall i: nat | i < |procs| && i != a ensures Accounted(st, i) {
    }
  }

  /** Once on the ready list with CPU time left, the process in hand is in hand no more. */
  lemma HeldDrop(procs: seq<Process>, st: State, a: nat)
    requires Inv(procs, st, Some(a)) && a in Elems(st.ready) && a in st.rem && st.rem[a] > 0
    ensures Inv(procs, st, None)
  {
    assert Places(|procs|, st, None);
    assert Queued(st, None);
  }

  /** make_ready_if_cpu on a process with a remainder, facing its CPU segment, puts it on the ready list and keeps the remainders. */
  lemma ReadyAgain(procs: seq<Process>, st: State, a: nat, now: int)
    requires a < |procs| && |st.cursor| == |procs| && a in st.rem && a !in st.done && a !in Parked(st.blocked)
    requires st.cursor[a] < |EffectivePattern(procs[a])| && EffectivePattern(procs[a])[st.cursor[a]].kind == CPU
    ensures MakeReady(procs, st, a, now).rem == st.rem && a in Elems(MakeReady(procs, st, a, now).ready)
  {
  }

  /** The code after the run keeps the invariant and the admissions, and adds no work. */
  lemma AfterRunInv(procs: seq<Process>, s3: State, s4: State, a: nat, st': State)
    requires ScanInv(procs, s3, s4, Some(a), |procs|) && a < |procs| && st' == AfterRun(procs, s4, a)
    ensures Inv(procs, st', None) && Admitted(procs, st') && Effort(procs, st') <= Effort(procs, s3)
  {
    HeldFacts(procs, s4, a);
    AfterRunReady(procs, s4, a);
    if RemOf(s4, a) == 0 {
      var s5 := Advance(s4, a);
      AdvanceLoose(procs, s4, s5, a);
      AdvanceEffort(procs, s4, s5, a);
      AdvanceAdmitted(procs, s4, s5, a);
      MakeReadyInv(procs, s5, None, a, s4.time);
      MakeReadyWithin(procs, s5, None, a, s4.time);
      AdmitKeep(procs, s5, a, s4.time, |procs|);
    } else {
      HeldLoose(procs, s4, a);
      MakeReadyInv(procs, s4, Some(a), a, s4.time);
      MakeReadyWithin(procs, s4, Some(a), a, s4.time);
      AdmitKeep(procs, s4, a, s4.time, |procs|);
      ReadyAgain(procs, s4, a, s4.time);
      HeldDrop(procs, st', a);
    }
  }

  // ---------------------------------------------------------------------------
  // The main loop.

  /**
   * One served process: the ready list is ordered by key and its head popped.
   * A process whose plan is used up completes; a stale entry facing a BLOCK
   * segment goes to make_ready_if_cpu; a stale entry with no CPU time left is
   * skipped. Otherwise the process runs up to its horizon, the events at the
   * new clock are processed, and the code after the run places it. The
   * horizon always lies after the clock, so the run always takes place.
   */
  method Serve(procs: seq<Process>, st: State) returns (st': State)
    requires Inv(procs, st, None) && Admitted(procs, st) && st.ready != []
    requires ChainFree(procs) ==> Clear(st)
    ensures Inv(procs, st', None) && Admitted(procs, st')
    ensures Gains(procs, st', st)
    ensures Picking(procs, st) && Popped(procs, st, st')
  {
    ReadyBelow(procs, st, None);
    var k := Pick(procs, st);
    var a := st.ready[k];
    var s1 := st.(ready := RemoveAt(st.ready, k));
    var plan := EffectivePattern(procs[a]);
    var c := s1.cursor[a];
    if c >= |plan| {
      st' := s1.(completion := s1.completion[a := s1.time], done := s1.done + {a}, rem := s1.rem - {a});
      assert Popped(procs, st, st');
      PopDone(procs, st, k, st');
      return;
    }
    if plan[c].kind != CPU {
      st' := MakeReady(procs, s1, a, s1.time);
      assert Popped(procs, st, st');
      PopBlock(procs, st, k, st');
      return;
    }
    if RemOf(s1, a) <= 0 {
      st' := s1;
      assert Popped(procs, st, st');
      PopSkip(procs, st, k, st');
      return;
    }
    PopLive(procs, st, k, s1);
    if ChainFree(procs) {
      ClearKeep(st, s1);
    }
    var t := Horizon(procs, s1, a);
    HorizonBounds(procs, s1, a);
    var s3 := s1;
    if t > s1.time {
      s3 := Ran(procs, s1, a, t);
    }
    SliceInv(procs, s1, a, t, s3);
    var s4 := Events(procs, s3, Some(a));
    st' := AfterRun(procs, s4, a);
    assert Popped(procs, st, st');
    AfterRunInv(procs, s3, s4, a, st');
  }

  /**
   * A served process facing a CPU segment with time left runs from the clock
   * to its horizon, a positive time no longer than what is left of the
   * segment: it gains exactly that interval, and no other process's CPU
   * intervals change.
   */
  lemma PoppedRuns(procs: seq<Process>, st: State, st': State, a: nat)
    requires Picking(procs, st) && Popped(procs, st, st') && a == st.ready[Pick(procs, st)]
    requires st.cursor[a] < |EffectivePattern(procs[a])| && EffectivePattern(procs[a])[st.cursor[a]].kind == CPU
    requires RemOf(st, a) > 0
    ensures st.time < Horizon(procs, st, a) <= st.time + RemOf(st, a)
    ensures st'.perProc == st.perProc[a := st.perProc[a] + [(st.time, Horizon(procs, st, a))]]
  {
    var s1 := st.(ready := RemoveAt(st.ready, Pick(procs, st)));
    assert Horizon(procs, s1, a) == Horizon(procs, st, a);
    HorizonBounds(procs, st, a);
    var s3 := Ran(procs, s1, a, Horizon(procs, s1, a));
    SettleIntervals(procs, s3);
  }

  /** The events at the clock draw no CPU interval. */
  lemma SettleIntervals(procs: seq<Process>, st: State)
    requires |st.cursor| == |procs|
    ensures Settle(procs, st).perProc == st.perProc
  {
    var r := ReleaseAll(procs, st, UnblockOrder(st.blocked));
    ReleaseAllIntervals(procs, st, UnblockOrder(st.blocked));
    AdmitAllIntervals(procs, r, |procs|);
  }

  lemma {:induction false} ReleaseAllIntervals(procs: seq<Process>, st: State, order: seq<nat>)
    requires |st.cursor| == |procs|
    ensures ReleaseAll(procs, st, order).perProc == st.perProc
    decreases |order|
  {
    if order != [] {
      ReleaseAllIntervals(procs, st, order[..|order| - 1]);
    }
  }

  lemma {:induction false} AdmitAllIntervals(procs: seq<Process>, st: State, j: nat)
    requires j <= |procs| && |st.cursor| == |procs|
    ensures AdmitAll(procs, st, j).perProc == st.perProc
  {
    if j > 0 {
      AdmitAllIntervals(procs, st, j - 1);
    }
  }

  /** The ready list is not empty and holds processes of the input. */
  ghost predicate Picking(procs: seq<Process>, st: State)
  {
    && |st.cursor| == |procs| && |st.perProc| == |procs| && st.ready != []
    && forall k :: 0 <= k < |st.ready| ==> st.ready[k] < |procs|
  }

  /**
   * The served process is the one `Pick` puts first, taken off the ready
   * list. A process with no segment left completes at the clock; one facing
   * a BLOCK segment goes to make_ready_if_cpu; one without CPU time left is
   * skipped. Otherwise it runs from the clock to its horizon, one CPU slice
   * and one interval of its own with no other process's intervals touched,
   * then the events at the horizon are processed and the code after the run
   * places it.
   */
  ghost predicate Popped(procs: seq<Process>, st: State, st': State)
    requires Picking(procs, st)
  {
    var k := Pick(procs, st);
    var a := st.ready[k];
    var s1 := st.(ready := RemoveAt(st.ready, k));
    var plan := EffectivePattern(procs[a]);
    if s1.cursor[a] >= |plan| then
      st' == s1.(completion := s1.completion[a := s1.time], done := s1.done + {a}, rem := s1.rem - {a})
    else if plan[s1.cursor[a]].kind != CPU then
      st' == MakeReady(procs, s1, a, s1.time)
    else if RemOf(s1, a) <= 0 then
      st' == s1
    else
      st' == AfterRun(procs, Settle(procs, Ran(procs, s1, a, Horizon(procs, s1, a))), a)
  }

  /**
   * Where the loop may stop: every process finished, or parked with its
   * unblock instant already passed (a zero-length BLOCK segment right after
   * another BLOCK segment leaves such a process behind).
   */
  ghost predicate Ended(procs: seq<Process>, st: State)
  {
    forall i :: 0 <= i < |procs| ==> i in st.done || (i in Parked(st.blocked) && UntilOf(st.blocked, i) <= st.time)
  }

  /**
   * One pass of the main loop: the events due now, then an idle jump to the
   * next event, the stop when there is none, or a served process.
   */
  method Step(procs: seq<Process>, st: State) returns (st': State, stop: bool)
    requires Inv(procs, st, None) && Admitted(procs, st)
    ensures Inv(procs, st', None) && Admitted(procs, st')
    ensures stop ==> Ended(procs, st') && (ChainFree(procs) ==> |st'.done| >= |procs|)
    ensures !stop ==> Gains(procs, st', st)
    ensures Stepped(procs, st, st', stop)
  {
    var s := Events(procs, st, None);
    if s.ready == [] {
      var next := NextEvent(procs, s);
      if next.None? {
        Stuck(procs, s);
        Drained(procs, s);
        assert Stepped(procs, st, s, true);
        return s, true;
      }
      JumpInv(procs, s, next.value);
      var s2 := s.(time := next.value);
      st' := Events(procs, s2, None);
      assert Stepped(procs, st, st', false);
      WithinTrans(procs, st, s, s2);
      WithinTrans(procs, st, s2, st');
      return st', false;
    }
    st' := Serve(procs, s);
    WithinTrans(procs, st, s, st');
    stop := false;
  }

  /**
   * One pass of the main loop from `st`: the events due now; then, with
   * something ready, one served process; with nothing ready, a jump of the
   * clock to the next event and the events due then, or the stop with the
   * state as it is when there is no event left.
   */
  ghost predicate Stepped(procs: seq<Process>, st: State, st': State, stop: bool)
  {
    && |st.cursor| == |procs|
    && var s := Settle(procs, st);
       if s.ready != [] then !stop && Picking(procs, s) && Popped(procs, s, st')
       else
         && (stop <==> NextEvent(procs, s).None?)
         && (stop ==> st' == s)
         && (!stop ==> st' == Settle(procs, s.(time := NextEvent(procs, s).value)))
  }

  /** Process "A": arrives at 0, then CPU for 2 and BLOCK for 3. */
  function StaleInput(): seq<Process>
  {
    [Process("A", 0, 2, Some([Segment(CPU, 2), Segment(BLOCK, 3)]))]
  }

  /**
   * The stale re-queue on `StaleInput`. The first pass serves "A" from 0 to 2.
   * The arrival scan at 2 still sees its cursor at 0 and queues it again, and
   * then it parks until 5. The second pass pops that stale entry with the plan
   * used up, so "A" is completed at 2 while its BLOCK runs until 5.
   */
  lemma StaleCompletion(st1: State, st2: State, stop: bool)
    requires Picking(StaleInput(), EnterAll(StaleInput(), Start(StaleInput()), 1))
    requires Popped(StaleInput(), EnterAll(StaleInput(), Start(StaleInput()), 1), st1)
    requires Stepped(StaleInput(), st1, st2, stop)
    ensures st1.ready == [0] && st1.blocked == [Block(0, 5)] && st1.perProc == [[(0, 2)]]
    ensures !stop && st2.done == {0} && st2.completion == map[0 := 2] && st2.blocked == [Block(0, 5)]
  {
    StaleEntered();
    var s1 := State(0, [], [[]], map[], [0], map[0 := 2], [], [], {});
    StaleNoEvent(s1);
    StalePicked(StaleInput(), EnterAll(StaleInput(), Start(StaleInput()), 1), st1);
    var r := State(2, [ExecSlice("A", 0, 2)], [[(0, 2)]], map[], [0], map[0 := 0], [], [], {});
    StaleRescan(r);
    StaleParked(r.(ready := [0]));
    StaleSecond(st1);
    StaleRepop(StaleInput(), st1, st2, stop);
  }

  /** The second pass pops the stale entry of "A", whose plan is used up. */
  lemma StaleRepop(procs: seq<Process>, st1: State, st2: State, stop: bool)
    requires procs == StaleInput()
    requires st1 == State(2, [ExecSlice("A", 0, 2), ExecSlice(BlockLabel("A"), 2, 5)], [[(0, 2)]], map[], [2], map[], [0], [Block(0, 5)], {})
    requires Settle(procs, st1) == st1 && Stepped(procs, st1, st2, stop)
    ensures !stop && st2.done == {0} && st2.completion == map[0 := 2] && st2.blocked == [Block(0, 5)]
  {
    assert Pick(procs, st1) == 0 && RemoveAt(st1.ready, 0) == [];
    assert |EffectivePattern(procs[0])| == 2;
  }

  /** "A" is the only one ready, has its whole first segment left, and nothing can preempt it before 2. */
  lemma StalePicked(procs: seq<Process>, s0: State, st1: State)
    requires procs == StaleInput() && s0 == State(0, [], [[]], map[], [0], map[0 := 2], [0], [], {})
    requires NextEvent(procs, s0.(ready := [])) == None
    requires Picking(procs, s0) && Popped(procs, s0, st1)
    ensures st1 == AfterRun(procs, Settle(procs, State(2, [ExecSlice("A", 0, 2)], [[(0, 2)]], map[], [0], map[0 := 0], [], [], {})), 0)
  {
    assert Pick(procs, s0) == 0 && RemoveAt(s0.ready, 0) == [];
    StaleRan(procs, s0.(ready := []));
  }

  /** The run of "A" from 0 lasts its whole first segment. */
  lemma StaleRan(procs: seq<Process>, s1: State)
    requires procs == StaleInput() && s1 == State(0, [], [[]], map[], [0], map[0 := 2], [], [], {})
    requires NextEvent(procs, s1) == None
    ensures EffectivePattern(procs[0])[0] == Segment(CPU, 2) && RemOf(s1, 0) == 2
    ensures Horizon(procs, s1, 0) == 2
    ensures Ran(procs, s1, 0, 2) == State(2, [ExecSlice("A", 0, 2)], [[(0, 2)]], map[], [0], map[0 := 0], [], [], {})
  {
    assert map[0 := 2][0 := 0] == map[0 := 0];
    var iv: seq<(int, int)> := [(0, 2)];
    assert s1.perProc[0] + iv == iv;
    assert procs[0].name == "A" && s1.perProc[0 := iv] == [iv];
  }

  /** The initial admission queues "A" with its first CPU segment as remainder. */
  lemma StaleEntered()
    ensures EnterAll(StaleInput(), Start(StaleInput()), 1) == State(0, [], [[]], map[], [0], map[0 := 2], [0], [], {})
  {
    var procs := StaleInput();
    assert FirstArrival(procs) == 0;
    var st := Start(procs);
    assert st == State(0, [], [[]], map[], [0], map[], [], [], {});
    assert Parked(st.blocked) == {};
    assert EffectivePattern(procs[0])[0] == Segment(CPU, 2);
  }

  /** With "A" in hand at 0 there is no future event, so the run lasts the whole segment. */
  lemma StaleNoEvent(s1: State)
    requires s1 == State(0, [], [[]], map[], [0], map[0 := 2], [], [], {})
    ensures NextEvent(StaleInput(), s1) == None
  {
    var procs := StaleInput();
    assert Unstarted(procs, s1.cursor, s1.done, 1) == [0];
    assert Untils(s1.blocked) == [];
    assert [0] + [] == [0];
  }

  /** The used-up CPU segment is followed by BLOCK 3: "A" parks until 5 with its stale entry still queued. */
  lemma StaleParked(r: State)
    requires r == State(2, [ExecSlice("A", 0, 2)], [[(0, 2)]], map[], [0], map[0 := 0], [0], [], {})
    ensures AfterRun(StaleInput(), r, 0) == State(2, [ExecSlice("A", 0, 2), ExecSlice(BlockLabel("A"), 2, 5)], [[(0, 2)]], map[], [2], map[], [0], [Block(0, 5)], {})
  {
    var procs := StaleInput();
    assert EffectivePattern(procs[0]) == [Segment(CPU, 2), Segment(BLOCK, 3)];
    assert map[0 := 0] - {0} == map[];
  }

  /** At 2 nothing is released, and the scan queues "A" again because its cursor is still 0. */
  lemma StaleRescan(r: State)
    requires r == State(2, [ExecSlice("A", 0, 2)], [[(0, 2)]], map[], [0], map[0 := 0], [], [], {})
    ensures Settle(StaleInput(), r) == r.(ready := [0])
  {
    var procs := StaleInput();
    assert UnblockOrder(r.blocked) == [];
    assert ReleaseAll(procs, r, []) == r;
    assert Parked(r.blocked) == {};
    assert EffectivePattern(procs[0])[0] == Segment(CPU, 2);
    assert MakeReady(procs, r, 0, 2) == r.(ready := [0]);
    assert AdmitAll(procs, r, 1) == AdmitOne(procs, AdmitAll(procs, r, 0), 0);
  }

  /** The second pass: nothing is due at 2, and the stale entry completes "A" at 2. */
  lemma StaleSecond(st1: State)
    requires st1 == State(2, [ExecSlice("A", 0, 2), ExecSlice(BlockLabel("A"), 2, 5)], [[(0, 2)]], map[], [2], map[], [0], [Block(0, 5)], {})
    ensures Settle(StaleInput(), st1) == st1
  {
    StaleOrder(st1.blocked);
    StaleHeld(StaleInput(), st1);
    StaleKept(StaleInput(), st1);
  }

  /** A table with one entry is visited in that entry's order. */
  lemma StaleOrder(b: seq<Block>)
    requires b == [Block(0, 5)]
    ensures UnblockOrder(b) == [0]
  {
    var ps: seq<nat> := [0];
    assert Procs(b) == ps;
    assert SortBy(ps, UntilKey(b)) == InsertBy<nat>(0, [], UntilKey(b));
  }

  /** At 2 the block of "A" until 5 is not due, so nothing is released. */
  lemma StaleHeld(procs: seq<Process>, st1: State)
    requires |procs| == 1 && |st1.cursor| == 1 && st1.time == 2 && st1.blocked == [Block(0, 5)]
    ensures ReleaseAll(procs, st1, [0]) == st1
  {
    assert UntilOf(st1.blocked, 0) == 5;
    assert ReleaseAll(procs, st1, [0]) == ReleaseOne(procs, ReleaseAll(procs, st1, []), 0);
  }

  /** "A" is blocked, so the arrival scan leaves the state as it is. */
  lemma StaleKept(procs: seq<Process>, st1: State)
    requires |procs| == 1 && |st1.cursor| == 1 && st1.blocked == [Block(0, 5)]
    ensures AdmitAll(procs, st1, 1) == st1
  {
    assert 0 in Parked(st1.blocked);
    assert AdmitAll(procs, st1, 1) == AdmitOne(procs, AdmitAll(procs, st1, 0), 0);
  }


  /** The state before the first admission: the clock at the first arrival and nothing started. */
  function Start(procs: seq<Process>): State
    requires procs != []
  {
    State(FirstArrival(procs), [], seq(|procs|, _ => []), map[], seq(|procs|, _ => 0), map[], [], [], {})
  }

  lemma StartInv(procs: seq<Process>)
    requires ValidInput(procs) && procs != []
    ensures Inv(procs, Start(procs), None)
  {
    var st := Start(procs);
    forall i | 0 <= i < |procs| ensures Track(procs, st, i) {
      assert EffectivePattern(procs[i])[..0] == [];
      assert st.perProc[i] == [];
    }
    assert Elems(st.ready) == {} && Parked(st.blocked) == {};
  }

  /** The initial admission of process `i`: make_ready_if_cpu when it has arrived. */
  function EnterOne(procs: seq<Process>, st: State, i: nat): (r: State)
    requires i < |procs| && |st.cursor| == |procs|
    ensures r.time == st.time && |r.cursor| == |procs|
  {
    if procs[i].arrival <= st.time then MakeReady(procs, st, i, st.time) else st
  }

  /** The initial admission of the processes below `j`, in input order. */
  function EnterAll(procs: seq<Process>, st: State, j: nat): (r: State)
    requires j <= |procs| && |st.cursor| == |procs|
    ensures r.time == st.time && |r.cursor| == |procs|
  {
    if j == 0 then st else EnterOne(procs, EnterAll(procs, st, j - 1), j - 1)
  }

  lemma EnterInv(procs: seq<Process>, st: State, i: nat)
    requires Inv(procs, st, None) && i < |procs|
    ensures Inv(procs, EnterOne(procs, st, i), None) && Within(procs, EnterOne(procs, st, i), st)
  {
    if procs[i].arrival <= st.time && i !in st.done && i !in Parked(st.blocked) {
      EnterNew(procs, st, i);
    } else {
      EnterNone(procs, st, i);
    }
  }

  lemma EnterNew(procs: seq<Process>, st: State, i: nat)
    requires Inv(procs, st, None) && i < |procs|
    requires procs[i].arrival <= st.time && i !in st.done && i !in Parked(st.blocked)
    ensures Inv(procs, MakeReady(procs, st, i, st.time), None) && Within(procs, MakeReady(procs, st, i, st.time), st)
  {
    assert Loose(procs, st, None, i);
    EndsNow(procs, st, i);
    MakeReadyInv(procs, st, None, i, st.time);
    MakeReadyWithin(procs, st, None, i, st.time);
  }

  /** A process not yet arrived, finished or parked is left as it is. */
  lemma EnterNone(procs: seq<Process>, st: State, i: nat)
    requires i < |procs| && |st.cursor| == |procs|
    requires !(procs[i].arrival <= st.time && i !in st.done && i !in Parked(st.blocked))
    ensures EnterOne(procs, st, i) == st
  {
  }

  lemma EnterBelow(procs: seq<Process>, st: State, i: nat)
    requires |st.cursor| == |procs| && Entries(procs, st) && Fresh(procs, st) && DistinctProcs(st.blocked)
    requires i < |procs| && AdmittedBelow(procs, st, i)
    ensures AdmittedBelow(procs, EnterOne(procs, st, i), i + 1)
  {
    if procs[i].arrival <= st.time && i !in st.done && i !in Parked(st.blocked) {
      AdmitNew(procs, st, i, st.time);
    } else {
      if i in Parked(st.blocked) {
        EntryOf(procs, st, i);
      }
      assert EnterOne(procs, st, i) == st;
    }
  }

  lemma EnterStep(procs: seq<Process>, st: State, cur: State, cur': State, i: nat)
    requires ScanInv(procs, st, cur, None, i) && i < |procs| && cur' == EnterOne(procs, cur, i)
    ensures ScanInv(procs, st, cur', None, i + 1)
  {
    EnterInv(procs, cur, i);
    EnterBelow(procs, cur, i);
    WithinTrans(procs, st, cur, cur');
  }

  /** The initial admission, in input order, of every process that has arrived. */
  method Enter(procs: seq<Process>, st: State) returns (st': State)
    requires Inv(procs, st, None)
    ensures st' == EnterAll(procs, st, |procs|)
    ensures Inv(procs, st', None) && Admitted(procs, st')
  {
    st' := st;
    for i := 0 to |procs|
      invariant st' == EnterAll(procs, st, i)
      invariant ScanInv(procs, st, st', None, i)
    {
      EnterStep(procs, st, st', EnterOne(procs, st', i), i);
      st' := EnterOne(procs, st', i);
    }
  }

  /** The loop has ended: by the count of finished processes, or by a stop. */
  lemma Wrapped(procs: seq<Process>, st: State)
    requires Inv(procs, st, None)
    requires |st.done| >= |procs| || (Ended(procs, st) && (ChainFree(procs) ==> |st.done| >= |procs|))
    ensures Ended(procs, st)
    ensures ChainFree(procs) ==> forall i :: 0 <= i < |procs| ==> i in st.done
  {
    assert Places(|procs|, st, None);
    BoundedCard(st.done, |procs|);
  }

  /**
   * The engine's main loop, from the first admission until every process is
   * done or no event is left. Under plans without chained zero-length BLOCK
   * segments every process finishes.
   */
  method Run(procs: seq<Process>) returns (st: State)
    requires ValidInput(procs) && procs != []
    ensures Ended(procs, st)
    ensures Final(procs, st.perProc, st.timeline, Finish(procs, st), st.time, st.done)
    ensures ChainFree(procs) ==> forall i :: 0 <= i < |procs| ==> i in st.done
  {
    StartInv(procs);
    st := Enter(procs, Start(procs));
    while |st.done| < |procs|
      invariant Inv(procs, st, None) && Admitted(procs, st)
      decreases Effort(procs, st), Future(procs, st), Phantoms(st)
    {
      EffortNonNeg(procs, st, None);
      var stop;
      st, stop := Step(procs, st);
      if stop {
        break;
      }
    }
    Wrapped(procs, st);
    FinalState(procs, st);
  }

  /** `completion.get(name, time)`: the completion instant, or the final clock. */
  function Finish(procs: seq<Process>, st: State): (f: seq<int>)
  {
    seq(|procs|, i requires 0 <= i < |procs| => if i in st.completion then st.completion[i] else st.time)
  }

  /** The CPU time a process received never exceeds its plan's, and equals it once its plan is used up. */
  lemma Served(procs: seq<Process>, st: State, i: nat)
    requires ValidInput(procs) && i < |procs| && Track(procs, st, i)
    ensures SliceTotal(st.perProc[i]) <= CpuTotal(EffectivePattern(procs[i]))
    ensures st.cursor[i] == |EffectivePattern(procs[i])| ==> SliceTotal(st.perProc[i]) == CpuTotal(EffectivePattern(procs[i]))
  {
    var plan := EffectivePattern(procs[i]);
    var c := st.cursor[i];
    CpuTotalSplit(plan, c);
    ValidSuffix(plan, c);
    if i in st.rem {
      assert plan[c..][1..] == plan[c + 1..];
      ValidSuffix(plan, c + 1);
      CpuTotalNonNeg(plan[c + 1..]);
    } else {
      CpuTotalNonNeg(plan[c..]);
    }
    if c == |plan| {
      assert plan[..c] == plan;
    }
  }

  /** Every process ends no earlier than its arrival and after its last CPU interval. */
  lemma FinishBound(procs: seq<Process>, st: State, i: nat)
    requires Inv(procs, st, None) && Ended(procs, st) && i < |procs|
    ensures procs[i].arrival <= Finish(procs, st)[i] && EndsBy(st.perProc[i], Finish(procs, st)[i])
  {
    assert Places(|procs|, st, None);
    if i !in st.done {
      assert Started(st, i);
      EndsNow(procs, st, i);
    }
  }

  /**
   * What the metrics and the published result need of the final state: the
   * finish instants after each arrival and each process's intervals, and the
   * CPU time received against each plan.
   */
  ghost predicate Final(procs: seq<Process>, pp: seq<seq<(int, int)>>, tl: seq<ExecSlice>,
                        finish: seq<int>, now: int, done: set<nat>)
  {
    && UniqueNames(procs) && |pp| == |procs| && |finish| == |procs|
    && IntervalsOk(procs, pp, now) && TimelineOk(procs, pp, tl)
    && forall i :: 0 <= i < |procs| ==>
         && procs[i].arrival <= finish[i] && EndsBy(pp[i], finish[i])
         && SliceTotal(pp[i]) <= CpuTotal(EffectivePattern(procs[i]))
         && (i in done ==> SliceTotal(pp[i]) == CpuTotal(EffectivePattern(procs[i])))
  }

  lemma FinalState(procs: seq<Process>, st: State)
    requires Inv(procs, st, None) && Ended(procs, st)
    ensures Final(procs, st.perProc, st.timeline, Finish(procs, st), st.time, st.done)
  {
    forall i | 0 <= i < |procs|
      ensures && procs[i].arrival <= Finish(procs, st)[i] && EndsBy(st.perProc[i], Finish(procs, st)[i])
              && SliceTotal(st.perProc[i]) <= CpuTotal(EffectivePattern(procs[i]))
              && (i in st.done ==> SliceTotal(st.perProc[i]) == CpuTotal(EffectivePattern(procs[i])))
    {
      FinishBound(procs, st, i);
      assert Track(procs, st, i);
      Served(procs, st, i);
    }
  }

  /**
   * What an SRTF result promises about a non-empty input: the CPU intervals
   * are chronological, after each arrival and never overlap, and the timeline
   * slices are theirs or labelled I/O; every process receives at most its
   * plan's CPU time, and all of it under plans without chained zero-length
   * BLOCK segments; turnaround times are non-negative and cover every CPU
   * interval; waiting times and the two averages follow from them.
   */
  ghost predicate Outcome(procs: seq<Process>, r: ScheduleResult)
  {
    Traced(procs, r) && Measured(procs, r)
  }

  /** The trace half of the outcome. */
  ghost predicate Traced(procs: seq<Process>, r: ScheduleResult)
  {
    Drawn(procs, r) && Shared(procs, r) && Covered(procs, r)
  }

  /** Every process receives at most its plan's CPU time, and all of it under plans without chained zero-length BLOCK segments. */
  ghost predicate Shared(procs: seq<Process>, r: ScheduleResult)
  {
    && r.perProcessSlices.Keys == Names(procs)
    && (forall i :: 0 <= i < |procs| ==>
          SliceTotal(r.perProcessSlices[procs[i].name]) <= CpuTotal(EffectivePattern(procs[i])))
    && (ChainFree(procs) ==> CpuServed(procs, r))
  }

  lemma PublishShared(procs: seq<Process>, pp: seq<seq<(int, int)>>, done: set<nat>, r: ScheduleResult)
    requires UniqueNames(procs) && |pp| == |procs| && r.perProcessSlices == ByName(procs, pp)
    requires forall i :: 0 <= i < |procs| ==>
      && SliceTotal(pp[i]) <= CpuTotal(EffectivePattern(procs[i]))
      && (i in done ==> SliceTotal(pp[i]) == CpuTotal(EffectivePattern(procs[i])))
    requires ChainFree(procs) ==> forall i :: 0 <= i < |procs| ==> i in done
    ensures Shared(procs, r)
  {
    if ChainFree(procs) {
      PublishServed(procs, pp, r);
    }
  }

  /**
   * The result of a run: the timeline and the CPU intervals by name, the
   * turnaround and waiting times from the finish instants, and their
   * averages over the number of processes.
   */
  method Report(procs: seq<Process>, pp: seq<seq<(int, int)>>, tl: seq<ExecSlice>,
                finish: seq<int>, now: int, done: set<nat>) returns (r: ScheduleResult)
    requires Final(procs, pp, tl, finish, now, done)
    requires ChainFree(procs) ==> forall i :: 0 <= i < |procs| ==> i in done
    ensures Outcome(procs, r)
    ensures r.timeline == tl && r.perProcessSlices == ByName(procs, pp)
    ensures forall i :: 0 <= i < |procs| ==> r.turnaround[procs[i].name] == finish[i] - procs[i].arrival
  {
    var turnaround, waiting, avgTurnaround, avgWaiting := PlanMetrics(procs, finish, true);
    r := ScheduleResult(tl, ByName(procs, pp), turnaround, waiting, Some(avgTurnaround), Some(avgWaiting));
    assert Drawn(procs, r) by { PublishDrawn(procs, pp, tl, now, r); }
    assert Shared(procs, r) by { PublishShared(procs, pp, done, r); }
    assert Covered(procs, r) by { PublishCovered(procs, pp, finish, r); }
  }

  /** The SRTF engine: an empty input gives the empty result, any other the promised outcome. */
  method Schedule(procs: seq<Process>) returns (r: ScheduleResult)
    requires ValidInput(procs)
    ensures procs == [] ==> r == EmptyResult()
    ensures procs != [] ==> Outcome(procs, r)
  {
    if procs == [] {
      return EmptyResult();
    }
    var st := Run(procs);
    r := Report(procs, st.perProc, st.timeline, Finish(procs, st), st.time, st.done);
  }
}
