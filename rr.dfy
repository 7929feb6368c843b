/**
 * The Round Robin engine: the ready queue is served in turns of at most one
 * quantum. A process whose CPU segment is not used up by its turn goes to the
 * back of the queue and keeps the rest of the segment for its next turn; a
 * BLOCK segment starts only once the CPU segment before it is used up.
 */
module RoundRobin {
  import opened Models
  import opened Ledger
  import opened Metrics
  import opened Trace
  import opened Progress

  /**
   * The engine's variables between two passes of its main loop. Processes are
   * named by their index in the input list sorted by arrival; `pats[i]` is what
   * is left of process `i`'s working pattern, `rem[i]` what is left of its
   * current CPU segment once it has had a turn in it.
   */
  datatype State = State(
    time: int,
    timeline: seq<ExecSlice>,
    perProc: seq<seq<(int, int)>>,
    completion: map<nat, int>,
    pats: seq<seq<Segment>>,
    rem: map<nat, int>,
    blocked: seq<Block>,
    ready: seq<nat>,
    done: set<nat>,
    idx: nat)

  // ---------------------------------------------------------------------------
  // Name order: at the top of the loop the blocked processes are visited sorted
  // by name.

  /** `a` sorts no later than `b` as strings compare: character by character, a prefix first. */
  predicate NameLe(a: string, b: string)
  {
    a == [] || (b != [] && (a[0] < b[0] || (a[0] == b[0] && NameLe(a[1..], b[1..]))))
  }

  lemma {:induction false} NameLeTotal(a: string, b: string)
    ensures NameLe(a, b) || NameLe(b, a)
  {
    if a != [] && b != [] && a[0] == b[0] {
      NameLeTotal(a[1..], b[1..]);
    }
  }

  lemma {:induction false} NameLeTrans(a: string, b: string, c: string)
    requires NameLe(a, b) && NameLe(b, c)
    ensures NameLe(a, c)
  {
    if a != [] && a[0] == b[0] && b[0] == c[0] {
      NameLeTrans(a[1..], b[1..], c[1..]);
    }
  }

  function InsertByName(x: nat, s: seq<nat>, key: nat -> string): seq<nat>
  {
    if s == [] then [x]
    else if NameLe(key(s[0]), key(x)) then [s[0]] + InsertByName(x, s[1..], key)
    else [x] + s
  }

  /** Insertion sort by the name of each element. */
  function SortByName(s: seq<nat>, key: nat -> string): seq<nat>
  {
    if s == [] then [] else InsertByName(s[|s| - 1], SortByName(s[..|s| - 1], key), key)
  }

  predicate NameSorted(s: seq<nat>, key: nat -> string)
  {
    forall a, b :: 0 <= a < b < |s| ==> NameLe(key(s[a]), key(s[b]))
  }

  lemma {:induction false} InsertByNameMultiset(x: nat, s: seq<nat>, key: nat -> string)
    ensures multiset(InsertByName(x, s, key)) == multiset(s) + multiset{x}
  {
    if s != [] && NameLe(key(s[0]), key(x)) {
      InsertByNameMultiset(x, s[1..], key);
      assert s == [s[0]] + s[1..];
    }
  }

  lemma SortedTail(s: seq<nat>, key: nat -> string)
    requires NameSorted(s, key) && s != []
    ensures NameSorted(s[1..], key)
  {
    forall a, b | 0 <= a < b < |s| - 1 ensures NameLe(key(s[1..][a]), key(s[1..][b])) {
      assert s[1..][a] == s[a + 1] && s[1..][b] == s[b + 1];
    }
  }

  lemma {:induction false} InsertByNameSorted(x: nat, s: seq<nat>, key: nat -> string)
    requires NameSorted(s, key)
    ensures NameSorted(InsertByName(x, s, key), key)
  {
    if s == [] {
      return;
    }
    if NameLe(key(s[0]), key(x)) {
      var rest := InsertByName(x, s[1..], key);
      SortedTail(s, key);
      InsertByNameSorted(x, s[1..], key);
      InsertByNameMultiset(x, s[1..], key);
      forall k | 0 <= k < |rest| ensures NameLe(key(s[0]), key(rest[k])) {
        assert rest[k] in multiset(rest);
        if rest[k] != x {
          var j :| 0 <= j < |s| - 1 && s[1..][j] == rest[k];
          assert s[j + 1] == rest[k];
        }
      }
      ConsSorted(s[0], rest, key);
    } else {
      NameLeTotal(key(s[0]), key(x));
      forall k | 0 <= k < |s| ensures NameLe(key(x), key(s[k])) {
        if k > 0 {
          NameLeTrans(key(x), key(s[0]), key(s[k]));
        }
      }
      ConsSorted(x, s, key);
    }
  }

  /** A sorted sequence stays sorted with an element in front that is no greater than any of it. */
  lemma ConsSorted(h: nat, r: seq<nat>, key: nat -> string)
    requires NameSorted(r, key) && forall k :: 0 <= k < |r| ==> NameLe(key(h), key(r[k]))
    ensures NameSorted([h] + r, key)
  {
    var hr := [h] + r;
    forall a, b | 0 <= a < b < |hr| ensures NameLe(key(hr[a]), key(hr[b])) {
      assert hr[b] == r[b - 1];
      if a > 0 {
        assert hr[a] == r[a - 1];
      }
    }
  }

  lemma {:induction false} InsertByNameNoDup(x: nat, s: seq<nat>, key: nat -> string)
    requires NoDup(s) && x !in s
    ensures NoDup(InsertByName(x, s, key))
  {
    if s == [] {
      return;
    }
    if NameLe(key(s[0]), key(x)) {
      var rest := InsertByName(x, s[1..], key);
      assert NoDup(s[1..]) by {
        forall a, b | 0 <= a < b < |s| - 1 ensures s[1..][a] != s[1..][b] {
          assert s[1..][a] == s[a + 1] && s[1..][b] == s[b + 1];
        }
      }
      InsertByNameNoDup(x, s[1..], key);
      InsertByNameMultiset(x, s[1..], key);
      var r := [s[0]] + rest;
      forall a, b | 0 <= a < b < |r| ensures r[a] != r[b] {
        assert r[b] == rest[b - 1];
        if a == 0 {
          assert r[b] in multiset(rest);
          if r[b] != x {
            var j :| 0 <= j < |s| - 1 && s[1..][j] == r[b];
            assert s[j + 1] == r[b];
          }
        } else {
          assert r[a] == rest[a - 1];
        }
      }
    } else {
      var r := [x] + s;
      forall a, b | 0 <= a < b < |r| ensures r[a] != r[b] {
        assert r[b] == s[b - 1];
        if a > 0 {
          assert r[a] == s[a - 1];
        }
      }
    }
  }

  /** The sort returns a permutation of its input, in name order, free of duplicates when its input is. */
  lemma {:induction false} SortByNameProps(s: seq<nat>, key: nat -> string)
    ensures multiset(SortByName(s, key)) == multiset(s)
    ensures NameSorted(SortByName(s, key), key)
    ensures NoDup(s) ==> NoDup(SortByName(s, key))
  {
    if s != [] {
      var init := s[..|s| - 1];
      var x := s[|s| - 1];
      var sorted := SortByName(init, key);
      SortByNameProps(init, key);
      assert s == init + [x];
      InsertByNameMultiset(x, sorted, key);
      InsertByNameSorted(x, sorted, key);
      if NoDup(s) {
        assert NoDup(init) by {
          forall a, b | 0 <= a < b < |init| ensures init[a] != init[b] {
            assert init[a] == s[a] && init[b] == s[b];
          }
        }
        assert x !in init by {
          forall k | 0 <= k < |init| ensures init[k] != x {
            assert init[k] == s[k];
          }
        }
        assert x !in multiset(sorted);
        InsertByNameNoDup(x, sorted, key);
      }
    }
  }

  /** Each process's name, looked up by its index. */
  function NameKey(procs: seq<Process>): nat -> string
  {
    (p: nat) => if p < |procs| then procs[p].name else ""
  }

  /** The blocked processes sorted by name: the order of the release at the top of the loop. */
  function NameOrder(procs: seq<Process>, b: seq<Block>): seq<nat>
  {
    SortByName(Procs(b), NameKey(procs))
  }

  // ---------------------------------------------------------------------------
  // The loop invariant, one piece per group of variables. `held` is the
  // process taken off the ready queue during a pass and not yet put anywhere.
  // (Each piece is bound to a name so that the verifier takes it as one fact
  // where it is passed along whole, rather than conjunct by conjunct.)

  /** What is left of process `i`'s working pattern is a suffix of its plan. */
  ghost predicate Left(procs: seq<Process>, pats: seq<seq<Segment>>, i: int)
  {
    0 <= i < |procs| && i < |pats| && IsSuffix(pats[i], EffectivePattern(procs[i])) && ValidPattern(pats[i])
  }

  ghost predicate Shape(procs: seq<Process>, pats: seq<seq<Segment>>, perProc: seq<seq<(int, int)>>)
  {
    var ok :=
      && |pats| == |procs| && |perProc| == |procs|
      && forall i :: 0 <= i < |procs| ==> Left(procs, pats, i);
    ok
  }

  /**
   * Every admitted process (index below the arrivals cursor) is in exactly one
   * place: the ready queue, the blocked table, the done set, or in hand; and
   * exactly the finished ones have a completion instant.
   */
  ghost predicate Places(ready: seq<nat>, blocked: seq<Block>, done: set<nat>, held: Option<nat>, idx: nat,
                         completion: map<nat, int>)
  {
    var ok :=
      && NoDup(ready) && DistinctProcs(blocked)
      && Elems(ready) !! Parked(blocked) && Elems(ready) !! done && Elems(ready) !! InHand(held)
      && Parked(blocked) !! done && Parked(blocked) !! InHand(held) && done !! InHand(held)
      && Elems(ready) + Parked(blocked) + done + InHand(held) == Below(idx)
      && completion.Keys == done;
    ok
  }

  /**
   * A remainder belongs to a process in the middle of a CPU segment: it is
   * positive and at most the segment's duration (the process in hand may have
   * just used it up); finished processes have nothing left.
   */
  ghost predicate Rems(pats: seq<seq<Segment>>, rem: map<nat, int>, done: set<nat>, held: Option<nat>)
  {
    var ok :=
      && (forall i :: i in rem ==>
            && i < |pats| && pats[i] != [] && pats[i][0].kind == CPU
            && 0 <= rem[i] <= pats[i][0].duration && (held != Some(i) ==> rem[i] > 0))
      && (forall d :: d in done ==> d < |pats| && pats[d] == []);
    ok
  }

  /** Every admitted process has arrived. */
  ghost predicate Clock(procs: seq<Process>, idx: nat, time: int)
  {
    idx <= |procs| && forall j :: 0 <= j < idx ==> procs[j].arrival <= time
  }

  /** The part of process `i`'s current CPU segment it has already run. */
  function Used(pats: seq<seq<Segment>>, rem: map<nat, int>, i: nat): int
  {
    if i in rem && i < |pats| && pats[i] != [] then pats[i][0].duration - rem[i] else 0
  }

  /** Process `i`'s CPU time received plus CPU time left is the CPU time of its plan. */
  ghost predicate Balanced(procs: seq<Process>, perProc: seq<seq<(int, int)>>, pats: seq<seq<Segment>>,
                           rem: map<nat, int>, i: int)
  {
    0 <= i < |procs| && i < |perProc| && i < |pats| &&
    SliceTotal(perProc[i]) + CpuTotal(pats[i]) == CpuTotal(EffectivePattern(procs[i])) + Used(pats, rem, i)
  }

  ghost predicate CpuBalance(procs: seq<Process>, perProc: seq<seq<(int, int)>>, pats: seq<seq<Segment>>,
                             rem: map<nat, int>)
  {
    var ok :=
      && |pats| == |procs| && |perProc| == |procs|
      && forall i :: 0 <= i < |procs| ==> Balanced(procs, perProc, pats, rem, i);
    ok
  }

  /** A finished process completed no earlier than its arrival and than the end of its last CPU interval. */
  ghost predicate Finished(procs: seq<Process>, perProc: seq<seq<(int, int)>>, done: set<nat>, completion: map<nat, int>)
  {
    forall d :: d in done && d in completion && d < |procs| && d < |perProc| ==>
      procs[d].arrival <= completion[d] && EndsBy(perProc[d], completion[d])
  }

  ghost predicate Inv(procs: seq<Process>, st: State, held: Option<nat>)
  {
    var ok :=
      && Shape(procs, st.pats, st.perProc)
      && Places(st.ready, st.blocked, st.done, held, st.idx, st.completion)
      && Rems(st.pats, st.rem, st.done, held)
      && Clock(procs, st.idx, st.time)
      && CpuBalance(procs, st.perProc, st.pats, st.rem)
      && Finished(procs, st.perProc, st.done, st.completion)
      && IntervalsOk(procs, st.perProc, st.time)
      && TimelineOk(procs, st.perProc, st.timeline);
    ok
  }

  /** No CPU interval is longer than the quantum. */
  ghost predicate Quantized(pp: seq<seq<(int, int)>>, q: int)
  {
    forall i, k :: 0 <= i < |pp| && 0 <= k < |pp[i]| ==> pp[i][k].1 - pp[i][k].0 <= q
  }

  lemma QuantizedAdd(pp: seq<seq<(int, int)>>, q: int, a: nat, t: int, t': int)
    requires a < |pp| && t' - t <= q
    ensures Quantized(pp, q) ==> Quantized(pp[a := pp[a] + [(t, t')]], q)
  {
  }

  // ---------------------------------------------------------------------------
  // Termination: every turn lowers the work left; a clock jump instead passes
  // one of the future events.

  /** The work left for process `i`: its pattern's cost less what it ran of its current segment. */
  function Work(pats: seq<seq<Segment>>, rem: map<nat, int>, i: nat): int
  {
    (if i < |pats| then Cost(pats[i]) else 0) - Used(pats, rem, i)
  }

  function Todo(pats: seq<seq<Segment>>, rem: map<nat, int>, j: nat): int
  {
    if j == 0 then 0 else Todo(pats, rem, j - 1) + Work(pats, rem, j - 1)
  }

  function Effort(procs: seq<Process>, st: State): int
  {
    Todo(st.pats, st.rem, |procs|) + (|procs| - |st.done|)
  }

  /** The events the clock may still jump to: arrivals beyond the cursor and unblocks, after now. */
  function Future(procs: seq<Process>, st: State): nat
  {
    ArrivalsAfter(procs, st.idx, st.time) + BlockedAfter(st.blocked, st.time)
  }

  lemma {:induction false} TodoFrame(p: seq<seq<Segment>>, r: map<nat, int>, p': seq<seq<Segment>>, r': map<nat, int>,
                                     a: nat, j: nat)
    requires forall i: nat :: i != a ==> Work(p', r', i) == Work(p, r, i)
    ensures Todo(p', r', j) == Todo(p, r, j) + (if a < j then Work(p', r', a) - Work(p, r, a) else 0)
  {
    if j > 0 {
      TodoFrame(p, r, p', r', a, j - 1);
    }
  }

  /** Changing the pattern and remainder of process `a` alone changes the work left by the change in its share. */
  lemma TodoUpdate(p: seq<seq<Segment>>, r: map<nat, int>, p': seq<seq<Segment>>, r': map<nat, int>, a: nat, n: nat)
    requires |p'| == |p| && a < n
    requires forall i :: 0 <= i < |p| && i != a ==> p'[i] == p[i]
    requires forall i :: i != a ==> (i in r' <==> i in r)
    requires forall i :: i != a && i in r ==> r'[i] == r[i]
    ensures Todo(p', r', n) == Todo(p, r, n) - Work(p, r, a) + Work(p', r', a)
  {
    forall i: nat | i != a ensures Work(p', r', i) == Work(p, r, i) {
    }
    TodoFrame(p, r, p', r', a, n);
  }

  /** Starting a CPU segment leaves the work left unchanged: nothing of it has run. */
  lemma TodoLoad(p: seq<seq<Segment>>, r: map<nat, int>, a: nat, n: nat)
    requires a < n && a < |p| && p[a] != [] && a !in r
    ensures Todo(p, r[a := p[a][0].duration], n) == Todo(p, r, n)
  {
    TodoUpdate(p, r, p, r[a := p[a][0].duration], a, n);
  }

  /** Running `run` units of the current CPU segment lowers the work left by `run`. */
  lemma TodoSlice(p: seq<seq<Segment>>, r: map<nat, int>, a: nat, run: int, n: nat)
    requires a < n && a < |p| && p[a] != [] && a in r
    ensures Todo(p, r[a := r[a] - run], n) == Todo(p, r, n) - run
  {
    TodoUpdate(p, r, p, r[a := r[a] - run], a, n);
  }

  /** Consuming a used-up CPU segment lowers the work left by one. */
  lemma TodoEnd(p: seq<seq<Segment>>, r: map<nat, int>, a: nat, n: nat)
    requires a < n && a < |p| && p[a] != [] && a in r && r[a] == 0
    ensures Todo(p[a := p[a][1..]], r - {a}, n) == Todo(p, r, n) - 1
  {
    TodoUpdate(p, r, p[a := p[a][1..]], r - {a}, a, n);
  }

  /** Consuming a BLOCK segment lowers the work left by its duration and one. */
  lemma TodoPark(p: seq<seq<Segment>>, r: map<nat, int>, a: nat, n: nat)
    requires a < n && a < |p| && p[a] != [] && a !in r
    ensures Todo(p[a := p[a][1..]], r, n) == Todo(p, r, n) - p[a][0].duration - 1
  {
    TodoUpdate(p, r, p[a := p[a][1..]], r, a, n);
  }

  lemma {:induction false} TodoNonNegative(p: seq<seq<Segment>>, r: map<nat, int>, j: nat)
    requires forall k :: 0 <= k < |p| ==> ValidPattern(p[k])
    requires forall i :: i in r && i < |p| && p[i] != [] ==> 0 <= r[i]
    ensures Todo(p, r, j) >= 0
  {
    if j > 0 {
      TodoNonNegative(p, r, j - 1);
      if j - 1 < |p| {
        CostBound(p[j - 1]);
      }
    }
  }

  lemma EffortBound(procs: seq<Process>, st: State)
    requires Inv(procs, st, None)
    ensures Effort(procs, st) >= 0
  {
    forall k | 0 <= k < |st.pats| ensures ValidPattern(st.pats[k]) {
      assert Left(procs, st.pats, k);
    }
    TodoNonNegative(st.pats, st.rem, |procs|);
    assert forall x :: x in st.done ==> x in Below(st.idx);
    BoundedCard(st.done, |procs|);
  }

  // ---------------------------------------------------------------------------
  // Admissions and releases.

  /**
   * Walk the sorted input from the arrivals cursor and queue every process that
   * has arrived by now, stopping at the first one that has not.
   */
  method EnqueueArrivals(procs: seq<Process>, st: State, held: Option<nat>) returns (st': State)
    requires Inv(procs, st, held)
    ensures Inv(procs, st', held)
    ensures st.idx <= st'.idx <= |procs|
    ensures st' == st.(idx := st'.idx, ready := st.ready + Range(st.idx, st'.idx))
    ensures forall j :: st.idx <= j < st'.idx ==> procs[j].arrival <= st.time
    ensures st'.idx < |procs| ==> procs[st'.idx].arrival > st.time
    ensures Future(procs, st') == Future(procs, st)
  {
    var idx, ready := st.idx, st.ready;
    while idx < |procs| && procs[idx].arrival <= st.time
      invariant st.idx <= idx <= |procs|
      invariant ready == st.ready + Range(st.idx, idx)
      invariant forall j :: 0 <= j < idx ==> procs[j].arrival <= st.time
      invariant ArrivalsAfter(procs, idx, st.time) == ArrivalsAfter(procs, st.idx, st.time)
    {
      AdmitFresh(st.ready, st.blocked, st.done, held, st.idx, st.completion, idx);
      if idx !in ready && idx !in Parked(st.blocked) && idx !in st.done {
        ready := ready + [idx];
      }
      idx := idx + 1;
    }
    st' := st.(idx := idx, ready := ready);
    AdmitPlaces(st.ready, st.blocked, st.done, held, st.idx, st.completion, idx);
  }

  lemma AdmitFresh(ready: seq<nat>, blocked: seq<Block>, done: set<nat>, held: Option<nat>, idx: nat,
                   completion: map<nat, int>, j: nat)
    requires Places(ready, blocked, done, held, idx, completion) && idx <= j
    ensures j !in done && j !in Parked(blocked) && j !in ready + Range(idx, j)
  {
    assert j !in Below(idx);
  }

  lemma AdmitPlaces(ready: seq<nat>, blocked: seq<Block>, done: set<nat>, held: Option<nat>, idx: nat,
                    completion: map<nat, int>, idx': nat)
    requires Places(ready, blocked, done, held, idx, completion) && idx <= idx'
    ensures Places(ready + Range(idx, idx'), blocked, done, held, idx', completion)
  {
    var r := ready + Range(idx, idx');
    assert Elems(r) == Elems(ready) + (Below(idx') - Below(idx)) by {
      forall x ensures x in Elems(r) <==> x in Elems(ready) + (Below(idx') - Below(idx)) {
        if idx <= x < idx' {
          assert r[|ready| + (x - idx)] == x;
        }
      }
    }
    forall a, b | 0 <= a < b < |r| ensures r[a] != r[b] {
      if a < |ready| <= b {
        assert r[a] in Elems(ready) && r[a] in Below(idx);
      }
    }
  }

  /**
   * The release at the top of the loop: visit the blocked processes sorted by
   * name, and put each one whose unblock instant is now or earlier on the back
   * of the ready queue unless it is done.
   */
  method ReleaseByName(procs: seq<Process>, st: State) returns (st': State)
    requires Inv(procs, st, None)
    ensures Inv(procs, st', None)
    ensures st' == st.(ready := st.ready + Outside(DueIn(NameOrder(procs, st.blocked), st.blocked, st.time), st.done),
                       blocked := Pending(st.blocked, st.time))
    ensures forall k :: 0 <= k < |st'.blocked| ==> st'.blocked[k].until > st.time
    ensures Future(procs, st') == Future(procs, st)
  {
    var order := NameOrder(procs, st.blocked);
    DistinctIsNoDup(st.blocked);
    SortByNameProps(Procs(st.blocked), NameKey(procs));
    assert forall k :: 0 <= k < |st.blocked| ==> st.blocked[k].proc in Parked(st.blocked);
    var ready, blocked := ReleaseIn(st.ready, st.blocked, st.done, st.time, order);
    st' := st.(ready := ready, blocked := blocked);
    ReleaseFuture(procs, st, st');
    ReleasePlaces(st.ready, st.blocked, st.done, None, st.idx, st.completion, st.time, order, st.done);
  }

  /** What stays blocked unblocks after now, and the events still to come are the same ones. */
  lemma ReleaseFuture(procs: seq<Process>, st: State, st': State)
    requires st'.idx == st.idx && st'.time == st.time && st'.blocked == Pending(st.blocked, st.time)
    ensures forall k :: 0 <= k < |st'.blocked| ==> st'.blocked[k].until > st.time
    ensures Future(procs, st') == Future(procs, st)
  {
    PendingMembers(st.blocked, st.time);
    BlockedAfterPending(st.blocked, st.time);
    forall k | 0 <= k < |st'.blocked| ensures st'.blocked[k].until > st.time {
      assert st'.blocked[k] in Pending(st.blocked, st.time);
    }
  }

  /**
   * The release after a turn: visit the blocked processes in table order, and
   * put each one that is due by now on the back of the ready queue unless it
   * is done or is the process whose turn it was.
   */
  method ReleaseAfterTurn(procs: seq<Process>, st: State, a: nat) returns (st': State)
    requires Inv(procs, st, Some(a))
    ensures Inv(procs, st', Some(a))
    ensures st' == st.(ready := st.ready + Outside(DueIn(Procs(st.blocked), st.blocked, st.time), st.done + {a}),
                       blocked := Pending(st.blocked, st.time))
  {
    DistinctIsNoDup(st.blocked);
    assert forall k :: 0 <= k < |st.blocked| ==> st.blocked[k].proc in Parked(st.blocked);
    var ready, blocked := ReleaseIn(st.ready, st.blocked, st.done + {a}, st.time, Procs(st.blocked));
    st' := st.(ready := ready, blocked := blocked);
    ReleasePlaces(st.ready, st.blocked, st.done, Some(a), st.idx, st.completion, st.time, Procs(st.blocked), st.done + {a});
  }

  /** A release in any order of the blocked processes keeps every admitted process in exactly one place. */
  lemma ReleasePlaces(ready: seq<nat>, blocked: seq<Block>, done: set<nat>, held: Option<nat>, idx: nat,
                      completion: map<nat, int>, t: int, order: seq<nat>, skip: set<nat>)
    requires Places(ready, blocked, done, held, idx, completion)
    requires NoDup(order) && multiset(order) == multiset(Procs(blocked))
    requires done <= skip <= done + InHand(held)
    ensures Places(ready + Outside(DueIn(order, blocked, t), skip), Pending(blocked, t), done, held, idx, completion)
  {
    var dueIn := DueIn(order, blocked, t);
    var due := Outside(dueIn, skip);
    DuePartition(blocked, t, order);
    OutsideMembers(dueIn, skip);
    assert Elems(due) == Elems(dueIn) by {
      forall x | x in Elems(dueIn) ensures x in Elems(due) {
        assert x in Parked(blocked);
      }
    }
    Extend(ready, due);
    Repartition(Elems(ready), Parked(blocked), Elems(due), Parked(Pending(blocked, t)), done, InHand(held), Below(idx));
  }

  /** The blocked processes split into those due by `t`, in the visiting order, and those still pending. */
  lemma DuePartition(b: seq<Block>, t: int, order: seq<nat>)
    requires DistinctProcs(b) && NoDup(order) && multiset(order) == multiset(Procs(b))
    ensures NoDup(DueIn(order, b, t)) && DistinctProcs(Pending(b, t))
    ensures Elems(DueIn(order, b, t)) + Parked(Pending(b, t)) == Parked(b)
    ensures Elems(DueIn(order, b, t)) !! Parked(Pending(b, t))
  {
    DueSetIn(b, t, order);
    PendingSet(b, t);
  }

  /** Moving part `d` of the blocked set `b` to the ready set keeps the four places a partition of `all`. */
  lemma Repartition(r: set<nat>, b: set<nat>, d: set<nat>, p: set<nat>, done: set<nat>, h: set<nat>, all: set<nat>)
    requires r !! b && r !! done && r !! h && b !! done && b !! h && done !! h
    requires r + b + done + h == all && d + p == b && d !! p
    ensures (r + d) !! p && (r + d) !! done && (r + d) !! h && p !! done && p !! h
    ensures (r + d) + p + done + h == all
  {
  }

  // ---------------------------------------------------------------------------
  // One turn.

  /** The state with the head of the ready queue taken off it. */
  function Popping(st: State): State
    requires st.ready != []
  {
    st.(ready := st.ready[1..])
  }

  /** The head of the ready queue is an admitted process that has arrived, and taking it keeps the invariant. */
  lemma TakeHead(procs: seq<Process>, st: State, st': State)
    requires Inv(procs, st, None) && st.ready != [] && st' == Popping(st)
    ensures st.ready[0] < st.idx <= |procs| && st.ready[0] < |st.pats|
    ensures st.ready[0] !in Parked(st.blocked) && st.ready[0] !in st.done
    ensures procs[st.ready[0]].arrival <= st.time
    ensures st.ready[0] in st.rem ==> st.rem[st.ready[0]] > 0
    ensures Inv(procs, st', Some(st.ready[0]))
  {
    var a := st.ready[0];
    assert a in Elems(st.ready);
    assert a in Below(st.idx);
    PopPlaces(st.ready, st.blocked, st.done, st.idx, st.completion);
    RemsTake(st.pats, st.rem, st.done, a);
  }

  lemma PopFront(ready: seq<nat>)
    requires NoDup(ready) && ready != []
    ensures NoDup(ready[1..]) && Elems(ready[1..]) == Elems(ready) - {ready[0]}
  {
    assert ready == [ready[0]] + ready[1..];
    assert ready[0] !in ready[1..] by {
      forall k | 0 <= k < |ready| - 1 ensures ready[1..][k] != ready[0] {
        assert ready[1..][k] == ready[k + 1];
      }
    }
  }

  lemma PopPlaces(ready: seq<nat>, blocked: seq<Block>, done: set<nat>, idx: nat, completion: map<nat, int>)
    requires Places(ready, blocked, done, None, idx, completion) && ready != []
    ensures Places(ready[1..], blocked, done, Some(ready[0]), idx, completion)
  {
    PopFront(ready);
  }

  lemma RemsTake(pats: seq<seq<Segment>>, rem: map<nat, int>, done: set<nat>, a: nat)
    requires Rems(pats, rem, done, None)
    ensures Rems(pats, rem, done, Some(a)) && (a in rem ==> rem[a] > 0)
  {
  }

  /** Facts about the process in hand. */
  lemma HeldFacts(procs: seq<Process>, st: State, a: nat)
    requires Inv(procs, st, Some(a))
    ensures a < st.idx <= |procs| && a < |st.pats| && a < |st.perProc| && procs[a].arrival <= st.time
    ensures a !in Elems(st.ready) && a !in Parked(st.blocked) && a !in st.done
    ensures Left(procs, st.pats, a) && EndsBy(st.perProc[a], st.time)
  {
    assert a in InHand(Some(a));
    assert a in Below(st.idx);
  }

  /**
   * Serve the head of the ready queue. With nothing left of its pattern it is
   * finished now; with a BLOCK segment first it goes to I/O at once and the
   * clock stays; with a CPU segment first it gets one turn.
   */
  method Serve(procs: seq<Process>, q: int, st: State) returns (st': State, ghost s3: State)
    requires Inv(procs, st, None) && st.ready != [] && q > 0
    ensures Served(procs, q, st, st')
    ensures Handled(procs, q, Popping(st), st.ready[0], s3, st')
  {
    var a := st.ready[0];
    var s := Popping(st);
    TakeHead(procs, st, s);
    // The defensive skip of a head that is blocked or done never fires: the places are disjoint.
    assert a !in Parked(st.blocked) && a !in st.done;
    st', s3 := Handle(procs, q, s, a);
    ServedFromHead(procs, q, st, s, st');
  }

  /** Taking the head off the queue changes neither the work left nor the CPU intervals. */
  lemma ServedFromHead(procs: seq<Process>, q: int, st: State, s: State, st': State)
    requires st.ready != [] && s == Popping(st) && Served(procs, q, s, st')
    ensures Served(procs, q, st, st')
  {
    assert Effort(procs, s) == Effort(procs, st) && s.perProc == st.perProc;
  }

  /** The invariant holds after the turn, which lowered the work left and kept every CPU interval within the quantum. */
  ghost predicate Served(procs: seq<Process>, q: int, st: State, st': State)
  {
    var ok :=
      && Inv(procs, st', None) && Effort(procs, st') < Effort(procs, st)
      && (Quantized(st.perProc, q) ==> Quantized(st'.perProc, q));
    ok
  }

  /** The process just taken from the head of the queue, with what is left of its current CPU segment if it is in one. */
  ghost predicate Taken(procs: seq<Process>, st: State, a: nat)
  {
    var ok := Inv(procs, st, Some(a)) && a < |st.pats| && (a in st.rem ==> st.rem[a] > 0);
    ok
  }

  /** The turn of the process taken from the queue, by the first segment left of its pattern. */
  method Handle(procs: seq<Process>, q: int, st: State, a: nat) returns (st': State, ghost s3: State)
    requires Taken(procs, st, a) && q > 0
    ensures Served(procs, q, st, st')
    ensures Handled(procs, q, st, a, s3, st')
  {
    HeldFacts(procs, st, a);
    s3 := st;
    if st.pats[a] == [] {
      // Dropping the remainder is a no-op here: only a process in a CPU segment has one.
      st' := Completing(st, a);
      CompleteInv(procs, st, a, st');
    } else if st.pats[a][0].kind == BLOCK {
      st' := Park(procs, st, a);
    } else {
      st', s3 := Turn(procs, q, st, a);
      QuantizedAdd(st.perProc, q, a, st.time, st'.time);
    }
  }

  /**
   * The turn of the process taken from the queue: with nothing left of its
   * pattern it finishes now, with a BLOCK segment first it is parked at once,
   * and with a CPU segment first it has one whole turn.
   */
  ghost predicate Handled(procs: seq<Process>, q: int, st: State, a: nat, s3: State, st': State)
  {
    && a < |procs| && a < |st.pats|
    && (st.pats[a] == [] ==> st' == Completing(st, a))
    && (st.pats[a] != [] && st.pats[a][0].kind == BLOCK ==> st' == Parking(procs, st, a))
    && (st.pats[a] != [] && st.pats[a][0].kind == CPU ==> Turned(procs, q, st, a, s3, st'))
  }

  /** The process in hand finishes now. */
  function Completing(st: State, a: nat): State
  {
    st.(completion := st.completion[a := st.time], done := st.done + {a})
  }

  /** The process in hand has nothing left of its pattern: it finishes now. */
  lemma CompleteInv(procs: seq<Process>, st: State, a: nat, st': State)
    requires Inv(procs, st, Some(a)) && a < |st.pats| && st.pats[a] == [] && st' == Completing(st, a)
    ensures a !in st.rem
    ensures Inv(procs, st', None)
    ensures Effort(procs, st') == Effort(procs, st) - 1
  {
    HeldFacts(procs, st, a);
    assert |st.done + {a}| == |st.done| + 1;
    CompletePlaces(st.ready, st.blocked, st.done, a, st.idx, st.completion, st.time);
    CompleteRems(st.pats, st.rem, st.done, a);
    FinishedAdd(procs, st.perProc, st.done, st.completion, a, st.time);
  }

  lemma CompletePlaces(ready: seq<nat>, blocked: seq<Block>, done: set<nat>, a: nat, idx: nat,
                       completion: map<nat, int>, t: int)
    requires Places(ready, blocked, done, Some(a), idx, completion)
    ensures Places(ready, blocked, done + {a}, None, idx, completion[a := t])
  {
    var r, b := Elems(ready), Parked(blocked);
    assert InHand(Some(a)) == {a};
    MoveHeld(r, b, done, a, Below(idx));
    assert completion[a := t].Keys == done + {a};
    assert r + b + (done + {a}) + InHand(None) == Below(idx);
  }

  /** Moving the process in hand to one of the other places keeps the places a partition of `all`. */
  lemma MoveHeld(r: set<nat>, b: set<nat>, done: set<nat>, a: nat, all: set<nat>)
    requires r !! b && r !! done && a !in r && b !! done && a !in b && a !in done
    requires r + b + done + {a} == all
    ensures r !! b && r !! (done + {a}) && b !! (done + {a}) && r + b + (done + {a}) == all
  {
  }

  lemma CompleteRems(pats: seq<seq<Segment>>, rem: map<nat, int>, done: set<nat>, a: nat)
    requires Rems(pats, rem, done, Some(a)) && a < |pats| && pats[a] == []
    ensures Rems(pats, rem, done + {a}, None) && a !in rem
  {
  }

  /** A process that finishes at `t` did so after arriving and after all its CPU intervals. */
  lemma FinishedAdd(procs: seq<Process>, pp: seq<seq<(int, int)>>, done: set<nat>, completion: map<nat, int>, a: nat, t: int)
    requires Finished(procs, pp, done, completion) && a < |procs| && a < |pp|
    requires procs[a].arrival <= t && EndsBy(pp[a], t)
    ensures Finished(procs, pp, done + {a}, completion[a := t])
  {
  }

  /**
   * The process in hand starts its BLOCK segment now: the segment is drawn on
   * the timeline when it lasts at all, the process is parked until the
   * segment's end, and the segment is consumed; the clock does not move.
   */
  function Parking(procs: seq<Process>, st: State, a: nat): State
    requires a < |procs| && a < |st.pats| && st.pats[a] != []
  {
    st.(timeline := st.timeline + BlockDrawn(procs[a].name, st.time, st.pats[a][0].duration),
        blocked := st.blocked + [Block(a, st.time + st.pats[a][0].duration)],
        pats := st.pats[a := st.pats[a][1..]])
  }

  method Park(procs: seq<Process>, st: State, a: nat) returns (st': State)
    requires Inv(procs, st, Some(a)) && a < |st.pats| && st.pats[a] != [] && st.pats[a][0].kind == BLOCK
    ensures a < |procs| && st' == Parking(procs, st, a)
    ensures Inv(procs, st', None)
    ensures Effort(procs, st') < Effort(procs, st)
  {
    var d := st.pats[a][0].duration;
    HeldFacts(procs, st, a);
    var tl := st.timeline;
    if d > 0 {
      tl := tl + [ExecSlice(BlockLabel(procs[a].name), st.time, st.time + d)];
    }
    st' := st.(timeline := tl, blocked := st.blocked + [Block(a, st.time + d)], pats := st.pats[a := st.pats[a][1..]]);
    assert ParkMove(procs, st, a, st');
    ParkInv(procs, st, a, st');
  }

  /** The process in hand, facing a BLOCK segment, is parked: `st'` is the state after. */
  ghost predicate ParkMove(procs: seq<Process>, st: State, a: nat, st': State)
  {
    var ok :=
      && Inv(procs, st, Some(a)) && a < |procs| && a < |st.pats| && st.pats[a] != [] && st.pats[a][0].kind == BLOCK
      && st' == Parking(procs, st, a);
    ok
  }

  lemma ParkInv(procs: seq<Process>, st: State, a: nat, st': State)
    requires ParkMove(procs, st, a, st')
    ensures Inv(procs, st', None)
    ensures Effort(procs, st') == Effort(procs, st) - st.pats[a][0].duration - 1
  {
    ParkedPlaces(procs, st, a, st');
    ParkedRems(procs, st, a, st');
    ParkedShape(procs, st, a, st');
    ParkedBalance(procs, st, a, st');
    ParkedTimeline(procs, st, a, st');
    ParkedEffort(procs, st, a, st');
  }

  lemma ParkedPlaces(procs: seq<Process>, st: State, a: nat, st': State)
    requires ParkMove(procs, st, a, st')
    ensures Places(st'.ready, st'.blocked, st'.done, None, st'.idx, st'.completion)
  {
    ParkPlaces(st.ready, st.blocked, st.done, a, st.idx, st.completion, st.time + st.pats[a][0].duration);
  }

  lemma ParkedRems(procs: seq<Process>, st: State, a: nat, st': State)
    requires ParkMove(procs, st, a, st')
    ensures Rems(st'.pats, st'.rem, st'.done, None) && a !in st.rem
  {
    ParkRems(st.pats, st.rem, st.done, a);
  }

  lemma ParkedShape(procs: seq<Process>, st: State, a: nat, st': State)
    requires ParkMove(procs, st, a, st')
    ensures Shape(procs, st'.pats, st'.perProc)
  {
    ShapeTail(procs, st.pats, st.perProc, a);
  }

  lemma ParkedBalance(procs: seq<Process>, st: State, a: nat, st': State)
    requires ParkMove(procs, st, a, st')
    ensures CpuBalance(procs, st'.perProc, st'.pats, st'.rem)
  {
    ParkRems(st.pats, st.rem, st.done, a);
    ParkBalance(procs, st.perProc, st.pats, st.rem, a);
  }

  lemma ParkedTimeline(procs: seq<Process>, st: State, a: nat, st': State)
    requires ParkMove(procs, st, a, st')
    ensures TimelineOk(procs, st'.perProc, st'.timeline)
  {
    HeldFacts(procs, st, a);
    SuffixBlockLength(st.pats[a], EffectivePattern(procs[a]));
    AddBlockDrawn(procs, st.perProc, st.timeline, st'.timeline, a, st.time, st.pats[a][0].duration);
  }

  lemma ParkedEffort(procs: seq<Process>, st: State, a: nat, st': State)
    requires ParkMove(procs, st, a, st')
    ensures Effort(procs, st') == Effort(procs, st) - st.pats[a][0].duration - 1
  {
    ParkRems(st.pats, st.rem, st.done, a);
    TodoPark(st.pats, st.rem, a, |procs|);
  }

  lemma ParkPlaces(ready: seq<nat>, blocked: seq<Block>, done: set<nat>, a: nat, idx: nat,
                   completion: map<nat, int>, u: int)
    requires Places(ready, blocked, done, Some(a), idx, completion)
    ensures Places(ready, blocked + [Block(a, u)], done, None, idx, completion)
  {
    ParkedAppend(blocked, Block(a, u));
  }

  lemma ParkRems(pats: seq<seq<Segment>>, rem: map<nat, int>, done: set<nat>, a: nat)
    requires Rems(pats, rem, done, Some(a)) && a < |pats| && pats[a] != [] && pats[a][0].kind == BLOCK
    ensures Rems(pats[a := pats[a][1..]], rem, done, None) && a !in rem
  {
  }

  lemma ParkBalance(procs: seq<Process>, pp: seq<seq<(int, int)>>, pats: seq<seq<Segment>>, rem: map<nat, int>, a: nat)
    requires CpuBalance(procs, pp, pats, rem) && a < |pats| && pats[a] != [] && pats[a][0].kind == BLOCK && a !in rem
    ensures CpuBalance(procs, pp, pats[a := pats[a][1..]], rem)
  {
    var pats' := pats[a := pats[a][1..]];
    forall i | 0 <= i < |procs| ensures Balanced(procs, pp, pats', rem, i) {
      assert Balanced(procs, pp, pats, rem, i);
    }
  }

  /** Consuming the head segment of process `a` keeps its pattern a suffix of its plan. */
  lemma ShapeTail(procs: seq<Process>, pats: seq<seq<Segment>>, perProc: seq<seq<(int, int)>>, a: nat)
    requires Shape(procs, pats, perProc) && a < |pats| && pats[a] != []
    ensures Shape(procs, pats[a := pats[a][1..]], perProc)
  {
    assert Left(procs, pats, a);
    SuffixTail(pats[a], EffectivePattern(procs[a]));
    ValidTail(pats[a]);
    var pats' := pats[a := pats[a][1..]];
    forall i | 0 <= i < |procs| ensures Left(procs, pats', i) {
      assert Left(procs, pats, i);
    }
  }

  /** What is left of the current CPU segment of process `a` at the start of its turn. */
  function RemOf(st: State, a: nat): int
    requires a < |st.pats| && st.pats[a] != []
  {
    if a in st.rem then st.rem[a] else st.pats[a][0].duration
  }

  /** The process in hand is at a CPU segment, and has some of it left if it has had a turn in it. */
  ghost predicate AtCpu(procs: seq<Process>, st: State, a: nat)
  {
    var ok :=
      && Inv(procs, st, Some(a)) && a < |st.pats| && st.pats[a] != [] && st.pats[a][0].kind == CPU
      && (a in st.rem ==> st.rem[a] > 0);
    ok
  }

  /**
   * One turn of the process in hand, whose pattern starts with a CPU segment:
   * it runs for the quantum or for what is left of the segment, whichever is
   * shorter; then the arrivals and unblocks due by the new instant are queued.
   * With some of the segment left it goes to the back of the queue and no
   * BLOCK starts.
   */
  method Turn(procs: seq<Process>, q: int, st: State, a: nat) returns (st': State, ghost s3: State)
    requires AtCpu(procs, st, a) && q > 0
    ensures Inv(procs, st', None)
    ensures st'.time == st.time + (if q < RemOf(st, a) then q else RemOf(st, a)) && st'.time - st.time <= q
    ensures a < |st.perProc| && st'.perProc == st.perProc[a := st.perProc[a] + [(st.time, st'.time)]]
    ensures q < RemOf(st, a) ==>
      && st'.ready != [] && st'.ready[|st'.ready| - 1] == a && a !in Parked(st'.blocked)
      && st'.pats[a] == st.pats[a] && a in st'.rem && st'.rem[a] == RemOf(st, a) - q
    ensures Effort(procs, st') < Effort(procs, st)
    ensures a < |procs| && Turned(procs, q, st, a, s3, st')
  {
    var s1 := Run1(procs, q, st, a);
    st', s3 := Settle(procs, s1, a);
    TurnedFrom(procs, q, st, a, s1, s3, st');
  }

  lemma TurnedFrom(procs: seq<Process>, q: int, st: State, a: nat, s1: State, s3: State, st': State)
    requires a < |procs| && a < |st.perProc| && a < |st.pats| && st.pats[a] != [] && s1 == Ran(procs, q, st, a)
    requires Queued(procs, s1, a, s3) && TurnEnded(procs, s3, a, st')
    ensures Turned(procs, q, st, a, s3, st')
  {
  }

  /**
   * A whole turn: the slice, the arrivals and unblocks due by its end
   * (`s3` is the state then), and what follows the turn for the process in hand.
   */
  ghost predicate Turned(procs: seq<Process>, q: int, st: State, a: nat, s3: State, st': State)
    requires a < |procs|
  {
    && a < |st.perProc| && a < |st.pats| && st.pats[a] != []
    && Queued(procs, Ran(procs, q, st, a), a, s3) && TurnEnded(procs, s3, a, st')
  }

  /** The slice itself: the process in hand runs for the quantum or for what is left of its segment. */
  method Run1(procs: seq<Process>, q: int, st: State, a: nat) returns (s1: State)
    requires AtCpu(procs, st, a) && q > 0
    ensures Inv(procs, s1, Some(a)) && a in s1.rem
    ensures s1.time == st.time + (if q < RemOf(st, a) then q else RemOf(st, a))
    ensures a < |st.perProc| && s1.perProc == st.perProc[a := st.perProc[a] + [(st.time, s1.time)]]
    ensures s1.pats == st.pats && s1.rem[a] == RemOf(st, a) - (s1.time - st.time)
    ensures Effort(procs, s1) < Effort(procs, st)
    ensures a < |procs| && s1 == Ran(procs, q, st, a)
  {
    HeldFacts(procs, st, a);
    s1 := Ran(procs, q, st, a);
    RanShape(procs, q, st, a, s1);
    RanInv(procs, q, st, a, s1);
  }

  /** The state after one slice of the process in hand, its CPU segment loaded first if it had not started. */
  function Ran(procs: seq<Process>, q: int, st: State, a: nat): State
    requires a < |procs| && a < |st.perProc| && a < |st.pats| && st.pats[a] != []
  {
    var s := if a in st.rem then st else Loading(st, a);
    Slicing(procs, s, a, if q < RemOf(st, a) then q else RemOf(st, a))
  }

  lemma RanShape(procs: seq<Process>, q: int, st: State, a: nat, s1: State)
    requires a < |procs| && a < |st.perProc| && a < |st.pats| && st.pats[a] != []
    requires s1 == Ran(procs, q, st, a)
    ensures a in s1.rem
    ensures s1.time == st.time + (if q < RemOf(st, a) then q else RemOf(st, a))
    ensures s1.perProc == st.perProc[a := st.perProc[a] + [(st.time, s1.time)]]
    ensures s1.pats == st.pats && s1.rem[a] == RemOf(st, a) - (s1.time - st.time)
  {
  }

  lemma RanInv(procs: seq<Process>, q: int, st: State, a: nat, s1: State)
    requires AtCpu(procs, st, a) && q > 0
    requires a < |procs| && a < |st.perProc| && s1 == Ran(procs, q, st, a)
    ensures Inv(procs, s1, Some(a))
    ensures Effort(procs, s1) < Effort(procs, st)
  {
    var s := st;
    if a !in s.rem {
      s := Loading(st, a);
      LoadInv(procs, st, a, s);
    }
    var run := if q < RemOf(st, a) then q else RemOf(st, a);
    assert s.rem[a] == RemOf(st, a) && s1 == Slicing(procs, s, a, run);
    assert SliceMove(procs, s, a, run, s1);
    SliceInv(procs, s, a, run, s1);
  }

  /** The process in hand went to the back of the ready queue, its pattern and remainder unchanged. */
  ghost predicate Requeued(s1: State, st': State, a: nat)
  {
    var ok :=
      && st'.ready != [] && st'.ready[|st'.ready| - 1] == a && a !in Parked(st'.blocked)
      && st'.pats == s1.pats && st'.rem == s1.rem;
    ok
  }

  /** After the slice, the arrivals and unblocks due by the new instant are queued, then the process in hand is placed. */
  method Settle(procs: seq<Process>, s1: State, a: nat) returns (st': State, ghost s3: State)
    requires Inv(procs, s1, Some(a)) && a in s1.rem
    ensures Settled(procs, s1, st', a)
    ensures Queued(procs, s1, a, s3) && TurnEnded(procs, s3, a, st')
  {
    var s2 := EnqueueArrivals(procs, s1, Some(a));
    var s := ReleaseAfterTurn(procs, s2, a);
    QueuedFrom(procs, s1, s2, s, a);
    st' := AfterTurn(procs, s, a);
    SettledFrom(procs, s1, s, st', a);
    s3 := s;
  }

  /**
   * The state after a slice once the arrivals due by the new instant are
   * admitted in input order and then the blocked processes due by it are
   * queued in table order, except the process in hand; nothing else changes.
   */
  ghost predicate Queued(procs: seq<Process>, s1: State, a: nat, s3: State)
  {
    && s1.idx <= s3.idx <= |procs|
    && s3 == s1.(idx := s3.idx,
                 ready := s1.ready + Range(s1.idx, s3.idx) + Outside(DueIn(Procs(s1.blocked), s1.blocked, s1.time), s1.done + {a}),
                 blocked := Pending(s1.blocked, s1.time))
    && (forall j :: s1.idx <= j < s3.idx ==> procs[j].arrival <= s1.time)
    && (s3.idx < |procs| ==> procs[s3.idx].arrival > s1.time)
  }

  lemma QueuedFrom(procs: seq<Process>, s1: State, s2: State, s3: State, a: nat)
    requires s1.idx <= s2.idx <= |procs| && s2 == s1.(idx := s2.idx, ready := s1.ready + Range(s1.idx, s2.idx))
    requires forall j :: s1.idx <= j < s2.idx ==> procs[j].arrival <= s1.time
    requires s2.idx < |procs| ==> procs[s2.idx].arrival > s1.time
    requires s3 == s2.(ready := s2.ready + Outside(DueIn(Procs(s2.blocked), s2.blocked, s2.time), s2.done + {a}),
                       blocked := Pending(s2.blocked, s2.time))
    ensures Queued(procs, s1, a, s3)
  {
  }

  /**
   * The invariant holds with no process in hand; the CPU intervals, the clock
   * and the work left are as after the slice; with some of the segment left the
   * process went to the back of the queue.
   */
  ghost predicate Settled(procs: seq<Process>, s1: State, st': State, a: nat)
  {
    var ok :=
      && Inv(procs, st', None) && st'.perProc == s1.perProc && st'.time == s1.time
      && Effort(procs, st') <= Effort(procs, s1)
      && (a in s1.rem && s1.rem[a] > 0 ==> Requeued(s1, st', a));
    ok
  }

  /** Queueing arrivals and unblocks changes neither the patterns, the remainders nor the intervals. */
  lemma SettledFrom(procs: seq<Process>, s1: State, s3: State, st': State, a: nat)
    requires s3 == s1.(idx := s3.idx, ready := s3.ready, blocked := s3.blocked) && Settled(procs, s3, st', a)
    ensures Settled(procs, s1, st', a)
  {
    assert Effort(procs, s3) == Effort(procs, s1);
  }

  /**
   * After the turn: with some of the CPU segment left, the process goes to
   * the back of the ready queue; otherwise the segment is consumed and the
   * process goes on to the segment that follows.
   */
  method AfterTurn(procs: seq<Process>, st: State, a: nat) returns (st': State)
    requires Inv(procs, st, Some(a)) && a in st.rem
    ensures Settled(procs, st, st', a)
    ensures TurnEnded(procs, st, a, st')
  {
    HeldFacts(procs, st, a);
    RemsHeld(procs, st, a);
    if st.rem[a] > 0 {
      RequeueInv(procs, st, a);
      st' := st;
      if a !in st.ready && a !in Parked(st.blocked) && a !in st.done {
        st' := st.(ready := st.ready + [a]);
      }
      assert Requeued(st, st', a);
      assert st' == Requeuing(st, a);
      return;
    }
    var s := Ending(st, a);
    EndSegmentInv(procs, st, a, s);
    st' := NextSegment(procs, s, a);
  }

  /**
   * What follows a turn: with some of its CPU segment left the process in
   * hand goes to the back of the ready queue; with the segment used up, the
   * segment is consumed and the process goes on by the segment after it.
   */
  ghost predicate TurnEnded(procs: seq<Process>, st: State, a: nat, st': State)
  {
    && a < |procs| && a < |st.pats| && st.pats[a] != [] && a in st.rem
    && (st.rem[a] > 0 ==> st' == Requeuing(st, a))
    && (st.rem[a] <= 0 ==> Moved(procs, Ending(st, a), a, st'))
  }

  /** The process in hand, in a CPU segment, has some of its pattern left. */
  lemma RemsHeld(procs: seq<Process>, st: State, a: nat)
    requires Inv(procs, st, Some(a)) && a in st.rem
    ensures a < |st.pats| && st.pats[a] != []
  {
    HeldFacts(procs, st, a);
  }

  /**
   * The process in hand has just used up a CPU segment: it starts the BLOCK
   * segment that follows, goes to the back of the queue with the CPU segment
   * that follows, or finishes now.
   */
  method NextSegment(procs: seq<Process>, st: State, a: nat) returns (st': State)
    requires Inv(procs, st, Some(a)) && a < |st.pats| && a !in st.rem
    ensures Inv(procs, st', None)
    ensures st'.perProc == st.perProc && st'.time == st.time
    ensures Effort(procs, st') <= Effort(procs, st)
    ensures a < |procs| && Moved(procs, st, a, st')
  {
    HeldFacts(procs, st, a);
    if st.pats[a] == [] {
      st' := Completing(st, a);
      CompleteInv(procs, st, a, st');
    } else if st.pats[a][0].kind == BLOCK {
      st' := Park(procs, st, a);
    } else {
      var s := Loading(st, a);
      LoadInv(procs, st, a, s);
      RequeueInv(procs, s, a);
      st' := s;
      if a !in s.ready && a !in Parked(s.blocked) && a !in s.done {
        st' := s.(ready := s.ready + [a]);
      }
      assert st' == Requeuing(s, a);
    }
  }

  /** The process in hand goes to the back of the ready queue. */
  function Requeuing(st: State, a: nat): State
  {
    st.(ready := st.ready + [a])
  }

  /**
   * The process in hand, with no CPU segment under way, goes on by the first
   * segment left of its pattern: with none left it finishes now, with a BLOCK
   * segment it is parked, and with a CPU segment it loads that segment and
   * goes to the back of the ready queue; the clock does not move.
   */
  ghost predicate Moved(procs: seq<Process>, st: State, a: nat, st': State)
    requires a < |procs| && a < |st.pats|
  {
    if st.pats[a] == [] then st' == Completing(st, a)
    else if st.pats[a][0].kind == BLOCK then st' == Parking(procs, st, a)
    else st' == Requeuing(Loading(st, a), a)
  }

  /** The process in hand starts a CPU segment: its remainder is the whole segment. */
  function Loading(st: State, a: nat): State
    requires a < |st.pats| && st.pats[a] != []
  {
    st.(rem := st.rem[a := st.pats[a][0].duration])
  }

  /** Starting a CPU segment keeps the invariant and the work left: none of the segment has run. */
  lemma LoadInv(procs: seq<Process>, st: State, a: nat, st': State)
    requires Inv(procs, st, Some(a)) && a < |st.pats| && st.pats[a] != [] && st.pats[a][0].kind == CPU && a !in st.rem
    requires st' == Loading(st, a)
    ensures st.pats[a][0].duration > 0
    ensures Inv(procs, st', Some(a))
    ensures Effort(procs, st') == Effort(procs, st)
  {
    HeldFacts(procs, st, a);
    LoadRems(st.pats, st.rem, st.done, a);
    LoadBalance(procs, st.perProc, st.pats, st.rem, a);
    TodoLoad(st.pats, st.rem, a, |procs|);
  }

  lemma LoadRems(pats: seq<seq<Segment>>, rem: map<nat, int>, done: set<nat>, a: nat)
    requires Rems(pats, rem, done, Some(a)) && a < |pats| && pats[a] != [] && pats[a][0].kind == CPU
    requires pats[a][0].duration > 0
    ensures Rems(pats, rem[a := pats[a][0].duration], done, Some(a))
  {
  }

  lemma LoadBalance(procs: seq<Process>, pp: seq<seq<(int, int)>>, pats: seq<seq<Segment>>, rem: map<nat, int>, a: nat)
    requires CpuBalance(procs, pp, pats, rem) && a < |pats| && pats[a] != [] && a !in rem
    ensures CpuBalance(procs, pp, pats, rem[a := pats[a][0].duration])
  {
    var rem' := rem[a := pats[a][0].duration];
    forall i | 0 <= i < |procs| ensures Balanced(procs, pp, pats, rem', i) {
      assert Balanced(procs, pp, pats, rem, i);
    }
  }

  /** The process in hand runs `run` units from now: one CPU slice, and the clock at its end. */
  function Slicing(procs: seq<Process>, st: State, a: nat, run: int): State
    requires a < |procs| && a < |st.perProc| && a in st.rem
  {
    st.(timeline := st.timeline + [ExecSlice(procs[a].name, st.time, st.time + run)],
        perProc := st.perProc[a := st.perProc[a] + [(st.time, st.time + run)]],
        rem := st.rem[a := st.rem[a] - run],
        time := st.time + run)
  }

  /** The process in hand runs `run` units of its current CPU segment: `st'` is the state after. */
  ghost predicate SliceMove(procs: seq<Process>, st: State, a: nat, run: int, st': State)
  {
    var ok :=
      && Inv(procs, st, Some(a)) && a in st.rem && 0 < run <= st.rem[a] && a < |procs| && a < |st.perProc|
      && st' == Slicing(procs, st, a, run);
    ok
  }

  /** A CPU slice of the process in hand keeps the invariant and lowers the work left by its length. */
  lemma SliceInv(procs: seq<Process>, st: State, a: nat, run: int, st': State)
    requires SliceMove(procs, st, a, run, st')
    ensures Inv(procs, st', Some(a))
    ensures Effort(procs, st') == Effort(procs, st) - run
  {
    SlicedRems(procs, st, a, run, st');
    SlicedBalance(procs, st, a, run, st');
    SlicedFinished(procs, st, a, run, st');
    SliceStart(procs, st, a, run, st');
    SlicedTrace(procs, st, a, run, st');
    SlicedEffort(procs, st, a, run, st');
  }

  lemma SlicedRems(procs: seq<Process>, st: State, a: nat, run: int, st': State)
    requires SliceMove(procs, st, a, run, st')
    ensures Rems(st'.pats, st'.rem, st'.done, Some(a)) && Clock(procs, st'.idx, st'.time)
    ensures a < |st.pats| && st.pats[a] != []
  {
    SliceRems(st.pats, st.rem, st.done, a, run);
  }

  lemma SlicedBalance(procs: seq<Process>, st: State, a: nat, run: int, st': State)
    requires SliceMove(procs, st, a, run, st')
    ensures CpuBalance(procs, st'.perProc, st'.pats, st'.rem)
  {
    SliceRems(st.pats, st.rem, st.done, a, run);
    SliceBalance(procs, st.perProc, st.pats, st.rem, a, st.time, st.time + run);
  }

  lemma SlicedFinished(procs: seq<Process>, st: State, a: nat, run: int, st': State)
    requires SliceMove(procs, st, a, run, st')
    ensures Finished(procs, st'.perProc, st'.done, st'.completion)
  {
    HeldFacts(procs, st, a);
    SliceFinished(procs, st.perProc, st.done, st.completion, a, st.time, st.time + run);
  }

  /** The CPU intervals and the timeline are well formed. */
  ghost predicate TraceOk(procs: seq<Process>, pp: seq<seq<(int, int)>>, now: int, tl: seq<ExecSlice>)
  {
    var ok := IntervalsOk(procs, pp, now) && TimelineOk(procs, pp, tl);
    ok
  }

  /** What the slice needs of the trace before it. */
  lemma SliceStart(procs: seq<Process>, st: State, a: nat, run: int, st': State)
    requires SliceMove(procs, st, a, run, st')
    ensures a < |st.perProc| == |procs| && procs[a].arrival <= st.time
    ensures TraceOk(procs, st.perProc, st.time, st.timeline)
  {
    HeldFacts(procs, st, a);
  }

  lemma SlicedTrace(procs: seq<Process>, st: State, a: nat, run: int, st': State)
    requires TraceOk(procs, st.perProc, st.time, st.timeline) && a < |st.perProc| == |procs|
    requires procs[a].arrival <= st.time && 0 < run && a in st.rem && st' == Slicing(procs, st, a, run)
    ensures TraceOk(procs, st'.perProc, st'.time, st'.timeline)
  {
    AddInterval(procs, st.perProc, st.time, a, st.time + run);
    AddCpuSlice(procs, st.perProc, st.timeline, a, st.time, st.time + run);
  }

  lemma SlicedEffort(procs: seq<Process>, st: State, a: nat, run: int, st': State)
    requires a < |procs| && a < |st.perProc| && a in st.rem && a < |st.pats| && st.pats[a] != []
    requires st' == Slicing(procs, st, a, run)
    ensures Effort(procs, st') == Effort(procs, st) - run
  {
    TodoSlice(st.pats, st.rem, a, run, |procs|);
  }

  lemma SliceRems(pats: seq<seq<Segment>>, rem: map<nat, int>, done: set<nat>, a: nat, run: int)
    requires Rems(pats, rem, done, Some(a)) && a in rem && 0 <= run <= rem[a]
    ensures a < |pats| && pats[a] != []
    ensures Rems(pats, rem[a := rem[a] - run], done, Some(a))
  {
  }

  /** A slice of the process in hand moves CPU time from its current segment to its intervals. */
  lemma SliceBalance(procs: seq<Process>, pp: seq<seq<(int, int)>>, pats: seq<seq<Segment>>, rem: map<nat, int>,
                     a: nat, t: int, end: int)
    requires CpuBalance(procs, pp, pats, rem) && a in rem && a < |pats| && pats[a] != []
    ensures CpuBalance(procs, pp[a := pp[a] + [(t, end)]], pats, rem[a := rem[a] - (end - t)])
  {
    var pp' := pp[a := pp[a] + [(t, end)]];
    var rem' := rem[a := rem[a] - (end - t)];
    SliceTotalAppend(pp[a], (t, end));
    forall i | 0 <= i < |procs| ensures Balanced(procs, pp', pats, rem', i) {
      assert Balanced(procs, pp, pats, rem, i);
    }
  }

  /** A slice of an unfinished process leaves the intervals of the finished ones alone. */
  lemma SliceFinished(procs: seq<Process>, pp: seq<seq<(int, int)>>, done: set<nat>, completion: map<nat, int>,
                      a: nat, t: int, end: int)
    requires Finished(procs, pp, done, completion) && a !in done && a < |pp|
    ensures Finished(procs, pp[a := pp[a] + [(t, end)]], done, completion)
  {
  }

  /** The process in hand has used up its CPU segment: the segment is consumed. */
  function Ending(st: State, a: nat): State
    requires a < |st.pats| && st.pats[a] != []
  {
    st.(pats := st.pats[a := st.pats[a][1..]], rem := st.rem - {a})
  }

  /** Consuming a used-up CPU segment keeps the invariant and lowers the work left by one. */
  lemma EndSegmentInv(procs: seq<Process>, st: State, a: nat, st': State)
    requires Inv(procs, st, Some(a)) && a in st.rem && st.rem[a] == 0
    requires a < |st.pats| && st.pats[a] != [] && st' == Ending(st, a)
    ensures Inv(procs, st', Some(a))
    ensures Effort(procs, st') == Effort(procs, st) - 1
  {
    HeldFacts(procs, st, a);
    EndRems(st.pats, st.rem, st.done, a);
    ShapeTail(procs, st.pats, st.perProc, a);
    EndBalance(procs, st.perProc, st.pats, st.rem, a);
    TodoEnd(st.pats, st.rem, a, |procs|);
  }

  lemma EndRems(pats: seq<seq<Segment>>, rem: map<nat, int>, done: set<nat>, a: nat)
    requires Rems(pats, rem, done, Some(a)) && a in rem && a !in done
    ensures a < |pats| && pats[a] != [] && pats[a][0].kind == CPU
    ensures Rems(pats[a := pats[a][1..]], rem - {a}, done, Some(a))
  {
  }

  lemma EndBalance(procs: seq<Process>, pp: seq<seq<(int, int)>>, pats: seq<seq<Segment>>, rem: map<nat, int>, a: nat)
    requires CpuBalance(procs, pp, pats, rem) && a in rem && rem[a] == 0
    requires a < |pats| && pats[a] != [] && pats[a][0].kind == CPU
    ensures CpuBalance(procs, pp, pats[a := pats[a][1..]], rem - {a})
  {
    var pats' := pats[a := pats[a][1..]];
    var rem' := rem - {a};
    forall i | 0 <= i < |procs| ensures Balanced(procs, pp, pats', rem', i) {
      assert Balanced(procs, pp, pats, rem, i);
    }
  }

  /** The process in hand, in the middle of a CPU segment, goes to the back of the ready queue. */
  lemma RequeueInv(procs: seq<Process>, st: State, a: nat)
    requires Inv(procs, st, Some(a)) && a in st.rem && st.rem[a] > 0
    ensures a !in st.ready && a !in Parked(st.blocked) && a !in st.done
    ensures Inv(procs, st.(ready := st.ready + [a]), None)
  {
    HeldFacts(procs, st, a);
    RequeuePlaces(st.ready, st.blocked, st.done, a, st.idx, st.completion);
    RequeueRems(st.pats, st.rem, st.done, a);
  }

  lemma RequeuePlaces(ready: seq<nat>, blocked: seq<Block>, done: set<nat>, a: nat, idx: nat, completion: map<nat, int>)
    requires Places(ready, blocked, done, Some(a), idx, completion)
    ensures Places(ready + [a], blocked, done, None, idx, completion)
  {
    Extend(ready, [a]);
  }

  lemma RequeueRems(pats: seq<seq<Segment>>, rem: map<nat, int>, done: set<nat>, a: nat)
    requires Rems(pats, rem, done, Some(a)) && a in rem && rem[a] > 0
    ensures Rems(pats, rem, done, None)
  {
  }

  // ---------------------------------------------------------------------------
  // The idle clock.

  /** The arrival instants of the processes below `j` that are neither done nor blocked. */
  function Candidates(procs: seq<Process>, done: set<nat>, parked: set<nat>, j: nat): seq<int>
    requires j <= |procs|
  {
    if j == 0 then []
    else Candidates(procs, done, parked, j - 1) + (if j - 1 !in done && j - 1 !in parked then [procs[j - 1].arrival] else [])
  }

  lemma {:induction false} CandidatesHas(procs: seq<Process>, done: set<nat>, parked: set<nat>, j: nat, i: nat)
    requires i < j <= |procs| && i !in done && i !in parked
    ensures procs[i].arrival in Candidates(procs, done, parked, j)
  {
    if i < j - 1 {
      CandidatesHas(procs, done, parked, j - 1, i);
    }
  }

  lemma {:induction false} CandidatesFrom(procs: seq<Process>, done: set<nat>, parked: set<nat>, j: nat, x: int)
    requires j <= |procs| && x in Candidates(procs, done, parked, j)
    ensures exists i :: 0 <= i < j && procs[i].arrival == x
  {
    if x !in Candidates(procs, done, parked, j - 1) {
      assert procs[j - 1].arrival == x;
    } else {
      CandidatesFrom(procs, done, parked, j - 1, x);
    }
  }

  /** The instant the idle clock jumps to: the earliest unblock or arrival of a process not done nor blocked, after now. */
  function NextEvent(procs: seq<Process>, st: State): Option<int>
  {
    MinAfter(Untils(st.blocked) + Candidates(procs, st.done, Parked(st.blocked), |procs|), st.time)
  }

  /**
   * Nothing is ready: jump the clock to the next event, or stop when there is
   * none left, which happens only once every process is done.
   */
  method Idle(procs: seq<Process>, st: State) returns (st': State, stop: bool)
    requires Inv(procs, st, None) && st.ready == []
    requires forall k :: 0 <= k < |st.blocked| ==> st.blocked[k].until > st.time
    requires st.idx < |procs| ==> procs[st.idx].arrival > st.time
    ensures Inv(procs, st', None) && st'.perProc == st.perProc
    ensures stop ==> |st'.done| == |procs|
    ensures stop <==> NextEvent(procs, st).None?
    ensures stop ==> st' == st
    ensures !stop ==>
      && st'.time > st.time && st' == st.(time := st'.time) && Some(st'.time) == NextEvent(procs, st)
      && Future(procs, st') < Future(procs, st)
  {
    var next := NextEvent(procs, st);
    if next.None? {
      Drained(procs, st);
      return st, true;
    }
    JumpPasses(procs, st);
    Later(procs, st.perProc, st.time, next.value);
    return st.(time := next.value), false;
  }

  /** A jump of the idle clock passes at least one of the events still to come. */
  lemma JumpPasses(procs: seq<Process>, st: State)
    requires Clock(procs, st.idx, st.time) && NextEvent(procs, st).Some?
    ensures Future(procs, st.(time := NextEvent(procs, st).value)) < Future(procs, st)
  {
    var t, t' := st.time, NextEvent(procs, st).value;
    var us := Untils(st.blocked);
    var cs := Candidates(procs, st.done, Parked(st.blocked), |procs|);
    ArrivalsAfterMono(procs, st.idx, t, t');
    BlockedAfterMono(st.blocked, t, t');
    var k :| 0 <= k < |us + cs| && (us + cs)[k] == t';
    if k < |us| {
      BlockedAfterDrops(st.blocked, t, t', k);
    } else {
      assert cs[k - |us|] == t';
      CandidatesFrom(procs, st.done, Parked(st.blocked), |procs|, t');
      var i :| 0 <= i < |procs| && procs[i].arrival == t';
      ArrivalsAfterDrops(procs, st.idx, t, t', i);
    }
  }

  /**
   * With nothing ready, every unblock after now and the next process to admit
   * arriving after now, no next event means every process is done: the
   * loop's `break` never leaves a process unfinished.
   */
  lemma Drained(procs: seq<Process>, st: State)
    requires Inv(procs, st, None) && st.ready == []
    requires forall k :: 0 <= k < |st.blocked| ==> st.blocked[k].until > st.time
    requires st.idx < |procs| ==> procs[st.idx].arrival > st.time
    requires NextEvent(procs, st).None?
    ensures |st.done| == |procs|
  {
    var cs := Candidates(procs, st.done, Parked(st.blocked), |procs|);
    MinAfterSplit(Untils(st.blocked), cs, st.time);
    BlockedAfterAll(st.blocked, st.time);
    BlockedAfterNone(st.blocked, st.time);
    CandidatesBelow(procs, st.done, Parked(st.blocked), |procs|, st.time);
    AllDone(procs, st.blocked, st.done, st.idx, st.completion, st.time);
  }

  /** With nothing ready or blocked and every unfinished process arrived by `t`, the cursor is at the end and all are done. */
  lemma AllDone(procs: seq<Process>, blocked: seq<Block>, done: set<nat>, idx: nat, completion: map<nat, int>, t: int)
    requires Places([], blocked, done, None, idx, completion) && |blocked| == 0 && idx <= |procs|
    requires idx < |procs| ==> procs[idx].arrival > t
    requires forall i :: 0 <= i < |procs| && i !in done && i !in Parked(blocked) ==> procs[i].arrival <= t
    ensures |done| == |procs|
  {
    assert Elems([]) == {} && Parked(blocked) == {} && InHand(None) == {};
    assert done == Below(idx);
    assert idx < |procs| ==> idx !in done && idx !in Parked(blocked);
    assert idx == |procs|;
    BoundedCard(done, |procs|);
  }

  /** With no candidate arrival after `t`, every process below `j` not done nor blocked has arrived by `t`. */
  lemma CandidatesBelow(procs: seq<Process>, done: set<nat>, parked: set<nat>, j: nat, t: int)
    requires j <= |procs| && MinAfter(Candidates(procs, done, parked, j), t).None?
    ensures forall i :: 0 <= i < j && i !in done && i !in parked ==> procs[i].arrival <= t
  {
    forall i | 0 <= i < j && i !in done && i !in parked ensures procs[i].arrival <= t {
      CandidatesHas(procs, done, parked, j, i);
    }
  }

  // ---------------------------------------------------------------------------
  // The engine.

  /**
   * The state before the first admission: the clock at the first arrival,
   * nothing run, no remainders, and each working pattern a fresh copy of the
   * process's plan, so that the caller's patterns are never consumed.
   */
  function Start(procs: seq<Process>): State
    requires procs != []
  {
    State(FirstArrival(procs), [], seq(|procs|, _ => []), map[],
          seq(|procs|, i requires 0 <= i < |procs| => EffectivePattern(procs[i])), map[], [], [], {}, 0)
  }

  lemma StartInv(procs: seq<Process>)
    requires ValidInput(procs) && procs != []
    ensures Inv(procs, Start(procs), None) && Quantized(Start(procs).perProc, 0)
  {
    var st := Start(procs);
    forall i | 0 <= i < |procs| ensures Left(procs, st.pats, i) {
      assert st.pats[i] == EffectivePattern(procs[i]);
    }
    forall i | 0 <= i < |procs| ensures Balanced(procs, st.perProc, st.pats, st.rem, i) {
      assert st.perProc[i] == [];
    }
    assert Elems([]) == {} && Parked([]) == {} && Below(0) == {};
  }

  /** The engine's main loop over the input sorted by arrival, until every process is done. */
  method Run(procs: seq<Process>, q: int) returns (st: State)
    requires ValidInput(procs) && procs != [] && q > 0
    ensures Final(procs, st.perProc, st.timeline, Finish(procs, st), st.time)
    ensures Quantized(st.perProc, q)
    ensures |st.pats| == |procs| && forall i :: 0 <= i < |procs| ==> st.pats[i] == []
  {
    StartInv(procs);
    st := EnqueueArrivals(procs, Start(procs), None);
    while |st.done| < |procs|
      invariant Inv(procs, st, None) && Quantized(st.perProc, q)
      decreases Effort(procs, st), Future(procs, st)
    {
      EffortBound(procs, st);
      var stop;
      ghost var s, s3;
      st, stop, s, s3 := Step(procs, q, st);
      if stop {
        break;
      }
    }
    FinalState(procs, st);
  }

  /**
   * One pass of the main loop: the unblocks due now, visited by name, then the
   * arrivals due now; then an idle jump or one turn of the head of the queue.
   */
  method Step(procs: seq<Process>, q: int, st: State) returns (st': State, stop: bool, ghost s: State, ghost s3: State)
    requires Inv(procs, st, None) && q > 0
    ensures Inv(procs, st', None)
    ensures Quantized(st.perProc, q) ==> Quantized(st'.perProc, q)
    ensures stop ==> |st'.done| == |procs|
    ensures !stop ==>
      || Effort(procs, st') < Effort(procs, st)
      || (Effort(procs, st') == Effort(procs, st) && Future(procs, st') < Future(procs, st))
    ensures Passed(procs, q, st, s, s3, st', stop)
  {
    var s1 := ReleaseByName(procs, st);
    var s2 := EnqueueArrivals(procs, s1, None);
    GatheredBy(procs, st, s1, s2);
    s, s3 := s2, s2;
    if s2.ready == [] {
      st', stop := Idle(procs, s2);
      return;
    }
    st', s3 := Serve(procs, q, s2);
    stop := false;
  }

  /** The unblocks due now, in name order, are queued ahead of the arrivals due now. */
  ghost predicate Gathered(procs: seq<Process>, st: State, s: State)
  {
    var s1 := st.(ready := st.ready + Outside(DueIn(NameOrder(procs, st.blocked), st.blocked, st.time), st.done),
                  blocked := Pending(st.blocked, st.time));
    && s1.idx <= s.idx <= |procs|
    && s == s1.(idx := s.idx, ready := s1.ready + Range(s1.idx, s.idx))
    && (forall j :: s1.idx <= j < s.idx ==> procs[j].arrival <= st.time)
    && (s.idx < |procs| ==> procs[s.idx].arrival > st.time)
  }

  lemma GatheredBy(procs: seq<Process>, st: State, s1: State, s2: State)
    requires s1 == st.(ready := st.ready + Outside(DueIn(NameOrder(procs, st.blocked), st.blocked, st.time), st.done),
                       blocked := Pending(st.blocked, st.time))
    requires s1.idx <= s2.idx <= |procs| && s2 == s1.(idx := s2.idx, ready := s1.ready + Range(s1.idx, s2.idx))
    requires forall j :: s1.idx <= j < s2.idx ==> procs[j].arrival <= s1.time
    requires s2.idx < |procs| ==> procs[s2.idx].arrival > s1.time
    ensures Gathered(procs, st, s2) && s2.perProc == st.perProc
  {
  }

  /**
   * One pass of the loop as a whole: after the unblocks and arrivals due now,
   * an empty queue stops the loop exactly when no event is left and otherwise
   * moves only the clock, to the next event; a non-empty one has its head
   * handled.
   */
  ghost predicate Passed(procs: seq<Process>, q: int, st: State, s: State, s3: State, st': State, stop: bool)
  {
    && Gathered(procs, st, s)
    && (s.ready == [] ==>
          && (stop <==> NextEvent(procs, s).None?)
          && (stop ==> st' == s)
          && (!stop ==> st' == s.(time := NextEvent(procs, s).value)))
    && (s.ready != [] ==> !stop && Handled(procs, q, Popping(s), s.ready[0], s3, st'))
  }

  /** `completion.get(name, time)`: the completion instant, or the final clock. */
  function Finish(procs: seq<Process>, st: State): (f: seq<int>)
    ensures |f| == |procs|
  {
    seq(|procs|, i requires 0 <= i < |procs| => if i in st.completion then st.completion[i] else st.time)
  }

  /**
   * What the end of the main loop leaves behind: one CPU, labelled slices,
   * each process served the CPU time of its plan, and a finish instant no
   * earlier than its arrival and the end of its CPU intervals.
   */
  ghost predicate Final(procs: seq<Process>, perProc: seq<seq<(int, int)>>, timeline: seq<ExecSlice>,
                        finish: seq<int>, time: int)
  {
    && |perProc| == |procs| && |finish| == |procs|
    && IntervalsOk(procs, perProc, time) && TimelineOk(procs, perProc, timeline)
    && (forall i :: 0 <= i < |procs| ==> SliceTotal(perProc[i]) == CpuTotal(EffectivePattern(procs[i])))
    && (forall i :: 0 <= i < |procs| ==> procs[i].arrival <= finish[i] && EndsBy(perProc[i], finish[i]))
  }

  lemma FinalState(procs: seq<Process>, st: State)
    requires Inv(procs, st, None) && |st.done| >= |procs|
    ensures Final(procs, st.perProc, st.timeline, Finish(procs, st), st.time)
    ensures forall i :: 0 <= i < |procs| ==> st.pats[i] == []
  {
    assert st.done <= Below(st.idx) && st.idx <= |procs|;
    AllFinished(|procs|, st.done);
    forall i | 0 <= i < |procs|
      ensures SliceTotal(st.perProc[i]) == CpuTotal(EffectivePattern(procs[i]))
      ensures procs[i].arrival <= Finish(procs, st)[i] && EndsBy(st.perProc[i], Finish(procs, st)[i])
      ensures st.pats[i] == []
    {
      assert i in st.done && Balanced(procs, st.perProc, st.pats, st.rem, i);
    }
  }

  /** A set of at least `n` processes below `n` holds every one of them. */
  lemma AllFinished(n: nat, done: set<nat>)
    requires done <= Below(n) && |done| >= n
    ensures forall i :: 0 <= i < n ==> i in done
  {
    BoundedCard(done, n);
  }


  // ---------------------------------------------------------------------------
  // The input order: the engine works on the input sorted by arrival.

  function ArrivalKey(p: Process): int
  {
    p.arrival
  }

  /** The input sorted by arrival instant, stably: processes arriving together keep their input order. */
  function ByArrival(procs: seq<Process>): seq<Process>
  {
    SortBy(procs, ArrivalKey)
  }

  /**
   * The sorted input is a permutation of the input, ordered by arrival and
   * stable among equal arrivals; it names the same processes, and an input
   * fit for the engines stays so once sorted.
   */
  lemma ByArrivalProps(procs: seq<Process>)
    ensures multiset(ByArrival(procs)) == multiset(procs) && |ByArrival(procs)| == |procs|
    ensures SortedBy(ByArrival(procs), ArrivalKey)
    ensures forall v :: WithKey(ByArrival(procs), ArrivalKey, v) == WithKey(procs, ArrivalKey, v)
    ensures Names(ByArrival(procs)) == Names(procs)
    ensures ValidInput(procs) ==> ValidInput(ByArrival(procs))
  {
    var ps := ByArrival(procs);
    SortByProps(procs, ArrivalKey);
    assert |ps| == |multiset(ps)| == |multiset(procs)| == |procs|;
    SameNames(procs, ps);
    if ValidInput(procs) {
      assert NoDup(procs) by {
        forall a, b | 0 <= a < b < |procs| ensures procs[a] != procs[b] {
          assert procs[a].name != procs[b].name;
        }
      }
      forall a, b | 0 <= a < b < |ps| ensures ps[a].name != ps[b].name {
        assert ps[a] in multiset(procs) && ps[b] in multiset(procs);
        var i :| 0 <= i < |procs| && procs[i] == ps[a];
        var j :| 0 <= j < |procs| && procs[j] == ps[b];
        assert ps[a] != ps[b];
        assert i != j;
      }
      forall i | 0 <= i < |ps|
        ensures ps[i].name != [] && ps[i].arrival >= 0 && ValidPattern(EffectivePattern(ps[i]))
      {
        assert ps[i] in multiset(procs);
        var j :| 0 <= j < |procs| && procs[j] == ps[i];
      }
    }
  }

  /** Two lists holding the same processes name the same processes. */
  lemma SameNames(procs: seq<Process>, ps: seq<Process>)
    requires multiset(ps) == multiset(procs)
    ensures Names(ps) == Names(procs)
  {
    forall x | x in Names(ps) ensures x in Names(procs) {
      NamesExact(ps, x);
      var i :| 0 <= i < |ps| && ps[i].name == x;
      assert ps[i] in multiset(procs);
      var j :| 0 <= j < |procs| && procs[j] == ps[i];
    }
    forall x | x in Names(procs) ensures x in Names(ps) {
      NamesExact(procs, x);
      var i :| 0 <= i < |procs| && procs[i].name == x;
      assert procs[i] in multiset(ps);
      var j :| 0 <= j < |ps| && ps[j] == procs[i];
    }
  }

  // ---------------------------------------------------------------------------
  // The result.

  /** No CPU interval of the result is longer than the quantum. */
  ghost predicate Sliced(procs: seq<Process>, q: int, r: ScheduleResult)
  {
    && r.perProcessSlices.Keys == Names(procs)
    && forall i, k :: 0 <= i < |procs| && 0 <= k < |r.perProcessSlices[procs[i].name]| ==>
         r.perProcessSlices[procs[i].name][k].1 - r.perProcessSlices[procs[i].name][k].0 <= q
  }

  /**
   * What a Round Robin run promises about the trace: the CPU intervals are
   * chronological, after each arrival, never overlap and last at most one
   * quantum; the timeline slices are theirs or labelled I/O; every process
   * receives the CPU time of its plan; turnaround times are non-negative and
   * cover every CPU interval.
   */
  ghost predicate Traced(procs: seq<Process>, q: int, r: ScheduleResult)
  {
    var ok := Drawn(procs, r) && CpuServed(procs, r) && Covered(procs, r) && Sliced(procs, q, r);
    ok
  }

  /** A result carrying the trace and the turnaround times of a finished run keeps the trace promises. */
  lemma TracedBy(procs: seq<Process>, pp: seq<seq<(int, int)>>, tl: seq<ExecSlice>, finish: seq<int>, now: int, q: int,
                 turnaround: map<string, int>, r: ScheduleResult)
    requires UniqueNames(procs) && Final(procs, pp, tl, finish, now) && Quantized(pp, q)
    requires r.timeline == tl && r.perProcessSlices == ByName(procs, pp) && r.turnaround == turnaround
    requires turnaround.Keys == Names(procs)
    requires forall i :: 0 <= i < |procs| ==> turnaround[procs[i].name] == finish[i] - procs[i].arrival
    ensures Traced(procs, q, r)
  {
    PublishDrawn(procs, pp, tl, now, r);
    PublishServed(procs, pp, r);
    PublishCovered(procs, pp, finish, r);
    SlicedBy(procs, pp, q, r);
  }

  lemma SlicedBy(procs: seq<Process>, pp: seq<seq<(int, int)>>, q: int, r: ScheduleResult)
    requires UniqueNames(procs) && |pp| == |procs| && Quantized(pp, q) && r.perProcessSlices == ByName(procs, pp)
    ensures Sliced(procs, q, r)
  {
  }

  /** The trace promises, and waiting times and averages from the turnaround times and the plans. */
  ghost predicate Outcome(procs: seq<Process>, q: int, r: ScheduleResult)
  {
    Traced(procs, q, r) && Measured(procs, r)
  }

  /**
   * The result of a run: the timeline and the CPU intervals by name,
   * turnaround and waiting from the finish instants and the plans, both
   * floored at zero, and their averages.
   */
  method Report(procs: seq<Process>, pp: seq<seq<(int, int)>>, tl: seq<ExecSlice>, finish: seq<int>, now: int, q: int)
    returns (r: ScheduleResult)
    requires UniqueNames(procs) && Final(procs, pp, tl, finish, now) && Quantized(pp, q)
    ensures Outcome(procs, q, r)
    ensures r.timeline == tl && r.perProcessSlices == ByName(procs, pp)
    ensures forall i :: 0 <= i < |procs| ==> r.turnaround[procs[i].name] == finish[i] - procs[i].arrival
  {
    var turnaround, waiting, avgTurnaround, avgWaiting := PlanMetrics(procs, finish, true);
    r := ScheduleResult(tl, ByName(procs, pp), turnaround, waiting, Some(avgTurnaround), Some(avgWaiting));
    TracedBy(procs, pp, tl, finish, now, q, turnaround, r);
  }

  /**
   * The Round Robin engine: no result (the source raises) without a positive
   * quantum; the empty result for an empty input; otherwise the promised
   * outcome over the input sorted by arrival.
   */
  method Schedule(procs: seq<Process>, quantum: Option<int>) returns (r: Option<ScheduleResult>)
    requires ValidInput(procs)
    ensures r.None? <==> quantum.None? || quantum.value <= 0
    ensures r.Some? && procs == [] ==> r.value == EmptyResult()
    ensures r.Some? && procs != [] ==> Outcome(ByArrival(procs), quantum.value, r.value)
  {
    if quantum.None? || quantum.value <= 0 {
      return None;
    }
    if procs == [] {
      return Some(EmptyResult());
    }
    var ps := ByArrival(procs);
    ByArrivalProps(procs);
    var st := Run(ps, quantum.value);
    var res := Report(ps, st.perProc, st.timeline, Finish(ps, st), st.time, quantum.value);
    r := Some(res);
  }

  // ---------------------------------------------------------------------------
  // The metrics block as written: the plan whose CPU and BLOCK time is taken
  // off the turnaround is the explicit pattern when there is one, and
  // otherwise the engine's working copy, which the run has used up.

  /** The plan the metrics block of the source reads for `p`, given what is left of its working copy. */
  function WrittenPlan(p: Process, left: seq<Segment>): (pat: seq<Segment>)
    ensures p.pattern.Some? && p.pattern.value != [] ==> pat == EffectivePattern(p)
    ensures p.pattern.None? || p.pattern.value == [] ==> pat == left
  {
    if p.pattern.Some? && p.pattern.value != [] then p.pattern.value else left
  }

  /** Waiting as the source computes it: the turnaround less the CPU and BLOCK time of the plan it reads, floored at zero. */
  ghost predicate WaitedAsWritten(procs: seq<Process>, r: ScheduleResult)
  {
    && r.turnaround.Keys == Names(procs) && r.waiting.Keys == Names(procs)
    && WaitedWritten(procs, r.turnaround, r.waiting)
    && r.avgTurnaround == Some(Average(SumOver(procs, r.turnaround), Max1(|procs|)))
    && r.avgWaiting == Some(Average(SumOver(procs, r.waiting), Max1(|procs|)))
  }

  /** Each process waited its turnaround less the CPU and BLOCK time of the plan the source reads once the run is over. */
  ghost predicate WaitedWritten(procs: seq<Process>, turnaround: map<string, int>, waiting: map<string, int>)
    requires Names(procs) <= turnaround.Keys && Names(procs) <= waiting.Keys
  {
    forall i :: 0 <= i < |procs| ==>
      waiting[procs[i].name]
      == Floor0(turnaround[procs[i].name] - CpuTotal(WrittenPlan(procs[i], [])) - BlockTotal(WrittenPlan(procs[i], [])))
  }

  method ReportAsWritten(procs: seq<Process>, pp: seq<seq<(int, int)>>, tl: seq<ExecSlice>, finish: seq<int>,
                         now: int, q: int, left: seq<seq<Segment>>) returns (r: ScheduleResult)
    requires UniqueNames(procs) && Final(procs, pp, tl, finish, now) && Quantized(pp, q)
    requires |left| == |procs| && forall i :: 0 <= i < |procs| ==> left[i] == []
    ensures Traced(procs, q, r) && WaitedAsWritten(procs, r)
    ensures r.timeline == tl && r.perProcessSlices == ByName(procs, pp)
  {
    var turnaround, waiting, avgTurnaround, avgWaiting := MetricsAsWritten(procs, finish, left);
    r := ScheduleResult(tl, ByName(procs, pp), turnaround, waiting, Some(avgTurnaround), Some(avgWaiting));
    TracedBy(procs, pp, tl, finish, now, q, turnaround, r);
  }

  /** The metrics block as written, over the working copies `left` the run has used up. */
  method MetricsAsWritten(procs: seq<Process>, finish: seq<int>, left: seq<seq<Segment>>)
    returns (turnaround: map<string, int>, waiting: map<string, int>, avgTurnaround: Average, avgWaiting: Average)
    requires UniqueNames(procs) && |finish| == |procs| && forall i :: 0 <= i < |procs| ==> procs[i].arrival <= finish[i]
    requires |left| == |procs| && forall i :: 0 <= i < |procs| ==> left[i] == []
    ensures turnaround.Keys == Names(procs) && waiting.Keys == Names(procs)
    ensures forall i :: 0 <= i < |procs| ==> turnaround[procs[i].name] == finish[i] - procs[i].arrival
    ensures WaitedWritten(procs, turnaround, waiting)
    ensures avgTurnaround == Average(SumOver(procs, turnaround), Max1(|procs|))
    ensures avgWaiting == Average(SumOver(procs, waiting), Max1(|procs|))
  {
    var plans := seq(|procs|, i requires 0 <= i < |procs| => WrittenPlan(procs[i], left[i]));
    assert forall i :: 0 <= i < |procs| ==> plans[i] == WrittenPlan(procs[i], []);
    turnaround, waiting, avgTurnaround, avgWaiting := Assemble(procs, plans, finish, true);
    WrittenWaiting(procs, plans, finish, turnaround, waiting);
  }

  /** With every finish instant no earlier than the arrival, the waiting time as written is the turnaround less the plan read. */
  lemma WrittenWaiting(procs: seq<Process>, plans: seq<seq<Segment>>, finish: seq<int>,
                       turnaround: map<string, int>, waiting: map<string, int>)
    requires |plans| == |procs| == |finish|
    requires Names(procs) <= turnaround.Keys && Names(procs) <= waiting.Keys
    requires forall i :: 0 <= i < |procs| ==> plans[i] == WrittenPlan(procs[i], []) && procs[i].arrival <= finish[i]
    requires forall i :: 0 <= i < |procs| ==>
      && turnaround[procs[i].name] == Metric(true, finish[i] - procs[i].arrival)
      && waiting[procs[i].name] == Metric(true, finish[i] - procs[i].arrival - CpuTotal(plans[i]) - BlockTotal(plans[i]))
    ensures WaitedWritten(procs, turnaround, waiting)
  {
  }

  /** The engine with the metrics block as written. */
  method ScheduleAsWritten(procs: seq<Process>, quantum: Option<int>) returns (r: Option<ScheduleResult>)
    requires ValidInput(procs)
    ensures r.None? <==> quantum.None? || quantum.value <= 0
    ensures r.Some? && procs == [] ==> r.value == EmptyResult()
    ensures r.Some? && procs != [] ==>
      Traced(ByArrival(procs), quantum.value, r.value) && WaitedAsWritten(ByArrival(procs), r.value)
  {
    if quantum.None? || quantum.value <= 0 {
      return None;
    }
    if procs == [] {
      return Some(EmptyResult());
    }
    var ps := ByArrival(procs);
    ByArrivalProps(procs);
    var st := Run(ps, quantum.value);
    var res := ReportAsWritten(ps, st.perProc, st.timeline, Finish(ps, st), st.time, quantum.value, st.pats);
    r := Some(res);
  }

  /** CPU intervals after `a`, chronological and ending by `f`, add up to at most `f - a`. */
  lemma {:induction false} SliceTotalWithin(iv: seq<(int, int)>, a: int, f: int)
    requires a <= f && EndsBy(iv, f)
    requires forall k :: 0 <= k < |iv| ==> a <= iv[k].0 < iv[k].1
    requires forall k, l :: 0 <= k < l < |iv| ==> iv[k].1 <= iv[l].0
    ensures SliceTotal(iv) <= f - a
  {
    if iv != [] {
      var last := iv[|iv| - 1];
      SliceTotalWithin(iv[..|iv| - 1], a, last.0);
    }
  }

  /**
   * A process without an explicit pattern is charged no CPU time by the metrics
   * block as written, so its waiting equals its turnaround, which the run
   * makes at least its burst; the waiting the source's own design defines is
   * that turnaround less the burst. Process "A", arriving at 0 with burst 3 and
   * running alone, shows it: reported waiting at least 3, intended waiting 3 less.
   */
  lemma WaitingAsWrittenOverstates(r: ScheduleResult, r': ScheduleResult, q: int)
    requires Traced([Process("A", 0, 3, None)], q, r) && WaitedAsWritten([Process("A", 0, 3, None)], r)
    requires Outcome([Process("A", 0, 3, None)], q, r')
    ensures r.waiting["A"] == r.turnaround["A"] >= 3
    ensures r'.waiting["A"] == r'.turnaround["A"] - 3
  {
    var procs := [Process("A", 0, 3, None)];
    var p := procs[0];
    assert EffectivePattern(p) == [Segment(CPU, 3)];
    assert CpuTotal([Segment(CPU, 3)]) == 3 && BlockTotal([Segment(CPU, 3)]) == 0;
    var iv := r.perProcessSlices["A"];
    SliceTotalWithin(iv, 0, r.turnaround["A"]);
    assert CpuTotal(WrittenPlan(p, [])) == 0 && BlockTotal(WrittenPlan(p, [])) == 0;
    assert Waited(procs, r'.turnaround, r'.waiting, true);
    SliceTotalWithin(r'.perProcessSlices["A"], 0, r'.turnaround["A"]);
  }
}
