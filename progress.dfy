/**
 * Bookkeeping shared by the engines' termination and accounting proofs: what
 * is left of a pattern, the work still to do, and the number of future events
 * (arrivals and unblocks) the clock can still jump to.
 */
module Progress {
  import opened Models
  import opened Ledger
  import opened Trace

  /** `s` is what is left of `t` once some segments were consumed from its front. */
  predicate IsSuffix<T(==)>(s: seq<T>, t: seq<T>)
  {
    |s| <= |t| && t[|t| - |s|..] == s
  }

  lemma SuffixTail<T>(s: seq<T>, t: seq<T>)
    requires IsSuffix(s, t) && s != []
    ensures IsSuffix(s[1..], t)
  {
    assert t[|t| - |s[1..]|..] == t[|t| - |s|..][1..];
  }

  /** The head of what is left of a plan, when it is a BLOCK segment, is one of the plan's BLOCK lengths. */
  lemma SuffixBlockLength(s: seq<Segment>, t: seq<Segment>)
    requires IsSuffix(s, t) && s != [] && s[0].kind == BLOCK
    ensures s[0].duration in BlockLengths(t)
  {
    assert s[0] == t[|t| - |s|];
    BlockLengthsHas(t, |t| - |s|);
  }

  lemma SuffixValid(s: seq<Segment>, t: seq<Segment>)
    requires IsSuffix(s, t) && ValidPattern(t)
    ensures ValidPattern(s)
  {
    forall k | 0 <= k < |s| ensures s[k].duration >= 0 && (s[k].kind == CPU ==> s[k].duration > 0) {
      assert s[k] == t[|t| - |s| + k];
    }
  }

  lemma ValidTail(pat: seq<Segment>)
    requires ValidPattern(pat) && pat != []
    ensures ValidPattern(pat[1..])
  {
    assert forall k :: 0 <= k < |pat| - 1 ==> pat[1..][k] == pat[k + 1];
  }

  /** The work left in a pattern: each segment counts its duration plus one step to consume it. */
  function Cost(pat: seq<Segment>): int
  {
    if pat == [] then 0 else pat[0].duration + 1 + Cost(pat[1..])
  }

  lemma {:induction false} CostBound(pat: seq<Segment>)
    requires ValidPattern(pat)
    ensures Cost(pat) >= 0
    ensures pat != [] ==> Cost(pat) > pat[0].duration
  {
    if pat != [] {
      ValidTail(pat);
      CostBound(pat[1..]);
    }
  }

  /** The work left in all patterns. */
  function PatCost(ps: seq<seq<Segment>>): int
  {
    if ps == [] then 0 else PatCost(ps[..|ps| - 1]) + Cost(ps[|ps| - 1])
  }

  lemma {:induction false} PatCostUpdate(ps: seq<seq<Segment>>, i: nat, v: seq<Segment>)
    requires i < |ps|
    ensures PatCost(ps[i := v]) == PatCost(ps) - Cost(ps[i]) + Cost(v)
  {
    var last := |ps| - 1;
    if i < last {
      assert ps[i := v][..last] == ps[..last][i := v];
      PatCostUpdate(ps[..last], i, v);
    } else {
      assert ps[i := v][..last] == ps[..last];
    }
  }

  lemma {:induction false} PatCostBound(ps: seq<seq<Segment>>, i: nat)
    requires forall k :: 0 <= k < |ps| ==> ValidPattern(ps[k])
    ensures PatCost(ps) >= 0
    ensures i < |ps| ==> PatCost(ps) >= Cost(ps[i])
  {
    if ps != [] {
      var last := |ps| - 1;
      assert forall k :: 0 <= k < last ==> ps[..last][k] == ps[k];
      PatCostBound(ps[..last], i);
      CostBound(ps[last]);
      if i < last {
        assert ps[..last][i] == ps[i];
      }
    }
  }

  /** How many processes from the arrivals cursor `from` on arrive after `t`. */
  function ArrivalsAfter(procs: seq<Process>, from: nat, t: int): nat
    decreases |procs| - from
  {
    if from >= |procs| then 0
    else (if procs[from].arrival > t then 1 else 0) + ArrivalsAfter(procs, from + 1, t)
  }

  lemma {:induction false} ArrivalsAfterMono(procs: seq<Process>, from: nat, t: int, t': int)
    requires t <= t'
    ensures ArrivalsAfter(procs, from, t') <= ArrivalsAfter(procs, from, t)
    decreases |procs| - from
  {
    if from < |procs| {
      ArrivalsAfterMono(procs, from + 1, t, t');
    }
  }

  /** Passing the arrival of a process at or after the cursor counts one arrival fewer. */
  lemma {:induction false} ArrivalsAfterDrops(procs: seq<Process>, from: nat, t: int, t': int, i: nat)
    requires t <= t' && from <= i < |procs| && t < procs[i].arrival <= t'
    ensures ArrivalsAfter(procs, from, t') < ArrivalsAfter(procs, from, t)
    decreases |procs| - from
  {
    ArrivalsAfterMono(procs, from + 1, t, t');
    if from < i {
      ArrivalsAfterDrops(procs, from + 1, t, t', i);
    }
  }

  /** The arrival instants of the processes below `j` that have not started and are not finished. */
  function Unstarted(procs: seq<Process>, cursor: seq<nat>, done: set<nat>, j: nat): seq<int>
    requires j <= |procs| && j <= |cursor|
  {
    if j == 0 then []
    else Unstarted(procs, cursor, done, j - 1) + (if cursor[j - 1] == 0 && j - 1 !in done then [procs[j - 1].arrival] else [])
  }

  lemma {:induction false} UnstartedHas(procs: seq<Process>, cursor: seq<nat>, done: set<nat>, j: nat, i: nat)
    requires i < j <= |procs| && j <= |cursor|
    ensures cursor[i] == 0 && i !in done ==> procs[i].arrival in Unstarted(procs, cursor, done, j)
  {
    if i < j - 1 {
      UnstartedHas(procs, cursor, done, j - 1, i);
    }
  }

  /** How many blocked entries unblock after `t`. */
  function BlockedAfter(b: seq<Block>, t: int): nat
  {
    if b == [] then 0 else (if b[0].until > t then 1 else 0) + BlockedAfter(b[1..], t)
  }

  lemma {:induction false} BlockedAfterMono(b: seq<Block>, t: int, t': int)
    requires t <= t'
    ensures BlockedAfter(b, t') <= BlockedAfter(b, t)
  {
    if b != [] {
      BlockedAfterMono(b[1..], t, t');
    }
  }

  lemma {:induction false} BlockedAfterDrops(b: seq<Block>, t: int, t': int, k: nat)
    requires t <= t' && k < |b| && t < b[k].until <= t'
    ensures BlockedAfter(b, t') < BlockedAfter(b, t)
  {
    BlockedAfterMono(b[1..], t, t');
    if k > 0 {
      BlockedAfterDrops(b[1..], t, t', k - 1);
    }
  }

  lemma {:induction false} BlockedAfterPending(b: seq<Block>, t: int)
    ensures BlockedAfter(Pending(b, t), t) == BlockedAfter(b, t)
  {
    if b != [] {
      BlockedAfterPending(b[1..], t);
      if b[0].until > t {
        assert Pending(b, t) == [b[0]] + Pending(b[1..], t);
        assert ([b[0]] + Pending(b[1..], t))[1..] == Pending(b[1..], t);
      } else {
        assert Pending(b, t) == Pending(b[1..], t);
      }
    }
  }

  lemma {:induction false} BlockedAfterAppend(b: seq<Block>, x: Block, t: int)
    ensures BlockedAfter(b + [x], t) == BlockedAfter(b, t) + (if x.until > t then 1 else 0)
  {
    if b != [] {
      assert (b + [x])[1..] == b[1..] + [x];
      BlockedAfterAppend(b[1..], x, t);
    }
  }

  /** When every entry unblocks after `t`, all of them count. */
  lemma {:induction false} BlockedAfterAll(b: seq<Block>, t: int)
    requires forall k :: 0 <= k < |b| ==> b[k].until > t
    ensures BlockedAfter(b, t) == |b|
  {
    if b != [] {
      assert b[0].until > t;
      BlockedAfterAll(b[1..], t);
    }
  }

  /** When there is no unblock after `t`, none counts. */
  lemma {:induction false} BlockedAfterNone(b: seq<Block>, t: int)
    requires MinAfter(Untils(b), t).None?
    ensures BlockedAfter(b, t) == 0
  {
    if b != [] {
      assert Untils(b)[0] == b[0].until;
      assert Untils(b)[1..] == Untils(b[1..]);
      BlockedAfterNone(b[1..], t);
    }
  }

  /** Every entry of `Pending(b, t)` is an entry of `b` that unblocks after `t`, and conversely. */
  lemma {:induction false} PendingMembers(b: seq<Block>, t: int)
    ensures forall e :: e in Pending(b, t) <==> e in b && e.until > t
  {
    if b != [] {
      PendingMembers(b[1..], t);
      assert b == [b[0]] + b[1..];
    }
  }

  /** No process has two entries in the blocked table. */
  predicate DistinctProcs(b: seq<Block>)
  {
    forall x, y :: 0 <= x < y < |b| ==> b[x].proc != b[y].proc
  }

  lemma DistinctIsNoDup(b: seq<Block>)
    ensures DistinctProcs(b) <==> NoDup(Procs(b))
  {
    var ps := Procs(b);
    if DistinctProcs(b) {
      forall x, y | 0 <= x < y < |ps| ensures ps[x] != ps[y] {
        assert ps[x] == b[x].proc && ps[y] == b[y].proc;
      }
    }
    if NoDup(ps) {
      forall x, y | 0 <= x < y < |b| ensures b[x].proc != b[y].proc {
        assert ps[x] == b[x].proc && ps[y] == b[y].proc;
      }
    }
  }

  lemma {:induction false} PendingDistinct(b: seq<Block>, t: int)
    requires DistinctProcs(b)
    ensures DistinctProcs(Pending(b, t))
  {
    if b != [] {
      var rest := Pending(b[1..], t);
      assert DistinctProcs(b[1..]) by {
        forall x, y | 0 <= x < y < |b| - 1 ensures b[1..][x].proc != b[1..][y].proc {
          assert b[1..][x] == b[x + 1] && b[1..][y] == b[y + 1];
        }
      }
      PendingDistinct(b[1..], t);
      PendingMembers(b[1..], t);
      if b[0].until > t {
        var r := Pending(b, t);
        assert r == [b[0]] + rest;
        forall x, y | 0 <= x < y < |r| ensures r[x].proc != r[y].proc {
          assert r[y] == rest[y - 1];
          if x == 0 {
            assert rest[y - 1] in b[1..];
            var m :| 0 <= m < |b[1..]| && b[1..][m] == rest[y - 1];
            assert b[1..][m] == b[m + 1];
          } else {
            assert r[x] == rest[x - 1];
          }
        }
      } else {
        assert Pending(b, t) == rest;
      }
    }
  }

  lemma PendingNoDup(b: seq<Block>, t: int)
    requires NoDup(Procs(b))
    ensures NoDup(Procs(Pending(b, t)))
  {
    DistinctIsNoDup(b);
    PendingDistinct(b, t);
    DistinctIsNoDup(Pending(b, t));
  }

  /** How many of the instants lie strictly after `t`. */
  function CountAfter(xs: seq<int>, t: int): nat
  {
    if xs == [] then 0 else (if xs[0] > t then 1 else 0) + CountAfter(xs[1..], t)
  }

  lemma {:induction false} CountAfterMono(xs: seq<int>, t: int, t': int)
    requires t <= t'
    ensures CountAfter(xs, t') <= CountAfter(xs, t)
  {
    if xs != [] {
      CountAfterMono(xs[1..], t, t');
    }
  }

  /** Moving the clock past one of the instants lowers the count. */
  lemma {:induction false} CountAfterDrops(xs: seq<int>, t: int, t': int, k: nat)
    requires t <= t' && k < |xs| && t < xs[k] <= t'
    ensures CountAfter(xs, t') < CountAfter(xs, t)
  {
    CountAfterMono(xs[1..], t, t');
    if k > 0 {
      CountAfterDrops(xs[1..], t, t', k - 1);
    }
  }

  /** The queue without its element at position `k`. */
  function RemoveAt(s: seq<nat>, k: nat): seq<nat>
    requires k < |s|
  {
    s[..k] + s[k + 1..]
  }

  lemma RemoveAtProps(s: seq<nat>, k: nat)
    requires NoDup(s) && k < |s|
    ensures NoDup(RemoveAt(s, k)) && Elems(RemoveAt(s, k)) == Elems(s) - {s[k]}
  {
    var r := RemoveAt(s, k);
    forall x ensures x in r <==> x in s && x != s[k] {
      if x in r {
        var j :| 0 <= j < |r| && r[j] == x;
        if j < k {
          assert r[j] == s[j];
        } else {
          assert r[j] == s[j + 1];
        }
      }
      if x in s && x != s[k] {
        var j :| 0 <= j < |s| && s[j] == x;
        if j < k {
          assert r[j] == x;
        } else {
          assert r[j - 1] == x;
        }
      }
    }
    forall a, b | 0 <= a < b < |r| ensures r[a] != r[b] {
      var a' := if a < k then a else a + 1;
      var b' := if b < k then b else b + 1;
      assert r[a] == s[a'] && r[b] == s[b'];
    }
  }

  /** The CPU time of a pattern extended by one segment. */
  lemma {:induction false} CpuTotalSnoc(pat: seq<Segment>, x: Segment)
    ensures CpuTotal(pat + [x]) == CpuTotal(pat) + (if x.kind == CPU then x.duration else 0)
  {
    if pat != [] {
      assert (pat + [x])[1..] == pat[1..] + [x];
      CpuTotalSnoc(pat[1..], x);
    }
  }

  /** The indices `a, a + 1, ..., b - 1`. */
  function Range(a: nat, b: nat): (r: seq<nat>)
    requires a <= b
    ensures |r| == b - a
    ensures forall k :: 0 <= k < |r| ==> r[k] == a + k
    decreases b - a
  {
    if a == b then [] else Range(a, b - 1) + [b - 1]
  }

  /** A set of indices below `n` has at most `n` elements, and exactly `n` when it holds them all. */
  lemma {:induction false} BoundedCard(s: set<nat>, n: nat)
    requires forall x :: x in s ==> x < n
    ensures |s| <= n
    ensures |s| == n <==> forall x: nat :: x < n ==> x in s
  {
    if n == 0 {
      assert s == {};
    } else {
      var s' := s - {n - 1};
      BoundedCard(s', n - 1);
      if n - 1 in s {
        assert |s| == |s'| + 1;
      } else {
        assert s == s';
      }
    }
  }

  /** The processes of a queue, as a set. */
  function Elems(s: seq<nat>): (r: set<nat>)
    ensures forall x :: x in r <==> x in s
  {
    set x | x in s
  }

  /** The processes with an entry in the blocked table. */
  function Parked(b: seq<Block>): (r: set<nat>)
    ensures forall k :: 0 <= k < |b| ==> b[k].proc in r
    ensures forall p :: p in r ==> exists k :: 0 <= k < |b| && b[k].proc == p
  {
    set e | e in b :: e.proc
  }

  /** The indices below `n`. */
  function Below(n: nat): (r: set<nat>)
    ensures forall x: nat :: x in r <==> x < n
  {
    var r := Range(0, n);
    assert forall x: nat :: x in r <==> x < n by {
      forall x: nat ensures x in r <==> x < n {
        if x < n {
          assert r[x] == x;
        }
        if x in r {
          var k :| 0 <= k < |r| && r[k] == x;
        }
      }
    }
    Elems(r)
  }

  /** The processes the release moves: those of the blocked table that are due. */
  lemma DueSet(b: seq<Block>, t: int)
    requires DistinctProcs(b)
    ensures Elems(DueIn(UnblockOrder(b), b, t)) == set p | p in Parked(b) && UntilOf(b, p) <= t
    ensures NoDup(DueIn(UnblockOrder(b), b, t))
  {
    DistinctIsNoDup(b);
    SortByMultiset(Procs(b), UntilKey(b));
    SortByNoDup(Procs(b), UntilKey(b));
    DueSetIn(b, t, UnblockOrder(b));
  }

  /** Whatever order the blocked processes are visited in, the release moves those that are due. */
  lemma DueSetIn(b: seq<Block>, t: int, order: seq<nat>)
    requires DistinctProcs(b) && NoDup(order) && multiset(order) == multiset(Procs(b))
    ensures Elems(DueIn(order, b, t)) == set p | p in Parked(b) && UntilOf(b, p) <= t
    ensures NoDup(DueIn(order, b, t))
  {
    DueInMembers(order, b, t);
    forall p ensures p in order <==> p in Parked(b) {
      assert p in order <==> p in multiset(order);
      if p in Parked(b) {
        var k :| 0 <= k < |b| && b[k].proc == p;
        assert Procs(b)[k] == p;
      }
    }
  }

  /** The processes that stay blocked: those that are not due. */
  lemma PendingSet(b: seq<Block>, t: int)
    requires DistinctProcs(b)
    ensures Parked(Pending(b, t)) == set p | p in Parked(b) && UntilOf(b, p) > t
    ensures DistinctProcs(Pending(b, t))
  {
    PendingMembers(b, t);
    PendingDistinct(b, t);
    DistinctIsNoDup(b);
    var pb := Pending(b, t);
    forall p ensures p in Parked(pb) <==> p in Parked(b) && UntilOf(b, p) > t {
      if p in Parked(pb) {
        var k :| 0 <= k < |pb| && pb[k].proc == p;
        assert pb[k] in pb;
        var m :| 0 <= m < |b| && b[m] == pb[k];
        UntilOfAt(b, m);
      }
      if p in Parked(b) && UntilOf(b, p) > t {
        var m :| 0 <= m < |b| && b[m].proc == p;
        UntilOfAt(b, m);
        assert b[m] in pb;
      }
    }
  }

  lemma ParkedAppend(b: seq<Block>, e: Block)
    requires DistinctProcs(b) && e.proc !in Parked(b)
    ensures DistinctProcs(b + [e]) && Parked(b + [e]) == Parked(b) + {e.proc}
  {
    var b' := b + [e];
    forall x, y | 0 <= x < y < |b'| ensures b'[x].proc != b'[y].proc {
      if y == |b| {
        assert b'[x] == b[x];
      }
    }
    forall p ensures p in Parked(b') <==> p in Parked(b) + {e.proc} {
      if p in Parked(b') {
        var k :| 0 <= k < |b'| && b'[k].proc == p;
        if k < |b| {
          assert b[k].proc == p;
        }
      }
      if p in Parked(b) {
        var k :| 0 <= k < |b| && b[k].proc == p;
        assert b'[k].proc == p;
      }
      assert b'[|b|].proc == e.proc;
    }
  }

  /** No instant after `t` in a concatenation means none in either part. */
  lemma MinAfterSplit(xs: seq<int>, ys: seq<int>, t: int)
    requires MinAfter(xs + ys, t).None?
    ensures MinAfter(ys, t).None?
    ensures forall k :: 0 <= k < |xs| ==> xs[k] <= t
  {
    assert forall k :: 0 <= k < |xs| ==> xs[k] == (xs + ys)[k];
    assert forall k :: 0 <= k < |ys| ==> ys[k] == (xs + ys)[|xs| + k];
  }

  /** Appending a queue of distinct processes disjoint from a queue keeps it free of duplicates. */
  lemma Extend(s: seq<nat>, add: seq<nat>)
    requires NoDup(s) && NoDup(add) && Elems(s) !! Elems(add)
    ensures NoDup(s + add) && Elems(s + add) == Elems(s) + Elems(add)
  {
    var r := s + add;
    forall a, b | 0 <= a < b < |r| ensures r[a] != r[b] {
      if a < |s| <= b {
        assert r[a] in Elems(s) && r[b] == add[b - |s|] && r[b] in Elems(add);
      } else if |s| <= a {
        assert r[a] == add[a - |s|] && r[b] == add[b - |s|];
      }
    }
  }

  // ---------------------------------------------------------------------------
  // Taking one entry out of the blocked table (a dictionary `pop`).

  lemma ParkedConcat(x: seq<Block>, y: seq<Block>)
    ensures Parked(x + y) == Parked(x) + Parked(y)
  {
    forall q ensures q in Parked(x + y) <==> q in Parked(x) + Parked(y) {
      if q in Parked(x + y) {
        var k :| 0 <= k < |x + y| && (x + y)[k].proc == q;
        if k < |x| {
          assert x[k].proc == q;
        } else {
          assert y[k - |x|].proc == q;
        }
      }
      if q in Parked(x) {
        var k :| 0 <= k < |x| && x[k].proc == q;
        assert (x + y)[k].proc == q;
      }
      if q in Parked(y) {
        var k :| 0 <= k < |y| && y[k].proc == q;
        assert (x + y)[|x| + k].proc == q;
      }
    }
  }

  lemma DistinctTail(b: seq<Block>)
    requires DistinctProcs(b) && b != []
    ensures DistinctProcs(b[1..]) && b[0].proc !in Parked(b[1..])
  {
    var tail := b[1..];
    forall x, y | 0 <= x < y < |tail| ensures tail[x].proc != tail[y].proc {
      assert tail[x] == b[x + 1] && tail[y] == b[y + 1];
    }
    forall k | 0 <= k < |tail| ensures tail[k].proc != b[0].proc {
      assert tail[k] == b[k + 1];
    }
  }

  /** Removing the entry of `p` keeps the other entries and the table free of repeated processes. */
  lemma {:induction false} WithoutMembers(b: seq<Block>, p: nat)
    requires DistinctProcs(b)
    ensures DistinctProcs(Without(b, p))
    ensures Parked(Without(b, p)) == Parked(b) - {p}
    ensures forall e :: e in Without(b, p) ==> e in b
  {
    if b != [] {
      var tail := b[1..];
      DistinctTail(b);
      WithoutMembers(tail, p);
      var w := Without(tail, p);
      assert b == [b[0]] + tail;
      ParkedConcat([b[0]], tail);
      assert Parked([b[0]]) == {b[0].proc};
      if b[0].proc != p {
        assert Without(b, p) == [b[0]] + w;
        ConsDistinct(b[0], w);
      } else {
        assert Without(b, p) == w;
      }
    }
  }

  lemma ConsDistinct(e: Block, w: seq<Block>)
    requires DistinctProcs(w) && e.proc !in Parked(w)
    ensures DistinctProcs([e] + w) && Parked([e] + w) == Parked(w) + {e.proc}
  {
    var r := [e] + w;
    forall x, y | 0 <= x < y < |r| ensures r[x].proc != r[y].proc {
      assert r[y] == w[y - 1];
      if x > 0 {
        assert r[x] == w[x - 1];
      }
    }
    ParkedConcat([e], w);
    assert Parked([e]) == {e.proc};
  }

  /** Removing the entry of `p` leaves the unblock instants of the other processes as they were. */
  lemma {:induction false} UntilOfWithout(b: seq<Block>, p: nat, q: nat)
    requires q != p
    ensures UntilOf(Without(b, p), q) == UntilOf(b, q)
  {
    if b != [] {
      UntilOfWithout(b[1..], p, q);
      var w := Without(b[1..], p);
      if b[0].proc != p {
        assert Without(b, p) == [b[0]] + w;
        assert ([b[0]] + w)[1..] == w;
      } else {
        assert Without(b, p) == w;
      }
    }
  }

  /** An entry appended for another process leaves the unblock instant of `q` as it was. */
  lemma {:induction false} UntilOfAppend(b: seq<Block>, e: Block, q: nat)
    requires q != e.proc
    ensures UntilOf(b + [e], q) == UntilOf(b, q)
  {
    if b == [] {
      assert [e][1..] == [];
    } else {
      assert (b + [e])[1..] == b[1..] + [e];
      UntilOfAppend(b[1..], e, q);
    }
  }

  lemma {:induction false} WithoutAbsent(b: seq<Block>, p: nat)
    requires p !in Parked(b)
    ensures Without(b, p) == b
  {
    if b != [] {
      assert b[0] in b;
      assert Parked(b[1..]) <= Parked(b) by {
        forall q | q in Parked(b[1..]) ensures q in Parked(b) {
          var k :| 0 <= k < |b| - 1 && b[1..][k].proc == q;
          assert b[k + 1].proc == q;
        }
      }
      WithoutAbsent(b[1..], p);
      assert b == [b[0]] + b[1..];
    }
  }

  /** Popping an entry that is already due does not change how many entries unblock later. */
  lemma {:induction false} BlockedAfterWithout(b: seq<Block>, p: nat, t: int)
    requires DistinctProcs(b) && UntilOf(b, p) <= t
    ensures BlockedAfter(Without(b, p), t) == BlockedAfter(b, t)
  {
    if b != [] {
      DistinctTail(b);
      if b[0].proc == p {
        WithoutAbsent(b[1..], p);
        assert Without(b, p) == Without(b[1..], p);
      } else {
        BlockedAfterWithout(b[1..], p, t);
        var w := Without(b[1..], p);
        assert Without(b, p) == [b[0]] + w;
        assert ([b[0]] + w)[1..] == w;
      }
    }
  }

  /** The CPU time of a pattern is that of a prefix plus that of the rest. */
  lemma {:induction false} CpuTotalSplit(pat: seq<Segment>, c: nat)
    requires c <= |pat|
    ensures CpuTotal(pat[..c]) + CpuTotal(pat[c..]) == CpuTotal(pat)
  {
    if c == 0 {
      assert pat[..0] == [] && pat[0..] == pat;
    } else {
      CpuTotalSplit(pat, c - 1);
      assert pat[..c] == pat[..c - 1] + [pat[c - 1]];
      CpuTotalSnoc(pat[..c - 1], pat[c - 1]);
      assert pat[c - 1..][1..] == pat[c..];
    }
  }

  /** Under a valid pattern no part of it has negative CPU time. */
  lemma {:induction false} CpuTotalNonNeg(pat: seq<Segment>)
    requires ValidPattern(pat)
    ensures CpuTotal(pat) >= 0
  {
    if pat != [] {
      ValidTail(pat);
      CpuTotalNonNeg(pat[1..]);
    }
  }

  /** The process taken off the ready list and not yet put anywhere else, as a set. */
  function InHand(held: Option<nat>): set<nat>
  {
    if held.Some? then {held.value} else {}
  }

  /** The first arrival: the clock's starting value. */
  function FirstArrival(procs: seq<Process>): (t: int)
    requires procs != []
    ensures forall i :: 0 <= i < |procs| ==> t <= procs[i].arrival
    ensures exists i :: 0 <= i < |procs| && t == procs[i].arrival
  {
    if |procs| == 1 then procs[0].arrival
    else
      var t := FirstArrival(procs[..|procs| - 1]);
      if procs[|procs| - 1].arrival < t then procs[|procs| - 1].arrival else t
  }
}
