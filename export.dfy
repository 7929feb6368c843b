/**
 * The timeline post-processing of the spreadsheet export: the order of the
 * rows of the Gantt grid, the I/O intervals and the CPU segments of each
 * process read back from the timeline labels, the fusion of touching CPU
 * segments, and the grid columns a segment paints.
 */
module Export {
  import opened Models
  import opened Ledger

  // ---------------------------------------------------------------------------
  // Labels.

  /**
   * The label with every occurrence of the I/O suffix removed, scanning left
   * to right without overlap as Python's `str.replace` does.
   */
  function StripMark(s: string): string
    decreases |s|
  {
    if |s| < |BlockSuffix| then s
    else if s[..|BlockSuffix|] == BlockSuffix then StripMark(s[|BlockSuffix|..])
    else [s[0]] + StripMark(s[1..])
  }

  /** The label ends in the I/O suffix. */
  predicate EndsWithMark(s: string)
  {
    |s| >= |BlockSuffix| && s[|s| - |BlockSuffix|..] == BlockSuffix
  }

  /** The suffix occurs in `s` at position `k`. */
  predicate MarkAt(s: string, k: nat)
  {
    k + |BlockSuffix| <= |s| && s[k..k + |BlockSuffix|] == BlockSuffix
  }

  /** The suffix occurs nowhere in `s`. */
  predicate Unmarked(s: string)
  {
    forall k: nat :: k <= |s| ==> !MarkAt(s, k)
  }

  lemma {:induction false} StripUnmarked(s: string)
    requires Unmarked(s)
    ensures StripMark(s) == s
    decreases |s|
  {
    if |s| >= |BlockSuffix| {
      assert !MarkAt(s, 0);
      assert s[..|BlockSuffix|] == s[0..|BlockSuffix|];
      assert Unmarked(s[1..]) by {
        forall k: nat | k <= |s| - 1
          ensures !MarkAt(s[1..], k)
        {
          assert !MarkAt(s, k + 1);
          if k + |BlockSuffix| <= |s| - 1 {
            assert s[1..][k..k + |BlockSuffix|] == s[k + 1..k + 1 + |BlockSuffix|];
          }
        }
      }
      StripUnmarked(s[1..]);
      assert [s[0]] + s[1..] == s;
    }
  }

  /**
   * Appending the suffix adds nothing once stripped: the suffix has no
   * proper prefix that is also its suffix, so no occurrence straddles the join.
   */
  lemma {:induction false} StripAppendMark(x: string)
    ensures StripMark(x + BlockSuffix) == StripMark(x)
    decreases |x|
  {
    var s := x + BlockSuffix;
    if x == [] {
      assert s == BlockSuffix && s[|BlockSuffix|..] == [];
    } else if |x| < |BlockSuffix| {
      NoStraddle(x);
      assert s[1..] == x[1..] + BlockSuffix;
      StripAppendMark(x[1..]);
      assert [x[0]] + x[1..] == x;
    } else if x[..|BlockSuffix|] == BlockSuffix {
      assert s[..|BlockSuffix|] == BlockSuffix;
      assert s[|BlockSuffix|..] == x[|BlockSuffix|..] + BlockSuffix;
      StripAppendMark(x[|BlockSuffix|..]);
    } else {
      assert x[..|BlockSuffix|] == s[..|BlockSuffix|];
      assert s[1..] == x[1..] + BlockSuffix;
      StripAppendMark(x[1..]);
    }
  }

  /** A short non-empty `x` followed by the suffix does not start with the suffix. */
  lemma NoStraddle(x: string)
    requires 0 < |x| < |BlockSuffix|
    ensures (x + BlockSuffix)[..|BlockSuffix|] != BlockSuffix
  {
    var s := x + BlockSuffix;
    assert s[|x|] == '_';
    assert BlockSuffix[|x|] != '_';
    assert s[..|BlockSuffix|][|x|] == s[|x|];
  }

  /** The I/O label of a process whose name holds no suffix ends in it and strips back to the name. */
  lemma BlockLabelBase(name: string)
    requires Unmarked(name)
    ensures EndsWithMark(BlockLabel(name))
    ensures StripMark(BlockLabel(name)) == name
  {
    StripAppendMark(name);
    StripUnmarked(name);
    assert BlockLabel(name)[|BlockLabel(name)| - |BlockSuffix|..] == BlockSuffix;
  }

  // ---------------------------------------------------------------------------
  // Row order: first appearance.

  /** `s` without repeats, each element kept at its first occurrence. */
  function Dedup(s: seq<string>): seq<string>
  {
    if s == [] then []
    else
      var d := Dedup(s[..|s| - 1]);
      if s[|s| - 1] in d then d else d + [s[|s| - 1]]
  }

  /** The position of the first occurrence of `x` in `s`. */
  function IndexOf(s: seq<string>, x: string): (r: nat)
    requires x in s
    ensures r < |s| && s[r] == x
    ensures forall j :: 0 <= j < r ==> s[j] != x
  {
    if x in s[..|s| - 1] then IndexOf(s[..|s| - 1], x) else |s| - 1
  }

  /** Deduplication keeps every element once and in order of first occurrence. */
  lemma {:induction false} DedupProps(s: seq<string>)
    ensures NoDup(Dedup(s))
    ensures forall x :: x in Dedup(s) <==> x in s
    ensures forall i, j :: 0 <= i < j < |Dedup(s)| ==> IndexOf(s, Dedup(s)[i]) < IndexOf(s, Dedup(s)[j])
  {
    if s != [] {
      var init, x := s[..|s| - 1], s[|s| - 1];
      var d := Dedup(init);
      DedupProps(init);
      assert s == init + [x];
      forall y | y in init
        ensures IndexOf(s, y) == IndexOf(init, y)
      {
      }
      if x !in d {
        assert IndexOf(s, x) == |s| - 1;
      }
    }
  }

  /** The base names of the timeline's labels, in timeline order. */
  function Bases(tl: seq<ExecSlice>): (b: seq<string>)
    ensures |b| == |tl| && forall k :: 0 <= k < |tl| ==> b[k] == StripMark(tl[k].process)
  {
    seq(|tl|, k requires 0 <= k < |tl| => StripMark(tl[k].process))
  }

  /**
   * The row order of the grid: each base name once, by first appearance in
   * the timeline, then the names known only from the turnaround table, in
   * that table's key order.
   */
  method OrderByAppearance(timeline: seq<ExecSlice>, turnaroundKeys: seq<string>) returns (order: seq<string>)
    ensures order == Dedup(Bases(timeline) + turnaroundKeys)
  {
    var all := Bases(timeline) + turnaroundKeys;
    order := [];
    for i := 0 to |timeline|
      invariant order == Dedup(all[..i])
    {
      var base := StripMark(timeline[i].process);
      assert all[..i + 1] == all[..i] + [base];
      assert Dedup(all[..i + 1]) == if base in order then order else order + [base];
      if base !in order {
        order := order + [base];
      }
    }
    for j := 0 to |turnaroundKeys|
      invariant order == Dedup(all[..|timeline| + j])
    {
      var pid := turnaroundKeys[j];
      assert all[..|timeline| + j + 1] == all[..|timeline| + j] + [pid];
      assert Dedup(all[..|timeline| + j + 1]) == if pid in order then order else order + [pid];
      if pid !in order {
        order := order + [pid];
      }
    }
    assert all[..|timeline| + |turnaroundKeys|] == all;
  }

  /**
   * The rows hold every base name of the timeline and every turnaround key,
   * each once; a name seen in the timeline comes before every name known only
   * from the keys, and timeline names come in order of first appearance.
   */
  lemma AppearanceOrder(timeline: seq<ExecSlice>, turnaroundKeys: seq<string>)
    ensures var order := Dedup(Bases(timeline) + turnaroundKeys);
      && NoDup(order)
      && (forall x :: x in order <==> x in Bases(timeline) || x in turnaroundKeys)
      && (forall i, j :: 0 <= i < j < |order| && order[j] in Bases(timeline) ==>
            order[i] in Bases(timeline) && IndexOf(Bases(timeline), order[i]) < IndexOf(Bases(timeline), order[j]))
  {
    var b := Bases(timeline);
    var all := b + turnaroundKeys;
    var order := Dedup(all);
    DedupProps(all);
    forall x | x in b
      ensures IndexOf(all, x) == IndexOf(b, x)
    {
      var r := IndexOf(b, x);
      assert all[r] == x;
      assert forall j :: 0 <= j < |b| ==> all[j] == b[j];
    }
    forall i, j | 0 <= i < j < |order| && order[j] in b
      ensures order[i] in b && IndexOf(b, order[i]) < IndexOf(b, order[j])
    {
      var ri := IndexOf(all, order[i]);
      assert ri < IndexOf(all, order[j]) < |b|;
      assert all[ri] == b[ri];
    }
  }

  // ---------------------------------------------------------------------------
  // Intervals of each process read back from the labels.

  /** The slice is kept by the pass that collects I/O slices (`io`) or CPU slices (not `io`). */
  predicate Picked(sl: ExecSlice, io: bool)
  {
    EndsWithMark(sl.process) == io
  }

  /** The key a kept slice is filed under: the base name for I/O, the label for CPU. */
  function KeyOf(sl: ExecSlice, io: bool): string
  {
    if io then StripMark(sl.process) else sl.process
  }

  /** The intervals filed by one pass, grown slice by slice as `setdefault(...).append` does. */
  function Group(tl: seq<ExecSlice>, io: bool): map<string, seq<(int, int)>>
  {
    if tl == [] then map[]
    else
      var g := Group(tl[..|tl| - 1], io);
      var sl := tl[|tl| - 1];
      if !Picked(sl, io) then g
      else
        var key := KeyOf(sl, io);
        g[key := (if key in g then g[key] else []) + [(sl.start, sl.end)]]
  }

  /** The intervals of the kept slices filed under `key`, in timeline order. */
  function Filter(tl: seq<ExecSlice>, io: bool, key: string): seq<(int, int)>
  {
    if tl == [] then []
    else
      var sl := tl[|tl| - 1];
      Filter(tl[..|tl| - 1], io, key) + (if Picked(sl, io) && KeyOf(sl, io) == key then [(sl.start, sl.end)] else [])
  }

  /** Each key of a pass holds exactly its slices in timeline order, and no key is empty. */
  lemma {:induction false} GroupIsFilter(tl: seq<ExecSlice>, io: bool, key: string)
    ensures key in Group(tl, io) <==> Filter(tl, io, key) != []
    ensures key in Group(tl, io) ==> Group(tl, io)[key] == Filter(tl, io, key)
  {
    if tl != [] {
      GroupIsFilter(tl[..|tl| - 1], io, key);
    }
  }

  /** The I/O intervals by base name: the slices whose label ends in the suffix. */
  method IoIntervals(timeline: seq<ExecSlice>) returns (io: map<string, seq<(int, int)>>)
    ensures io == Group(timeline, true)
  {
    io := map[];
    for i := 0 to |timeline|
      invariant io == Group(timeline[..i], true)
    {
      var sl := timeline[i];
      assert timeline[..i + 1][..i] == timeline[..i];
      if EndsWithMark(sl.process) {
        var base := StripMark(sl.process);
        var prior := if base in io then io[base] else [];
        io := io[base := prior + [(sl.start, sl.end)]];
      }
    }
    assert timeline[..|timeline|] == timeline;
  }

  /** Lexicographic order of intervals, as Python compares tuples. */
  predicate PairLe(a: (int, int), b: (int, int))
  {
    a.0 < b.0 || (a.0 == b.0 && a.1 <= b.1)
  }

  predicate PairsSorted(s: seq<(int, int)>)
  {
    forall a, b :: 0 <= a < b < |s| ==> PairLe(s[a], s[b])
  }

  function InsertPair(x: (int, int), s: seq<(int, int)>): seq<(int, int)>
  {
    if s == [] then [x] else if PairLe(s[0], x) then [s[0]] + InsertPair(x, s[1..]) else [x] + s
  }

  /** The intervals in tuple order, as `list.sort()` leaves them. */
  function SortPairs(s: seq<(int, int)>): seq<(int, int)>
  {
    if s == [] then [] else InsertPair(s[|s| - 1], SortPairs(s[..|s| - 1]))
  }

  lemma {:induction false} InsertPairMultiset(x: (int, int), s: seq<(int, int)>)
    ensures multiset(InsertPair(x, s)) == multiset(s) + multiset{x}
  {
    if s != [] && PairLe(s[0], x) {
      InsertPairMultiset(x, s[1..]);
      assert s == [s[0]] + s[1..];
    }
  }

  lemma {:induction false} InsertPairSorted(x: (int, int), s: seq<(int, int)>)
    requires PairsSorted(s)
    ensures PairsSorted(InsertPair(x, s))
  {
    if s != [] && PairLe(s[0], x) {
      var rest := s[1..];
      assert PairsSorted(rest) by {
        forall a, b | 0 <= a < b < |rest| ensures PairLe(rest[a], rest[b]) {
          assert rest[a] == s[a + 1] && rest[b] == s[b + 1];
        }
      }
      InsertPairSorted(x, rest);
      InsertPairMultiset(x, rest);
      var r := InsertPair(x, rest);
      forall k | 0 <= k < |r| ensures PairLe(s[0], r[k]) {
        assert r[k] in multiset(r);
        if r[k] != x {
          assert r[k] in rest;
        }
      }
    }
  }

  /** The sort orders the intervals and keeps every one of them. */
  lemma {:induction false} SortPairsProps(s: seq<(int, int)>)
    ensures PairsSorted(SortPairs(s))
    ensures multiset(SortPairs(s)) == multiset(s)
  {
    if s != [] {
      SortPairsProps(s[..|s| - 1]);
      InsertPairSorted(s[|s| - 1], SortPairs(s[..|s| - 1]));
      InsertPairMultiset(s[|s| - 1], SortPairs(s[..|s| - 1]));
      assert s == s[..|s| - 1] + [s[|s| - 1]];
    }
  }

  /**
   * The CPU segments by label: the slices whose label does not end in the
   * suffix, filed in timeline order and then each list sorted.
   */
  method CpuSegments(timeline: seq<ExecSlice>) returns (segs: map<string, seq<(int, int)>>)
    ensures segs.Keys == Group(timeline, false).Keys
    ensures forall pid :: pid in segs ==> segs[pid] == SortPairs(Group(timeline, false)[pid])
  {
    segs := map[];
    for i := 0 to |timeline|
      invariant segs == Group(timeline[..i], false)
    {
      var sl := timeline[i];
      assert timeline[..i + 1][..i] == timeline[..i];
      if !EndsWithMark(sl.process) {
        var prior := if sl.process in segs then segs[sl.process] else [];
        segs := segs[sl.process := prior + [(sl.start, sl.end)]];
      }
    }
    assert timeline[..|timeline|] == timeline;
    ghost var g := segs;
    var todo := segs.Keys;
    while todo != {}
      invariant todo <= g.Keys && segs.Keys == g.Keys
      invariant forall pid :: pid in segs ==> segs[pid] == if pid in todo then g[pid] else SortPairs(g[pid])
      decreases |todo|
    {
      var pid :| pid in todo;
      segs := segs[pid := SortPairs(segs[pid])];
      todo := todo - {pid};
    }
  }

  // ---------------------------------------------------------------------------
  // Fusing touching or overlapping segments.

  function StartOf(p: (int, int)): int
  {
    p.0
  }

  /** One segment taken in: it extends the last fused one when it starts by that one's end. */
  function Extend(m: seq<(int, int)>, x: (int, int)): seq<(int, int)>
  {
    if m != [] && x.0 <= m[|m| - 1].1 then m[..|m| - 1] + [(m[|m| - 1].0, Max(m[|m| - 1].1, x.1))]
    else m + [x]
  }

  /** The segments fused front to back. */
  function Coalesce(s: seq<(int, int)>): seq<(int, int)>
  {
    if s == [] then [] else Extend(Coalesce(s[..|s| - 1]), s[|s| - 1])
  }

  /** The export's segment fusion: a stable sort by start, then one pass. */
  method MergeSegments(segments: seq<(int, int)>) returns (merged: seq<(int, int)>)
    ensures merged == Coalesce(SortBy(segments, StartOf))
  {
    if segments == [] {
      return [];
    }
    var sorted := SortBy(segments, StartOf);
    merged := FusePass(sorted);
  }

  /** The pass of the fusion: each segment extends the last fused one or starts a new one. */
  method FusePass(sorted: seq<(int, int)>) returns (merged: seq<(int, int)>)
    ensures merged == Coalesce(sorted)
  {
    if sorted == [] {
      return [];
    }
    merged := [sorted[0]];
    assert sorted[..1][..0] == [];
    for i := 1 to |sorted|
      invariant merged == Coalesce(sorted[..i])
    {
      var seg, last := sorted[i], merged[|merged| - 1];
      assert sorted[..i + 1][..i] == sorted[..i] && sorted[..i + 1][i] == seg;
      assert Coalesce(sorted[..i + 1]) == Extend(merged, seg);
      if seg.0 <= last.1 {
        merged := merged[..|merged| - 1] + [(last.0, Max(last.1, seg.1))];
      } else {
        merged := merged + [seg];
      }
    }
    assert sorted[..|sorted|] == sorted;
  }

  /** Instant `t` lies in one of the half-open segments. */
  predicate Covers(s: seq<(int, int)>, t: int)
  {
    exists p :: p in s && p.0 <= t < p.1
  }

  /** Each fused segment starts strictly after the previous one ends. */
  predicate Separated(m: seq<(int, int)>)
  {
    forall k :: 0 <= k < |m| - 1 ==> m[k].1 < m[k + 1].0
  }

  /** Over segments sorted by start, the last fused segment starts no later than the last segment. */
  lemma {:induction false} CoalesceLast(s: seq<(int, int)>)
    requires s != [] && SortedBy(s, StartOf)
    ensures Coalesce(s) != []
    ensures Coalesce(s)[|Coalesce(s)| - 1].0 <= s[|s| - 1].0
  {
    var init := s[..|s| - 1];
    if init != [] {
      assert SortedBy(init, StartOf);
      CoalesceLast(init);
      assert StartOf(s[|s| - 2]) <= StartOf(s[|s| - 1]);
    }
  }

  /**
   * Over segments sorted by start, the fusion is sorted by start, its
   * segments are separated by gaps, and it covers exactly the instants the
   * segments cover.
   */
  lemma CoalesceProps(s: seq<(int, int)>)
    requires SortedBy(s, StartOf)
    ensures Coalesce(s) == [] <==> s == []
    ensures SortedBy(Coalesce(s), StartOf) && Separated(Coalesce(s))
    ensures forall t :: Covers(Coalesce(s), t) <==> Covers(s, t)
  {
    CoalesceShape(s);
    CoalesceCovers(s);
  }

  /** Over segments sorted by start, the fusion is empty only for no segments, sorted by start and separated by gaps. */
  lemma {:induction false} CoalesceShape(s: seq<(int, int)>)
    requires SortedBy(s, StartOf)
    ensures Coalesce(s) == [] <==> s == []
    ensures SortedBy(Coalesce(s), StartOf) && Separated(Coalesce(s))
  {
    if s != [] {
      var init, x := s[..|s| - 1], s[|s| - 1];
      assert SortedBy(init, StartOf);
      CoalesceShape(init);
      var m := Coalesce(init);
      assert Coalesce(s) == Extend(m, x);
      if init != [] {
        CoalesceLast(init);
        assert StartOf(s[|s| - 2]) <= StartOf(x);
      }
      if m != [] && x.0 <= m[|m| - 1].1 {
        FuseLast(m, x);
      } else {
        AppendLast(m, x);
      }
    }
  }

  /** Over segments sorted by start, the fusion covers exactly the instants the segments cover. */
  lemma CoalesceCovers(s: seq<(int, int)>)
    requires SortedBy(s, StartOf)
    ensures forall t :: Covers(Coalesce(s), t) <==> Covers(s, t)
  {
    forall t ensures Covers(Coalesce(s), t) <==> Covers(s, t) {
      CoalesceCoversAt(s, t);
    }
  }

  lemma {:induction false} CoalesceCoversAt(s: seq<(int, int)>, t: int)
    requires SortedBy(s, StartOf)
    ensures Covers(Coalesce(s), t) <==> Covers(s, t)
  {
    if s != [] {
      var init, x := s[..|s| - 1], s[|s| - 1];
      CoalesceStep(s);
      CoalesceCoversAt(init, t);
      ExtendCoversAt(Coalesce(init), x, t);
      assert s == init + [x];
      CoversSnocAt(init, x, t);
    }
  }

  /** One step of the fusion over segments sorted by start: the prefix stays sorted and the last segment starts no earlier than the last fused one. */
  lemma CoalesceStep(s: seq<(int, int)>)
    requires s != [] && SortedBy(s, StartOf)
    ensures SortedBy(s[..|s| - 1], StartOf)
    ensures Coalesce(s) == Extend(Coalesce(s[..|s| - 1]), s[|s| - 1])
    ensures var m := Coalesce(s[..|s| - 1]); m != [] ==> m[|m| - 1].0 <= s[|s| - 1].0
  {
    var init := s[..|s| - 1];
    assert SortedBy(init, StartOf);
    if init != [] {
      CoalesceLast(init);
      assert StartOf(s[|s| - 2]) <= StartOf(s[|s| - 1]);
    }
  }

  /** Extending by a segment that starts no earlier than the last one adds exactly its instants. */
  lemma ExtendCoversAt(m: seq<(int, int)>, x: (int, int), t: int)
    requires m != [] ==> m[|m| - 1].0 <= x.0
    ensures Covers(Extend(m, x), t) <==> Covers(m, t) || x.0 <= t < x.1
  {
    if m != [] && x.0 <= m[|m| - 1].1 {
      var init, last := m[..|m| - 1], m[|m| - 1];
      var f := (last.0, Max(last.1, x.1));
      assert m == init + [last];
      CoversSnocAt(init, f, t);
      CoversSnocAt(init, last, t);
    } else {
      CoversSnocAt(m, x, t);
    }
  }

  lemma CoversSnocAt(s: seq<(int, int)>, x: (int, int), t: int)
    ensures Covers(s + [x], t) <==> Covers(s, t) || x.0 <= t < x.1
  {
    assert forall p :: p in s + [x] <==> p in s || p == x;
  }

  /** Fusing `x` into the last segment `(a, b)` when `a <= x.0 <= b`. */
  lemma FuseLast(m: seq<(int, int)>, x: (int, int))
    requires m != [] && m[|m| - 1].0 <= x.0 <= m[|m| - 1].1
    requires SortedBy(m, StartOf) && Separated(m)
    ensures var r := m[..|m| - 1] + [(m[|m| - 1].0, Max(m[|m| - 1].1, x.1))];
      && SortedBy(r, StartOf) && Separated(r)
      && forall t :: Covers(r, t) <==> Covers(m, t) || x.0 <= t < x.1
  {
    var init, last := m[..|m| - 1], m[|m| - 1];
    var f := (last.0, Max(last.1, x.1));
    var r := init + [f];
    assert m == init + [last];
    assert forall k :: 0 <= k < |init| ==> r[k] == m[k];
    CoversSnoc(init, f);
    CoversSnoc(init, last);
  }

  lemma CoversSnoc(s: seq<(int, int)>, x: (int, int))
    ensures forall t :: Covers(s + [x], t) <==> Covers(s, t) || x.0 <= t < x.1
  {
    assert forall p :: p in s + [x] <==> p in s || p == x;
  }

  /** Appending `x` after the last segment when it starts past that segment's end. */
  lemma AppendLast(m: seq<(int, int)>, x: (int, int))
    requires m != [] ==> m[|m| - 1].1 < x.0 && m[|m| - 1].0 <= x.0
    requires SortedBy(m, StartOf) && Separated(m)
    ensures SortedBy(m + [x], StartOf) && Separated(m + [x])
    ensures forall t :: Covers(m + [x], t) <==> Covers(m, t) || x.0 <= t < x.1
  {
    var r := m + [x];
    assert forall k :: 0 <= k < |m| ==> r[k] == m[k];
    CoversSnoc(m, x);
    if m != [] {
      assert forall k :: 0 <= k < |m| ==> StartOf(m[k]) <= StartOf(m[|m| - 1]);
    }
  }

  /**
   * The export's fusion of any list of segments: empty exactly for the empty
   * list, sorted by start, separated by gaps, and covering exactly the
   * instants the segments cover.
   */
  lemma MergeSegmentsProps(segments: seq<(int, int)>)
    ensures var m := Coalesce(SortBy(segments, StartOf));
      && (m == [] <==> segments == [])
      && SortedBy(m, StartOf) && Separated(m)
      && forall t :: Covers(m, t) <==> Covers(segments, t)
  {
    var sorted := SortBy(segments, StartOf);
    SortBySorted(segments, StartOf);
    SortByMultiset(segments, StartOf);
    CoalesceProps(sorted);
    assert sorted == [] <==> segments == [] by {
      assert |multiset(sorted)| == |multiset(segments)|;
    }
    forall t
      ensures Covers(sorted, t) <==> Covers(segments, t)
    {
      assert forall p :: p in sorted <==> p in multiset(sorted);
      assert forall p :: p in segments <==> p in multiset(segments);
    }
  }

  // ---------------------------------------------------------------------------
  // Grid columns.

  /**
   * The first and last grid column a segment paints: time unit `t` is
   * column `2 + t`, and a segment that does not move forward paints nothing.
   */
  function Columns(seg: (int, int)): Option<(int, int)>
  {
    if seg.1 <= seg.0 then None else Some((2 + seg.0, 2 + seg.1 - 1))
  }

  /** Column `c` lies within the painted range of `seg` exactly when `seg` covers time unit `c - 2`. */
  lemma ColumnsCover(seg: (int, int), c: int)
    ensures Columns(seg).Some? <==> seg.0 < seg.1
    ensures Columns(seg).Some? ==> Columns(seg).value.1 - Columns(seg).value.0 + 1 == seg.1 - seg.0
    ensures (Columns(seg).Some? && Columns(seg).value.0 <= c <= Columns(seg).value.1) <==> seg.0 <= c - 2 < seg.1
  {
  }

  /** Column `c` of a row is painted by one of the segments. */
  predicate Painted(segs: seq<(int, int)>, c: int)
  {
    exists p :: p in segs && Columns(p).Some? && Columns(p).value.0 <= c <= Columns(p).value.1
  }

  lemma PaintedCovers(segs: seq<(int, int)>, c: int)
    ensures Painted(segs, c) <==> Covers(segs, c - 2)
  {
    if Covers(segs, c - 2) {
      var p :| p in segs && p.0 <= c - 2 < p.1;
      ColumnsCover(p, c);
    }
    if Painted(segs, c) {
      var p :| p in segs && Columns(p).Some? && Columns(p).value.0 <= c <= Columns(p).value.1;
      ColumnsCover(p, c);
    }
  }

  /** Some slice of the timeline that the pass keeps under `key` covers instant `t`. */
  predicate SliceCovers(tl: seq<ExecSlice>, io: bool, key: string, t: int)
  {
    exists k :: 0 <= k < |tl| && Picked(tl[k], io) && KeyOf(tl[k], io) == key && tl[k].start <= t < tl[k].end
  }

  lemma {:induction false} FilterCovers(tl: seq<ExecSlice>, io: bool, key: string, t: int)
    ensures Covers(Filter(tl, io, key), t) <==> SliceCovers(tl, io, key, t)
  {
    if tl != [] {
      var init := tl[..|tl| - 1];
      FilterCovers(init, io, key, t);
      assert forall k :: 0 <= k < |init| ==> tl[k] == init[k];
      if SliceCovers(tl, io, key, t) && !SliceCovers(init, io, key, t) {
        var k :| 0 <= k < |tl| && Picked(tl[k], io) && KeyOf(tl[k], io) == key && tl[k].start <= t < tl[k].end;
        assert k == |tl| - 1;
      }
    }
  }

  /**
   * The CPU row of `pid` in the grid: after filing, sorting and fusing its
   * segments, column `c` is painted exactly when a CPU slice labelled `pid`
   * covers time unit `c - 2`.
   */
  lemma CpuRowPainted(timeline: seq<ExecSlice>, pid: string, c: int)
    ensures var g := Group(timeline, false);
      var segs := if pid in g then SortPairs(g[pid]) else [];
      Painted(Coalesce(SortBy(segs, StartOf)), c) <==> SliceCovers(timeline, false, pid, c - 2)
  {
    var g := Group(timeline, false);
    var segs := if pid in g then SortPairs(g[pid]) else [];
    GroupIsFilter(timeline, false, pid);
    FilterCovers(timeline, false, pid, c - 2);
    MergeSegmentsProps(segs);
    PaintedCovers(Coalesce(SortBy(segs, StartOf)), c);
    if pid in g {
      SortPairsProps(g[pid]);
      assert forall p :: p in segs <==> p in multiset(segs);
      assert forall p :: p in g[pid] <==> p in multiset(g[pid]);
    }
  }

  /**
   * The I/O rows the grid paints: the I/O intervals by base name when a
   * non-empty process list was passed, and none otherwise.
   */
  function IoRows(timeline: seq<ExecSlice>, hasProcesses: bool): map<string, seq<(int, int)>>
  {
    if hasProcesses then Group(timeline, true) else map[]
  }

  /**
   * The I/O row of `pid`: column `c` is painted exactly when a non-empty
   * process list was passed and an I/O slice whose base name is `pid`
   * covers time unit `c - 2`.
   */
  lemma IoRowPainted(timeline: seq<ExecSlice>, hasProcesses: bool, pid: string, c: int)
    ensures var io := IoRows(timeline, hasProcesses);
      (pid in io && Painted(io[pid], c)) <==> hasProcesses && SliceCovers(timeline, true, pid, c - 2)
  {
    GroupIsFilter(timeline, true, pid);
    FilterCovers(timeline, true, pid, c - 2);
    if pid in Group(timeline, true) {
      PaintedCovers(Group(timeline, true)[pid], c);
    }
  }
}
