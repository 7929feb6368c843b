/**
 * The readiness ledger shared by the engines: the blocked table (a list of
 * (process, unblock instant) entries in insertion order, as a dictionary keeps
 * them), a stable sort, the release of due unblocks and the search for the
 * next future event.
 */
module Ledger {
  import opened Models

  /** Process `proc` (an index into the input list) is parked until `until`. */
  datatype Block = Block(proc: nat, until: int)

  predicate NoDup<T(==)>(s: seq<T>)
  {
    forall a, b :: 0 <= a < b < |s| ==> s[a] != s[b]
  }

  function Procs(b: seq<Block>): (ps: seq<nat>)
    ensures |ps| == |b|
    ensures forall k :: 0 <= k < |b| ==> ps[k] == b[k].proc
  {
    if b == [] then [] else Procs(b[..|b| - 1]) + [b[|b| - 1].proc]
  }

  function Untils(b: seq<Block>): (us: seq<int>)
    ensures |us| == |b|
    ensures forall k :: 0 <= k < |b| ==> us[k] == b[k].until
  {
    if b == [] then [] else Untils(b[..|b| - 1]) + [b[|b| - 1].until]
  }

  /** The unblock instant recorded for `p` (0 when `p` is not blocked). */
  function UntilOf(b: seq<Block>, p: nat): int
  {
    if b == [] then 0 else if b[0].proc == p then b[0].until else UntilOf(b[1..], p)
  }

  lemma {:induction false} UntilOfAt(b: seq<Block>, k: nat)
    requires NoDup(Procs(b)) && k < |b|
    ensures UntilOf(b, b[k].proc) == b[k].until
  {
    if k > 0 {
      assert Procs(b)[0] != Procs(b)[k];
      assert NoDup(Procs(b[1..])) by {
        forall x, y | 0 <= x < y < |b| - 1 ensures Procs(b[1..])[x] != Procs(b[1..])[y] {
          assert Procs(b)[x + 1] != Procs(b)[y + 1];
        }
      }
      UntilOfAt(b[1..], k - 1);
    }
  }

  /** The table without the entry of `p`. */
  function Without(b: seq<Block>, p: nat): seq<Block>
  {
    if b == [] then [] else (if b[0].proc == p then [] else [b[0]]) + Without(b[1..], p)
  }

  /** The entries still waiting after instant `t`, in table order. */
  function Pending(b: seq<Block>, t: int): seq<Block>
  {
    if b == [] then [] else (if b[0].until > t then [b[0]] else []) + Pending(b[1..], t)
  }

  /** The entries whose process is not in `gone`, in table order. */
  function Drop(b: seq<Block>, gone: seq<nat>): seq<Block>
  {
    if b == [] then [] else (if b[0].proc in gone then [] else [b[0]]) + Drop(b[1..], gone)
  }

  lemma {:induction false} DropNothing(b: seq<Block>)
    ensures Drop(b, []) == b
  {
    if b != [] {
      DropNothing(b[1..]);
      assert b == [b[0]] + b[1..];
    }
  }

  lemma {:induction false} DropWithout(b: seq<Block>, gone: seq<nat>, p: nat)
    ensures Without(Drop(b, gone), p) == Drop(b, gone + [p])
  {
    if b != [] {
      DropWithout(b[1..], gone, p);
      var d := Drop(b, gone);
      if b[0].proc in gone {
        assert d == Drop(b[1..], gone);
      } else {
        assert d == [b[0]] + Drop(b[1..], gone);
        assert d[0] == b[0] && d[1..] == Drop(b[1..], gone);
        if b[0].proc == p {
          assert Without(d, p) == Without(d[1..], p);
        } else {
          assert Without(d, p) == [b[0]] + Without(d[1..], p);
        }
      }
    }
  }

  lemma {:induction false} DropIsPending(b: seq<Block>, gone: seq<nat>, t: int)
    requires forall k :: 0 <= k < |b| ==> (b[k].proc in gone <==> b[k].until <= t)
    ensures Drop(b, gone) == Pending(b, t)
  {
    if b != [] {
      assert forall k :: 0 <= k < |b| - 1 ==> b[1..][k] == b[k + 1];
      DropIsPending(b[1..], gone, t);
    }
  }

  // ---------------------------------------------------------------------------
  // Stable insertion sort by an integer key (Python's `sorted(..., key=...)`).

  function InsertBy<T>(x: T, s: seq<T>, key: T -> int): seq<T>
  {
    if s == [] then [x]
    else if key(s[0]) <= key(x) then [s[0]] + InsertBy(x, s[1..], key)
    else [x] + s
  }

  function SortBy<T>(s: seq<T>, key: T -> int): seq<T>
  {
    if s == [] then [] else InsertBy(s[|s| - 1], SortBy(s[..|s| - 1], key), key)
  }

  predicate SortedBy<T>(s: seq<T>, key: T -> int)
  {
    forall a, b :: 0 <= a < b < |s| ==> key(s[a]) <= key(s[b])
  }

  /** The elements of `s` whose key is `v`, in their order in `s`. */
  function WithKey<T>(s: seq<T>, key: T -> int, v: int): seq<T>
  {
    if s == [] then [] else WithKey(s[..|s| - 1], key, v) + (if key(s[|s| - 1]) == v then [s[|s| - 1]] else [])
  }

  lemma {:induction false} WithKeyFront<T>(x: T, s: seq<T>, key: T -> int, v: int)
    ensures WithKey([x] + s, key, v) == (if key(x) == v then [x] else []) + WithKey(s, key, v)
  {
    if s != [] {
      assert ([x] + s)[..|s|] == [x] + s[..|s| - 1];
      WithKeyFront(x, s[..|s| - 1], key, v);
    } else {
      assert [x] + s == [x];
      assert [x][..0] == [];
    }
  }

  lemma {:induction false} InsertByMultiset<T>(x: T, s: seq<T>, key: T -> int)
    ensures multiset(InsertBy(x, s, key)) == multiset(s) + multiset{x}
  {
    if s != [] && key(s[0]) <= key(x) {
      InsertByMultiset(x, s[1..], key);
      assert s == [s[0]] + s[1..];
    }
  }

  lemma InsertByMember<T>(x: T, s: seq<T>, key: T -> int, y: T)
    requires y in InsertBy(x, s, key)
    ensures y == x || y in s
  {
    InsertByMultiset(x, s, key);
    assert y in multiset(InsertBy(x, s, key));
  }

  lemma {:induction false} InsertBySorted<T>(x: T, s: seq<T>, key: T -> int)
    requires SortedBy(s, key)
    ensures SortedBy(InsertBy(x, s, key), key)
  {
    var r := InsertBy(x, s, key);
    if s == [] {
    } else if key(s[0]) <= key(x) {
      var r' := InsertBy(x, s[1..], key);
      InsertBySorted(x, s[1..], key);
      assert r == [s[0]] + r';
      forall a, b | 0 <= a < b < |r| ensures key(r[a]) <= key(r[b]) {
        if a == 0 {
          assert r[b] == r'[b - 1];
          InsertByMember(x, s[1..], key, r[b]);
          if r[b] != x {
            var j :| 0 <= j < |s| - 1 && s[1..][j] == r[b];
            assert s[j + 1] == r[b];
          }
        } else {
          assert r[a] == r'[a - 1] && r[b] == r'[b - 1];
        }
      }
    } else {
      assert r == [x] + s;
      forall a, b | 0 <= a < b < |r| ensures key(r[a]) <= key(r[b]) {
        if a == 0 {
          assert r[b] == s[b - 1];
          assert key(s[0]) <= key(s[b - 1]) || b - 1 == 0;
        } else {
          assert r[a] == s[a - 1] && r[b] == s[b - 1];
        }
      }
    }
  }

  lemma SortedTail<T>(s: seq<T>, key: T -> int)
    requires SortedBy(s, key) && s != []
    ensures SortedBy(s[1..], key)
  {
    forall a, b | 0 <= a < b < |s| - 1 ensures key(s[1..][a]) <= key(s[1..][b]) {
      assert s[1..][a] == s[a + 1] && s[1..][b] == s[b + 1];
    }
  }

  lemma {:induction false} InsertByWithKey<T>(x: T, s: seq<T>, key: T -> int, v: int)
    requires SortedBy(s, key)
    ensures WithKey(InsertBy(x, s, key), key, v) == WithKey(s, key, v) + (if key(x) == v then [x] else [])
  {
    if s == [] {
      assert InsertBy(x, s, key) == [x];
      assert [x][..0] == [];
    } else if key(s[0]) <= key(x) {
      SortedTail(s, key);
      InsertByWithKey(x, s[1..], key, v);
      PassWithKey(x, s, key, v);
    } else {
      AheadWithKey(x, s, key, v);
    }
  }

  /** Inserting behind the head: the head's entry, then what inserting into the rest gives. */
  lemma PassWithKey<T>(x: T, s: seq<T>, key: T -> int, v: int)
    requires s != [] && key(s[0]) <= key(x)
    requires WithKey(InsertBy(x, s[1..], key), key, v) == WithKey(s[1..], key, v) + (if key(x) == v then [x] else [])
    ensures WithKey(InsertBy(x, s, key), key, v) == WithKey(s, key, v) + (if key(x) == v then [x] else [])
  {
    var tail := if key(x) == v then [x] else [];
    var head := if key(s[0]) == v then [s[0]] else [];
    var r' := InsertBy(x, s[1..], key);
    assert InsertBy(x, s, key) == [s[0]] + r';
    calc {
      WithKey([s[0]] + r', key, v);
      == { WithKeyFront(s[0], r', key, v); }
      head + WithKey(r', key, v);
      ==
      head + (WithKey(s[1..], key, v) + tail);
      ==
      (head + WithKey(s[1..], key, v)) + tail;
      == { WithKeyFront(s[0], s[1..], key, v); }
      WithKey([s[0]] + s[1..], key, v) + tail;
      == { assert [s[0]] + s[1..] == s; }
      WithKey(s, key, v) + tail;
    }
  }

  /** Inserting ahead of a sorted list whose keys are all larger: no entry with the new key is passed. */
  lemma AheadWithKey<T>(x: T, s: seq<T>, key: T -> int, v: int)
    requires SortedBy(s, key) && s != [] && key(x) < key(s[0])
    ensures WithKey(InsertBy(x, s, key), key, v) == WithKey(s, key, v) + (if key(x) == v then [x] else [])
  {
    assert InsertBy(x, s, key) == [x] + s;
    WithKeyFront(x, s, key, v);
    if key(x) == v {
      forall k | 0 <= k < |s| ensures key(s[k]) != v {
        assert key(s[0]) <= key(s[k]) || k == 0;
      }
      WithKeyNone(s, key, v);
    }
  }

  lemma {:induction false} InsertByNoDup<T>(x: T, s: seq<T>, key: T -> int)
    requires NoDup(s) && x !in s
    ensures NoDup(InsertBy(x, s, key))
  {
    var r := InsertBy(x, s, key);
    if s != [] && key(s[0]) <= key(x) {
      var r' := InsertBy(x, s[1..], key);
      assert r == [s[0]] + r';
      InsertByNoDup(x, s[1..], key);
      forall a, b | 0 <= a < b < |r| ensures r[a] != r[b] {
        if a == 0 {
          assert r[b] == r'[b - 1];
          InsertByMember(x, s[1..], key, r[b]);
          if r[b] != x {
            var j :| 0 <= j < |s| - 1 && s[1..][j] == r[b];
            assert s[j + 1] == r[b];
          }
        } else {
          assert r[a] == r'[a - 1] && r[b] == r'[b - 1];
        }
      }
    } else if s != [] {
      assert r == [x] + s;
      forall a, b | 0 <= a < b < |r| ensures r[a] != r[b] {
        if a == 0 {
          assert r[b] == s[b - 1];
        } else {
          assert r[a] == s[a - 1] && r[b] == s[b - 1];
        }
      }
    }
  }

  lemma {:induction false} WithKeyNone<T>(s: seq<T>, key: T -> int, v: int)
    requires forall k :: 0 <= k < |s| ==> key(s[k]) != v
    ensures WithKey(s, key, v) == []
  {
    if s != [] {
      WithKeyNone(s[..|s| - 1], key, v);
    }
  }

  lemma {:induction false} SortByMultiset<T>(s: seq<T>, key: T -> int)
    ensures multiset(SortBy(s, key)) == multiset(s)
  {
    if s != [] {
      var init, last := s[..|s| - 1], s[|s| - 1];
      assert s == init + [last];
      assert multiset(s) == multiset(init) + multiset{last};
      SortByMultiset(init, key);
      InsertByMultiset(last, SortBy(init, key), key);
    }
  }

  lemma {:induction false} SortBySorted<T>(s: seq<T>, key: T -> int)
    ensures SortedBy(SortBy(s, key), key)
  {
    if s != [] {
      SortBySorted(s[..|s| - 1], key);
      InsertBySorted(s[|s| - 1], SortBy(s[..|s| - 1], key), key);
    }
  }

  lemma {:induction false} SortByWithKey<T>(s: seq<T>, key: T -> int, v: int)
    ensures WithKey(SortBy(s, key), key, v) == WithKey(s, key, v)
  {
    if s != [] {
      SortByWithKey(s[..|s| - 1], key, v);
      SortBySorted(s[..|s| - 1], key);
      InsertByWithKey(s[|s| - 1], SortBy(s[..|s| - 1], key), key, v);
    }
  }

  lemma {:induction false} SortByNoDup<T>(s: seq<T>, key: T -> int)
    requires NoDup(s)
    ensures NoDup(SortBy(s, key))
  {
    if s != [] {
      var init, last := s[..|s| - 1], s[|s| - 1];
      assert NoDup(init) by {
        forall a, b | 0 <= a < b < |init| ensures init[a] != init[b] {
          assert init[a] == s[a] && init[b] == s[b];
        }
      }
      SortByNoDup(init, key);
      SortByMultiset(init, key);
      assert last !in init;
      assert last !in multiset(SortBy(init, key));
      InsertByNoDup(last, SortBy(init, key), key);
    }
  }

  /**
   * The sort returns a permutation of its input, ordered by key, and keeps
   * elements with equal keys in their input order (it is stable).
   */
  lemma SortByProps<T>(s: seq<T>, key: T -> int)
    ensures multiset(SortBy(s, key)) == multiset(s)
    ensures SortedBy(SortBy(s, key), key)
    ensures forall v :: WithKey(SortBy(s, key), key, v) == WithKey(s, key, v)
    ensures NoDup(s) ==> NoDup(SortBy(s, key))
  {
    SortByMultiset(s, key);
    SortBySorted(s, key);
    forall v ensures WithKey(SortBy(s, key), key, v) == WithKey(s, key, v) {
      SortByWithKey(s, key, v);
    }
    if NoDup(s) {
      SortByNoDup(s, key);
    }
  }

  // ---------------------------------------------------------------------------
  // Releasing unblocks.

  /** The key of the unblock sort: each blocked process's unblock instant. */
  function UntilKey(b: seq<Block>): nat -> int
  {
    (p: nat) => UntilOf(b, p)
  }

  /** The blocked processes in the order the engines visit them: by unblock instant, ties in table order. */
  function UnblockOrder(b: seq<Block>): seq<nat>
  {
    SortBy(Procs(b), UntilKey(b))
  }

  /** The processes of `order` whose unblock instant in `b` is at or before `t`, in that order. */
  function DueIn(order: seq<nat>, b: seq<Block>, t: int): seq<nat>
  {
    if order == [] then []
    else DueIn(order[..|order| - 1], b, t) + (if UntilOf(b, order[|order| - 1]) <= t then [order[|order| - 1]] else [])
  }

  lemma {:induction false} DueInMembers(order: seq<nat>, b: seq<Block>, t: int)
    ensures forall p :: p in DueIn(order, b, t) <==> p in order && UntilOf(b, p) <= t
    ensures NoDup(order) ==> NoDup(DueIn(order, b, t))
  {
    if order != [] {
      var init := order[..|order| - 1];
      DueInMembers(init, b, t);
      assert order == init + [order[|order| - 1]];
      if NoDup(order) {
        assert order[|order| - 1] !in init;
      }
    }
  }

  /** The elements of `xs` that are not in `s`, in order. */
  function Outside(xs: seq<nat>, s: set<nat>): seq<nat>
  {
    if xs == [] then []
    else Outside(xs[..|xs| - 1], s) + (if xs[|xs| - 1] !in s then [xs[|xs| - 1]] else [])
  }

  lemma {:induction false} OutsideMembers(xs: seq<nat>, s: set<nat>)
    ensures forall x :: x in Outside(xs, s) <==> x in xs && x !in s
    ensures NoDup(xs) ==> NoDup(Outside(xs, s))
  {
    if xs != [] {
      var init := xs[..|xs| - 1];
      OutsideMembers(init, s);
      assert xs == init + [xs[|xs| - 1]];
      if NoDup(xs) {
        assert xs[|xs| - 1] !in init;
      }
    }
  }

  lemma OutsideSnoc(xs: seq<nat>, s: set<nat>, x: nat)
    ensures Outside(xs + [x], s) == Outside(xs, s) + (if x !in s then [x] else [])
  {
    assert (xs + [x])[..|xs|] == xs;
  }

  /**
   * Release every blocked process whose unblock instant is at or before `t`,
   * visiting them by unblock instant (ties in table order), and append each to
   * the ready queue unless it is already there or done.
   */
  method ReleaseDue(ready: seq<nat>, blocked: seq<Block>, done: set<nat>, t: int)
    returns (ready': seq<nat>, blocked': seq<Block>)
    requires NoDup(Procs(blocked))
    requires forall k :: 0 <= k < |blocked| ==> blocked[k].proc !in ready
    ensures blocked' == Pending(blocked, t)
    ensures ready' == ready + Outside(DueIn(UnblockOrder(blocked), blocked, t), done)
  {
    SortByMultiset(Procs(blocked), UntilKey(blocked));
    SortByNoDup(Procs(blocked), UntilKey(blocked));
    ready', blocked' := ReleaseIn(ready, blocked, done, t, UnblockOrder(blocked));
  }

  /**
   * Release every blocked process whose unblock instant is at or before `t`,
   * visiting the blocked processes in `order`, and append each to the ready
   * queue unless it is already there or in `done`.
   */
  method ReleaseIn(ready: seq<nat>, blocked: seq<Block>, done: set<nat>, t: int, order: seq<nat>)
    returns (ready': seq<nat>, blocked': seq<Block>)
    requires NoDup(Procs(blocked)) && NoDup(order) && multiset(order) == multiset(Procs(blocked))
    requires forall k :: 0 <= k < |blocked| ==> blocked[k].proc !in ready
    ensures blocked' == Pending(blocked, t)
    ensures ready' == ready + Outside(DueIn(order, blocked, t), done)
  {
    ready', blocked' := ready, blocked;
    DropNothing(blocked);
    ghost var due: seq<nat> := [];
    for k := 0 to |order|
      invariant due == DueIn(order[..k], blocked, t)
      invariant blocked' == Drop(blocked, due)
      invariant ready' == ready + Outside(due, done)
    {
      var p := order[k];
      ReleaseAdvance(ready, blocked, done, t, order, k, due, p);
      if UntilOf(blocked', p) <= t {
        blocked' := Without(blocked', p);
        if p !in done && p !in ready' {
          assert ready + Outside(due + [p], done) == (ready + Outside(due, done)) + [p];
          ready' := ready' + [p];
        } else {
          assert Outside(due + [p], done) == Outside(due, done);
        }
        due := due + [p];
      }
    }
    assert order[..|order|] == order;
    ReleaseEnd(blocked, t, order);
  }

  /** One visit of the release loop: process `p`, the `k`-th of the order, is due or stays. */
  lemma ReleaseAdvance(ready: seq<nat>, blocked: seq<Block>, done: set<nat>, t: int, order: seq<nat>, k: nat,
                       due: seq<nat>, p: nat)
    requires NoDup(Procs(blocked)) && forall k :: 0 <= k < |blocked| ==> blocked[k].proc !in ready
    requires NoDup(order) && multiset(order) == multiset(Procs(blocked)) && k < |order| && p == order[k]
    requires due == DueIn(order[..k], blocked, t)
    ensures UntilOf(Drop(blocked, due), p) == UntilOf(blocked, p)
    ensures UntilOf(blocked, p) <= t ==>
      && DueIn(order[..k + 1], blocked, t) == due + [p]
      && Without(Drop(blocked, due), p) == Drop(blocked, due + [p])
      && p !in ready + Outside(due, done)
      && Outside(due + [p], done) == Outside(due, done) + (if p !in done then [p] else [])
    ensures UntilOf(blocked, p) > t ==> DueIn(order[..k + 1], blocked, t) == due
  {
    ReleaseKeepsUntil(blocked, order, k, t);
    ReleaseStep(order, k, blocked, t);
    if UntilOf(blocked, p) <= t {
      ReleaseDueStep(ready, blocked, done, t, order, k);
    }
    OutsideSnoc(due, done, p);
  }

  lemma ReleaseKeepsUntil(blocked: seq<Block>, order: seq<nat>, k: nat, t: int)
    requires NoDup(order) && k < |order|
    ensures UntilOf(Drop(blocked, DueIn(order[..k], blocked, t)), order[k]) == UntilOf(blocked, order[k])
  {
    ReleaseStep(order, k, blocked, t);
    DueInMembers(order[..k], blocked, t);
    DropUntil(blocked, DueIn(order[..k], blocked, t), order[k]);
  }

  lemma ReleaseDueStep(ready: seq<nat>, blocked: seq<Block>, done: set<nat>, t: int, order: seq<nat>, k: nat)
    requires forall k :: 0 <= k < |blocked| ==> blocked[k].proc !in ready
    requires NoDup(order) && multiset(order) == multiset(Procs(blocked)) && k < |order|
    requires UntilOf(blocked, order[k]) <= t
    ensures Without(Drop(blocked, DueIn(order[..k], blocked, t)), order[k])
            == Drop(blocked, DueIn(order[..k + 1], blocked, t))
    ensures order[k] !in ready + Outside(DueIn(order[..k], blocked, t), done)
    ensures DueIn(order[..k + 1], blocked, t) == DueIn(order[..k], blocked, t) + [order[k]]
  {
    var p := order[k];
    ReleaseStep(order, k, blocked, t);
    assert p in Procs(blocked) by {
      assert p in multiset(order);
    }
    var i :| 0 <= i < |blocked| && blocked[i].proc == p;
    DueInMembers(order[..k], blocked, t);
    OutsideMembers(DueIn(order[..k], blocked, t), done);
    DropWithout(blocked, DueIn(order[..k], blocked, t), p);
  }

  lemma ReleaseEnd(blocked: seq<Block>, t: int, order: seq<nat>)
    requires NoDup(Procs(blocked)) && multiset(order) == multiset(Procs(blocked))
    ensures Drop(blocked, DueIn(order, blocked, t)) == Pending(blocked, t)
  {
    DueInMembers(order, blocked, t);
    forall k | 0 <= k < |blocked| ensures (blocked[k].proc in DueIn(order, blocked, t) <==> blocked[k].until <= t) {
      UntilOfAt(blocked, k);
      assert blocked[k].proc in multiset(Procs(blocked)) by {
        assert Procs(blocked)[k] == blocked[k].proc;
      }
    }
    DropIsPending(blocked, DueIn(order, blocked, t), t);
  }

  lemma ReleaseStep(order: seq<nat>, k: nat, b: seq<Block>, t: int)
    requires NoDup(order) && k < |order|
    ensures order[..k + 1] == order[..k] + [order[k]]
    ensures order[k] !in order[..k]
    ensures UntilOf(b, order[k]) <= t ==> DueIn(order[..k + 1], b, t) == DueIn(order[..k], b, t) + [order[k]]
    ensures UntilOf(b, order[k]) > t ==> DueIn(order[..k + 1], b, t) == DueIn(order[..k], b, t)
  {
    assert order[..k + 1][..k] == order[..k];
  }

  lemma {:induction false} DropUntil(b: seq<Block>, gone: seq<nat>, p: nat)
    requires p !in gone
    ensures UntilOf(Drop(b, gone), p) == UntilOf(b, p)
  {
    if b != [] {
      DropUntil(b[1..], gone, p);
      var d := Drop(b, gone);
      if b[0].proc in gone {
        assert d == Drop(b[1..], gone);
      } else {
        assert d == [b[0]] + Drop(b[1..], gone);
        assert d[0] == b[0] && d[1..] == Drop(b[1..], gone);
      }
    }
  }

  // ---------------------------------------------------------------------------
  // Future events.

  /** The earliest instant strictly after `t`, if any. */
  function MinAfter(xs: seq<int>, t: int): (m: Option<int>)
    ensures m.Some? ==> m.value > t && m.value in xs
    ensures m.Some? ==> forall k :: 0 <= k < |xs| && xs[k] > t ==> m.value <= xs[k]
    ensures m.None? ==> forall k :: 0 <= k < |xs| ==> xs[k] <= t
  {
    if xs == [] then None
    else
      var m := MinAfter(xs[..|xs| - 1], t);
      var x := xs[|xs| - 1];
      if x <= t then m
      else if m.None? || x < m.value then Some(x)
      else m
  }
}
