/**
 * The pattern-text parser of the process table: a line such as
 * "2, 1, 3, (2), 4, 5" becomes a plan of CPU and BLOCK segments, bare
 * numbers adding up into one CPU burst and parenthesised numbers standing
 * for I/O waits. The burst handed to the engines is derived from that plan.
 */
module Parser {
  import opened Models
  import opened Progress

  predicate IsDigit(c: char)
  {
    '0' <= c <= '9'
  }

  function DigitValue(c: char): nat
    requires IsDigit(c)
  {
    (c as int) - ('0' as int)
  }

  /** The decimal value of a run of digits. */
  function Decimal(ds: seq<char>): nat
    requires forall k :: 0 <= k < |ds| ==> IsDigit(ds[k])
  {
    if ds == [] then 0 else Decimal(ds[..|ds| - 1]) * 10 + DigitValue(ds[|ds| - 1])
  }

  /** The length of the run of digits at the front of `s`. */
  function DigitRun(s: seq<char>): (n: nat)
    ensures n <= |s|
    ensures forall k :: 0 <= k < n ==> IsDigit(s[k])
    ensures n < |s| ==> !IsDigit(s[n])
  {
    if s != [] && IsDigit(s[0]) then 1 + DigitRun(s[1..]) else 0
  }

  /**
   * One match of the token expression: an optional opening parenthesis, a
   * maximal run of digits (kept as its value), an optional closing one.
   */
  datatype Token = Token(open: bool, value: nat, close: bool)

  /** A token with exactly one parenthesis, which the integer conversion rejects. */
  predicate Malformed(t: Token)
  {
    t.open != t.close
  }

  /**
   * The tokens of `s`, scanned left to right without overlap as the regular
   * expression `\(?\d+\)?` matches them; every other character is skipped.
   */
  function Scan(s: string): seq<Token>
    decreases |s|
  {
    if s == [] then []
    else if s[0] == '(' && |s| > 1 && IsDigit(s[1]) then
      var n := DigitRun(s[1..]);
      var close := 1 + n < |s| && s[1 + n] == ')';
      [Token(true, Decimal(s[1..1 + n]), close)] + Scan(s[1 + n + (if close then 1 else 0)..])
    else if IsDigit(s[0]) then
      var n := DigitRun(s);
      var close := n < |s| && s[n] == ')';
      [Token(false, Decimal(s[..n]), close)] + Scan(s[n + (if close then 1 else 0)..])
    else
      Scan(s[1..])
  }

  /** The plan built so far and the CPU time accumulated since its last entry. */
  datatype Acc = Acc(pattern: seq<Segment>, accum: nat)

  /** The accumulated CPU time, appended as one CPU segment when there is any. */
  function Flush(pattern: seq<Segment>, accum: nat): seq<Segment>
  {
    if accum > 0 then pattern + [Segment(CPU, accum)] else pattern
  }

  /** One token: a BLOCK flushes the CPU time and is appended; a bare number accumulates. */
  function Feed(a: Acc, t: Token): Option<Acc>
  {
    if t.open && t.close then Some(Acc(Flush(a.pattern, a.accum) + [Segment(BLOCK, t.value)], 0))
    else if Malformed(t) then None
    else Some(Acc(a.pattern, a.accum + t.value))
  }

  /** The tokens fed in order; `None` once a malformed token is met. */
  function Absorb(toks: seq<Token>): Option<Acc>
  {
    if toks == [] then Some(Acc([], 0))
    else match Absorb(toks[..|toks| - 1])
      case None => None
      case Some(a) => Feed(a, toks[|toks| - 1])
  }

  /** The parse of a pattern text, `None` when there is nothing to parse or a token is malformed. */
  function Parse(raw: string): Option<seq<Segment>>
  {
    if raw == [] then None
    else
      var toks := Scan(raw);
      if toks == [] then None
      else match Absorb(toks)
        case None => None
        case Some(a) => Some(Flush(a.pattern, a.accum))
  }

  /** The parser as the table runs it: one pass over the tokens with a CPU accumulator. */
  method ParsePattern(raw: string) returns (r: Option<seq<Segment>>)
    ensures r == Parse(raw)
  {
    if raw == [] {
      return None;
    }
    var tokens := Scan(raw);
    if tokens == [] {
      return None;
    }
    var pattern: seq<Segment> := [];
    var cpuAccum: nat := 0;
    for i := 0 to |tokens|
      invariant Absorb(tokens[..i]) == Some(Acc(pattern, cpuAccum))
    {
      var tok := tokens[i];
      assert tokens[..i + 1][..i] == tokens[..i];
      if tok.open && tok.close {
        if cpuAccum > 0 {
          pattern := pattern + [Segment(CPU, cpuAccum)];
          cpuAccum := 0;
        }
        pattern := pattern + [Segment(BLOCK, tok.value)];
      } else if tok.open || tok.close {
        AbsorbStuck(tokens, i + 1);
        return None;
      } else {
        cpuAccum := cpuAccum + tok.value;
      }
    }
    assert tokens[..|tokens|] == tokens;
    if cpuAccum > 0 {
      pattern := pattern + [Segment(CPU, cpuAccum)];
    }
    r := Some(pattern);
  }

  /** Once a prefix of the tokens fails, the whole sequence fails. */
  lemma {:induction false} AbsorbStuck(toks: seq<Token>, i: nat)
    requires i <= |toks| && Absorb(toks[..i]).None?
    ensures Absorb(toks).None?
    decreases |toks| - i
  {
    if i < |toks| {
      assert toks[..i + 1][..i] == toks[..i];
      AbsorbStuck(toks, i + 1);
    } else {
      assert toks[..i] == toks;
    }
  }

  // ---------------------------------------------------------------------------
  // When the parse fails.

  /** The fold fails exactly when some token is malformed. */
  lemma {:induction false} AbsorbFails(toks: seq<Token>)
    ensures Absorb(toks).None? <==> AnyMalformed(toks)
  {
    if toks != [] {
      AbsorbFails(toks[..|toks| - 1]);
      AnyMalformedSnoc(toks);
    }
  }

  /** Some token is malformed. */
  predicate AnyMalformed(toks: seq<Token>)
  {
    exists k :: 0 <= k < |toks| && Malformed(toks[k])
  }

  lemma AnyMalformedSnoc(toks: seq<Token>)
    requires toks != []
    ensures AnyMalformed(toks) <==> AnyMalformed(toks[..|toks| - 1]) || Malformed(toks[|toks| - 1])
  {
    var init := toks[..|toks| - 1];
    if AnyMalformed(init) {
      var k :| 0 <= k < |init| && Malformed(init[k]);
      assert toks[k] == init[k];
    }
    if AnyMalformed(toks) {
      var k :| 0 <= k < |toks| && Malformed(toks[k]);
      if k < |init| {
        assert toks[k] == init[k];
      }
    }
  }

  /** The scan finds no token exactly when the text holds no digit. */
  lemma {:induction false} ScanEmpty(s: string)
    ensures Scan(s) == [] <==> forall k :: 0 <= k < |s| ==> !IsDigit(s[k])
    decreases |s|
  {
    if s != [] {
      if s[0] == '(' && |s| > 1 && IsDigit(s[1]) {
      } else if IsDigit(s[0]) {
      } else {
        ScanEmpty(s[1..]);
        assert forall k :: 1 <= k < |s| ==> s[k] == s[1..][k - 1];
      }
    }
  }

  /**
   * The parse is `None` exactly when the text is empty, holds no digit, or
   * holds a token with a single parenthesis.
   */
  lemma ParseNone(raw: string)
    ensures Parse(raw).None? <==>
      || raw == []
      || (forall k :: 0 <= k < |raw| ==> !IsDigit(raw[k]))
      || exists k :: 0 <= k < |Scan(raw)| && Malformed(Scan(raw)[k])
  {
    ScanEmpty(raw);
    AbsorbFails(Scan(raw));
  }

  // ---------------------------------------------------------------------------
  // The shape of a parsed plan.

  /** No CPU entry is directly followed by another CPU entry. */
  predicate NoAdjacentCpu(p: seq<Segment>)
  {
    forall k :: 0 <= k < |p| - 1 ==> !(p[k].kind == CPU && p[k + 1].kind == CPU)
  }

  /** The plan built so far is valid, has no adjacent CPU entries and ends, if at all, in a BLOCK. */
  predicate AccOk(a: Acc)
  {
    && ValidPattern(a.pattern) && NoAdjacentCpu(a.pattern)
    && (a.pattern != [] ==> a.pattern[|a.pattern| - 1].kind == BLOCK)
  }

  lemma {:induction false} AbsorbShape(toks: seq<Token>, a: Acc)
    requires Absorb(toks) == Some(a)
    ensures AccOk(a)
  {
    if toks != [] {
      var b :| Absorb(toks[..|toks| - 1]) == Some(b);
      AbsorbShape(toks[..|toks| - 1], b);
    }
  }

  /**
   * A parsed plan never has two adjacent CPU entries, every CPU entry lasts
   * at least one unit, and no entry is negative.
   */
  lemma ParseShape(raw: string, p: seq<Segment>)
    requires Parse(raw) == Some(p)
    ensures ValidPattern(p) && NoAdjacentCpu(p)
  {
    var a :| Absorb(Scan(raw)) == Some(a);
    AbsorbShape(Scan(raw), a);
  }

  // ---------------------------------------------------------------------------
  // What a parsed plan holds.

  /** The sum of the bare numbers among the tokens. */
  function CpuSum(toks: seq<Token>): nat
  {
    if toks == [] then 0
    else CpuSum(toks[..|toks| - 1]) + (if !toks[|toks| - 1].open && !toks[|toks| - 1].close then toks[|toks| - 1].value else 0)
  }

  /** The values of the parenthesised tokens, in order. */
  function BlockValues(toks: seq<Token>): seq<nat>
  {
    if toks == [] then []
    else BlockValues(toks[..|toks| - 1]) + (if toks[|toks| - 1].open && toks[|toks| - 1].close then [toks[|toks| - 1].value] else [])
  }

  /** The durations of the BLOCK entries of a plan, in order. */
  function BlockDurations(p: seq<Segment>): seq<int>
  {
    if p == [] then []
    else BlockDurations(p[..|p| - 1]) + (if p[|p| - 1].kind == BLOCK then [p[|p| - 1].duration] else [])
  }

  lemma BlockDurationsSnoc(p: seq<Segment>, x: Segment)
    ensures BlockDurations(p + [x]) == BlockDurations(p) + (if x.kind == BLOCK then [x.duration] else [])
  {
    assert (p + [x])[..|p|] == p;
  }

  /** Seq of naturals seen as integers. */
  function AsInts(s: seq<nat>): (r: seq<int>)
    ensures |r| == |s| && forall k :: 0 <= k < |s| ==> r[k] == s[k]
  {
    seq(|s|, k requires 0 <= k < |s| => s[k] as int)
  }

  lemma {:induction false} AbsorbTotals(toks: seq<Token>, a: Acc)
    requires Absorb(toks) == Some(a)
    ensures CpuTotal(a.pattern) + a.accum == CpuSum(toks)
    ensures BlockDurations(a.pattern) == AsInts(BlockValues(toks))
  {
    if toks != [] {
      var init, t := toks[..|toks| - 1], toks[|toks| - 1];
      var b :| Absorb(init) == Some(b);
      AbsorbTotals(init, b);
      if t.open && t.close {
        var f := Flush(b.pattern, b.accum);
        if b.accum > 0 {
          CpuTotalSnoc(b.pattern, Segment(CPU, b.accum));
          BlockDurationsSnoc(b.pattern, Segment(CPU, b.accum));
        }
        CpuTotalSnoc(f, Segment(BLOCK, t.value));
        BlockDurationsSnoc(f, Segment(BLOCK, t.value));
      }
    }
  }

  /**
   * A parsed plan holds, as CPU time, exactly the sum of the bare numbers,
   * and as BLOCK entries exactly the parenthesised numbers in their order.
   */
  lemma ParseTotals(raw: string, p: seq<Segment>)
    requires Parse(raw) == Some(p)
    ensures CpuTotal(p) == CpuSum(Scan(raw))
    ensures BlockDurations(p) == AsInts(BlockValues(Scan(raw)))
  {
    var a :| Absorb(Scan(raw)) == Some(a);
    AbsorbTotals(Scan(raw), a);
    if a.accum > 0 {
      CpuTotalSnoc(a.pattern, Segment(CPU, a.accum));
      BlockDurationsSnoc(a.pattern, Segment(CPU, a.accum));
    }
  }

  // ---------------------------------------------------------------------------
  // How the scanner reads the text, and worked examples.

  predicate AllDigits(s: string)
  {
    s != [] && forall k :: 0 <= k < |s| ==> IsDigit(s[k])
  }

  /** A run of digits stops only at the first character that is not one. */
  lemma {:induction false} DigitRunPrefix(d: string, rest: string)
    requires AllDigits(d) && (rest == [] || !IsDigit(rest[0]))
    ensures DigitRun(d + rest) == |d|
    decreases |d|
  {
    assert (d + rest)[1..] == d[1..] + rest;
    if |d| > 1 {
      DigitRunPrefix(d[1..], rest);
    } else {
      assert d[1..] + rest == rest;
    }
  }

  /** A bare number followed by neither a digit nor a closing parenthesis. */
  lemma ScanBare(d: string, rest: string)
    requires AllDigits(d) && (rest == [] || (!IsDigit(rest[0]) && rest[0] != ')'))
    ensures Scan(d + rest) == [Token(false, Decimal(d), false)] + Scan(rest)
  {
    DigitRunPrefix(d, rest);
    assert (d + rest)[..|d|] == d && (d + rest)[|d|..] == rest;
  }

  /** A bare number directly followed by a closing parenthesis. */
  lemma ScanBareClosed(d: string, rest: string)
    requires AllDigits(d)
    ensures Scan(d + ")" + rest) == [Token(false, Decimal(d), true)] + Scan(rest)
  {
    DigitRunPrefix(d, ")" + rest);
    assert d + ")" + rest == d + (")" + rest);
    assert (d + ")" + rest)[..|d|] == d && (d + ")" + rest)[|d| + 1..] == rest;
  }

  /** A parenthesised number. */
  lemma ScanParen(d: string, rest: string)
    requires AllDigits(d)
    ensures Scan("(" + d + ")" + rest) == [Token(true, Decimal(d), true)] + Scan(rest)
  {
    var s := "(" + d + ")" + rest;
    DigitRunPrefix(d, ")" + rest);
    assert s[1..] == d + (")" + rest);
    assert s[1..1 + |d|] == d && s[1 + |d|] == ')' && s[2 + |d|..] == rest;
  }

  /** An opening parenthesis and a number with no closing parenthesis. */
  lemma ScanOpen(d: string, rest: string)
    requires AllDigits(d) && (rest == [] || (!IsDigit(rest[0]) && rest[0] != ')'))
    ensures Scan("(" + d + rest) == [Token(true, Decimal(d), false)] + Scan(rest)
  {
    var s := "(" + d + rest;
    DigitRunPrefix(d, rest);
    assert s[1..] == d + rest;
    assert s[1..1 + |d|] == d && s[1 + |d|..] == rest;
  }

  /** A character that starts no token is skipped. */
  lemma ScanSkip(c: char, rest: string)
    requires !IsDigit(c) && !(c == '(' && rest != [] && IsDigit(rest[0]))
    ensures Scan([c] + rest) == Scan(rest)
  {
    assert ([c] + rest)[1..] == rest;
  }

  /**
   * The example of the parser's own documentation, "2, 1, 3, (2), 4, 5",
   * from its tokens on: three bare numbers, a parenthesised one, two more.
   */
  lemma DocExample()
    ensures var toks := [Token(false, 2, false), Token(false, 1, false), Token(false, 3, false),
                         Token(true, 2, true), Token(false, 4, false), Token(false, 5, false)];
      Absorb(toks) == Some(Acc([Segment(CPU, 6), Segment(BLOCK, 2)], 9))
  {
    var toks := [Token(false, 2, false), Token(false, 1, false), Token(false, 3, false),
                 Token(true, 2, true), Token(false, 4, false), Token(false, 5, false)];
    assert Absorb(toks[..1]) == Some(Acc([], 2)) by {
      assert toks[..1][..0] == [];
    }
    assert Absorb(toks[..2]) == Some(Acc([], 3)) by {
      assert toks[..2][..1] == toks[..1];
    }
    assert Absorb(toks[..3]) == Some(Acc([], 6)) by {
      assert toks[..3][..2] == toks[..2];
    }
    assert Absorb(toks[..4]) == Some(Acc([Segment(CPU, 6), Segment(BLOCK, 2)], 0)) by {
      assert toks[..4][..3] == toks[..3];
      assert Flush([], 6) == [Segment(CPU, 6)];
      assert Flush([], 6) + [Segment(BLOCK, 2)] == [Segment(CPU, 6), Segment(BLOCK, 2)];
    }
    assert Absorb(toks[..5]) == Some(Acc([Segment(CPU, 6), Segment(BLOCK, 2)], 4)) by {
      assert toks[..5][..4] == toks[..4];
    }
    assert toks[..6][..5] == toks[..5] && toks[..6] == toks;
  }

  /** A single parenthesis spoils the whole line, wherever it stands. */
  lemma HalfParenFails(toks: seq<Token>, k: nat, v: nat)
    requires k < |toks| && (toks[k] == Token(true, v, false) || toks[k] == Token(false, v, true))
    ensures Absorb(toks) == None
  {
    AbsorbFails(toks);
  }

  /** Zeros give tokens but no CPU time: the flushed plan is empty, not a failure. */
  lemma ZerosExample()
    ensures Absorb([Token(false, 0, false), Token(false, 0, false)]) == Some(Acc([], 0))
  {
    var toks := [Token(false, 0, false), Token(false, 0, false)];
    assert Absorb(toks[..1]) == Some(Acc([], 0)) by {
      assert toks[..1][..0] == [];
    }
  }

  // ---------------------------------------------------------------------------
  // The burst handed to the engines.

  /**
   * The plan of a table row: the parse, or for a line that is one number and
   * does not parse, one CPU segment of that number.
   */
  function EntryPattern(raw: string): Option<seq<Segment>>
  {
    match Parse(raw)
      case Some(p) => Some(p)
      case None => if AllDigits(raw) then Some([Segment(CPU, Decimal(raw))]) else None
  }

  /** The burst of a row: the CPU time of its plan, 0 when there is none. */
  function Burst(raw: string): int
  {
    match EntryPattern(raw)
      case Some(p) => CpuTotal(p)
      case None => 0
  }

  /**
   * A line of digits always parses, so the single-number fallback never
   * applies; the burst is the sum of the bare numbers of the line.
   */
  lemma EntryIsParse(raw: string)
    ensures EntryPattern(raw) == Parse(raw)
    ensures Burst(raw) == if Parse(raw).Some? then CpuSum(Scan(raw)) else 0
  {
    if AllDigits(raw) {
      ScanBare(raw, []);
      assert raw + [] == raw;
      assert Scan(raw) == [Token(false, Decimal(raw), false)];
      assert Scan(raw)[..0] == [];
      assert Absorb(Scan(raw)) == Some(Acc([], Decimal(raw)));
    }
    if Parse(raw).Some? {
      ParseTotals(raw, Parse(raw).value);
    }
  }
}
