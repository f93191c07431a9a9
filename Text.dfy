/**
 * The Python string operations the modelled code relies on: `str.upper` (on
 * ASCII letters), `str.strip`, `str.startswith`, the `in` substring test,
 * `str.replace`, `str(int)` and the `repr` of a list of plain strings.
 */
module Text {

  /** `str.isspace` of one character: the code points Python treats as whitespace. */
  predicate IsSpace(c: char) {
    var n := c as int;
    (0x09 <= n <= 0x0D) || (0x1C <= n <= 0x20) || n == 0x85 || n == 0xA0 || n == 0x1680
    || (0x2000 <= n <= 0x200A) || n == 0x2028 || n == 0x2029 || n == 0x202F || n == 0x205F
    || n == 0x3000
  }

  predicate IsAsciiLower(c: char) { 'a' <= c <= 'z' }

  /** Upper case of one character; only the ASCII letters are mapped. */
  function UpperChar(c: char): char {
    if IsAsciiLower(c) then (c as int - 32) as char else c
  }

  /** `s.upper()` restricted to ASCII: character by character, length preserved. */
  function Upper(s: string): (r: string)
    ensures |r| == |s|
  {
    seq(|s|, i requires 0 <= i < |s| => UpperChar(s[i]))
  }

  /**
   * After `upper()` every ASCII lower-case letter has become its own
   * upper-case letter, none is left, and every other character is kept.
   */
  lemma UpperLetters(s: string)
    ensures forall i :: 0 <= i < |s| ==> !IsAsciiLower(Upper(s)[i])
    ensures forall i :: 0 <= i < |s| && IsAsciiLower(s[i]) ==> Upper(s)[i] as int == s[i] as int - 32
    ensures forall i :: 0 <= i < |s| && !IsAsciiLower(s[i]) ==> Upper(s)[i] == s[i]
  {
  }

  /** Number of whitespace characters `s.lstrip()` removes. */
  function LeadingSpaces(s: string): (n: nat)
    ensures n <= |s|
    ensures n < |s| ==> !IsSpace(s[n])
  {
    if |s| > 0 && IsSpace(s[0]) then 1 + LeadingSpaces(s[1..]) else 0
  }

  /** Everything `s.lstrip()` removes is whitespace. */
  lemma {:induction false} LeadingAreSpaces(s: string, k: int)
    requires 0 <= k < LeadingSpaces(s)
    ensures IsSpace(s[k])
    decreases |s|
  {
    if k > 0 {
      LeadingAreSpaces(s[1..], k - 1);
    }
  }

  /** Length of what `s.rstrip()` keeps. */
  function TrailingEnd(s: string): (e: nat)
    ensures e <= |s|
    ensures e > 0 ==> !IsSpace(s[e - 1])
  {
    if |s| > 0 && IsSpace(s[|s| - 1]) then TrailingEnd(s[..|s| - 1]) else |s|
  }

  /** Everything `s.rstrip()` removes is whitespace. */
  lemma {:induction false} TrailingAreSpaces(s: string, k: int)
    requires TrailingEnd(s) <= k < |s|
    ensures IsSpace(s[k])
    decreases |s|
  {
    if k < |s| - 1 {
      TrailingAreSpaces(s[..|s| - 1], k);
    }
  }

  /**
   * `s.strip()`: the slice of `s` that starts after the leading whitespace
   * and neither starts nor ends with whitespace.
   */
  function Strip(s: string): (r: string)
    ensures LeadingSpaces(s) + |r| <= |s| && r == s[LeadingSpaces(s)..LeadingSpaces(s) + |r|]
    ensures r == [] || (!IsSpace(r[0]) && !IsSpace(r[|r| - 1]))
  {
    var b := LeadingSpaces(s);
    var t := s[b..];
    var e := TrailingEnd(t);
    assert e > 0 ==> t[..e][0] == s[b] && t[..e][e - 1] == t[e - 1];
    t[..e]
  }

  /** `s.strip()` keeps every non-whitespace character of `s`. */
  lemma StripKeeps(s: string, k: int)
    requires 0 <= k < |s| && !IsSpace(s[k])
    ensures LeadingSpaces(s) <= k < LeadingSpaces(s) + |Strip(s)|
  {
    var b := LeadingSpaces(s);
    if k < b {
      LeadingAreSpaces(s, k);
    }
    var t := s[b..];
    if TrailingEnd(t) <= k - b {
      TrailingAreSpaces(t, k - b);
    }
  }

  /**
   * Whitespace around a text that neither starts nor ends with whitespace
   * is exactly what `strip()` removes.
   */
  lemma StripSurrounded(a: string, s: string, b: string)
    requires |s| > 0 && !IsSpace(s[0]) && !IsSpace(s[|s| - 1])
    requires forall k :: 0 <= k < |a| ==> IsSpace(a[k])
    requires forall k :: 0 <= k < |b| ==> IsSpace(b[k])
    ensures Strip(a + s + b) == s
  {
    var x := a + s + b;
    assert forall k :: 0 <= k < |a| ==> IsSpace(x[k]);
    assert forall k :: |a| + |s| <= k < |x| ==> IsSpace(x[k]);
    assert x[|a|] == s[0] && x[|a| + |s| - 1] == s[|s| - 1];
    StripKeeps(x, |a|);
    StripKeeps(x, |a| + |s| - 1);
    var n, r := LeadingSpaces(x), Strip(x);
    assert n == |a|;
    assert x[n + |r| - 1] == r[|r| - 1];
    assert |r| == |s|;
    assert x[|a|..|a| + |s|] == s;
  }

  /** `s.startswith(p)` */
  predicate StartsWith(s: string, p: string) {
    |p| <= |s| && s[..|p|] == p
  }

  /** `w in s` for strings: `w` occurs somewhere in `s`. */
  predicate Contains(s: string, w: string)
    ensures Contains(s, w) ==> |w| <= |s|
    decreases |s|
  {
    StartsWith(s, w) || (|s| > 0 && Contains(s[1..], w))
  }

  /** `w` occurs in `s` at index `i`. */
  predicate OccursAt(s: string, w: string, i: int) {
    0 <= i && i + |w| <= |s| && s[i..i + |w|] == w
  }

  lemma {:induction false} OccursAtContains(s: string, w: string, i: int)
    requires OccursAt(s, w, i)
    ensures Contains(s, w)
    decreases i
  {
    if i == 0 {
      assert s[..|w|] == w;
    } else {
      assert s[1..][i - 1..i - 1 + |w|] == s[i..i + |w|];
      OccursAtContains(s[1..], w, i - 1);
    }
  }

  lemma {:induction false} ContainsOccursAt(s: string, w: string) returns (i: int)
    requires Contains(s, w)
    ensures OccursAt(s, w, i)
    decreases |s|
  {
    if StartsWith(s, w) {
      i := 0;
    } else {
      var j := ContainsOccursAt(s[1..], w);
      assert s[1..][j..j + |w|] == s[j + 1..j + 1 + |w|];
      i := j + 1;
    }
  }

  /** The `in` test agrees with "occurs at some index". */
  lemma ContainsIff(s: string, w: string)
    ensures Contains(s, w) <==> exists i :: OccursAt(s, w, i)
  {
    if Contains(s, w) {
      var i := ContainsOccursAt(s, w);
    }
    if i :| OccursAt(s, w, i) {
      OccursAtContains(s, w, i);
    }
  }

  lemma ContainsLeft(a: string, b: string, w: string)
    requires Contains(a, w)
    ensures Contains(a + b, w)
  {
    var i := ContainsOccursAt(a, w);
    assert (a + b)[i..i + |w|] == a[i..i + |w|];
    OccursAtContains(a + b, w, i);
  }

  lemma ContainsRight(a: string, b: string, w: string)
    requires Contains(b, w)
    ensures Contains(a + b, w)
  {
    var i := ContainsOccursAt(b, w);
    assert (a + b)[|a| + i..|a| + i + |w|] == b[i..i + |w|];
    OccursAtContains(a + b, w, |a| + i);
  }

  /**
   * An occurrence of `w` cannot reach into a non-empty separator `t` that
   * shares no character with `w`: if neither side holds `w`, neither does
   * `a + t + b`.
   */
  lemma NoStraddle(a: string, t: string, b: string, w: string)
    requires |w| > 0 && |t| > 0
    requires forall k :: 0 <= k < |w| ==> w[k] !in t
    requires !Contains(a, w) && !Contains(b, w)
    ensures !Contains(a + t + b, w)
  {
    var s := a + t + b;
    ContainsIff(a, w);
    ContainsIff(b, w);
    forall i | 0 <= i && i + |w| <= |s|
      ensures !OccursAt(s, w, i)
    {
      NoStraddleAt(a, t, b, w, i);
    }
    ContainsIff(s, w);
  }

  /** The case analysis of `NoStraddle` at one position. */
  lemma NoStraddleAt(a: string, t: string, b: string, w: string, i: int)
    requires |w| > 0 && |t| > 0
    requires forall k :: 0 <= k < |w| ==> w[k] !in t
    requires forall j :: 0 <= j && j + |w| <= |a| ==> !OccursAt(a, w, j)
    requires forall j :: 0 <= j && j + |w| <= |b| ==> !OccursAt(b, w, j)
    requires 0 <= i && i + |w| <= |a + t + b|
    ensures !OccursAt(a + t + b, w, i)
  {
    var s := a + t + b;
    if i + |w| <= |a| {
      assert s[i..i + |w|] == a[i..i + |w|];
      assert !OccursAt(a, w, i);
    } else if i >= |a| + |t| {
      var j := i - |a| - |t|;
      assert s[i..i + |w|] == b[j..j + |w|];
      assert !OccursAt(b, w, j);
    } else {
      // the occurrence would cover a character of the separator
      var m := if i >= |a| then i else |a|;
      assert s[m] == t[m - |a|];
      assert w[m - i] !in t;
      assert s[i..i + |w|][m - i] != w[m - i];
    }
  }

  /** Python's `str.replace(old, new)`: every left-to-right, non-overlapping match. */
  function Replace(s: string, pattern: string, repl: string): (r: string)
    ensures |pattern| > 0 && !Contains(s, pattern) ==> r == s
    decreases |s|
  {
    if |pattern| == 0 then
      // an empty pattern matches before every character and at the end
      if |s| == 0 then repl else repl + [s[0]] + Replace(s[1..], pattern, repl)
    else if |s| == 0 then []
    else if StartsWith(s, pattern) then repl + Replace(s[|pattern|..], pattern, repl)
    else
      assert [s[0]] + s[1..] == s;
      [s[0]] + Replace(s[1..], pattern, repl)
  }

  /**
   * `s.split(sep)` for a non-empty separator: the pieces between the
   * left-to-right, non-overlapping occurrences of `sep`.
   */
  function Split(s: string, sep: string): (pieces: seq<string>)
    requires |sep| > 0
    ensures |pieces| >= 1 && StartsWith(s, pieces[0])
    decreases |s|
  {
    if |s| == 0 then [[]]
    else if StartsWith(s, sep) then [[]] + Split(s[|sep|..], sep)
    else
      var rest := Split(s[1..], sep);
      assert s[1..][..|rest[0]|] == s[1..|rest[0]| + 1];
      [[s[0]] + rest[0]] + rest[1..]
  }

  /** `t.join(pieces)` */
  function Join(pieces: seq<string>, t: string): string
    requires |pieces| >= 1
  {
    if |pieces| == 1 then pieces[0] else pieces[0] + t + Join(pieces[1..], t)
  }

  lemma JoinCons(p: string, rest: seq<string>, t: string)
    requires |rest| >= 1
    ensures Join([p + rest[0]] + rest[1..], t) == p + Join(rest, t)
  {
    var xs := [p + rest[0]] + rest[1..];
    if |rest| > 1 {
      assert xs[1..] == rest[1..];
    }
  }

  /** Replacing is splitting at the pattern and joining with the replacement. */
  lemma {:induction false} ReplaceIsJoinOfSplit(s: string, pattern: string, repl: string)
    requires |pattern| > 0
    ensures Replace(s, pattern, repl) == Join(Split(s, pattern), repl)
    decreases |s|
  {
    if |s| == 0 {
    } else if StartsWith(s, pattern) {
      var tail := s[|pattern|..];
      ReplaceIsJoinOfSplit(tail, pattern, repl);
      var rest := Split(tail, pattern);
      assert Split(s, pattern) == [[]] + rest;
      assert Replace(s, pattern, repl) == repl + Replace(tail, pattern, repl);
      assert ([[]] + rest)[1..] == rest;
      assert Join([[]] + rest, repl) == [] + repl + Join(rest, repl);
    } else {
      var tail := s[1..];
      ReplaceIsJoinOfSplit(tail, pattern, repl);
      var rest := Split(tail, pattern);
      assert Split(s, pattern) == [[s[0]] + rest[0]] + rest[1..];
      assert Replace(s, pattern, repl) == [s[0]] + Replace(tail, pattern, repl);
      JoinCons([s[0]], rest, repl);
    }
  }

  lemma {:induction false} ReplaceByItself(s: string, w: string)
    requires |w| > 0
    ensures Replace(s, w, w) == s
    decreases |s|
  {
    if |s| == 0 {
    } else if StartsWith(s, w) {
      ReplaceByItself(s[|w|..], w);
      assert s == s[..|w|] + s[|w|..];
    } else {
      ReplaceByItself(s[1..], w);
      assert s == [s[0]] + s[1..];
    }
  }

  /** Joining the pieces back with the separator gives the original string. */
  lemma JoinSplit(s: string, sep: string)
    requires |sep| > 0
    ensures Join(Split(s, sep), sep) == s
  {
    ReplaceIsJoinOfSplit(s, sep, sep);
    ReplaceByItself(s, sep);
  }

  /** No piece of a split contains the separator. */
  lemma {:induction false} SplitPiecesFree(s: string, sep: string)
    requires |sep| > 0
    ensures forall k :: 0 <= k < |Split(s, sep)| ==> !Contains(Split(s, sep)[k], sep)
    decreases |s|
  {
    var pieces := Split(s, sep);
    if |s| == 0 {
      assert !StartsWith([], sep);
    } else if StartsWith(s, sep) {
      SplitPiecesFree(s[|sep|..], sep);
      assert !StartsWith([], sep);
      assert forall k :: 1 <= k < |pieces| ==> pieces[k] == Split(s[|sep|..], sep)[k - 1];
    } else {
      SplitPiecesFree(s[1..], sep);
      var rest := Split(s[1..], sep);
      var p := [s[0]] + rest[0];
      assert p[1..] == rest[0];
      if |sep| <= |p| {
        assert s[..|sep|] == p[..|sep|];
      }
      assert !Contains(p, sep);
      assert forall k :: 1 <= k < |pieces| ==> pieces[k] == rest[k];
    }
  }

  /**
   * Joining pieces free of `w` with a non-empty separator that shares no
   * character with `w` yields a string free of `w`.
   */
  lemma {:induction false} JoinAvoids(pieces: seq<string>, t: string, w: string)
    requires |pieces| >= 1 && |w| > 0 && |t| > 0
    requires forall k :: 0 <= k < |w| ==> w[k] !in t
    requires forall k :: 0 <= k < |pieces| ==> !Contains(pieces[k], w)
    ensures !Contains(Join(pieces, t), w)
    decreases |pieces|
  {
    if |pieces| > 1 {
      JoinAvoids(pieces[1..], t, w);
      NoStraddle(pieces[0], t, Join(pieces[1..], t), w);
    }
  }

  function DigitChar(d: nat): (c: char)
    requires d < 10
    ensures '0' <= c <= '9' && (c == '0' <==> d == 0)
  {
    ('0' as int + d) as char
  }

  /** `str(n)` for a non-negative integer: its decimal digits. */
  function NatToString(n: nat): (r: string)
    ensures |r| > 0
    ensures forall k :: 0 <= k < |r| ==> '0' <= r[k] <= '9'
    ensures n > 0 ==> r[0] != '0'
    decreases n
  {
    if n < 10 then [DigitChar(n)] else NatToString(n / 10) + [DigitChar(n % 10)]
  }

  /** `str(i)` for an integer: a minus sign before the digits when negative. */
  function IntToString(i: int): (r: string)
    ensures |r| > 0
    ensures forall k :: 0 <= k < |r| ==> r[k] == '-' || '0' <= r[k] <= '9'
    ensures ';' !in r
    ensures i >= 0 ==> r[0] != '-' && (|r| > 1 ==> r[0] != '0')
    ensures i < 0 ==> |r| > 1 && r[0] == '-' && r[1] != '0'
  {
    if i < 0 then "-" + NatToString(-i) else NatToString(i)
  }

  /** The number a run of decimal digits spells, most significant digit first. */
  function DigitsValue(s: string): int {
    if |s| == 0 then 0 else DigitsValue(s[..|s| - 1]) * 10 + (s[|s| - 1] as int - '0' as int)
  }

  /** The integer a decimal text spells: an optional minus sign, then digits. */
  function DecimalValue(s: string): int {
    if |s| > 0 && s[0] == '-' then -DigitsValue(s[1..]) else DigitsValue(s)
  }

  /** The digits of `str(n)` spell `n`. */
  lemma {:induction false} NatToStringValue(n: nat)
    ensures DigitsValue(NatToString(n)) == n
    decreases n
  {
    if n >= 10 {
      NatToStringValue(n / 10);
      var s := NatToString(n);
      assert s[..|s| - 1] == NatToString(n / 10);
    }
  }

  /** `str(i)` reads back as `i`: the text names the integer, sign included. */
  lemma IntToStringValue(i: int)
    ensures DecimalValue(IntToString(i)) == i
  {
    if i < 0 {
      NatToStringValue(-i);
      assert IntToString(i)[1..] == NatToString(-i);
    } else {
      NatToStringValue(i);
    }
  }

  /** `repr(s)` of a string holding no quote, backslash or control character. */
  function Repr(s: string): string {
    "'" + s + "'"
  }

  function ReprItems(items: seq<string>): string {
    if |items| == 0 then ""
    else if |items| == 1 then Repr(items[0])
    else Repr(items[0]) + ", " + ReprItems(items[1..])
  }

  /** `str(items)` of a list of plain strings: `['a', 'b']`. */
  function ListRepr(items: seq<string>): string {
    "[" + ReprItems(items) + "]"
  }

  /** Every item of the list is named, quoted, in its rendering. */
  lemma {:induction false} ListReprMentions(items: seq<string>, k: int)
    requires 0 <= k < |items|
    ensures Contains(ListRepr(items), Repr(items[k]))
  {
    ReprItemsMentions(items, k);
    ContainsRight("[", ReprItems(items), Repr(items[k]));
    ContainsLeft("[" + ReprItems(items), "]", Repr(items[k]));
  }

  lemma {:induction false} ReprItemsMentions(items: seq<string>, k: int)
    requires 0 <= k < |items|
    ensures Contains(ReprItems(items), Repr(items[k]))
    decreases |items|
  {
    var w := Repr(items[k]);
    if |items| == 1 || k == 0 {
      assert OccursAt(ReprItems(items), w, 0);
      OccursAtContains(ReprItems(items), w, 0);
    } else {
      ReprItemsMentions(items[1..], k - 1);
      ContainsRight(Repr(items[0]) + ", ", ReprItems(items[1..]), w);
    }
  }

  /** A word with a character that `s` lacks does not occur in `s`. */
  lemma AbsentChar(s: string, w: string, j: int)
    requires 0 <= j < |w| && w[j] !in s
    ensures !Contains(s, w)
  {
    forall i | 0 <= i
      ensures !OccursAt(s, w, i)
    {
      if i + |w| <= |s| {
        assert s[i..i + |w|][j] == s[i + j];
      }
    }
    ContainsIff(s, w);
  }
}
