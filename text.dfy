/**
 * String helpers with the meaning of the JavaScript built-ins the planner relies on:
 * decimal rendering of integers, `parseInt` on ASCII digit runs, `includes`, `trim`,
 * `Array.prototype.join`, and the first and last occurrence of a character (which locate the
 * span a greedy `{...}` regex matches). `split` on one character is the inverse of `join`.
 */
module Text {
  import opened Basics

  // ---------------------------------------------------------------- digits

  /** An ASCII decimal digit, the class `\d` of a JavaScript regex without the `u` flag. */
  predicate IsDigit(c: char) { '0' <= c <= '9' }

  predicate AllDigits(s: string) { forall i :: 0 <= i < |s| ==> IsDigit(s[i]) }

  function DigitValue(c: char): nat
    requires IsDigit(c)
  {
    c as int - '0' as int
  }

  function DigitChar(d: nat): (c: char)
    requires d < 10
    ensures IsDigit(c) && DigitValue(c) == d
  {
    ('0' as int + d) as char
  }

  function Pow10(w: nat): nat
  {
    if w == 0 then 1 else 10 * Pow10(w - 1)
  }

  /** The value of a run of decimal digits, most significant first (`parseInt` on such a run). */
  function ParseDigits(s: string): nat
    requires AllDigits(s)
  {
    if s == [] then 0 else 10 * ParseDigits(s[..|s| - 1]) + DigitValue(s[|s| - 1])
  }

  /** A run of `n` digits denotes a number below 10^n. */
  lemma {:induction false} ParseDigitsBound(s: string)
    requires AllDigits(s)
    ensures ParseDigits(s) < Pow10(|s|)
  {
    if s != [] {
      ParseDigitsBound(s[..|s| - 1]);
    }
  }

  /**
   * The decimal rendering of a natural number, as JavaScript's `String(n)` gives it for an
   * integer below 10^21: at least one digit, no leading zero, and it reads back as `n`.
   */
  function NatToString(n: nat): (r: string)
    ensures 1 <= |r| && AllDigits(r)
    ensures ParseDigits(r) == n
    ensures r[0] == '0' ==> n == 0 && |r| == 1
  {
    if n < 10 then [DigitChar(n)]
    else
      var front := NatToString(n / 10);
      assert (front + [DigitChar(n % 10)])[..|front|] == front;
      front + [DigitChar(n % 10)]
  }

  /**
   * Every digit run without a leading zero (other than `0` itself) is the rendering of the number
   * it denotes, so a rendering is fixed by the clauses of `NatToString`.
   */
  lemma {:induction false} NatToStringOfCanonical(s: string)
    requires |s| >= 1 && AllDigits(s) && (s[0] == '0' ==> |s| == 1)
    ensures NatToString(ParseDigits(s)) == s
  {
    var n := ParseDigits(s);
    if |s| == 1 {
      assert DigitChar(DigitValue(s[0])) == s[0];
    } else {
      var front := s[..|s| - 1];
      assert front[0] == s[0];
      NatToStringOfCanonical(front);
      assert n / 10 == ParseDigits(front) && n % 10 == DigitValue(s[|s| - 1]);
      assert DigitChar(DigitValue(s[|s| - 1])) == s[|s| - 1];
      if n < 10 {
        assert false;
      }
      assert s == front + [s[|s| - 1]];
    }
  }

  /** Distinct numbers render as distinct strings. */
  lemma NatToStringInjective(m: nat, n: nat)
    requires NatToString(m) == NatToString(n)
    ensures m == n
  {
  }

  /**
   * A signed integer as JavaScript renders it: a minus sign before the digits of a negative one,
   * and no leading zero except in `0` itself.
   */
  function IntToString(i: int): (r: string)
    ensures |r| >= 1
    ensures i < 0 <==> r[0] == '-'
    ensures i < 0 ==> |r| >= 2 && AllDigits(r[1..]) && ParseDigits(r[1..]) == -i
    ensures i >= 0 ==> AllDigits(r) && ParseDigits(r) == i
    ensures i < 0 ==> r[1] != '0'
    ensures i >= 0 && r[0] == '0' ==> i == 0 && |r| == 1
  {
    if i < 0 then
      var digits := NatToString(-i);
      assert ("-" + digits)[1..] == digits;
      "-" + digits
    else NatToString(i)
  }

  /** The last `w` decimal digits of `n`, zero-padded on the left to exactly `w` characters. */
  function Digits(n: nat, w: nat): (r: string)
    ensures |r| == w && AllDigits(r)
  {
    if w == 0 then [] else Digits(n / 10, w - 1) + [DigitChar(n % 10)]
  }

  /** A number below 10^w written in `w` digits reads back as itself. */
  lemma {:induction false} DigitsValue(n: nat, w: nat)
    requires n < Pow10(w)
    ensures ParseDigits(Digits(n, w)) == n
  {
    if w > 0 {
      var front := Digits(n / 10, w - 1);
      DigitsValue(n / 10, w - 1);
      assert Digits(n, w)[..w - 1] == front;
    }
  }

  /** Reading a fixed-width digit field and writing it back at the same width gives the field. */
  lemma {:induction false} DigitsOfParse(s: string)
    requires AllDigits(s)
    ensures Digits(ParseDigits(s), |s|) == s
  {
    if s != [] {
      var front := s[..|s| - 1];
      var c := s[|s| - 1];
      DigitsOfParse(front);
      var v := ParseDigits(s);
      assert v == 10 * ParseDigits(front) + DigitValue(c);
      assert v / 10 == ParseDigits(front) && v % 10 == DigitValue(c);
      assert DigitChar(DigitValue(c)) == c;
      assert s == front + [c];
    }
  }

  // ---------------------------------------------------------------- searching

  /** `s.includes(w)`: `w` occurs in `s` as a contiguous substring. */
  predicate Contains(s: string, w: string)
  {
    exists i :: 0 <= i <= |s| - |w| && OccursAt(s, w, i)
  }

  /** `w` occurs in `s` starting at position `i`. */
  predicate OccursAt(s: string, w: string, i: nat)
  {
    i + |w| <= |s| && s[i..i + |w|] == w
  }

  /** For a one-character word, `includes` is membership. */
  lemma ContainsChar(s: string, c: char)
    ensures Contains(s, [c]) <==> c in s
  {
    if c in s {
      var i :| 0 <= i < |s| && s[i] == c;
      assert s[i..i + 1] == [c];
      assert OccursAt(s, [c], i);
    }
    if Contains(s, [c]) {
      var i :| 0 <= i <= |s| - 1 && OccursAt(s, [c], i);
      assert s[i..i + 1][0] == s[i];
    }
  }

  /** `s.indexOf(c)`: the first position of `c`, or nothing when `c` does not occur. */
  function IndexOf(s: string, c: char): (r: Option<nat>)
    ensures r.None? <==> c !in s
    ensures r.Some? ==> r.value < |s| && s[r.value] == c && c !in s[..r.value]
  {
    if s == [] then None
    else if s[0] == c then Some(0)
    else
      match IndexOf(s[1..], c)
      case None => None
      case Some(i) =>
        assert s[..i + 1] == [s[0]] + s[1..][..i];
        Some(i + 1)
  }

  /** `s.lastIndexOf(c)`: the last position of `c`, or nothing when `c` does not occur. */
  function LastIndexOf(s: string, c: char): (r: Option<nat>)
    ensures r.None? <==> c !in s
    ensures r.Some? ==> r.value < |s| && s[r.value] == c && c !in s[r.value + 1..]
  {
    if s == [] then None
    else if s[|s| - 1] == c then Some(|s| - 1)
    else
      var front := s[..|s| - 1];
      match LastIndexOf(front, c)
      case None =>
        assert s == front + [s[|s| - 1]];
        None
      case Some(i) =>
        assert s[i + 1..] == front[i + 1..] + [s[|s| - 1]];
        Some(i)
  }

  // ---------------------------------------------------------------- trimming

  /** The characters `String.prototype.trim` removes: ECMAScript WhiteSpace and LineTerminator. */
  predicate IsJsWhitespace(c: char)
  {
    || c == '\t' || c == '\n' || c == '\U{000B}' || c == '\U{000C}' || c == '\r' || c == ' '
    || c == '\U{00A0}' || c == '\U{1680}' || ('\U{2000}' <= c <= '\U{200A}')
    || c == '\U{2028}' || c == '\U{2029}' || c == '\U{202F}' || c == '\U{205F}'
    || c == '\U{3000}' || c == '\U{FEFF}'
  }

  /** Every character of `t` is whitespace. */
  predicate AllJsWhitespace(t: string)
  {
    forall k :: 0 <= k < |t| ==> IsJsWhitespace(t[k])
  }

  function TrimStart(s: string): (r: string)
    ensures |r| <= |s| && r == s[|s| - |r|..]
    ensures AllJsWhitespace(s[..|s| - |r|])
    ensures r == [] || !IsJsWhitespace(r[0])
  {
    if s != [] && IsJsWhitespace(s[0]) then TrimStart(s[1..]) else s
  }

  function TrimEnd(s: string): (r: string)
    ensures |r| <= |s| && r == s[..|r|]
    ensures AllJsWhitespace(s[|r|..])
    ensures r == [] || !IsJsWhitespace(r[|r| - 1])
  {
    if s != [] && IsJsWhitespace(s[|s| - 1]) then TrimEnd(s[..|s| - 1]) else s
  }

  /**
   * `s.trim()`: the slice of `s` left after removing whitespace from both ends; everything cut
   * off is whitespace and the slice neither starts nor ends with whitespace.
   */
  function Trim(s: string): (r: string)
    ensures exists i, j ::
      && 0 <= i <= j <= |s| && r == s[i..j]
      && AllJsWhitespace(s[..i]) && AllJsWhitespace(s[j..])
    ensures r == [] || (!IsJsWhitespace(r[0]) && !IsJsWhitespace(r[|r| - 1]))
  {
    var t := TrimStart(s);
    var r := TrimEnd(t);
    var i := |s| - |t|;
    assert r == s[i..i + |r|];
    r
  }

  // ---------------------------------------------------------------- join and split

  /** `parts.join(sep)` for a one-character separator. */
  function JoinWith(parts: seq<string>, sep: char): string
  {
    if |parts| == 0 then []
    else if |parts| == 1 then parts[0]
    else parts[0] + [sep] + JoinWith(parts[1..], sep)
  }

  /** `s.split(sep)` for a one-character separator: always at least one piece, none holding `sep`. */
  function SplitOn(s: string, sep: char): (r: seq<string>)
    ensures |r| >= 1
    ensures forall k :: 0 <= k < |r| ==> sep !in r[k]
    decreases |s|
  {
    match IndexOf(s, sep)
    case None => [s]
    case Some(i) => [s[..i]] + SplitOn(s[i + 1..], sep)
  }

  /** Joining the pieces of a split restores the string. */
  lemma {:induction false} JoinSplit(s: string, sep: char)
    ensures JoinWith(SplitOn(s, sep), sep) == s
    decreases |s|
  {
    match IndexOf(s, sep)
    case None =>
    case Some(i) =>
      var rest := SplitOn(s[i + 1..], sep);
      JoinSplit(s[i + 1..], sep);
      var parts := [s[..i]] + rest;
      assert parts[1..] == rest;
      assert s == s[..i] + [sep] + s[i + 1..];
  }

  lemma AppendAssociative<T>(a: seq<T>, b: seq<T>, c: seq<T>)
    ensures a + (b + c) == (a + b) + c
  {
  }

  /** Splitting at the first separator of a string that starts with a separator-free piece. */
  lemma SplitAtFirst(p: string, sep: char, rest: string)
    requires sep !in p
    ensures SplitOn(p + [sep] + rest, sep) == [p] + SplitOn(rest, sep)
  {
    var s := p + [sep] + rest;
    assert s[|p|] == sep && s[..|p|] == p && s[|p| + 1..] == rest;
    match IndexOf(s, sep)
    case None =>
      assert false;
    case Some(i) =>
  }

  /** A join of separator-free pieces followed by a separator and more text splits into the pieces and the split of the text. */
  lemma {:induction false} SplitAfterJoin(parts: seq<string>, sep: char, rest: string)
    requires |parts| >= 1
    requires forall k :: 0 <= k < |parts| ==> sep !in parts[k]
    ensures SplitOn(JoinWith(parts, sep) + [sep] + rest, sep) == parts + SplitOn(rest, sep)
  {
    if |parts| == 1 {
      assert JoinWith(parts, sep) == parts[0];
      SplitAtFirst(parts[0], sep, rest);
    } else {
      SplitAfterJoin(parts[1..], sep, rest);
      SplitAfterJoinCons(parts, sep, rest);
    }
  }

  /** One more separator-free piece in front of the join adds one piece in front of the split. */
  lemma SplitAfterJoinCons(parts: seq<string>, sep: char, rest: string)
    requires |parts| >= 2 && sep !in parts[0]
    requires SplitOn(JoinWith(parts[1..], sep) + [sep] + rest, sep) == parts[1..] + SplitOn(rest, sep)
    ensures SplitOn(JoinWith(parts, sep) + [sep] + rest, sep) == parts + SplitOn(rest, sep)
  {
    var p := parts[0];
    var tail := JoinWith(parts[1..], sep) + [sep] + rest;
    assert JoinWith(parts, sep) + [sep] + rest == p + [sep] + tail;
    SplitAtFirst(p, sep, tail);
    AppendAssociative([p], parts[1..], SplitOn(rest, sep));
    assert [p] + parts[1..] == parts;
  }



  /** Splitting a join of separator-free pieces gives the pieces back. */
  lemma {:induction false} SplitJoin(parts: seq<string>, sep: char)
    requires |parts| >= 1
    requires forall k :: 0 <= k < |parts| ==> sep !in parts[k]
    ensures SplitOn(JoinWith(parts, sep), sep) == parts
  {
    if |parts| == 1 {
      assert JoinWith(parts, sep) == parts[0];
    } else {
      var p := parts[0];
      var rest := JoinWith(parts[1..], sep);
      var s := p + [sep] + rest;
      assert s[|p|] == sep && s[..|p|] == p;
      match IndexOf(s, sep)
      case None =>
        assert false;
      case Some(i) =>
        assert s[i + 1..] == rest;
        SplitJoin(parts[1..], sep);
        assert [p] + parts[1..] == parts;
    }
  }
}
