/**
 * The parts of java.lang.String, Integer and Long that the orchestration code
 * relies on, with Java's own edge cases: `split` drops trailing empty pieces,
 * `trim` removes every character up to U+0020, `parseInt` accepts one sign and
 * ASCII digits within 32 bits, and `long` arithmetic wraps around.
 */
module JavaText {
  import opened Wrappers

  const INT_MIN: int := -0x8000_0000
  const INT_MAX: int := 0x7fff_ffff
  const LONG_MIN: int := -0x8000_0000_0000_0000
  const LONG_MAX: int := 0x7fff_ffff_ffff_ffff
  const TWO_TO_THE_64: int := 0x1_0000_0000_0000_0000
  const TWO_TO_THE_32: int := 0x1_0000_0000

  // ---------------------------------------------------------------------------
  // Fixed-width integers

  /** The Java `long` that an unbounded integer wraps around to. */
  function Wrap64(x: int): (r: int)
    ensures LONG_MIN <= r <= LONG_MAX
    ensures LONG_MIN <= x <= LONG_MAX ==> r == x
  {
    (x - LONG_MIN) % TWO_TO_THE_64 + LONG_MIN
  }

  /** The Java `int` that an unbounded integer wraps around to. */
  function Wrap32(x: int): (r: int)
    ensures INT_MIN <= r <= INT_MAX
    ensures INT_MIN <= x <= INT_MAX ==> r == x
  {
    (x - INT_MIN) % TWO_TO_THE_32 + INT_MIN
  }

  lemma Mod64AddMultiple(x: int, k: int)
    ensures (x + k * TWO_TO_THE_64) % TWO_TO_THE_64 == x % TWO_TO_THE_64
  {
  }

  /** Wrapping after every addition gives the same `long` as wrapping once at the end. */
  lemma Wrap64AddLeft(a: int, b: int)
    ensures Wrap64(Wrap64(a) + b) == Wrap64(a + b)
  {
    var M := TWO_TO_THE_64;
    var q := (a - LONG_MIN) / M;
    assert Wrap64(a) == a - q * M;
    Mod64AddMultiple(a + b - LONG_MIN, -q);
  }

  // ---------------------------------------------------------------------------
  // Decimal numbers

  predicate IsDigit(c: char) { '0' <= c <= '9' }

  predicate AllDigits(s: string) { forall i :: 0 <= i < |s| ==> IsDigit(s[i]) }

  function DigitValue(c: char): nat
    requires IsDigit(c)
  {
    c as int - '0' as int
  }

  function DigitChar(d: nat): (c: char)
    requires d < 10
    ensures IsDigit(c) && DigitValue(c) == d
  {
    ('0' as int + d) as char
  }

  /** The value of a string of decimal digits, most significant first. */
  function DigitsValue(s: string): nat
    requires AllDigits(s)
    decreases |s|
  {
    if |s| == 0 then 0 else DigitsValue(s[..|s| - 1]) * 10 + DigitValue(s[|s| - 1])
  }

  /** `Integer.toString` / `Long.toString` of a non-negative value. */
  function NatToString(n: nat): string
    decreases n
  {
    if n < 10 then [DigitChar(n)] else NatToString(n / 10) + [DigitChar(n % 10)]
  }

  /** `Integer.toString` / `Long.toString` (and string concatenation of a number). */
  function IntToString(n: int): string
  {
    if n < 0 then "-" + NatToString(-n) else NatToString(n)
  }

  lemma {:induction false} NatToStringDigits(n: nat)
    ensures |NatToString(n)| >= 1 && AllDigits(NatToString(n))
    ensures DigitsValue(NatToString(n)) == n
    decreases n
  {
    if n >= 10 {
      NatToStringDigits(n / 10);
      var s := NatToString(n);
      assert s[..|s| - 1] == NatToString(n / 10);
    }
  }

  /**
   * `Integer.parseInt` (lo, hi = the int range) and `Long.parseLong` (the long
   * range) in radix 10: one optional sign, then one or more digits, and the
   * value in range; anything else is a NumberFormatException (None).
   */
  function ParseDecimal(s: string, lo: int, hi: int): (r: Option<int>)
    ensures r.Some? ==> lo <= r.value <= hi
    ensures r.Some? ==> |s| >= 1 && (AllDigits(s) || s[0] == '-' || s[0] == '+')
  {
    var signed := |s| > 0 && (s[0] == '-' || s[0] == '+');
    var digits := if signed then s[1..] else s;
    if |digits| == 0 || !AllDigits(digits) then None
    else
      var v: int := if signed && s[0] == '-' then -(DigitsValue(digits) as int) else DigitsValue(digits);
      if lo <= v <= hi then Some(v) else None
  }

  function ParseInt(s: string): Option<int> { ParseDecimal(s, INT_MIN, INT_MAX) }

  function ParseLong(s: string): Option<int> { ParseDecimal(s, LONG_MIN, LONG_MAX) }

  /** Parsing the decimal text of a number in range gives the number back. */
  lemma ParseIntToString(n: int, lo: int, hi: int)
    requires lo <= n <= hi
    ensures ParseDecimal(IntToString(n), lo, hi) == Some(n)
  {
    if n < 0 {
      ParseNegative(-n, lo, hi);
    } else {
      ParseNonNegative(n, lo, hi);
    }
  }

  lemma ParseNegative(m: nat, lo: int, hi: int)
    requires m > 0 && lo <= -(m as int) <= hi
    ensures ParseDecimal("-" + NatToString(m), lo, hi) == Some(-(m as int))
  {
    var d := NatToString(m);
    NatToStringDigits(m);
    var s := "-" + d;
    assert s[0] == '-';
    assert s[1..] == d;
  }

  lemma ParseNonNegative(n: nat, lo: int, hi: int)
    requires lo <= n <= hi
    ensures ParseDecimal(NatToString(n), lo, hi) == Some(n)
  {
    var d := NatToString(n);
    NatToStringDigits(n);
    assert IsDigit(d[0]);
  }


  // ---------------------------------------------------------------------------
  // Splitting and joining

  /** Every character of a number's decimal text is a digit or the minus sign. */
  lemma IntToStringChars(n: int)
    ensures |IntToString(n)| >= 1
    ensures forall i :: 0 <= i < |IntToString(n)| ==> IsDigit(IntToString(n)[i]) || IntToString(n)[i] == '-'
  {
    if n < 0 { NatToStringDigits(-n); } else { NatToStringDigits(n); }
  }

  /** A string concatenated into a message: a null reference prints as "null". */
  function OrNull(s: Option<string>): string
  {
    if s.None? then "null" else s.value
  }

  /** `String.join(sep, parts)`; also what a StringJoiner renders. */
  function Join(sep: string, parts: seq<string>): string
  {
    if |parts| == 0 then ""
    else if |parts| == 1 then parts[0]
    else parts[0] + sep + Join(sep, parts[1..])
  }

  lemma JoinCons(sep: string, x: string, xs: seq<string>)
    requires |xs| >= 1
    ensures Join(sep, [x] + xs) == x + sep + Join(sep, xs)
  {
    assert ([x] + xs)[1..] == xs;
  }

  /** Joining two non-empty lists is joining each and putting the separator between. */
  lemma {:induction false} JoinAppend(sep: string, xs: seq<string>, ys: seq<string>)
    requires |xs| >= 1 && |ys| >= 1
    ensures Join(sep, xs + ys) == Join(sep, xs) + sep + Join(sep, ys)
    decreases |xs|
  {
    if |xs| == 1 {
      JoinCons(sep, xs[0], ys);
      assert xs + ys == [xs[0]] + ys;
    } else {
      assert xs + ys == [xs[0]] + (xs[1..] + ys);
      JoinCons(sep, xs[0], xs[1..] + ys);
      JoinAppend(sep, xs[1..], ys);
      JoinCons(sep, xs[0], xs[1..]);
      assert [xs[0]] + xs[1..] == xs;
    }
  }

  lemma Join3(sep: string, a: string, b: string, d: string)
    ensures Join(sep, [a, b, d]) == a + sep + b + sep + d
  {
    assert [a, b, d][1..] == [b, d];
    assert [b, d][1..] == [d];
    assert Join(sep, [d]) == d;
    assert Join(sep, [b, d]) == b + sep + d;
    assert Join(sep, [a, b, d]) == a + sep + (b + sep + d);
  }

  predicate HasAny(s: string, seps: set<char>) { exists i :: 0 <= i < |s| && s[i] in seps }

  /** Every piece of `s` between separator characters, empty pieces included. */
  function Pieces(s: string, seps: set<char>): (r: seq<string>)
    ensures |r| >= 1
    decreases |s|
  {
    if |s| == 0 then [""]
    else
      var rest := Pieces(s[1..], seps);
      if s[0] in seps then [""] + rest else [[s[0]] + rest[0]] + rest[1..]
  }

  /** A list with its trailing empty strings removed, as Java's `split` does. */
  function DropTrailingEmpty(xs: seq<string>): (r: seq<string>)
    ensures |r| <= |xs| && r == xs[..|r|]
    ensures |r| > 0 ==> r[|r| - 1] != ""
    ensures forall i :: |r| <= i < |xs| ==> xs[i] == ""
  {
    if |xs| > 0 && xs[|xs| - 1] == "" then DropTrailingEmpty(xs[..|xs| - 1]) else xs
  }

  /**
   * `s.split(c)` for a pattern that matches the single character `c`
   * (".", ":", ",", "=", " " and "\\."): the whole string when `c` does not
   * occur, otherwise the pieces between occurrences with trailing empty
   * pieces removed (so the result may be empty).
   */
  function Split(s: string, c: char): seq<string>
  {
    if !HasAny(s, {c}) then [s] else DropTrailingEmpty(Pieces(s, {c}))
  }

  /** The characters matched by the regular-expression class `\s`. */
  const WHITESPACE: set<char> := {' ', '\t', '\n', '\U{000B}', '\U{000C}', '\r'}

  function NonEmpty(xs: seq<string>): (r: seq<string>)
    ensures forall i :: 0 <= i < |r| ==> r[i] != "" && r[i] in xs
  {
    if |xs| == 0 then []
    else if xs[0] == "" then NonEmpty(xs[1..])
    else [xs[0]] + NonEmpty(xs[1..])
  }

  /**
   * `s.split("\\s+")`: runs of whitespace act as one separator, a leading
   * run leaves an empty first piece, and trailing empty pieces are removed.
   */
  function SplitWs(s: string): seq<string>
  {
    if !HasAny(s, WHITESPACE) then [s]
    else
      var ps := Pieces(s, WHITESPACE);
      DropTrailingEmpty([ps[0]] + NonEmpty(ps[1..]))
  }

  lemma {:induction false} PiecesOfFree(a: string, seps: set<char>)
    requires !HasAny(a, seps)
    ensures Pieces(a, seps) == [a]
    decreases |a|
  {
    if |a| > 0 {
      assert !HasAny(a[1..], seps) by {
        forall i | 0 <= i < |a[1..]| ensures a[1..][i] !in seps { assert a[1..][i] == a[i + 1]; }
      }
      PiecesOfFree(a[1..], seps);
      assert [a[0]] + a[1..] == a;
    }
  }

  lemma {:induction false} PiecesOfSeparated(a: string, c: char, b: string, seps: set<char>)
    requires !HasAny(a, seps) && c in seps
    ensures Pieces(a + [c] + b, seps) == [a] + Pieces(b, seps)
    decreases |a|
  {
    if |a| == 0 {
      assert a + [c] + b == [c] + b;
      assert ([c] + b)[1..] == b;
    } else {
      assert !HasAny(a[1..], seps) by {
        forall i | 0 <= i < |a[1..]| ensures a[1..][i] !in seps { assert a[1..][i] == a[i + 1]; }
      }
      PiecesOfSeparated(a[1..], c, b, seps);
      assert (a + [c] + b)[1..] == a[1..] + [c] + b;
      assert [a[0]] + a[1..] == a;
    }
  }

  /** Splitting a joined list at its separator gives the list back. */
  lemma {:induction false} PiecesOfJoin(c: char, parts: seq<string>, seps: set<char>)
    requires |parts| >= 1 && c in seps
    requires forall i :: 0 <= i < |parts| ==> !HasAny(parts[i], seps)
    ensures Pieces(Join([c], parts), seps) == parts
    decreases |parts|
  {
    if |parts| == 1 {
      PiecesOfFree(parts[0], seps);
    } else {
      PiecesOfJoin(c, parts[1..], seps);
      PiecesOfSeparated(parts[0], c, Join([c], parts[1..]), seps);
      assert [parts[0]] + parts[1..] == parts;
    }
  }

  /** `Join` of two or more pieces contains its separator. */
  lemma JoinHasSeparator(c: char, parts: seq<string>, seps: set<char>)
    requires |parts| >= 2 && c in seps
    ensures HasAny(Join([c], parts), seps)
  {
    var s := Join([c], parts);
    assert s[|parts[0]|] == c;
  }

  /** `split(c)` undoes `String.join(c, parts)` when the pieces are free of `c` and the last one is non-empty. */
  lemma SplitJoin(c: char, parts: seq<string>)
    requires |parts| >= 1 && parts[|parts| - 1] != ""
    requires forall i :: 0 <= i < |parts| ==> !HasAny(parts[i], {c})
    ensures Split(Join([c], parts), c) == parts
  {
    if |parts| == 1 {
      assert Join([c], parts) == parts[0];
    } else {
      JoinHasSeparator(c, parts, {c});
      PiecesOfJoin(c, parts, {c});
    }
  }

  /** Three `c`-free fields joined by `c` split back into the three fields. */
  lemma SplitJoin3(c: char, a: string, b: string, d: string)
    requires !HasAny(a, {c}) && !HasAny(b, {c}) && !HasAny(d, {c}) && d != ""
    ensures Split(a + [c] + b + [c] + d, c) == [a, b, d]
  {
    Join3([c], a, b, d);
    SplitJoin(c, [a, b, d]);
  }

  lemma {:induction false} NonEmptyOfNonEmpty(xs: seq<string>)
    requires forall i :: 0 <= i < |xs| ==> xs[i] != ""
    ensures NonEmpty(xs) == xs
    decreases |xs|
  {
    if |xs| > 0 {
      NonEmptyOfNonEmpty(xs[1..]);
      assert [xs[0]] + xs[1..] == xs;
    }
  }

  /** `split("\\s+")` undoes joining whitespace-free, non-empty tokens with one space. */
  lemma SplitWsJoin(parts: seq<string>)
    requires |parts| >= 1
    requires forall i :: 0 <= i < |parts| ==> parts[i] != "" && !HasAny(parts[i], WHITESPACE)
    ensures SplitWs(Join(" ", parts)) == parts
  {
    if |parts| == 1 {
      assert Join(" ", parts) == parts[0];
    } else {
      JoinHasSeparator(' ', parts, WHITESPACE);
      PiecesOfJoin(' ', parts, WHITESPACE);
      NonEmptyOfNonEmpty(parts[1..]);
      assert [parts[0]] + parts[1..] == parts;
    }
  }

  /** A non-empty word without whitespace whose ends are visible, so trimming keeps it whole. */
  predicate Token(s: string)
  {
    |s| > 0 && !HasAny(s, WHITESPACE) && s[0] > ' ' && s[|s| - 1] > ' '
  }

  lemma TokenConcat(a: string, b: string)
    requires Token(a) && Token(b)
    ensures Token(a + b)
  {
    HasAnyConcat(a, b, WHITESPACE);
    assert (a + b)[0] == a[0];
    assert (a + b)[|a + b| - 1] == b[|b| - 1];
  }

  lemma IntToStringToken(n: int)
    ensures Token(IntToString(n))
  {
    IntToStringFree(n, WHITESPACE);
    IntToStringChars(n);
  }

  /** Three tokens separated by single spaces survive `trim().split("\\s+")` as the three tokens. */
  lemma SplitWsTrim3(a: string, b: string, d: string)
    requires Token(a) && Token(b) && Token(d)
    ensures SplitWs(Trim(a + " " + b + " " + d)) == [a, b, d]
  {
    TrimTokens(a, b, d);
    SplitWsTokens(a, b, d);
  }

  lemma TrimTokens(a: string, b: string, d: string)
    requires Token(a) && Token(d)
    ensures Trim(a + " " + b + " " + d) == a + " " + b + " " + d
  {
    var line := a + " " + b + " " + d;
    assert line[0] == a[0];
    assert line[|line| - 1] == d[|d| - 1];
    TrimFixed(line);
  }

  lemma SplitWsTokens(a: string, b: string, d: string)
    requires Token(a) && Token(b) && Token(d)
    ensures SplitWs(a + " " + b + " " + d) == [a, b, d]
  {
    Join3(" ", a, b, d);
    var parts := [a, b, d];
    forall i | 0 <= i < |parts| ensures parts[i] != "" && !HasAny(parts[i], WHITESPACE) {
      if i == 0 {
        assert parts[i] == a;
      } else if i == 1 {
        assert parts[i] == b;
      } else {
        assert parts[i] == d;
      }
    }
    SplitWsJoin(parts);
  }

  // ---------------------------------------------------------------------------
  // Trimming and searching

  function TrimLeft(s: string): (r: string)
    ensures |r| <= |s| && r == s[|s| - |r|..]
    ensures |r| > 0 ==> r[0] > ' '
    ensures forall i :: 0 <= i < |s| - |r| ==> s[i] <= ' '
    decreases |s|
  {
    if |s| > 0 && s[0] <= ' ' then TrimLeft(s[1..]) else s
  }

  function TrimRight(s: string): (r: string)
    ensures |r| <= |s| && r == s[..|r|]
    ensures |r| > 0 ==> r[|r| - 1] > ' '
    ensures forall i :: |r| <= i < |s| ==> s[i] <= ' '
    decreases |s|
  {
    if |s| > 0 && s[|s| - 1] <= ' ' then TrimRight(s[..|s| - 1]) else s
  }

  /** `String.trim`: the longest middle part that neither starts nor ends with a character up to U+0020. */
  function Trim(s: string): (r: string)
  {
    TrimRight(TrimLeft(s))
  }

  lemma TrimTwice(s: string)
    ensures Trim(Trim(s)) == Trim(s)
  {
    var r := Trim(s);
    if |r| > 0 {
      assert TrimLeft(r) == r;
      assert TrimRight(r) == r;
    }
  }

  /** Text that neither starts nor ends with a blank is its own trim. */
  lemma TrimFixed(s: string)
    requires |s| > 0 ==> s[0] > ' ' && s[|s| - 1] > ' '
    ensures Trim(s) == s
  {
  }

  predicate IsBlank(s: string) { Trim(s) == "" }

  predicate StartsWith(s: string, prefix: string)
  {
    |prefix| <= |s| && s[..|prefix|] == prefix
  }

  predicate EndsWith(s: string, suffix: string)
  {
    |suffix| <= |s| && s[|s| - |suffix|..] == suffix
  }

  lemma StartsWithConcat(p: string, q: string)
    ensures StartsWith(p + q, p)
  {
    assert (p + q)[..|p|] == p;
  }

  lemma EndsWithConcat(p: string, q: string)
    ensures EndsWith(p + q, q)
  {
    assert (p + q)[|p + q| - |q|..] == q;
  }

  lemma StartsWithExtend(s: string, p: string, q: string)
    requires StartsWith(s, p)
    ensures StartsWith(s + q, p)
  {
    assert (s + q)[..|p|] == s[..|p|];
  }

  lemma EndsWithExtend(p: string, s: string, t: string)
    requires EndsWith(s, t)
    ensures EndsWith(p + s, t)
  {
    assert (p + s)[|p + s| - |t|..] == s[|s| - |t|..];
  }

  lemma EndsWithConcat3(p: string, q: string, r: string)
    ensures EndsWith(p + q + r, q + r)
  {
    assert (p + q + r)[|p + q + r| - |q + r|..] == q + r;
  }

  /** Joining a list that starts with `front` starts with the join of `front` and a separator. */
  lemma JoinStartsWith(sep: string, front: seq<string>, rest: seq<string>)
    requires |front| >= 1 && |rest| >= 1
    ensures StartsWith(Join(sep, front + rest), Join(sep, front) + sep)
  {
    JoinAppend(sep, front, rest);
    StartsWithConcat(Join(sep, front) + sep, Join(sep, rest));
  }

  /** Joining a list that ends with `tail` ends with a separator and the join of `tail`. */
  lemma JoinEndsWith(sep: string, front: seq<string>, tail: seq<string>)
    requires |front| >= 1 && |tail| >= 1
    ensures EndsWith(Join(sep, front + tail), sep + Join(sep, tail))
  {
    JoinAppend(sep, front, tail);
    EndsWithConcat3(Join(sep, front), sep, Join(sep, tail));
  }

  /** `s.contains(sub)`: `sub` starts at some position of `s`. */
  predicate Contains(s: string, sub: string)
    decreases |s|
  {
    StartsWith(s, sub) || (|s| > 0 && Contains(s[1..], sub))
  }

  function ToLowerAscii(c: char): char
  {
    if 'A' <= c <= 'Z' then (c as int + 32) as char else c
  }

  /** `equalsIgnoreCase` for ASCII letters. */
  predicate EqualsIgnoreCase(a: string, b: string)
  {
    |a| == |b| && forall i :: 0 <= i < |a| ==> ToLowerAscii(a[i]) == ToLowerAscii(b[i])
  }

  /** `s.replaceAll("[...]", "")`: `s` without the characters in `drop`. */
  function RemoveChars(s: string, drop: set<char>): (r: string)
    ensures !HasAny(s, drop) ==> r == s
  {
    if |s| == 0 then ""
    else if s[0] in drop then RemoveChars(s[1..], drop)
    else [s[0]] + RemoveChars(s[1..], drop)
  }

  // ---------------------------------------------------------------------------
  // String.replace

  /**
   * `s.replace(target, replacement)`: every occurrence of `target`, scanning
   * from the left without overlaps, becomes `replacement`; an empty target
   * inserts the replacement around every character.
   */
  function Replace(s: string, target: string, replacement: string): string
    decreases |s|
  {
    if |target| == 0 then
      if |s| == 0 then replacement else replacement + [s[0]] + Replace(s[1..], target, replacement)
    else if |s| < |target| then s
    else if s[..|target|] == target then replacement + Replace(s[|target|..], target, replacement)
    else [s[0]] + Replace(s[1..], target, replacement)
  }

  /** The text between the occurrences that `Replace` finds. */
  function Segments(s: string, target: string): (r: seq<string>)
    requires |target| > 0
    ensures |r| >= 1
    decreases |s|
  {
    if |s| < |target| then [s]
    else if s[..|target|] == target then [""] + Segments(s[|target|..], target)
    else
      var rest := Segments(s[1..], target);
      [[s[0]] + rest[0]] + rest[1..]
  }

  lemma JoinPrepend(sep: string, c: char, parts: seq<string>)
    requires |parts| >= 1
    ensures Join(sep, [[c] + parts[0]] + parts[1..]) == [c] + Join(sep, parts)
  {
    var ps := [[c] + parts[0]] + parts[1..];
    if |parts| > 1 {
      assert ps[1..] == parts[1..];
    }
  }

  /**
   * `Replace` is the same as cutting `s` at every occurrence of the target and
   * gluing the pieces back with the replacement; gluing them with the target
   * gives `s` back.
   */
  lemma ReplaceBySegments(s: string, target: string, replacement: string)
    requires |target| > 0
    ensures Join(target, Segments(s, target)) == s
    ensures Replace(s, target, replacement) == Join(replacement, Segments(s, target))
  {
    SegmentsJoin(s, target);
    ReplaceIsJoin(s, target, replacement);
  }

  lemma {:induction false} SegmentsJoin(s: string, target: string)
    requires |target| > 0
    ensures Join(target, Segments(s, target)) == s
    decreases |s|
  {
    if |s| < |target| {
    } else if s[..|target|] == target {
      var tail := s[|target|..];
      SegmentsJoin(tail, target);
      var rest := Segments(tail, target);
      assert Segments(s, target) == [""] + rest;
      JoinCons(target, "", rest);
      assert "" + target + tail == s[..|target|] + tail == s;
    } else {
      SegmentsJoin(s[1..], target);
      JoinPrepend(target, s[0], Segments(s[1..], target));
      assert s == [s[0]] + s[1..];
    }
  }

  lemma {:induction false} ReplaceIsJoin(s: string, target: string, replacement: string)
    requires |target| > 0
    ensures Replace(s, target, replacement) == Join(replacement, Segments(s, target))
    decreases |s|
  {
    if |s| < |target| {
    } else if s[..|target|] == target {
      ReplaceIsJoin(s[|target|..], target, replacement);
      var rest := Segments(s[|target|..], target);
      JoinCons(replacement, "", rest);
      assert "" + replacement == replacement;
    } else {
      ReplaceIsJoin(s[1..], target, replacement);
      JoinPrepend(replacement, s[0], Segments(s[1..], target));
    }
  }

  /** A string without the target is left as it is. */
  lemma {:induction false} ReplaceAbsent(s: string, target: string, replacement: string)
    requires |target| > 0 && !Contains(s, target)
    ensures Replace(s, target, replacement) == s
    decreases |s|
  {
    if |s| >= |target| {
      ReplaceAbsent(s[1..], target, replacement);
      assert s == [s[0]] + s[1..];
    }
  }

  // ---------------------------------------------------------------------------
  // Arithmetic and characters shared by the parsers

  /** Java's integer `/` by a positive divisor: the quotient rounded toward zero. */
  function DivTrunc(a: int, d: int): int
    requires d > 0
  {
    if a >= 0 then a / d else -((-a) / d)
  }

  /** The truncated quotient never moves away from zero past `a`, and misses it by less than one divisor. */
  lemma DivTruncBounds(a: int, d: int)
    requires d > 0
    ensures var q := DivTrunc(a, d);
      (a >= 0 ==> 0 <= q && q * d <= a < q * d + d)
      && (a < 0 ==> q <= 0 && a <= q * d < a + d)
  {
    var n := if a >= 0 then a else -a;
    var p := n / d;
    DivNonNegative(n, d);
    if a < 0 {
      NegateTimes(p, d);
    }
  }

  lemma DivNonNegative(n: int, d: int)
    requires n >= 0 && d > 0
    ensures 0 <= n / d && (n / d) * d <= n < (n / d) * d + d
  {
    var p := n / d;
    assert n == d * p + n % d;
    assert p * d == d * p;
    if p < 0 {
      NegativeTimes(p, d);
    }
  }

  lemma NegativeTimes(p: int, d: int)
    requires p < 0 && d > 0
    ensures d * p <= -d
  {
  }

  lemma NegateTimes(p: int, d: int)
    ensures (-p) * d == -(p * d)
  {
  }

  /** A character of `a + b` from the set occurs in `a` or in `b`. */
  lemma HasAnyConcat(a: string, b: string, cs: set<char>)
    ensures HasAny(a + b, cs) <==> HasAny(a, cs) || HasAny(b, cs)
  {
    var ab := a + b;
    if HasAny(ab, cs) {
      var i :| 0 <= i < |ab| && ab[i] in cs;
      if i < |a| { assert a[i] == ab[i]; } else { assert b[i - |a|] == ab[i]; }
    }
    if HasAny(a, cs) {
      var i :| 0 <= i < |a| && a[i] in cs;
      assert ab[i] == a[i];
    }
    if HasAny(b, cs) {
      var i :| 0 <= i < |b| && b[i] in cs;
      assert ab[|a| + i] == b[i];
    }
  }

  /** The decimal text of a number holds no character other than digits and '-'. */
  lemma IntToStringFree(n: int, cs: set<char>)
    requires '-' !in cs && forall c :: c in cs ==> !IsDigit(c)
    ensures !HasAny(IntToString(n), cs)
  {
    IntToStringChars(n);
  }

  /** Every piece is empty exactly when every character is a separator. */
  lemma {:induction false} PiecesAllEmpty(s: string, c: char)
    ensures (forall i :: 0 <= i < |Pieces(s, {c})| ==> Pieces(s, {c})[i] == "") <==> (forall i :: 0 <= i < |s| ==> s[i] == c)
    decreases |s|
  {
    if |s| > 0 {
      PiecesAllEmpty(s[1..], c);
      var rest := Pieces(s[1..], {c});
      var ps := Pieces(s, {c});
      if s[0] == c {
        assert ps == [""] + rest;
        if forall i :: 0 <= i < |s[1..]| ==> s[1..][i] == c {
          forall i | 0 <= i < |s| ensures s[i] == c {
            if i > 0 { assert s[i] == s[1..][i - 1]; }
          }
        }
        if forall i :: 0 <= i < |s| ==> s[i] == c {
          forall i | 0 <= i < |s[1..]| ensures s[1..][i] == c {
            assert s[1..][i] == s[i + 1];
          }
        }
        forall i | 0 <= i < |rest| ensures ps[i + 1] == rest[i] {
        }
      } else {
        assert ps[0] == [s[0]] + rest[0];
      }
    }
  }

  /** `split(c)` gives no piece at all exactly for a non-empty run of `c`. */
  lemma SplitAllSeparators(s: string, c: char)
    ensures |Split(s, c)| == 0 <==> |s| > 0 && forall i :: 0 <= i < |s| ==> s[i] == c
  {
    PiecesAllEmpty(s, c);
    if |s| > 0 && forall i :: 0 <= i < |s| ==> s[i] == c {
      assert s[0] == c;
      assert HasAny(s, {c});
    }
  }

  /** Every string with a blank in front. */
  function Indented(xs: seq<string>): (r: seq<string>)
    ensures |r| == |xs|
    ensures forall i :: 0 <= i < |xs| ==> r[i] == " " + xs[i]
  {
    seq(|xs|, i requires 0 <= i < |xs| => " " + xs[i])
  }

  /** Joining with ", " is joining with "," once every later piece carries its blank. */
  lemma {:induction false} JoinIndented(xs: seq<string>)
    requires |xs| >= 1
    ensures " " + Join(", ", xs) == Join([','], Indented(xs))
    decreases |xs|
  {
    if |xs| > 1 {
      JoinIndented(xs[1..]);
      var ind := Indented(xs);
      assert ind == [ind[0]] + Indented(xs[1..]);
      JoinCons([','], ind[0], Indented(xs[1..]));
      assert " " + Join(", ", xs) == (" " + xs[0]) + [','] + (" " + Join(", ", xs[1..]));
    }
  }

  lemma JoinCommaSpace(xs: seq<string>)
    requires |xs| >= 1
    ensures Join(", ", xs) == Join([','], [xs[0]] + Indented(xs[1..]))
  {
    if |xs| > 1 {
      var rest := xs[1..];
      var ind := Indented(rest);
      var j := Join(", ", rest);
      assert Join(", ", xs) == xs[0] + ", " + j;
      assert Join([','], [xs[0]] + ind) == xs[0] + [','] + (" " + j) by {
        JoinIndented(rest);
        JoinCons([','], xs[0], ind);
      }
      CommaSpace(xs[0], j);
    } else {
      assert [xs[0]] + Indented(xs[1..]) == [xs[0]];
    }
  }

  lemma CommaSpace(a: string, b: string)
    ensures a + ", " + b == a + [','] + (" " + b)
  {
    var x := a + ", " + b;
    var y := a + [','] + (" " + b);
    assert |x| == |y|;
    forall i | 0 <= i < |x| ensures x[i] == y[i] {
      if i < |a| {
      } else if i < |a| + 2 {
      } else {
        assert x[i] == b[i - |a| - 2];
      }
    }
  }

  /** Text put before a join sticks to the first piece. */
  lemma JoinPrefixFirst(sep: string, pre: string, ps: seq<string>)
    requires |ps| >= 1
    ensures pre + Join(sep, ps) == Join(sep, [pre + ps[0]] + ps[1..])
  {
    if |ps| > 1 {
      JoinCons(sep, pre + ps[0], ps[1..]);
    }
  }

  /** Text put after a join sticks to the last piece. */
  lemma {:induction false} JoinSuffixLast(sep: string, ps: seq<string>, post: string)
    requires |ps| >= 1
    ensures Join(sep, ps) + post == Join(sep, ps[..|ps| - 1] + [ps[|ps| - 1] + post])
    decreases |ps|
  {
    if |ps| > 1 {
      var n := |ps|;
      JoinSuffixLast(sep, ps[1..], post);
      var tail := ps[1..][..n - 2] + [ps[n - 1] + post];
      var whole := ps[..n - 1] + [ps[n - 1] + post];
      assert whole == [ps[0]] + tail;
      JoinCons(sep, ps[0], tail);
    }
  }

  /** Removing characters piece by piece. */
  lemma {:induction false} RemoveCharsAppend(a: string, b: string, drop: set<char>)
    ensures RemoveChars(a + b, drop) == RemoveChars(a, drop) + RemoveChars(b, drop)
    decreases |a|
  {
    if |a| > 0 {
      var ab := a + b;
      assert ab[0] == a[0];
      assert ab[1..] == a[1..] + b;
      RemoveCharsAppend(a[1..], b, drop);
    } else {
      assert a + b == b;
    }
  }

  lemma RemoveCharsConcat(a: string, b: string, c: string, drop: set<char>)
    ensures RemoveChars(a + b + c, drop) == RemoveChars(a, drop) + RemoveChars(b, drop) + RemoveChars(c, drop)
  {
    RemoveCharsAppend(a + b, c, drop);
    RemoveCharsAppend(a, b, drop);
  }

  /** A trimmed text keeps its trim with one blank put in front. */
  lemma TrimLeadingBlank(lead: string, k: string)
    requires lead == "" || lead == " "
    requires Trim(k) == k
    ensures Trim(lead + k) == k
  {
    if lead == " " {
      assert (lead + k)[1..] == k;
      assert TrimLeft(lead + k) == TrimLeft(k);
    }
  }
}
