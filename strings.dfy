/**
 * The JavaScript string and number primitives that the library relies on:
 * `indexOf`, `includes`, `startsWith`, `split`, `join`, template-literal
 * conversion of integers, `parseInt(s, 10)` and the ordering `Array.prototype.sort`
 * uses on strings.
 */
module Strings {

  /** JavaScript's `s.indexOf(c)` for a one-character needle. */
  function IndexOfChar(s: string, c: char): (r: int)
    ensures -1 <= r < |s|
    ensures r == -1 <==> c !in s
    ensures r >= 0 ==> s[r] == c && c !in s[..r]
  {
    if |s| == 0 then -1
    else if s[0] == c then 0
    else
      var j := IndexOfChar(s[1..], c);
      assert s[1..][..j + 1] == s[1..j + 2] by { if j >= 0 { assert s[1..][..j] == s[1..j + 1]; } }
      if j < 0 then -1 else j + 1
  }

  /** The first occurrence of `c` is at `n` when `c` occurs at `n` and not before. */
  lemma IndexOfCharAt(s: string, c: char, n: int)
    requires 0 <= n < |s| && s[n] == c && c !in s[..n]
    ensures IndexOfChar(s, c) == n
  {
  }

  /** An occurrence of `sub` at position `i` of `s`. */
  ghost predicate OccursAt(s: string, sub: string, i: int)
  {
    0 <= i && i + |sub| <= |s| && s[i..i + |sub|] == sub
  }

  /** JavaScript's `s.indexOf(sub)`: the first position where `sub` occurs, or -1. */
  function FindSub(s: string, sub: string): (r: int)
    ensures -1 <= r <= |s|
    ensures r >= 0 ==> OccursAt(s, sub, r)
    ensures forall j :: 0 <= j && (r < 0 || j < r) ==> !OccursAt(s, sub, j)
    decreases |s|
  {
    if sub <= s then
      assert s[0..|sub|] == sub;
      0
    else if |s| == 0 then
      -1
    else
      var j := FindSub(s[1..], sub);
      assert forall i :: OccursAt(s[1..], sub, i) <==> OccursAt(s, sub, i + 1) by {
        forall i ensures OccursAt(s[1..], sub, i) <==> OccursAt(s, sub, i + 1) {
          if 0 <= i && i + |sub| <= |s[1..]| {
            assert s[1..][i..i + |sub|] == s[i + 1..i + 1 + |sub|];
          }
        }
      }
      assert !OccursAt(s, sub, 0);
      assert forall i :: 0 < i ==> (OccursAt(s, sub, i) <==> OccursAt(s[1..], sub, i - 1)) by {
        forall i | 0 < i ensures OccursAt(s, sub, i) <==> OccursAt(s[1..], sub, i - 1) {
          assert OccursAt(s[1..], sub, i - 1) <==> OccursAt(s, sub, i - 1 + 1);
        }
      }
      if j < 0 then -1 else j + 1
  }

  /** JavaScript's `s.includes(sub)`. */
  function Includes(s: string, sub: string): (r: bool)
    ensures r <==> exists i :: OccursAt(s, sub, i)
  {
    FindSub(s, sub) >= 0
  }

  /** JavaScript's `s.startsWith(prefix)`. */
  predicate StartsWith(s: string, prefix: string)
  {
    prefix <= s
  }

  /** `pieces.join(sep)` for a one-character separator. */
  function Join(pieces: seq<string>, sep: char): string
  {
    if |pieces| == 0 then ""
    else if |pieces| == 1 then pieces[0]
    else pieces[0] + [sep] + Join(pieces[1..], sep)
  }

  lemma JoinCons(x: string, rest: seq<string>, sep: char)
    requires |rest| >= 1
    ensures Join([x] + rest, sep) == x + [sep] + Join(rest, sep)
  {
    assert ([x] + rest)[1..] == rest;
  }

  /** A character that is neither the separator nor in any piece is not in the join. */
  lemma {:induction false} JoinExcludes(pieces: seq<string>, sep: char, c: char)
    requires c != sep
    requires forall i :: 0 <= i < |pieces| ==> c !in pieces[i]
    ensures c !in Join(pieces, sep)
  {
    if |pieces| > 1 {
      JoinExcludes(pieces[1..], sep, c);
    }
  }

  /** `pieces.join('')`. */
  function Concat(pieces: seq<string>): string
  {
    if |pieces| == 0 then "" else pieces[0] + Concat(pieces[1..])
  }

  /**
   * JavaScript's `s.split(sep)` for a one-character separator: the pieces between
   * separators, empty ones included, and always at least one piece.
   */
  function Split(s: string, sep: char): (r: seq<string>)
    ensures |r| >= 1
    ensures forall i :: 0 <= i < |r| ==> sep !in r[i]
    ensures Join(r, sep) == s
    decreases |s|
  {
    var i := IndexOfChar(s, sep);
    if i < 0 then [s]
    else
      var rest := Split(s[i + 1..], sep);
      var r := [s[..i]] + rest;
      assert r[1..] == rest;
      assert s == s[..i] + [sep] + s[i + 1..];
      r
  }

  /** A separator-free leading piece comes off first. */
  lemma SplitCons(a: string, sep: char, b: string)
    requires sep !in a
    ensures Split(a + [sep] + b, sep) == [a] + Split(b, sep)
  {
    var s := a + [sep] + b;
    assert s[..|a|] == a;
    IndexOfCharAt(s, sep, |a|);
    assert s[|a| + 1..] == b;
  }

  /** Splitting a join whose leading pieces have no separator gives those pieces back, then the split of the last. */
  lemma {:induction false} SplitJoinLast(pieces: seq<string>, last: string, sep: char)
    requires forall i :: 0 <= i < |pieces| ==> sep !in pieces[i]
    ensures Split(Join(pieces + [last], sep), sep) == pieces + Split(last, sep)
  {
    if |pieces| > 0 {
      var p, tail := pieces[0], pieces[1..];
      var j := Join(tail + [last], sep);
      ConsAppend(p, tail, [last]);
      assert pieces == [p] + tail;
      JoinCons(p, tail + [last], sep);
      SplitCons(p, sep, j);
      SplitJoinLast(tail, last, sep);
      ConsAppend(p, tail, Split(last, sep));
    } else {
      assert pieces + [last] == [last];
    }
  }

  lemma ConsAppend<T>(h: T, ys: seq<T>, zs: seq<T>)
    ensures [h] + (ys + zs) == ([h] + ys) + zs
  {
  }

  /** Splitting undoes joining when no piece contains the separator. */
  lemma {:induction false} SplitJoin(pieces: seq<string>, sep: char)
    requires |pieces| >= 1
    requires forall i :: 0 <= i < |pieces| ==> sep !in pieces[i]
    ensures Split(Join(pieces, sep), sep) == pieces
  {
    if |pieces| > 1 {
      var s := Join(pieces, sep);
      var p := pieces[0];
      assert s == p + [sep] + Join(pieces[1..], sep);
      assert s[..|p|] == p;
      assert sep !in s[..|p|];
      assert s[|p|] == sep;
      var i := IndexOfChar(s, sep);
      assert i == |p|;
      assert s[i + 1..] == Join(pieces[1..], sep);
      SplitJoin(pieces[1..], sep);
    } else {
      assert Join(pieces, sep) == pieces[0];
      assert IndexOfChar(pieces[0], sep) == -1;
    }
  }

  /** The character of a decimal digit. */
  function DigitChar(d: nat): char
    requires d < 10
  {
    "0123456789"[d]
  }

  predicate IsDigit(c: char)
  {
    '0' <= c <= '9'
  }

  /** Decimal digits of a natural number, as JavaScript prints an integer. */
  function NatToString(n: nat): (r: string)
    ensures |r| >= 1
    ensures forall i :: 0 <= i < |r| ==> IsDigit(r[i])
    decreases n
  {
    if n < 10 then [DigitChar(n)] else NatToString(n / 10) + [DigitChar(n % 10)]
  }

  /** The template-literal form `${n}` of an integer. */
  function IntToString(n: int): (r: string)
    ensures |r| >= 1
    ensures forall i :: 0 <= i < |r| ==> IsDigit(r[i]) || (i == 0 && r[i] == '-')
  {
    if n < 0 then "-" + NatToString(-n) else NatToString(n)
  }

  /** A JavaScript number as far as this library computes with it: an integer or NaN. */
  datatype JsNumber = Num(value: int) | NaN

  /** The white-space characters `parseInt` skips before the number (ECMA-262 StrWhiteSpaceChar). */
  predicate IsJsWhitespace(c: char)
  {
    c == '\t' || c == '\n' || c == '\U{000B}' || c == '\U{000C}' || c == '\r' || c == ' '
    || c == '\U{00A0}' || c == '\U{1680}' || ('\U{2000}' <= c <= '\U{200A}')
    || c == '\U{2028}' || c == '\U{2029}' || c == '\U{202F}' || c == '\U{205F}'
    || c == '\U{3000}' || c == '\U{FEFF}'
  }

  function TrimStart(s: string): (r: string)
    ensures |r| <= |s|
    ensures |r| > 0 ==> !IsJsWhitespace(r[0])
  {
    if |s| > 0 && IsJsWhitespace(s[0]) then TrimStart(s[1..]) else s
  }

  /** The longest prefix of `s` made of decimal digits. */
  function DigitPrefix(s: string): (r: string)
    ensures r <= s
    ensures forall i :: 0 <= i < |r| ==> IsDigit(r[i])
    ensures |r| < |s| ==> !IsDigit(s[|r|])
  {
    if |s| > 0 && IsDigit(s[0]) then [s[0]] + DigitPrefix(s[1..]) else ""
  }

  /** The value of a string of decimal digits. */
  function DigitsValue(ds: string): nat
    requires forall i :: 0 <= i < |ds| ==> IsDigit(ds[i])
  {
    if |ds| == 0 then 0
    else DigitsValue(ds[..|ds| - 1]) * 10 + DigitValue(ds[|ds| - 1])
  }

  function DigitValue(c: char): nat
    requires IsDigit(c)
  {
    (c as int) - ('0' as int)
  }

  /** `parseInt(s, 10)`: white space, an optional sign, then as many digits as there are. */
  function ParseInt(s: string): JsNumber
  {
    var t := TrimStart(s);
    if |t| > 0 && t[0] == '-' then SignedDigits(-1, t[1..])
    else if |t| > 0 && t[0] == '+' then SignedDigits(1, t[1..])
    else SignedDigits(1, t)
  }

  function SignedDigits(sign: int, t: string): JsNumber
  {
    var ds := DigitPrefix(t);
    if |ds| == 0 then NaN else Num(sign * DigitsValue(ds))
  }

  lemma {:induction false} NatToStringValue(n: nat)
    ensures DigitsValue(NatToString(n)) == n
    decreases n
  {
    var s := NatToString(n);
    if n >= 10 {
      NatToStringValue(n / 10);
      assert s[..|s| - 1] == NatToString(n / 10);
    }
  }

  lemma {:induction false} DigitPrefixOfDigits(s: string)
    requires forall i :: 0 <= i < |s| ==> IsDigit(s[i])
    ensures DigitPrefix(s) == s
  {
    if |s| > 0 {
      DigitPrefixOfDigits(s[1..]);
    }
  }

  /** `parseInt` reads back exactly the integer that `${n}` printed. */
  lemma ParseIntOfIntToString(n: int)
    ensures ParseInt(IntToString(n)) == Num(n)
  {
    var s := IntToString(n);
    NoLeadingWhitespace(s);
    if n < 0 {
      assert s == "-" + NatToString(-n);
      assert s[1..] == NatToString(-n);
      DigitsRead(NatToString(-n), -n);
    } else {
      DigitsRead(s, n);
    }
  }

  lemma NoLeadingWhitespace(s: string)
    requires |s| > 0 && (IsDigit(s[0]) || s[0] == '-')
    ensures TrimStart(s) == s
  {
    assert !IsJsWhitespace(s[0]);
  }

  lemma DigitsRead(s: string, n: nat)
    requires s == NatToString(n)
    ensures SignedDigits(1, s) == Num(n) && SignedDigits(-1, s) == Num(-(n as int))
  {
    DigitPrefixOfDigits(s);
    NatToStringValue(n);
  }

  /**
   * The default string order of `Array.prototype.sort`, lexicographic with a proper
   * prefix before its extensions. Characters are compared by code point; JavaScript
   * compares UTF-16 code units, which gives the same order on strings with no
   * character above U+FFFF.
   */
  predicate LessEq(a: string, b: string)
    decreases |a|
  {
    |a| == 0 || (|b| > 0 && (a[0] < b[0] || (a[0] == b[0] && LessEq(a[1..], b[1..]))))
  }

  lemma {:induction false} LessEqReflexive(a: string)
    ensures LessEq(a, a)
    decreases |a|
  {
    if |a| > 0 {
      LessEqReflexive(a[1..]);
    }
  }

  lemma {:induction false} LessEqTotal(a: string, b: string)
    ensures LessEq(a, b) || LessEq(b, a)
    decreases |a|
  {
    if |a| > 0 && |b| > 0 && a[0] == b[0] {
      LessEqTotal(a[1..], b[1..]);
    }
  }

  lemma {:induction false} LessEqTransitive(a: string, b: string, c: string)
    requires LessEq(a, b) && LessEq(b, c)
    ensures LessEq(a, c)
    decreases |a|
  {
    if |a| > 0 && a[0] == b[0] && b[0] == c[0] {
      LessEqTransitive(a[1..], b[1..], c[1..]);
    }
  }

  lemma {:induction false} LessEqAntisymmetric(a: string, b: string)
    requires LessEq(a, b) && LessEq(b, a)
    ensures a == b
    decreases |a|
  {
    if |a| > 0 {
      LessEqAntisymmetric(a[1..], b[1..]);
      assert a == [a[0]] + a[1..] && b == [b[0]] + b[1..];
    }
  }
}
