/** The JavaScript string operations the dashboard relies on: `split`/`join` on one
    separator character, `trim`, `toLowerCase`, `includes`, `startsWith`, `padStart`,
    `String(n)` for integers and `parseInt` without a radix. */
module Text {

  // ---------------------------------------------------------------------------
  // Whitespace and trim
  // ---------------------------------------------------------------------------

  /** The characters `trim` and `parseInt` skip: ECMAScript WhiteSpace and LineTerminator. */
  predicate IsSpace(c: char) {
    || c == ' ' || c == '\t' || c == '\n' || c == '\r' || c == '\U{0B}' || c == '\U{0C}'
    || c == '\U{A0}' || c == '\U{FEFF}' || c == '\U{1680}' || ('\U{2000}' <= c <= '\U{200A}')
    || c == '\U{2028}' || c == '\U{2029}' || c == '\U{202F}' || c == '\U{205F}' || c == '\U{3000}'
  }

  predicate AllSpace(s: string) {
    forall i :: 0 <= i < |s| ==> IsSpace(s[i])
  }

  /** The number of whitespace characters at the front of `s`. */
  function LeadingSpaces(s: string): (n: nat)
    ensures n <= |s|
    ensures forall i :: 0 <= i < n ==> IsSpace(s[i])
    ensures n < |s| ==> !IsSpace(s[n])
  {
    if s != [] && IsSpace(s[0]) then 1 + LeadingSpaces(s[1..]) else 0
  }

  /** The number of whitespace characters at the end of `s`. */
  function TrailingSpaces(s: string): (n: nat)
    ensures n <= |s|
    ensures forall i :: |s| - n <= i < |s| ==> IsSpace(s[i])
    ensures n < |s| ==> !IsSpace(s[|s| - 1 - n])
  {
    if s != [] && IsSpace(s[|s| - 1]) then 1 + TrailingSpaces(s[..|s| - 1]) else 0
  }

  /** `s.trim()`. */
  function Trim(s: string): (r: string)
    ensures |r| <= |s|
    ensures r == [] <==> AllSpace(s)
    ensures r != [] ==> !IsSpace(r[0]) && !IsSpace(r[|r| - 1])
  {
    var t := s[LeadingSpaces(s)..];
    assert forall i :: 0 <= i < |t| ==> t[i] == s[LeadingSpaces(s) + i];
    t[..|t| - TrailingSpaces(t)]
  }

  /** A string without surrounding whitespace. */
  predicate IsTrimmed(s: string) {
    s == [] || (!IsSpace(s[0]) && !IsSpace(s[|s| - 1]))
  }

  lemma LeadingSpacesAround(a: string, r: string)
    requires AllSpace(a) && (r == [] || !IsSpace(r[0]))
    ensures LeadingSpaces(a + r) == |a|
    decreases |a|
  {
    if a != [] {
      assert (a + r)[1..] == a[1..] + r;
      LeadingSpacesAround(a[1..], r);
    } else {
      assert a + r == r;
    }
  }

  lemma TrailingSpacesAround(r: string, b: string)
    requires AllSpace(b) && (r == [] || !IsSpace(r[|r| - 1]))
    ensures TrailingSpaces(r + b) == |b|
    decreases |b|
  {
    if b != [] {
      assert (r + b)[..|r + b| - 1] == r + b[..|b| - 1];
      TrailingSpacesAround(r, b[..|b| - 1]);
    } else {
      assert r + b == r;
    }
  }

  /** Trimming removes exactly the whitespace around a trimmed core: `trim` of
      `a + r + b` is `r` when `a` and `b` are whitespace and `r` is trimmed. */
  lemma {:induction false} TrimAround(a: string, r: string, b: string)
    requires AllSpace(a) && AllSpace(b) && IsTrimmed(r)
    ensures Trim(a + r + b) == r
  {
    var s := a + r + b;
    if r == [] {
      assert AllSpace(s) by {
        forall i | 0 <= i < |s| ensures IsSpace(s[i]) {
          if i < |a| { assert s[i] == a[i]; } else { assert s[i] == b[i - |a|]; }
        }
      }
    } else {
      LeadingSpacesAround(a, r + b);
      assert a + (r + b) == s;
      var t := s[|a|..];
      assert t == r + b;
      TrailingSpacesAround(r, b);
      assert t[..|t| - |b|] == r;
    }
  }

  /** Trimming is idempotent. */
  lemma {:induction false} TrimIdempotent(s: string)
    ensures Trim(Trim(s)) == Trim(s)
  {
    var r := Trim(s);
    TrimAround([], r, []);
    assert [] + r + [] == r;
  }

  // ---------------------------------------------------------------------------
  // Case, containment, prefixes, padding
  // ---------------------------------------------------------------------------

  function LowerChar(c: char): char {
    if 'A' <= c <= 'Z' then (c as int + 32) as char else c
  }

  /** `s.toLowerCase()` on the ASCII letters. */
  function Lower(s: string): (r: string)
    ensures |r| == |s|
    ensures forall i :: 0 <= i < |s| ==> r[i] == LowerChar(s[i])
  {
    seq(|s|, i requires 0 <= i < |s| => LowerChar(s[i]))
  }

  /** `s.includes(sub)`: `sub` occurs in `s` at some position. */
  predicate Contains(s: string, sub: string)
    decreases |s|
  {
    sub <= s || (s != [] && Contains(s[1..], sub))
  }

  /** An occurrence at index `i` makes `includes` hold. */
  lemma {:induction false} ContainsAtIndex(s: string, sub: string, i: nat)
    requires i <= |s| && sub <= s[i..]
    ensures Contains(s, sub)
    decreases i
  {
    if i > 0 {
      assert s[1..][i - 1..] == s[i..];
      ContainsAtIndex(s[1..], sub, i - 1);
    } else {
      assert s[0..] == s;
    }
  }

  /** When `includes` holds there is an index where `sub` occurs. */
  lemma {:induction false} IndexOfContains(s: string, sub: string) returns (i: nat)
    requires Contains(s, sub)
    ensures i <= |s| && sub <= s[i..]
    decreases |s|
  {
    if sub <= s {
      i := 0;
      assert s[0..] == s;
    } else {
      var j := IndexOfContains(s[1..], sub);
      assert s[1..][j..] == s[j + 1..];
      i := j + 1;
    }
  }

  /** `s.startsWith(p)`. */
  predicate StartsWith(s: string, p: string) {
    p <= s
  }

  function Repeat(c: char, n: nat): (r: string)
    ensures |r| == n
    ensures forall i :: 0 <= i < n ==> r[i] == c
  {
    if n == 0 then [] else [c] + Repeat(c, n - 1)
  }

  /** `s.padStart(n, c)`. */
  function PadStart(s: string, n: nat, c: char): (r: string)
    ensures |r| == if |s| >= n then |s| else n
    ensures s <= r[|r| - |s|..] && r[|r| - |s|..] == s
    ensures forall i :: 0 <= i < |r| - |s| ==> r[i] == c
  {
    if |s| >= n then s else Repeat(c, n - |s|) + s
  }

  // ---------------------------------------------------------------------------
  // split and join on one separator character
  // ---------------------------------------------------------------------------

  /** `s.split(sep)` for a one-character separator: the maximal separator-free pieces,
      in order, empty pieces included; always at least one piece. */
  function Split(s: string, sep: char): (parts: seq<string>)
    ensures |parts| >= 1
    ensures forall i :: 0 <= i < |parts| ==> sep !in parts[i]
    decreases |s|
  {
    if s == [] then [""]
    else
      var rest := Split(s[1..], sep);
      if s[0] == sep then [""] + rest else [[s[0]] + rest[0]] + rest[1..]
  }

  /** `parts.join(sep)`. */
  function Join(parts: seq<string>, sep: char): string
    decreases |parts|
  {
    if |parts| == 0 then ""
    else if |parts| == 1 then parts[0]
    else parts[0] + [sep] + Join(parts[1..], sep)
  }

  lemma JoinCons(x: string, rest: seq<string>, sep: char)
    requires |rest| >= 1
    ensures Join([x] + rest, sep) == x + [sep] + Join(rest, sep)
  {
    assert ([x] + rest)[1..] == rest;
  }

  lemma JoinPrepend(c: char, parts: seq<string>, sep: char)
    requires |parts| >= 1
    ensures Join([[c] + parts[0]] + parts[1..], sep) == [c] + Join(parts, sep)
  {
    var q := [[c] + parts[0]] + parts[1..];
    if |parts| == 1 {
    } else {
      assert q[1..] == parts[1..];
      assert Join(q, sep) == [c] + parts[0] + [sep] + Join(parts[1..], sep);
    }
  }

  /** Joining one more piece appends the separator and the piece. */
  lemma {:induction false} JoinSnoc(parts: seq<string>, x: string, sep: char)
    requires |parts| >= 1
    ensures Join(parts + [x], sep) == Join(parts, sep) + [sep] + x
    decreases |parts|
  {
    var q := parts + [x];
    if |parts| == 1 {
      assert q[1..] == [x];
    } else {
      assert q[1..] == parts[1..] + [x];
      JoinSnoc(parts[1..], x, sep);
    }
  }

  /** Joining the pieces of a split with the same separator gives back the string. */
  lemma {:induction false} JoinSplit(s: string, sep: char)
    ensures Join(Split(s, sep), sep) == s
    decreases |s|
  {
    if s != [] {
      var rest := Split(s[1..], sep);
      JoinSplit(s[1..], sep);
      if s[0] == sep {
        JoinCons("", rest, sep);
        assert [s[0]] + s[1..] == s;
      } else {
        JoinPrepend(s[0], rest, sep);
        assert [s[0]] + s[1..] == s;
      }
    }
  }

  /** A string without the separator splits into itself alone. */
  lemma {:induction false} SplitNoSep(s: string, sep: char)
    requires sep !in s
    ensures Split(s, sep) == [s]
    decreases |s|
  {
    if s != [] {
      assert sep !in s[1..] by { assert forall c :: c in s[1..] ==> c in s; }
      SplitNoSep(s[1..], sep);
      assert [s[0]] + s[1..] == s;
    }
  }

  /** A string containing the separator splits into at least two pieces. */
  lemma {:induction false} SplitWithSep(s: string, sep: char)
    requires sep in s
    ensures |Split(s, sep)| >= 2
    decreases |s|
  {
    if s[0] != sep {
      assert sep in s[1..] by {
        var i :| 0 <= i < |s| && s[i] == sep;
        assert s[1..][i - 1] == sep;
      }
      SplitWithSep(s[1..], sep);
    }
  }

  /** Splitting `a + sep + b` with `a` separator-free puts `a` first, then the pieces of `b`. */
  lemma {:induction false} SplitConcat(a: string, b: string, sep: char)
    requires sep !in a
    ensures Split(a + [sep] + b, sep) == [a] + Split(b, sep)
    decreases |a|
  {
    var s := a + [sep] + b;
    if a == [] {
      assert s[1..] == b;
    } else {
      assert s[1..] == a[1..] + [sep] + b;
      assert sep !in a[1..] by { assert forall c :: c in a[1..] ==> c in a; }
      SplitConcat(a[1..], b, sep);
      assert [a[0]] + a[1..] == a;
    }
  }

  /** Splitting a join of separator-free pieces gives back the pieces. */
  lemma {:induction false} SplitJoin(parts: seq<string>, sep: char)
    requires |parts| >= 1
    requires forall i :: 0 <= i < |parts| ==> sep !in parts[i]
    ensures Split(Join(parts, sep), sep) == parts
    decreases |parts|
  {
    if |parts| == 1 {
      SplitNoSep(parts[0], sep);
    } else {
      SplitJoin(parts[1..], sep);
      SplitConcat(parts[0], Join(parts[1..], sep), sep);
      assert [parts[0]] + parts[1..] == parts;
    }
  }

  // ---------------------------------------------------------------------------
  // Integers as text: String(n) and parseInt
  // ---------------------------------------------------------------------------

  predicate IsDigit(c: char) {
    '0' <= c <= '9'
  }

  function DigitChar(d: nat): (c: char)
    requires d < 10
    ensures IsDigit(c) && c as int - '0' as int == d
  {
    ('0' as int + d) as char
  }

  /** `String(n)` for a non-negative integer: its decimal digits, without leading zeros. */
  function NatToString(n: nat): (s: string)
    ensures 1 <= |s|
    ensures forall i :: 0 <= i < |s| ==> IsDigit(s[i])
    ensures n > 0 ==> s[0] != '0'
    ensures n == 0 ==> s == "0"
    decreases n
  {
    if n < 10 then [DigitChar(n)] else NatToString(n / 10) + [DigitChar(n % 10)]
  }

  /** `String(i)` for any integer. */
  function IntToString(i: int): (s: string)
    ensures 1 <= |s|
    ensures s[0] == '-' <==> i < 0
  {
    if i < 0 then "-" + NatToString(-i) else NatToString(i)
  }

  /** The value of `c` as a digit in base 10 or 16, or -1 when it is not one. */
  function DigitValue(c: char, radix: nat): int {
    var v :=
      if '0' <= c <= '9' then c as int - '0' as int
      else if 'a' <= c <= 'f' then c as int - 'a' as int + 10
      else if 'A' <= c <= 'F' then c as int - 'A' as int + 10
      else -1;
    if 0 <= v < radix then v else -1
  }

  /** The number of leading characters of `s` that are digits in `radix`. */
  function LeadingDigits(s: string, radix: nat): (n: nat)
    ensures n <= |s|
    ensures forall i :: 0 <= i < n ==> DigitValue(s[i], radix) >= 0
    ensures n < |s| ==> DigitValue(s[n], radix) < 0
  {
    if s != [] && DigitValue(s[0], radix) >= 0 then 1 + LeadingDigits(s[1..], radix) else 0
  }

  /** The value of a string of digits in `radix`, most significant first. */
  function DigitsValue(s: string, radix: nat): nat
    requires forall i :: 0 <= i < |s| ==> DigitValue(s[i], radix) >= 0
  {
    if s == [] then 0
    else DigitsValue(s[..|s| - 1], radix) * radix + DigitValue(s[|s| - 1], radix)
  }

  /** A JavaScript number produced by `parseInt`: an integer or NaN. */
  datatype Num = Int(value: int) | NaN

  /** Truthiness of a number: NaN and 0 are falsy. */
  predicate NumTruthy(n: Num) {
    n.Int? && n.value != 0
  }

  /** `parseInt(s)` with no radix: skip leading whitespace, an optional sign, a `0x`/`0X`
      prefix selecting base 16, then the longest run of digits; NaN when there is none. */
  function ParseInt(s: string): (r: Num)
    ensures AllSpace(s) ==> r == NaN
  {
    var t := s[LeadingSpaces(s)..];
    var negative := t != [] && t[0] == '-';
    var u := if t != [] && (t[0] == '-' || t[0] == '+') then t[1..] else t;
    var hex := |u| >= 2 && u[0] == '0' && (u[1] == 'x' || u[1] == 'X');
    var radix := if hex then 16 else 10;
    var v := if hex then u[2..] else u;
    var k := LeadingDigits(v, radix);
    if k == 0 then NaN
    else
      var m: int := DigitsValue(v[..k], radix);
      Int(if negative then -m else m)
  }

  lemma {:induction false} NatToStringValue(n: nat)
    ensures forall i :: 0 <= i < |NatToString(n)| ==> DigitValue(NatToString(n)[i], 10) >= 0
    ensures DigitsValue(NatToString(n), 10) == n
    decreases n
  {
    var s := NatToString(n);
    assert forall i :: 0 <= i < |s| ==> DigitValue(s[i], 10) == s[i] as int - '0' as int;
    if n >= 10 {
      NatToStringValue(n / 10);
      assert s[..|s| - 1] == NatToString(n / 10);
    }
  }

  /** `parseInt` reads back what `String` printed. */
  lemma {:induction false} ParseIntOfIntToString(i: int)
    ensures ParseInt(IntToString(i)) == Int(i)
  {
    ParseIntOfIntToStringThen(i, []);
    assert IntToString(i) + [] == IntToString(i);
  }

  /** `parseInt` stops at the first character that is not a digit, so a printed
      number followed by other text still reads back as that number. */
  lemma {:induction false} ParseIntOfIntToStringThen(i: int, rest: string)
    requires rest == [] || (DigitValue(rest[0], 10) < 0 && rest[0] != 'x' && rest[0] != 'X')
    ensures ParseInt(IntToString(i) + rest) == Int(i)
  {
    var n: nat := if i < 0 then -i else i;
    var digits := NatToString(n);
    var u := digits + rest;
    PrintedDigitsThen(n, rest);
    if i < 0 {
      assert IntToString(i) == ['-'] + digits;
      assert IntToString(i) + rest == ['-'] + u;
      ParseIntMinusDigits(u);
    } else {
      assert IntToString(i) == digits;
      ParseIntDigits(u);
    }
  }

  /** A printed natural number followed by such text: its digits are exactly the
      leading digits, they spell the number, and the text does not start like `0x`. */
  lemma PrintedDigitsThen(n: nat, rest: string)
    requires rest == [] || (DigitValue(rest[0], 10) < 0 && rest[0] != 'x' && rest[0] != 'X')
    ensures var u := NatToString(n) + rest;
            u != [] && IsDigit(u[0]) && !(|u| >= 2 && u[0] == '0' && (u[1] == 'x' || u[1] == 'X'))
            && LeadingDigits(u, 10) == |NatToString(n)| && u[..|NatToString(n)|] == NatToString(n)
            && DigitsValue(NatToString(n), 10) == n
  {
    var digits := NatToString(n);
    NatToStringValue(n);
    NotHexPrefix(n, rest);
    LeadingDigitsThen(digits, rest, 10);
    assert (digits + rest)[..|digits|] == digits;
  }

  /** `parseInt` of text that starts with a decimal digit and not with `0x`. */
  lemma ParseIntDigits(u: string)
    requires u != [] && IsDigit(u[0]) && !(|u| >= 2 && u[0] == '0' && (u[1] == 'x' || u[1] == 'X'))
    ensures LeadingDigits(u, 10) > 0
    ensures ParseInt(u) == Int(DigitsValue(u[..LeadingDigits(u, 10)], 10))
  {
    assert !IsSpace(u[0]);
    assert LeadingSpaces(u) == 0;
    assert u[0..] == u;
    assert DigitValue(u[0], 10) >= 0;
  }

  /** The same text after a minus sign reads back negated. */
  lemma ParseIntMinusDigits(u: string)
    requires u != [] && IsDigit(u[0]) && !(|u| >= 2 && u[0] == '0' && (u[1] == 'x' || u[1] == 'X'))
    ensures LeadingDigits(u, 10) > 0
    ensures ParseInt(['-'] + u) == Int(0 - DigitsValue(u[..LeadingDigits(u, 10)], 10))
  {
    var s := ['-'] + u;
    assert !IsSpace(s[0]);
    assert LeadingSpaces(s) == 0;
    var t := s[LeadingSpaces(s)..];
    assert t == s;
    assert t != [] && t[0] == '-';
    assert t[1..] == u;
    assert DigitValue(u[0], 10) >= 0;
    var k := LeadingDigits(u, 10);
    assert k > 0;
  }

  /** A printed number followed by such text never starts like `0x`. */
  lemma NotHexPrefix(n: nat, rest: string)
    requires rest == [] || (rest[0] != 'x' && rest[0] != 'X')
    ensures var u := NatToString(n) + rest; !(|u| >= 2 && u[0] == '0' && (u[1] == 'x' || u[1] == 'X'))
  {
    var u := NatToString(n) + rest;
    if |u| >= 2 && u[0] == '0' {
      assert n == 0;
      assert u[1] == rest[0];
    }
  }

  lemma {:induction false} LeadingDigitsThen(d: string, rest: string, radix: nat)
    requires forall j :: 0 <= j < |d| ==> DigitValue(d[j], radix) >= 0
    requires rest == [] || DigitValue(rest[0], radix) < 0
    ensures LeadingDigits(d + rest, radix) == |d|
    decreases |d|
  {
    if d != [] {
      LeadingDigitsThen(d[1..], rest, radix);
      assert (d + rest)[1..] == d[1..] + rest;
    } else {
      assert d + rest == rest;
    }
  }

  lemma {:induction false} LeadingDigitsAll(s: string, radix: nat)
    requires forall j :: 0 <= j < |s| ==> DigitValue(s[j], radix) >= 0
    ensures LeadingDigits(s, radix) == |s|
    decreases |s|
  {
    if s != [] {
      LeadingDigitsAll(s[1..], radix);
    }
  }
}
