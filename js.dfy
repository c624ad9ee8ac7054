/**
 * The JavaScript string and number primitives the front end relies on,
 * written out over `seq<char>` and exact integers: `toLowerCase`,
 * `includes`, `trim`, `indexOf`, `replace` of one character, `split`,
 * `join`, relational comparison of strings, `parseInt`, `Number(...)`,
 * `String(...)` and `toFixed(2)`.
 *
 * JavaScript numbers are modelled as exact multiples of 0.01 (`JsNumber`),
 * with NaN kept apart; every amount of money in the model is such a number,
 * counted in cents.
 */
module Js {
  import opened Base

  // ---------------------------------------------------------------------
  // Characters

  predicate IsDigit(c: char) { '0' <= c <= '9' }

  /**
   * The characters `trim`, `parseInt` and `Number` skip: the white space of
   * ECMAScript (tab, vertical tab, form feed, U+FEFF and every space
   * separator of category Zs) and its line terminators.
   */
  predicate IsWhiteSpace(c: char)
  {
    c == '\t' || c == '\U{B}' || c == '\U{C}' || c == '\U{FEFF}'
    || IsSpaceSeparator(c)
    || c == '\n' || c == '\r' || c == '\U{2028}' || c == '\U{2029}'
  }

  /** The space separators (Unicode category Zs). */
  predicate IsSpaceSeparator(c: char)
  {
    c == ' ' || c == '\U{A0}' || c == '\U{1680}' || '\U{2000}' <= c <= '\U{200A}'
    || c == '\U{202F}' || c == '\U{205F}' || c == '\U{3000}'
  }

  /** `toLowerCase` on one character: ASCII letters and the Latin-1 capitals. */
  function LowerChar(c: char): (r: char)
    ensures 'A' <= c <= 'Z' ==> r as int == c as int + 32
    ensures !('A' <= c <= 'Z') && !('\U{C0}' <= c <= '\U{DE}') ==> r == c
  {
    if 'A' <= c <= 'Z' then (c as int + 32) as char
    else if '\U{C0}' <= c <= '\U{DE}' && c != '\U{D7}' then (c as int + 32) as char
    else c
  }

  /** The value of a decimal digit. */
  function DigitValue(c: char): (d: nat)
    requires IsDigit(c)
    ensures d < 10
  {
    c as int - '0' as int
  }

  function DigitChar(d: int): (c: char)
    requires 0 <= d < 10
    ensures IsDigit(c) && DigitValue(c) == d
  {
    ('0' as int + d) as char
  }

  // ---------------------------------------------------------------------
  // Strings

  /** `s.toLowerCase()` */
  function Lower(s: string): (r: string)
    ensures |r| == |s|
    ensures forall i :: 0 <= i < |s| ==> r[i] == LowerChar(s[i])
  {
    if s == [] then [] else [LowerChar(s[0])] + Lower(s[1..])
  }

  /** `s.includes(t)` */
  predicate Contains(s: string, t: string)
    decreases |s|
  {
    t <= s || (s != [] && Contains(s[1..], t))
  }

  /** `t` occurs in `s` starting at position `i`. */
  ghost predicate OccursAt(s: string, t: string, i: int)
  {
    0 <= i <= |s| - |t| && s[i..i + |t|] == t
  }

  /** `includes` holds exactly when `t` occurs at some position of `s`. */
  lemma {:induction false} ContainsIff(s: string, t: string)
    ensures Contains(s, t) <==> exists i :: OccursAt(s, t, i)
  {
    if t <= s {
      assert s[0..|t|] == t;
      assert OccursAt(s, t, 0);
    } else if s == [] {
    } else {
      ContainsIff(s[1..], t);
      if Contains(s[1..], t) {
        var i :| OccursAt(s[1..], t, i);
        assert s[1..][i..i + |t|] == s[i + 1..i + 1 + |t|];
        assert OccursAt(s, t, i + 1);
      } else {
        forall i | 0 <= i <= |s| - |t|
          ensures !OccursAt(s, t, i)
        {
          if i == 0 {
            assert s[..|t|] == s[0..|t|];
          } else {
            assert s[1..][i - 1..i - 1 + |t|] == s[i..i + |t|];
            assert !OccursAt(s[1..], t, i - 1);
          }
        }
      }
    }
  }

  /** Every string includes the empty string (so an empty search matches everything). */
  lemma ContainsEmpty(s: string)
    ensures Contains(s, "")
  {
  }

  /** `s.indexOf(c)`: the first position of `c`, or -1. */
  function IndexOf(s: string, c: char): (r: int)
    ensures -1 <= r < |s|
    ensures r == -1 <==> c !in s
    ensures r >= 0 ==> s[r] == c && c !in s[..r]
  {
    if s == [] then -1
    else if s[0] == c then 0
    else
      var k := IndexOf(s[1..], c);
      assert s[1..][..if k < 0 then 0 else k] == s[1..if k < 0 then 1 else k + 1];
      if k < 0 then -1 else k + 1
  }

  lemma IndexOfAfter(a: string, c: char, b: string)
    requires c !in a
    ensures IndexOf(a + [c] + b, c) == |a|
  {
    var s := a + [c] + b;
    assert s[|a|] == c;
    assert s[..|a|] == a;
  }

  /** `s.replace(from, to)` with a one-character string pattern: only the first occurrence is replaced. */
  function ReplaceFirst(s: string, from: char, to: char): (r: string)
    ensures |r| == |s|
    ensures r == if from in s then s[IndexOf(s, from) := to] else s
  {
    if s == [] then []
    else if s[0] == from then [to] + s[1..]
    else [s[0]] + ReplaceFirst(s[1..], from, to)
  }

  /** The number of occurrences of `c` in `s`. */
  function Count(s: string, c: char): nat
  {
    if s == [] then 0 else (if s[0] == c then 1 else 0) + Count(s[1..], c)
  }

  /** Replacing the first comma by a dot leaves every later comma in place: exactly one disappears. */
  lemma {:induction false} ReplaceFirstCount(s: string, from: char, to: char)
    requires from != to
    ensures Count(ReplaceFirst(s, from, to), from) == if from in s then Count(s, from) - 1 else Count(s, from)
  {
    if s != [] && s[0] != from {
      ReplaceFirstCount(s[1..], from, to);
      assert ReplaceFirst(s, from, to)[1..] == ReplaceFirst(s[1..], from, to);
      assert from in s <==> from in s[1..];
    } else if s != [] {
      assert ReplaceFirst(s, from, to)[1..] == s[1..];
    }
  }

  /** `s.replace(/\D/g, '')`: the digits of `s`, in order. */
  function Digits(s: string): (r: string)
    ensures forall i :: 0 <= i < |r| ==> IsDigit(r[i])
    ensures IsSubsequence(r, s)
    ensures forall c :: IsDigit(c) ==> multiset(r)[c] == multiset(s)[c]
  {
    FilterIsSubsequence(s, IsDigit);
    FilterCounts(s, IsDigit);
    Filter(s, IsDigit)
  }

  /** A string made only of digits is unchanged by `replace(/\D/g, '')`. */
  lemma DigitsOfDigits(s: string)
    requires forall i :: 0 <= i < |s| ==> IsDigit(s[i])
    ensures Digits(s) == s
  {
    FilterKeepsAll(s, IsDigit);
  }

  /** `s.trimStart()` */
  function TrimStart(s: string): (r: string)
    ensures |r| <= |s| && r == s[|s| - |r|..]
    ensures r != [] ==> !IsWhiteSpace(r[0])
  {
    if s != [] && IsWhiteSpace(s[0]) then TrimStart(s[1..]) else s
  }

  /** What `trimStart` removes is white space. */
  lemma {:induction false} TrimStartRemovesWhiteSpace(s: string)
    ensures forall i :: 0 <= i < |s| - |TrimStart(s)| ==> IsWhiteSpace(s[i])
  {
    if s != [] && IsWhiteSpace(s[0]) {
      TrimStartRemovesWhiteSpace(s[1..]);
      forall i | 1 <= i < |s| - |TrimStart(s)| ensures IsWhiteSpace(s[i]) {
        assert s[i] == s[1..][i - 1];
      }
    }
  }

  /** `s.trimEnd()` */
  function TrimEnd(s: string): (r: string)
    ensures r <= s
    ensures r != [] ==> !IsWhiteSpace(r[|r| - 1])
  {
    if s != [] && IsWhiteSpace(s[|s| - 1]) then TrimEnd(s[..|s| - 1]) else s
  }

  /** What `trimEnd` removes is white space. */
  lemma {:induction false} TrimEndRemovesWhiteSpace(s: string)
    ensures forall i :: |TrimEnd(s)| <= i < |s| ==> IsWhiteSpace(s[i])
  {
    if s != [] && IsWhiteSpace(s[|s| - 1]) {
      TrimEndRemovesWhiteSpace(s[..|s| - 1]);
      forall i | |TrimEnd(s)| <= i < |s| - 1 ensures IsWhiteSpace(s[i]) {
        assert s[i] == s[..|s| - 1][i];
      }
    }
  }

  /** `s.trim()` */
  function Trim(s: string): string
  {
    TrimEnd(TrimStart(s))
  }

  /** A trimmed string is empty exactly when the input is all white space. */
  lemma TrimEmptyIff(s: string)
    ensures Trim(s) == "" <==> forall i :: 0 <= i < |s| ==> IsWhiteSpace(s[i])
  {
    var t := TrimStart(s);
    TrimStartRemovesWhiteSpace(s);
    TrimEndRemovesWhiteSpace(t);
    if Trim(s) == "" {
      assert t == [];
    }
  }

  /** `trim` leaves a string with no white space unchanged. */
  lemma TrimNoWhiteSpace(s: string)
    requires forall i :: 0 <= i < |s| ==> !IsWhiteSpace(s[i])
    ensures Trim(s) == s
  {
  }

  /** `s.split(sep)` with a one-character separator. */
  function Split(s: string, sep: char): (r: seq<string>)
    ensures |r| >= 1
    ensures forall k :: 0 <= k < |r| ==> sep !in r[k]
    decreases |s|
  {
    var i := IndexOf(s, sep);
    if i < 0 then [s]
    else
      var rest := Split(s[i + 1..], sep);
      assert sep !in s[..i];
      [s[..i]] + rest
  }

  /** `parts.join(sep)` */
  function Join(parts: seq<string>, sep: string): string
  {
    if |parts| == 0 then ""
    else if |parts| == 1 then parts[0]
    else parts[0] + sep + Join(parts[1..], sep)
  }

  lemma JoinCons(x: string, rest: seq<string>, sep: string)
    requires |rest| >= 1
    ensures Join([x] + rest, sep) == x + sep + Join(rest, sep)
  {
    assert ([x] + rest)[1..] == rest;
  }

  /** Joining the pieces of a split gives back the string. */
  lemma {:induction false} JoinSplit(s: string, sep: char)
    ensures Join(Split(s, sep), [sep]) == s
    decreases |s|
  {
    var i := IndexOf(s, sep);
    if i >= 0 {
      var rest := Split(s[i + 1..], sep);
      JoinSplit(s[i + 1..], sep);
      JoinCons(s[..i], rest, [sep]);
      assert s == s[..i] + [sep] + s[i + 1..];
    }
  }

  /** Splitting a join of separator-free pieces gives back the pieces. */
  lemma {:induction false} SplitJoin(parts: seq<string>, sep: char)
    requires |parts| >= 1
    requires forall k :: 0 <= k < |parts| ==> sep !in parts[k]
    ensures Split(Join(parts, [sep]), sep) == parts
  {
    if |parts| == 1 {
      assert IndexOf(parts[0], sep) == -1;
    } else {
      var rest := Join(parts[1..], [sep]);
      SplitJoin(parts[1..], sep);
      IndexOfAfter(parts[0], sep, rest);
      var s := parts[0] + [sep] + rest;
      assert s[..|parts[0]|] == parts[0];
      assert s[|parts[0]| + 1..] == rest;
      assert parts == [parts[0]] + parts[1..];
    }
  }

  /** Relational `a <= b` on strings: lexicographic order of the characters. */
  predicate LexLe(a: string, b: string)
    decreases |a|
  {
    a == [] || (b != [] && (a[0] < b[0] || (a[0] == b[0] && LexLe(a[1..], b[1..]))))
  }

  lemma {:induction false} LexLeTransitive(a: string, b: string, c: string)
    requires LexLe(a, b) && LexLe(b, c)
    ensures LexLe(a, c)
    decreases |a|
  {
    if a != [] && a[0] == b[0] && b[0] == c[0] {
      LexLeTransitive(a[1..], b[1..], c[1..]);
    }
  }

  lemma {:induction false} LexLeAntisymmetric(a: string, b: string)
    requires LexLe(a, b) && LexLe(b, a)
    ensures a == b
    decreases |a|
  {
    if a != [] {
      LexLeAntisymmetric(a[1..], b[1..]);
      assert a == [a[0]] + a[1..] && b == [b[0]] + b[1..];
    }
  }

  lemma {:induction false} LexLeReflexive(a: string)
    ensures LexLe(a, a)
  {
    if a != [] {
      LexLeReflexive(a[1..]);
    }
  }

  // ---------------------------------------------------------------------
  // Decimal numerals

  /** The decimal numeral of a natural number, without leading zeros. */
  function NatToString(n: nat): (r: string)
    ensures |r| >= 1
    ensures forall i :: 0 <= i < |r| ==> IsDigit(r[i])
    decreases n
  {
    if n < 10 then [DigitChar(n)] else NatToString(n / 10) + [DigitChar(n % 10)]
  }

  /** The value of a string of decimal digits. */
  function DigitsValue(d: string): nat
    requires forall i :: 0 <= i < |d| ==> IsDigit(d[i])
  {
    if d == [] then 0 else DigitsValue(d[..|d| - 1]) * 10 + DigitValue(d[|d| - 1])
  }

  lemma {:induction false} NatToStringValue(n: nat)
    ensures DigitsValue(NatToString(n)) == n
    decreases n
  {
    if n >= 10 {
      var r := NatToString(n);
      NatToStringValue(n / 10);
      assert r[..|r| - 1] == NatToString(n / 10);
    }
  }

  /** The longest prefix of `s` made of digits. */
  function DigitPrefix(s: string): (r: string)
    ensures r <= s
    ensures forall i :: 0 <= i < |r| ==> IsDigit(r[i])
    ensures |r| < |s| ==> !IsDigit(s[|r|])
  {
    if s != [] && IsDigit(s[0]) then [s[0]] + DigitPrefix(s[1..]) else []
  }

  lemma {:induction false} DigitPrefixOf(d: string, rest: string)
    requires forall i :: 0 <= i < |d| ==> IsDigit(d[i])
    requires rest != [] ==> !IsDigit(rest[0])
    ensures DigitPrefix(d + rest) == d
  {
    if d != [] {
      DigitPrefixOf(d[1..], rest);
      assert (d + rest)[1..] == d[1..] + rest;
    }
  }

  /** The numeral of an integer, as `String(n)` prints one. */
  function IntToString(n: int): string
  {
    if n < 0 then "-" + NatToString(-n) else NatToString(n)
  }

  /** `parseInt(s)` (radix 10): leading white space, an optional sign, then the longest run of digits; None is NaN. */
  function ParseInt(s: string): Option<int>
  {
    var t := TrimStart(s);
    var d := DigitPrefix(WithoutSign(t));
    if d == [] then None
    else Some(Signed(t != [] && t[0] == '-', DigitsValue(d)))
  }

  /** A run of digits is its own longest digit prefix. */
  lemma DigitPrefixAll(d: string)
    requires AllDigits(d)
    ensures DigitPrefix(d) == d
  {
    DigitPrefixOf(d, []);
    assert d + [] == d;
  }

  /** `parseInt` reads a signed run of digits with no leading white space back as its value. */
  lemma ParseIntNumeral(s: string, negative: bool, d: string)
    requires |d| >= 1 && AllDigits(d)
    requires s == SignText(negative) + d
    ensures ParseInt(s) == Some(Signed(negative, DigitsValue(d)))
  {
    SignedParts(s, negative, d);
    DigitPrefixAll(d);
    NoLeadingWhiteSpace(s);
  }

  lemma NoLeadingWhiteSpace(s: string)
    requires s != [] && !IsWhiteSpace(s[0])
    ensures TrimStart(s) == s
  {
  }

  /** `parseInt` reads back what `String` prints for an integer. */
  lemma ParseIntRoundTrip(n: int)
    ensures ParseInt(IntToString(n)) == Some(n)
  {
    var m: nat := if n < 0 then -n else n;
    var d := NatToString(m);
    NatToStringValue(m);
    assert IntToString(n) == SignText(n < 0) + d;
    ParseIntNumeral(IntToString(n), n < 0, d);
  }

  // ---------------------------------------------------------------------
  // Numbers

  /** A JavaScript number, modelled exactly in hundredths; NaN kept apart. */
  datatype JsNumber = Num(hundredths: int) | NaN

  /** The value of at most two fraction digits, in hundredths (later digits are not represented). */
  function Hundredths(fraction: string): (r: nat)
    requires forall i :: 0 <= i < |fraction| ==> IsDigit(fraction[i])
    ensures r < 100
  {
    if |fraction| == 0 then 0
    else if |fraction| == 1 then 10 * DigitValue(fraction[0])
    else 10 * DigitValue(fraction[0]) + DigitValue(fraction[1])
  }

  function Signed(negative: bool, v: int): int
  {
    if negative then -v else v
  }

  predicate AllDigits(s: string) { forall i :: 0 <= i < |s| ==> IsDigit(s[i]) }

  /** The unsigned part of a numeral, in hundredths: digits, then optionally `.` and fraction digits. */
  function ParseMagnitude(body: string): Option<int>
  {
    var dot := IndexOf(body, '.');
    var whole := if dot < 0 then body else body[..dot];
    var fraction := if dot < 0 then [] else body[dot + 1..];
    if !AllDigits(whole) || !AllDigits(fraction) || (whole == [] && fraction == []) then None
    else Some(DigitsValue(whole) * 100 + Hundredths(fraction))
  }

  /**
   * `Number(s)` for a string: surrounding white space is ignored, the empty
   * string is 0, otherwise an optional sign, digits, and an optional `.`
   * with fraction digits, with at least one digit overall; anything else is NaN.
   */
  function ParseNumber(s: string): JsNumber
  {
    ParseTrimmed(Trim(s))
  }

  function ParseTrimmed(t: string): JsNumber
  {
    if t == [] then Num(0)
    else
      match ParseMagnitude(WithoutSign(t))
      case None => NaN
      case Some(m) => Num(Signed(t[0] == '-', m))
  }

  /** The numeral without its leading `-` or `+`. */
  function WithoutSign(t: string): string
  {
    if t != [] && (t[0] == '-' || t[0] == '+') then t[1..] else t
  }

  /** The two-digit rendering of a number of hundredths below 100. */
  function TwoDigits(r: nat): (s: string)
    requires r < 100
    ensures |s| == 2 && IsDigit(s[0]) && IsDigit(s[1])
    ensures Hundredths(s) == r
  {
    [DigitChar(r / 10), DigitChar(r % 10)]
  }

  /** The sign printed before a negative number. */
  function SignText(negative: bool): string
  {
    if negative then "-" else ""
  }

  /** A numeral: an optional `-`, the digits of the units and, when there are any, `.` and the fraction digits. */
  function Numeral(negative: bool, whole: string, fraction: string): string
  {
    SignText(negative) + (whole + FractionTail(fraction))
  }

  /** `.` and the fraction digits, or nothing when there are none. */
  function FractionTail(fraction: string): string
  {
    if fraction == [] then [] else "." + fraction
  }

  /** The fraction digits `String` prints for a number of hundredths below 100: none for 0, no trailing zero. */
  function FractionDigits(r: nat): (f: string)
    requires r < 100
    ensures AllDigits(f) && Hundredths(f) == r
    ensures f == [] <==> r == 0
    ensures f != [] ==> f[|f| - 1] != '0'
  {
    if r == 0 then [] else if r % 10 == 0 then [DigitChar(r / 10)] else TwoDigits(r)
  }

  /** `v.toFixed(2)` for a number of hundredths. */
  function ToFixed2(v: int): string
  {
    var a := if v < 0 then -v else v;
    Numeral(v < 0, NatToString(a / 100), TwoDigits(a % 100))
  }

  /** `String(v)` / `v.toString()` for a number of hundredths: no trailing zeros in the fraction. */
  function NumberToString(v: int): string
  {
    var a := if v < 0 then -v else v;
    Numeral(v < 0, NatToString(a / 100), FractionDigits(a % 100))
  }

  lemma MagnitudeWhole(whole: string)
    requires |whole| >= 1 && AllDigits(whole)
    ensures ParseMagnitude(whole) == Some(DigitsValue(whole) * 100)
  {
    assert '.' !in whole;
  }

  lemma MagnitudeFraction(body: string, whole: string, fraction: string, m: int)
    requires |whole| >= 1 && AllDigits(whole) && AllDigits(fraction)
    requires body == whole + ("." + fraction)
    requires m == DigitsValue(whole) * 100 + Hundredths(fraction)
    ensures ParseMagnitude(body) == Some(m)
  {
    assert '.' !in whole;
    SplitAtFirst(body, whole, '.', fraction);
  }

  /** A string `a + [c] + b` with no `c` in `a` splits at its first `c` back into `a` and `b`. */
  lemma SplitAtFirst(s: string, a: string, c: char, b: string)
    requires c !in a && s == a + ([c] + b)
    ensures IndexOf(s, c) == |a| && s[..|a|] == a && s[|a| + 1..] == b
  {
    assert s == a + [c] + b;
    IndexOfAfter(a, c, b);
    assert s[..|a|] == a;
    assert s[|a| + 1..] == b;
  }

  /** The characters a rendered numeral is made of. */
  predicate IsNumeralChar(c: char) { IsDigit(c) || c == '-' || c == '.' }

  lemma TrimNumeral(s: string)
    requires forall i :: 0 <= i < |s| ==> IsNumeralChar(s[i])
    ensures Trim(s) == s
  {
    TrimNoWhiteSpace(s);
  }

  /** `Number` of a signed numeral with no surrounding white space. */
  lemma ParseSigned(s: string, negative: bool, body: string, m: int)
    requires s == SignText(negative) + body
    requires body != [] && IsDigit(body[0])
    requires Trim(s) == s
    requires ParseMagnitude(body) == Some(m)
    ensures ParseNumber(s) == Num(Signed(negative, m))
  {
    SignedParts(s, negative, body);
    TrimmedSigned(s, negative, body, m);
  }

  lemma SignedParts(s: string, negative: bool, body: string)
    requires s == SignText(negative) + body
    requires body != [] && IsDigit(body[0])
    ensures s != [] && WithoutSign(s) == body && (s[0] == '-' <==> negative)
    ensures s[0] == '-' || IsDigit(s[0])
  {
    if negative {
      assert s[0] == '-' && s[1..] == body;
    } else {
      assert s == body;
    }
  }

  lemma TrimmedSigned(s: string, negative: bool, body: string, m: int)
    requires s != [] && WithoutSign(s) == body && (s[0] == '-' <==> negative)
    requires ParseMagnitude(body) == Some(m)
    ensures ParseTrimmed(s) == Num(Signed(negative, m))
  {
  }

  /** A rendered numeral has no surrounding white space. */
  lemma RenderedTrimmed(s: string, negative: bool, whole: string, fraction: string, tail: string)
    requires s == SignText(negative) + (whole + tail)
    requires forall i :: 0 <= i < |whole| ==> IsDigit(whole[i])
    requires forall i :: 0 <= i < |fraction| ==> IsDigit(fraction[i])
    requires tail == [] || tail == "." + fraction
    ensures Trim(s) == s
  {
    RenderedChars(s, negative, whole, fraction, tail);
    TrimNumeral(s);
  }

  lemma RenderedChars(s: string, negative: bool, whole: string, fraction: string, tail: string)
    requires s == SignText(negative) + (whole + tail)
    requires forall i :: 0 <= i < |whole| ==> IsDigit(whole[i])
    requires forall i :: 0 <= i < |fraction| ==> IsDigit(fraction[i])
    requires tail == [] || tail == "." + fraction
    ensures forall i :: 0 <= i < |s| ==> IsNumeralChar(s[i])
  {
    var sign := SignText(negative);
    forall i | 0 <= i < |s| ensures IsNumeralChar(s[i]) {
      if i < |sign| {
      } else if i < |sign| + |whole| {
        assert s[i] == whole[i - |sign|];
      } else if i > |sign| + |whole| {
        assert s[i] == fraction[i - |sign| - |whole| - 1];
      }
    }
  }

  /** `Number` reads a signed numeral `whole.fraction` back as its value in hundredths. */
  lemma ParseFractionNumeral(s: string, negative: bool, whole: string, fraction: string, m: int)
    requires |whole| >= 1 && forall i :: 0 <= i < |whole| ==> IsDigit(whole[i])
    requires forall i :: 0 <= i < |fraction| ==> IsDigit(fraction[i])
    requires s == SignText(negative) + (whole + ("." + fraction))
    requires m == DigitsValue(whole) * 100 + Hundredths(fraction)
    ensures ParseNumber(s) == Num(Signed(negative, m))
  {
    var body := whole + ("." + fraction);
    MagnitudeFraction(body, whole, fraction, m);
    RenderedTrimmed(s, negative, whole, fraction, "." + fraction);
    ParseSigned(s, negative, body, m);
  }

  /** `Number` reads a signed numeral without a fraction back as its value in hundredths. */
  lemma ParseWholeNumeral(s: string, negative: bool, whole: string, m: int)
    requires |whole| >= 1 && forall i :: 0 <= i < |whole| ==> IsDigit(whole[i])
    requires s == SignText(negative) + (whole + [])
    requires m == DigitsValue(whole) * 100
    ensures ParseNumber(s) == Num(Signed(negative, m))
  {
    MagnitudeWhole(whole);
    assert whole + [] == whole;
    RenderedTrimmed(s, negative, whole, [], []);
    ParseSigned(s, negative, whole, m);
  }

  /** `Number` reads a numeral back as its value in hundredths. */
  lemma ParseNumeral(s: string, negative: bool, whole: string, fraction: string, m: int)
    requires |whole| >= 1 && AllDigits(whole) && AllDigits(fraction)
    requires s == Numeral(negative, whole, fraction)
    requires m == DigitsValue(whole) * 100 + Hundredths(fraction)
    ensures ParseNumber(s) == Num(Signed(negative, m))
  {
    if fraction == [] {
      ParseWholeNumeral(s, negative, whole, m);
    } else {
      ParseFractionNumeral(s, negative, whole, fraction, m);
    }
  }

  /** `Number` reads back what `toFixed(2)` prints. */
  lemma ParseToFixed2(v: int)
    ensures ParseNumber(ToFixed2(v)) == Num(v)
  {
    var a := if v < 0 then -v else v;
    var w := NatToString(a / 100);
    NatToStringValue(a / 100);
    ParseNumeral(ToFixed2(v), v < 0, w, TwoDigits(a % 100), a);
  }

  /** What `String` prints for a number is made of digits, `-` and `.`, and is never empty. */
  lemma NumberToStringChars(v: int)
    ensures |NumberToString(v)| >= 1
    ensures forall i :: 0 <= i < |NumberToString(v)| ==> IsNumeralChar(NumberToString(v)[i])
  {
    var a := if v < 0 then -v else v;
    var f := FractionDigits(a % 100);
    RenderedChars(NumberToString(v), v < 0, NatToString(a / 100), f, FractionTail(f));
  }

  /** `Number` reads back what `String` prints for a number. */
  lemma ParseNumberToString(v: int)
    ensures ParseNumber(NumberToString(v)) == Num(v)
  {
    var a := if v < 0 then -v else v;
    var w := NatToString(a / 100);
    NatToStringValue(a / 100);
    ParseNumeral(NumberToString(v), v < 0, w, FractionDigits(a % 100), a);
  }
}
