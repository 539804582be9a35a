/**
 * The JavaScript built-ins that the handler and the components rely on:
 * `String.prototype.trim`, `String.prototype.replace` with a string pattern,
 * `parseInt`, `Math.max`, `Math.min`, `charAt(0).toUpperCase() + slice(1)` and
 * the string conversion of `undefined` in a concatenation.
 */
module Js {
  import opened Wrappers

  /** ECMAScript WhiteSpace and LineTerminator code points: what `trim` and `parseInt` skip. */
  predicate IsWhiteSpace(c: char) {
    ('\t' <= c <= '\r') || c == ' ' || c == '\U{00A0}' || c == '\U{1680}' ||
    ('\U{2000}' <= c <= '\U{200A}') || c == '\U{2028}' || c == '\U{2029}' ||
    c == '\U{202F}' || c == '\U{205F}' || c == '\U{3000}' || c == '\U{FEFF}'
  }

  predicate NoWhiteSpace(s: string) {
    forall i :: 0 <= i < |s| ==> !IsWhiteSpace(s[i])
  }

  /** `String.prototype.trimStart`: drops the leading white space and nothing else. */
  function TrimStart(s: string): (r: string)
    ensures |r| <= |s| && r == s[|s| - |r|..]
    ensures forall i :: 0 <= i < |s| - |r| ==> IsWhiteSpace(s[i])
    ensures r == [] || !IsWhiteSpace(r[0])
  {
    if s != [] && IsWhiteSpace(s[0]) then TrimStart(s[1..]) else s
  }

  /** `String.prototype.trimEnd`: drops the trailing white space and nothing else. */
  function TrimEnd(s: string): (r: string)
    ensures |r| <= |s| && r == s[..|r|]
    ensures forall i :: |r| <= i < |s| ==> IsWhiteSpace(s[i])
    ensures r == [] || !IsWhiteSpace(r[|r| - 1])
  {
    if s != [] && IsWhiteSpace(s[|s| - 1]) then TrimEnd(s[..|s| - 1]) else s
  }

  /** How many white-space characters `s` starts with. */
  function LeadingWhiteSpace(s: string): (n: nat)
    ensures n <= |s| && (n == |s| || !IsWhiteSpace(s[n]))
    ensures forall k :: 0 <= k < n ==> IsWhiteSpace(s[k])
  {
    |s| - |TrimStart(s)|
  }

  /** `String.prototype.trim`: no white space is left at either end, and a string without any there is kept. */
  function Trim(s: string): (r: string)
    ensures |r| <= |s|
    ensures r == [] || (!IsWhiteSpace(r[0]) && !IsWhiteSpace(r[|r| - 1]))
    ensures s == [] || (!IsWhiteSpace(s[0]) && !IsWhiteSpace(s[|s| - 1])) ==> r == s
    ensures NoWhiteSpace(s) ==> r == s
  {
    TrimEnd(TrimStart(s))
  }

  /**
   * What `trim` keeps: the text of `s` right after its leading white space, up to where
   * only white space is left.
   */
  lemma TrimKeepsMiddle(s: string)
    ensures LeadingWhiteSpace(s) + |Trim(s)| <= |s|
    ensures forall j :: 0 <= j < |Trim(s)| ==> Trim(s)[j] == s[LeadingWhiteSpace(s) + j]
    ensures forall k :: LeadingWhiteSpace(s) + |Trim(s)| <= k < |s| ==> IsWhiteSpace(s[k])
  {
    TrimSlice(s);
    TrimTrailing(s);
  }

  /** `Trim` keeps the text after the leading white space, up to its trailing white space. */
  lemma {:induction false} TrimSlice(s: string)
    ensures LeadingWhiteSpace(s) + |TrimEnd(TrimStart(s))| <= |s|
    ensures forall j :: 0 <= j < |TrimEnd(TrimStart(s))| ==> TrimEnd(TrimStart(s))[j] == s[LeadingWhiteSpace(s) + j]
  {
    TrimStartSuffix(s);
    TrimEndPrefix(TrimStart(s));
    PrefixOfSuffix(s, TrimStart(s), TrimEnd(TrimStart(s)), LeadingWhiteSpace(s));
  }

  /** After the text that `Trim` keeps, only white space follows. */
  lemma {:induction false} TrimTrailing(s: string)
    ensures forall k :: LeadingWhiteSpace(s) + |TrimEnd(TrimStart(s))| <= k < |s| ==> IsWhiteSpace(s[k])
  {
    TrimStartSuffix(s);
    WhiteTailOfSuffix(s, TrimStart(s), |TrimEnd(TrimStart(s))|, LeadingWhiteSpace(s));
  }

  /** `trimStart` gives the suffix after the leading white space. */
  lemma TrimStartSuffix(s: string)
    ensures LeadingWhiteSpace(s) <= |s| && TrimStart(s) == s[LeadingWhiteSpace(s)..]
  {
  }

  /** `trimEnd` gives a prefix. */
  lemma TrimEndPrefix(u: string)
    ensures |TrimEnd(u)| <= |u| && TrimEnd(u) == u[..|TrimEnd(u)|]
  {
  }

  /** A prefix of the suffix from `n` is the slice of `s` from `n`. */
  lemma PrefixOfSuffix(s: string, u: string, r: string, n: nat)
    requires n <= |s| && u == s[n..] && |r| <= |u| && r == u[..|r|]
    ensures n + |r| <= |s| && forall j :: 0 <= j < |r| ==> r[j] == s[n + j]
  {
  }

  /** White space at the end of the suffix from `n` is white space at the end of `s`. */
  lemma WhiteTailOfSuffix(s: string, u: string, m: nat, n: nat)
    requires n <= |s| && u == s[n..] && m <= |u|
    requires forall k :: m <= k < |u| ==> IsWhiteSpace(u[k])
    ensures forall k :: n + m <= k < |s| ==> IsWhiteSpace(s[k])
  {
    forall k | n + m <= k < |s|
      ensures IsWhiteSpace(s[k])
    {
      assert s[k] == u[k - n];
    }
  }

  /**
   * `s.replace(pattern, replacement)` with a string pattern: only the first occurrence is
   * replaced (lemmas `ReplaceFirstAbsent` and `ReplaceFirstAt` below).
   */
  function ReplaceFirst(s: string, pattern: string, replacement: string): (r: string)
    ensures |pattern| <= |s| && s[..|pattern|] == pattern ==> r == replacement + s[|pattern|..]
    ensures r == s || |r| + |pattern| == |s| + |replacement|
    decreases |s|
  {
    if |pattern| <= |s| && s[..|pattern|] == pattern then replacement + s[|pattern|..]
    else if s == [] then s
    else [s[0]] + ReplaceFirst(s[1..], pattern, replacement)
  }

  /** `pattern` occurs in `s` starting at index `i`. */
  predicate OccursAt(s: string, pattern: string, i: nat) {
    i + |pattern| <= |s| && s[i..i + |pattern|] == pattern
  }

  /** A text in which the pattern does not occur comes back unchanged. */
  lemma {:induction false} ReplaceFirstAbsent(s: string, pattern: string, replacement: string)
    requires forall i: nat :: i <= |s| ==> !OccursAt(s, pattern, i)
    ensures ReplaceFirst(s, pattern, replacement) == s
    decreases |s|
  {
    assert !OccursAt(s, pattern, 0);
    if s != [] {
      NoOccurrenceBeforeTail(s, pattern, |s| + 1);
      ReplaceFirstAbsent(s[1..], pattern, replacement);
      ReplaceFirstStep(s, pattern, replacement);
    }
  }

  /** The first occurrence of the pattern, and only that one, is replaced. */
  lemma {:induction false} ReplaceFirstAt(s: string, pattern: string, replacement: string, i: nat)
    requires OccursAt(s, pattern, i)
    requires forall j: nat :: j < i ==> !OccursAt(s, pattern, j)
    ensures ReplaceFirst(s, pattern, replacement) == s[..i] + replacement + s[i + |pattern|..]
    decreases i
  {
    if i == 0 {
      assert s[..0] == [];
    } else {
      assert !OccursAt(s, pattern, 0);
      OccursAtTail(s, pattern, i);
      NoOccurrenceBeforeTail(s, pattern, i);
      ReplaceFirstAt(s[1..], pattern, replacement, i - 1);
      ReplaceFirstStep(s, pattern, replacement);
      ConsSplice(s, replacement, i, i + |pattern|);
    }
  }

  /** An occurrence after the first character is an occurrence in the rest of the text. */
  lemma OccursAtTail(s: string, pattern: string, i: nat)
    requires 1 <= i <= |s|
    ensures OccursAt(s, pattern, i) <==> OccursAt(s[1..], pattern, i - 1)
  {
    if i + |pattern| <= |s| {
      assert s[1..][i - 1..i - 1 + |pattern|] == s[i..i + |pattern|];
    }
  }

  /** No occurrence before `i` in `s` means none before `i - 1` in the rest of the text. */
  lemma NoOccurrenceBeforeTail(s: string, pattern: string, i: nat)
    requires 1 <= i <= |s| + 1
    requires forall j: nat :: j < i ==> !OccursAt(s, pattern, j)
    ensures forall j: nat :: j < i - 1 ==> !OccursAt(s[1..], pattern, j)
  {
    forall j: nat | j < i - 1
      ensures !OccursAt(s[1..], pattern, j)
    {
      assert !OccursAt(s, pattern, j + 1);
      OccursAtTail(s, pattern, j + 1);
    }
  }

  /** Without a match at the front, `replace` keeps the first character and goes on with the rest. */
  lemma ReplaceFirstStep(s: string, pattern: string, replacement: string)
    requires s != [] && !OccursAt(s, pattern, 0)
    ensures ReplaceFirst(s, pattern, replacement) == [s[0]] + ReplaceFirst(s[1..], pattern, replacement)
  {
    assert !(|pattern| <= |s| && s[..|pattern|] == pattern) by {
      if |pattern| <= |s| {
        assert s[..|pattern|] == s[0..0 + |pattern|];
      }
    }
  }

  /** Putting the first character back in front of a splice of the rest. */
  lemma ConsSplice(s: string, mid: string, i: nat, k: nat)
    requires 1 <= i <= k <= |s|
    ensures [s[0]] + (s[1..][..i - 1] + mid + s[1..][k - 1..]) == s[..i] + mid + s[k..]
  {
    assert s[1..][..i - 1] == s[1..i];
    assert s[1..][k - 1..] == s[k..];
    assert [s[0]] + s[1..i] == s[..i];
  }

  /** `Math.max` on two integers. */
  function Max(a: int, b: int): (r: int)
    ensures r >= a && r >= b && (r == a || r == b)
  {
    if a >= b then a else b
  }

  /** `Math.min` on two integers. */
  function Min(a: int, b: int): (r: int)
    ensures r <= a && r <= b && (r == a || r == b)
  {
    if a <= b then a else b
  }

  /** `toUpperCase` on one character, for the ASCII letters. */
  function ToUpper(c: char): (u: char)
    ensures 'a' <= c <= 'z' ==> 'A' <= u <= 'Z' && u as int == c as int - 32
    ensures !('a' <= c <= 'z') ==> u == c
  {
    if 'a' <= c <= 'z' then (c as int - 32) as char else c
  }

  /** `s.charAt(0).toUpperCase() + s.slice(1)`: the label idiom both meal components use. */
  function Capitalize(s: string): (r: string)
    ensures |r| == |s|
    ensures s != [] ==> r[0] == ToUpper(s[0])
    ensures forall i :: 1 <= i < |r| ==> r[i] == s[i]
  {
    if s == [] then [] else [ToUpper(s[0])] + s[1..]
  }

  /**
   * What `"" + x` yields for a body field that is either a string or `undefined`: a
   * missing field cannot be told apart from the string "undefined".
   */
  function ToJsString(x: Option<string>): (r: string)
    ensures x.Some? ==> r == x.value
    ensures r == "undefined" <==> x.None? || x == Some("undefined")
  {
    match x
    case Some(s) => s
    case None => "undefined"
  }

  // ---------------------------------------------------------------- parseInt

  /** The value of `c` as a digit in `radix` (2..36), if it is one; letters of either case. */
  function RadixDigit(c: char, radix: nat): (d: Option<nat>)
    ensures d.Some? ==> d.value < radix
  {
    if '0' <= c <= '9' && (c as int - '0' as int) < radix then Some(c as int - '0' as int)
    else if 'a' <= c <= 'z' && (c as int - 'a' as int) + 10 < radix then Some(c as int - 'a' as int + 10)
    else if 'A' <= c <= 'Z' && (c as int - 'A' as int) + 10 < radix then Some(c as int - 'A' as int + 10)
    else None
  }

  /** The digit values of the longest prefix of `s` made of digits of `radix`. */
  function LeadingDigits(s: string, radix: nat): (ds: seq<nat>)
    ensures |ds| <= |s|
  {
    if s != [] && RadixDigit(s[0], radix).Some? then [RadixDigit(s[0], radix).value] + LeadingDigits(s[1..], radix)
    else []
  }

  /** The number a digit sequence denotes, most significant digit first. */
  function DigitsValue(ds: seq<nat>, radix: nat): nat {
    if ds == [] then 0 else DigitsValue(ds[..|ds| - 1], radix) * radix + ds[|ds| - 1]
  }

  /**
   * `parseInt(s)` without a radix argument: skip leading white space, take an optional
   * sign, read radix 16 after a `0x`/`0X` prefix and radix 10 otherwise, and stop at the
   * first character that is not a digit. `None` stands for `NaN` (no digit at all).
   */
  function ParseInt(s: string): Option<int> {
    var ds := LeadingDigits(ParseIntDigitsText(s), ParseIntRadix(s));
    var magnitude: int := DigitsValue(ds, ParseIntRadix(s));
    if ds == [] then None
    else if ParseIntNegative(s) then Some(-magnitude)
    else Some(magnitude)
  }

  function ParseIntUnsigned(s: string): string {
    var t := TrimStart(s);
    if |t| > 0 && (t[0] == '-' || t[0] == '+') then t[1..] else t
  }

  predicate ParseIntNegative(s: string) {
    var t := TrimStart(s);
    |t| > 0 && t[0] == '-'
  }

  predicate HasHexPrefix(u: string) {
    |u| >= 2 && u[0] == '0' && (u[1] == 'x' || u[1] == 'X')
  }

  function ParseIntRadix(s: string): nat {
    if HasHexPrefix(ParseIntUnsigned(s)) then 16 else 10
  }

  function ParseIntDigitsText(s: string): string {
    var u := ParseIntUnsigned(s);
    if HasHexPrefix(u) then u[2..] else u
  }

  // ------------------------------------------------- decimal strings (partner)

  function DecimalChar(d: nat): (c: char)
    requires d < 10
    ensures '0' <= c <= '9' && RadixDigit(c, 10) == Some(d)
  {
    ('0' as int + d) as char
  }

  /** The decimal numeral of `n`, without leading zeros: what `String(n)` gives. */
  function Decimal(n: nat): (s: string)
    ensures |s| > 0 && '0' <= s[0] <= '9'
    ensures n > 0 ==> s[0] != '0'
    ensures forall i :: 0 <= i < |s| ==> RadixDigit(s[i], 10).Some?
  {
    if n < 10 then [DecimalChar(n)] else Decimal(n / 10) + [DecimalChar(n % 10)]
  }

  lemma {:induction false} LeadingDigitsOfDecimal(n: nat)
    ensures LeadingDigits(Decimal(n), 10) == DecimalDigits(n)
  {
    if n >= 10 {
      LeadingDigitsOfDecimal(n / 10);
      LeadingDigitsAppend(Decimal(n / 10), [DecimalChar(n % 10)], 10);
    }
  }

  function DecimalDigits(n: nat): seq<nat> {
    if n < 10 then [n] else DecimalDigits(n / 10) + [n % 10]
  }

  lemma {:induction false} LeadingDigitsAppend(a: string, b: string, radix: nat)
    requires forall i :: 0 <= i < |a| ==> RadixDigit(a[i], radix).Some?
    ensures LeadingDigits(a + b, radix) == LeadingDigits(a, radix) + LeadingDigits(b, radix)
  {
    if a != [] {
      assert (a + b)[0] == a[0];
      assert (a + b)[1..] == a[1..] + b;
      LeadingDigitsAppend(a[1..], b, radix);
    } else {
      assert a + b == b;
    }
  }

  lemma {:induction false} DecimalDigitsValue(n: nat)
    ensures DigitsValue(DecimalDigits(n), 10) == n
  {
    if n >= 10 {
      var ds := DecimalDigits(n);
      assert ds[..|ds| - 1] == DecimalDigits(n / 10);
      DecimalDigitsValue(n / 10);
    } else {
      assert DecimalDigits(n)[..0] == [];
    }
  }

  /** Leading white space is skipped up to the first character that is not white space. */
  lemma {:induction false} TrimStartSkips(ws: string, u: string)
    requires forall i :: 0 <= i < |ws| ==> IsWhiteSpace(ws[i])
    requires u == [] || !IsWhiteSpace(u[0])
    ensures TrimStart(ws + u) == u
  {
    if ws == [] {
      assert ws + u == u;
    } else {
      assert (ws + u)[0] == ws[0];
      assert (ws + u)[1..] == ws[1..] + u;
      TrimStartSkips(ws[1..], u);
    }
  }

  /** The digits `parseInt` reads from a decimal numeral followed by a non-digit. */
  lemma DecimalThenStop(n: nat, t: string)
    requires t == [] || RadixDigit(t[0], 10).None?
    requires n == 0 && t != [] ==> t[0] != 'x' && t[0] != 'X'
    ensures !HasHexPrefix(Decimal(n) + t)
    ensures LeadingDigits(Decimal(n) + t, 10) == DecimalDigits(n)
  {
    var d := Decimal(n);
    assert (d + t)[0] == d[0];
    if n >= 10 {
      assert |Decimal(n / 10)| > 0;
    } else if n == 0 && t != [] {
      assert d == "0";
      assert (d + t)[1] == t[0];
    }
    LeadingDigitsAppend(d, t, 10);
    assert LeadingDigits(t, 10) == [];
    LeadingDigitsOfDecimal(n);
    assert DecimalDigits(n) + [] == DecimalDigits(n);
  }

  /** `parseInt` of a text without a hexadecimal prefix reads its leading decimal digits. */
  lemma ParseIntDecimalText(s: string, n: nat)
    requires !HasHexPrefix(ParseIntUnsigned(s)) && LeadingDigits(ParseIntUnsigned(s), 10) == DecimalDigits(n)
    ensures ParseInt(s) == Some(if ParseIntNegative(s) then -(n as int) else n as int)
  {
    DecimalDigitsValue(n);
    assert DecimalDigits(n) != [];
  }

  /** What `parseInt` keeps after skipping the white space and taking the sign. */
  lemma {:induction false} SignedText(ws: string, sign: string, v: string)
    requires forall i :: 0 <= i < |ws| ==> IsWhiteSpace(ws[i])
    requires sign == "" || sign == "+" || sign == "-"
    requires sign == "" && v != [] ==> !IsWhiteSpace(v[0]) && v[0] != '+' && v[0] != '-'
    ensures ParseIntUnsigned(ws + sign + v) == v
    ensures ParseIntNegative(ws + sign + v) <==> sign == "-"
  {
    var u := sign + v;
    assert ws + sign + v == ws + u;
    if sign != "" {
      assert u[0] == sign[0];
      assert u[1..] == v;
    } else {
      assert u == v;
    }
    TrimStartSkips(ws, u);
  }

  /**
   * `parseInt` reads a decimal numeral after leading white space and an optional sign,
   * and stops at the first character that is not a decimal digit. A lone `0` followed by
   * `x` or `X` would start a hexadecimal numeral instead, so that case is excluded.
   */
  lemma ParseIntReadsNumeral(ws: string, sign: string, n: nat, t: string)
    requires forall i :: 0 <= i < |ws| ==> IsWhiteSpace(ws[i])
    requires sign == "" || sign == "+" || sign == "-"
    requires t == [] || RadixDigit(t[0], 10).None?
    requires n == 0 && t != [] ==> t[0] != 'x' && t[0] != 'X'
    ensures ParseInt(ws + sign + Decimal(n) + t) == Some(if sign == "-" then -(n as int) else n as int)
  {
    NumeralStart(n, t);
    SignedText(ws, sign, Decimal(n) + t);
    DecimalThenStop(n, t);
    ParseIntDecimalText(ws + sign + (Decimal(n) + t), n);
    ConcatAssoc(ws + sign, Decimal(n), t);
  }

  /** A numeral followed by anything still starts with a decimal digit. */
  lemma NumeralStart(n: nat, t: string)
    ensures Decimal(n) + t != [] && '0' <= (Decimal(n) + t)[0] <= '9'
  {
    assert (Decimal(n) + t)[0] == Decimal(n)[0];
  }

  lemma ConcatAssoc(a: string, b: string, c: string)
    ensures a + b + c == a + (b + c)
  {
  }

  /**
   * `parseInt` gives `NaN` when, after the white space and an optional sign, the text does
   * not start with a decimal digit (an empty input included).
   */
  lemma ParseIntNaN(ws: string, sign: string, t: string)
    requires forall i :: 0 <= i < |ws| ==> IsWhiteSpace(ws[i])
    requires sign == "" || sign == "+" || sign == "-"
    requires t == [] || RadixDigit(t[0], 10).None?
    requires sign == "" && t != [] ==> !IsWhiteSpace(t[0]) && t[0] != '+' && t[0] != '-'
    ensures ParseInt(ws + sign + t) == None
  {
    SignedText(ws, sign, t);
    assert !HasHexPrefix(t);
  }

  /** `parseInt` reads back every decimal numeral: `parseInt(String(n)) == n`. */
  lemma ParseIntDecimal(n: nat)
    ensures ParseInt(Decimal(n)) == Some(n)
  {
    var s := Decimal(n);
    assert TrimStart(s) == s;
    assert ParseIntUnsigned(s) == s;
    assert s + "" == s;
    DecimalThenStop(n, "");
    DecimalDigitsValue(n);
  }
}
