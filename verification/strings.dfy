/**
 * The part of Go's `strings`, `strconv` and `unicode` packages that the
 * service relies on, over Dafny strings (sequences of Unicode scalar values).
 * Separators are single characters here: every call site in the service splits
 * or trims on a one-character ASCII string.
 */
module Strings {

  import opened Wrappers

  // ---------------------------------------------------------------- characters

  /** unicode.IsSpace: the Latin-1 spaces plus the White_Space property. */
  predicate IsSpace(c: char) {
    var n := c as int;
    n == 0x20 || 0x09 <= n <= 0x0D || n == 0x85 || n == 0xA0
    || n == 0x1680 || 0x2000 <= n <= 0x200A || n == 0x2028 || n == 0x2029
    || n == 0x202F || n == 0x205F || n == 0x3000
  }

  /** ASCII lower-casing; every other character is kept. */
  function LowerChar(c: char): (d: char)
    ensures IsSpace(d) <==> IsSpace(c)
    ensures !('A' <= d <= 'Z')
  {
    if 'A' <= c <= 'Z' then (c as int + 32) as char else c
  }

  function ToLower(s: string): (r: string)
    ensures |r| == |s|
    ensures forall i :: 0 <= i < |s| ==> r[i] == LowerChar(s[i])
  {
    if s == [] then [] else [LowerChar(s[0])] + ToLower(s[1..])
  }

  lemma ToLowerIdempotent(s: string)
    ensures ToLower(ToLower(s)) == ToLower(s)
  {
    var t := ToLower(s);
    assert forall i :: 0 <= i < |t| ==> LowerChar(t[i]) == t[i];
  }

  // ---------------------------------------------------------------- trimming

  function TrimLeftSpace(s: string): (r: string)
    ensures |r| <= |s| && r == s[|s| - |r|..]
    ensures forall i :: 0 <= i < |s| - |r| ==> IsSpace(s[i])
    ensures r == [] || !IsSpace(r[0])
  {
    if s != [] && IsSpace(s[0]) then TrimLeftSpace(s[1..]) else s
  }

  function TrimRightSpace(s: string): (r: string)
    ensures |r| <= |s| && r == s[..|r|]
    ensures forall i :: |r| <= i < |s| ==> IsSpace(s[i])
    ensures r == [] || !IsSpace(r[|r| - 1])
  {
    if s != [] && IsSpace(s[|s| - 1]) then TrimRightSpace(s[..|s| - 1]) else s
  }

  /** strings.TrimSpace: drops leading and trailing white space. */
  function TrimSpace(s: string): (r: string)
    ensures |r| <= |s|
    ensures r == [] || (!IsSpace(r[0]) && !IsSpace(r[|r| - 1]))
  {
    TrimRightSpace(TrimLeftSpace(s))
  }

  /** A string with no white space at either end is its own TrimSpace. */
  lemma TrimSpaceKeepsTrimmed(s: string)
    requires s == [] || (!IsSpace(s[0]) && !IsSpace(s[|s| - 1]))
    ensures TrimSpace(s) == s
  {
  }

  /** The only characters TrimRightChar strips are trailing copies of `c`. */
  function TrimRightChar(s: string, c: char): (r: string)
    ensures |r| <= |s| && r == s[..|r|]
    ensures forall i :: |r| <= i < |s| ==> s[i] == c
    ensures r == [] || r[|r| - 1] != c
  {
    if s != [] && s[|s| - 1] == c then TrimRightChar(s[..|s| - 1], c) else s
  }

  // ---------------------------------------------------------------- prefixes and substrings

  predicate HasPrefix(s: string, prefix: string) {
    |prefix| <= |s| && s[..|prefix|] == prefix
  }

  predicate HasSuffix(s: string, suffix: string) {
    |suffix| <= |s| && s[|s| - |suffix|..] == suffix
  }

  function TrimPrefix(s: string, prefix: string): (r: string)
    ensures HasPrefix(s, prefix) ==> s == prefix + r
    ensures !HasPrefix(s, prefix) ==> r == s
  {
    if HasPrefix(s, prefix) then s[|prefix|..] else s
  }

  function TrimSuffix(s: string, suffix: string): (r: string)
    ensures HasSuffix(s, suffix) ==> s == r + suffix
    ensures !HasSuffix(s, suffix) ==> r == s
  {
    if HasSuffix(s, suffix) then s[..|s| - |suffix|] else s
  }

  predicate OccursAt(s: string, sub: string, i: int) {
    0 <= i && i + |sub| <= |s| && s[i..i + |sub|] == sub
  }

  /** strings.Contains */
  predicate Contains(s: string, sub: string) {
    exists i :: 0 <= i <= |s| - |sub| && OccursAt(s, sub, i)
  }

  /** The right-most occurrence of `sub` at an index no larger than `i`, or -1. */
  function LastIndexFrom(s: string, sub: string, i: int): (r: int)
    decreases i + 1
    ensures r == -1 || (0 <= r <= i && OccursAt(s, sub, r))
    ensures forall j :: r < j <= i ==> !OccursAt(s, sub, j)
  {
    if i < 0 then -1 else if OccursAt(s, sub, i) then i else LastIndexFrom(s, sub, i - 1)
  }

  /** strings.LastIndex: the index of the last occurrence of `sub`, or -1. */
  function LastIndex(s: string, sub: string): (r: int)
    ensures r == -1 <==> !Contains(s, sub)
    ensures r != -1 ==> OccursAt(s, sub, r)
    ensures forall j :: r < j ==> !OccursAt(s, sub, j)
  {
    LastIndexFrom(s, sub, |s| - |sub|)
  }

  /** An occurrence inside a suffix is an occurrence in the whole string. */
  lemma OccursInSuffix(s: string, k: nat, sub: string, j: int)
    requires k <= |s| && OccursAt(s[k..], sub, j)
    ensures OccursAt(s, sub, k + j)
  {
    assert s[k..][j..j + |sub|] == s[k + j..k + j + |sub|];
  }

  /** A suffix of a string that does not contain `sub` does not contain it either. */
  lemma SuffixAvoids(s: string, t: string, sub: string)
    requires HasSuffix(s, t) && !Contains(s, sub)
    ensures !Contains(t, sub)
  {
    var k := |s| - |t|;
    assert s[k..] == t;
    forall j | 0 <= j <= |t| - |sub|
      ensures !OccursAt(t, sub, j)
    {
      if OccursAt(t, sub, j) {
        OccursInSuffix(s, k, sub, j);
      }
    }
  }

  /** The index of the last `c` in `s`, or -1 when there is none. */
  function LastIndexChar(s: string, c: char): (r: int)
    ensures -1 <= r < |s|
    ensures r == -1 <==> c !in s
    ensures r != -1 ==> s[r] == c
    ensures forall j :: r < j < |s| ==> s[j] != c
  {
    if s == [] then -1
    else if s[|s| - 1] == c then |s| - 1
    else
      var r := LastIndexChar(s[..|s| - 1], c);
      assert s == s[..|s| - 1] + [s[|s| - 1]];
      r
  }

  /** How many times `c` occurs in `s`. */
  function CountChar(s: string, c: char): nat {
    if s == [] then 0 else (if s[0] == c then 1 else 0) + CountChar(s[1..], c)
  }

  lemma {:induction false} CountCharAppend(a: string, b: string, c: char)
    ensures CountChar(a + b, c) == CountChar(a, c) + CountChar(b, c)
  {
    if a == [] {
      assert a + b == b;
    } else {
      assert (a + b)[1..] == a[1..] + b;
      CountCharAppend(a[1..], b, c);
    }
  }

  lemma {:induction false} CountCharAbsent(s: string, c: char)
    requires c !in s
    ensures CountChar(s, c) == 0
  {
    if s != [] {
      assert c !in s[1..];
      CountCharAbsent(s[1..], c);
    }
  }

  // ---------------------------------------------------------------- split and join

  /** strings.Split with a one-character separator. */
  function Split(s: string, sep: char): (parts: seq<string>)
    ensures |parts| >= 1
    ensures forall k :: 0 <= k < |parts| ==> sep !in parts[k]
    ensures |parts| == 1 <==> sep !in s
    ensures |parts| == 1 ==> parts[0] == s
  {
    if s == [] then [""]
    else
      var rest := Split(s[1..], sep);
      assert sep in s <==> s[0] == sep || sep in s[1..] by {
        assert s == [s[0]] + s[1..];
      }
      if s[0] == sep then [""] + rest
      else [[s[0]] + rest[0]] + rest[1..]
  }

  /** strings.Join with a one-character separator. */
  function Join(parts: seq<string>, sep: char): string {
    if |parts| == 0 then ""
    else if |parts| == 1 then parts[0]
    else parts[0] + [sep] + Join(parts[1..], sep)
  }

  /** Joining the pieces of a split gives back the original string. */
  lemma {:induction false} JoinSplit(s: string, sep: char)
    ensures Join(Split(s, sep), sep) == s
  {
    if s != [] {
      var rest := Split(s[1..], sep);
      JoinSplit(s[1..], sep);
      if s[0] == sep {
        var parts := [""] + rest;
        assert parts[1..] == rest;
      } else if |rest| > 1 {
        var parts := [[s[0]] + rest[0]] + rest[1..];
        assert parts[1..] == rest[1..];
      }
    }
  }

  /** Joining splits into the join of a head and the join of a tail. */
  lemma {:induction false} JoinAt(parts: seq<string>, sep: char, k: nat)
    requires 0 < k < |parts|
    ensures Join(parts, sep) == Join(parts[..k], sep) + [sep] + Join(parts[k..], sep)
  {
    if k > 1 {
      JoinAt(parts[1..], sep, k - 1);
      assert parts[..k][1..] == parts[1..][..k - 1];
      assert parts[1..][k - 1..] == parts[k..];
    }
  }

  /** A split has one more piece than the string has separators. */
  lemma {:induction false} SplitCount(s: string, sep: char)
    ensures |Split(s, sep)| == CountChar(s, sep) + 1
  {
    if s != [] {
      SplitCount(s[1..], sep);
    }
  }

  /** The first piece of a split is a prefix of the string, and it is either the
      whole string or followed by the separator. */
  lemma {:induction false} SplitFirst(s: string, sep: char)
    ensures var first := Split(s, sep)[0];
            HasPrefix(s, first) && (|first| == |s| || s[|first|] == sep)
  {
    if s != [] && s[0] != sep {
      var rest := Split(s[1..], sep);
      SplitFirst(s[1..], sep);
      var first := [s[0]] + rest[0];
      assert Split(s, sep)[0] == first;
      assert s[..|first|] == [s[0]] + s[1..][..|rest[0]|];
    }
  }

  /** The last piece of a split is a suffix of the string, and it is either the
      whole string or preceded by the separator. */
  lemma {:induction false} SplitLast(s: string, sep: char)
    ensures var parts := Split(s, sep);
            var last := parts[|parts| - 1];
            HasSuffix(s, last) && (|last| == |s| || s[|s| - |last| - 1] == sep)
  {
    if s != [] {
      var rest := Split(s[1..], sep);
      SplitLast(s[1..], sep);
      var last' := rest[|rest| - 1];
      assert s[1..][|s| - 1 - |last'|..] == s[|s| - |last'|..];
      if s[0] == sep {
        assert Split(s, sep) == [""] + rest;
      } else if |rest| == 1 {
        assert Split(s, sep) == [[s[0]] + rest[0]];
        assert [s[0]] + s[1..] == s;
      } else {
        assert Split(s, sep)[|Split(s, sep)| - 1] == last';
      }
    }
  }

  // ---------------------------------------------------------------- decimal numbers

  function DigitChar(d: nat): (c: char)
    requires d < 10
    ensures '0' <= c <= '9' && c as int - '0' as int == d
  {
    (d + '0' as int) as char
  }

  predicate IsDigits(s: string) {
    forall i :: 0 <= i < |s| ==> '0' <= s[i] <= '9'
  }

  /** The decimal digits of `n`, most significant first, without leading zeros. */
  function NatToString(n: nat): (r: string)
    decreases n
    ensures |r| >= 1 && IsDigits(r)
  {
    if n < 10 then [DigitChar(n)] else NatToString(n / 10) + [DigitChar(n % 10)]
  }

  /** strconv.Itoa, which is also what `%d` prints. */
  function IntToString(n: int): (r: string)
    ensures |r| >= 1
    ensures ',' !in r
  {
    if n < 0 then "-" + NatToString(-n) else NatToString(n)
  }

  function ParseNat(s: string): nat
    requires IsDigits(s)
  {
    if s == [] then 0 else ParseNat(s[..|s| - 1]) * 10 + (s[|s| - 1] as int - '0' as int)
  }

  /** The inverse of IntToString: an optional '-' followed by digits. */
  function ParseInt(s: string): Option<int> {
    if |s| >= 2 && s[0] == '-' && IsDigits(s[1..]) then Some(-(ParseNat(s[1..]) as int))
    else if |s| >= 1 && IsDigits(s) then Some(ParseNat(s))
    else None
  }

  lemma {:induction false} ParseNatToString(n: nat)
    ensures ParseNat(NatToString(n)) == n
  {
    if n >= 10 {
      ParseNatToString(n / 10);
      var s := NatToString(n);
      assert s[..|s| - 1] == NatToString(n / 10);
    }
  }

  lemma IntToStringRoundTrip(n: int)
    ensures ParseInt(IntToString(n)) == Some(n)
  {
    if n < 0 {
      NegativeRoundTrip(n);
    } else {
      NonNegativeRoundTrip(n);
    }
  }

  lemma NegativeRoundTrip(n: int)
    requires n < 0
    ensures ParseInt(IntToString(n)) == Some(n)
  {
    var m: nat := -n;
    var digits := NatToString(m);
    ParseNatToString(m);
    var s := IntToString(n);
    assert s == "-" + digits;
    assert s[1..] == digits && s[0] == '-' && |s| >= 2;
    assert ParseInt(s) == Some(-(ParseNat(digits) as int));
  }

  lemma NonNegativeRoundTrip(n: nat)
    ensures ParseInt(IntToString(n)) == Some(n)
  {
    var s := IntToString(n);
    ParseNatToString(n);
    assert s == NatToString(n);
    assert s[0] != '-';
  }

  // ---------------------------------------------------------------- quoting

  function HexDigit(d: nat): (c: char)
    requires d < 16
  {
    "0123456789abcdef"[d]
  }

  function HexValue(c: char): Option<nat> {
    if '0' <= c <= '9' then Some(c as int - '0' as int)
    else if 'a' <= c <= 'f' then Some(c as int - 'a' as int + 10)
    else None
  }

  lemma HexDigitValue(d: nat)
    requires d < 16
    ensures HexValue(HexDigit(d)) == Some(d)
  {
  }

  /** 16 to the power k. */
  function Pow16(k: nat): (p: nat)
    ensures p > 0
  {
    if k == 0 then 1 else 16 * Pow16(k - 1)
  }

  lemma Pow16Widths()
    ensures Pow16(2) == 0x100 && Pow16(4) == 0x1_0000 && Pow16(8) == 0x1_0000_0000
  {
    assert Pow16(1) == 16;
    assert Pow16(2) == 0x100;
    assert Pow16(3) == 0x1000;
    assert Pow16(4) == 0x1_0000;
    assert Pow16(6) == 0x100_0000;
    assert Pow16(8) == 0x1_0000_0000;
  }

  /** The k lower-case hex digits of n, most significant first, as strconv
      writes them after `\x`, `\u` and `\U`. */
  function HexDigits(n: nat, k: nat): (r: string)
    ensures |r| == k
    ensures forall i :: 0 <= i < |r| ==> HexValue(r[i]).Some?
  {
    if k == 0 then [] else HexDigits(n / 16, k - 1) + [HexDigit(n % 16)]
  }

  /** The value of a string of hex digits; None when one is not a digit. */
  function HexNumber(t: string): Option<nat> {
    if t == [] then Some(0)
    else
      match (HexNumber(t[..|t| - 1]), HexValue(t[|t| - 1]))
      case (Some(high), Some(low)) => Some(high * 16 + low)
      case _ => None
  }

  /** Reading back k hex digits gives the number they were written from. */
  lemma {:induction false} HexNumberDigits(n: nat, k: nat)
    requires n < Pow16(k)
    ensures HexNumber(HexDigits(n, k)) == Some(n)
  {
    if k > 0 {
      HexNumberDigits(n / 16, k - 1);
      HexDigitValue(n % 16);
      var r := HexDigits(n, k);
      assert r[..|r| - 1] == HexDigits(n / 16, k - 1);
    }
  }

  /**
   * strconv.IsPrint. Up to U+00FF it is decided here: U+0020 to U+007E and
   * U+00A1 to U+00FF except the soft hyphen U+00AD. Above that the Unicode
   * tables decide, and `widePrint` stands for their verdict.
   */
  predicate IsPrint(c: char, widePrint: char -> bool) {
    var n := c as int;
    if n <= 0xFF then (0x20 <= n <= 0x7E) || (0xA1 <= n <= 0xFF && n != 0xAD)
    else widePrint(c)
  }

  /** The escape strconv.Quote writes for one character: a backslash before the
      quote and the backslash, printable characters as they are, the seven named
      control escapes, `\x` for the other ASCII controls, `\u` or `\U` for the
      rest. */
  function EscapeChar(c: char, widePrint: char -> bool): string {
    var n := c as int;
    if c == '"' then "\\\""
    else if c == '\\' then "\\\\"
    else if IsPrint(c, widePrint) then [c]
    else if n == 7 then "\\a"
    else if n == 8 then "\\b"
    else if n == 12 then "\\f"
    else if n == 10 then "\\n"
    else if n == 13 then "\\r"
    else if n == 9 then "\\t"
    else if n == 11 then "\\v"
    else if n < 0x20 || n == 0x7F then "\\x" + HexDigits(n, 2)
    else if n < 0x1_0000 then "\\u" + HexDigits(n, 4)
    else "\\U" + HexDigits(n, 8)
  }

  function EscapeAll(s: string, widePrint: char -> bool): string {
    if s == [] then "" else EscapeChar(s[0], widePrint) + EscapeAll(s[1..], widePrint)
  }

  /** strconv.Quote (what `%q` prints for a string). */
  function Quote(s: string, widePrint: char -> bool): (r: string)
    ensures |r| >= 2 && r[0] == '"' && r[|r| - 1] == '"'
  {
    "\"" + EscapeAll(s, widePrint) + "\""
  }

  /** The code points a char can hold: everything but the surrogates. */
  predicate IsScalar(v: int) {
    0 <= v < 0xD800 || 0xE000 <= v < 0x11_0000
  }

  /** How many hex digits follow `\x`, `\u` and `\U`. */
  function HexWidth(letter: char): nat {
    if letter == 'x' then 2 else if letter == 'u' then 4 else 8
  }

  /**
   * Reads back what EscapeAll writes; a bare quote or a bad escape is rejected.
   * `\x` above 0x7F stands for a raw byte, which a string of characters cannot
   * hold, and `\u` or `\U` must name a character; both are rejected otherwise.
   */
  function Unescape(t: string): Option<string>
    decreases |t|
  {
    if t == [] then Some([])
    else if t[0] == '"' then None
    else if t[0] != '\\' then Prepend(t[0], Unescape(t[1..]))
    else if |t| < 2 then None
    else if t[1] == '"' || t[1] == '\\' then Prepend(t[1], Unescape(t[2..]))
    else if t[1] == 'a' then Prepend(7 as char, Unescape(t[2..]))
    else if t[1] == 'b' then Prepend(8 as char, Unescape(t[2..]))
    else if t[1] == 'f' then Prepend(12 as char, Unescape(t[2..]))
    else if t[1] == 'n' then Prepend(10 as char, Unescape(t[2..]))
    else if t[1] == 'r' then Prepend(13 as char, Unescape(t[2..]))
    else if t[1] == 't' then Prepend(9 as char, Unescape(t[2..]))
    else if t[1] == 'v' then Prepend(11 as char, Unescape(t[2..]))
    else if (t[1] == 'x' || t[1] == 'u' || t[1] == 'U') && |t| >= 2 + HexWidth(t[1]) then
      var w := HexWidth(t[1]);
      var v := HexNumber(t[2..2 + w]);
      if v.Some? && (if t[1] == 'x' then v.value < 0x80 else IsScalar(v.value)) then
        Prepend(v.value as char, Unescape(t[2 + w..]))
      else None
    else None
  }

  function Prepend(c: char, r: Option<string>): Option<string> {
    match r
    case Some(s) => Some([c] + s)
    case None => None
  }

  function Unquote(r: string): Option<string> {
    if |r| >= 2 && r[0] == '"' && r[|r| - 1] == '"' then Unescape(r[1..|r| - 1]) else None
  }

  /** A character's escape reads back as that character, whatever follows it. */
  lemma EscapeCharUnescape(c: char, widePrint: char -> bool, rest: string)
    ensures Unescape(EscapeChar(c, widePrint) + rest) == Prepend(c, Unescape(rest))
  {
    if NamedEscape(c) {
      NamedEscapeUnescape(c, widePrint, rest);
    } else if IsPrint(c, widePrint) {
      var t := EscapeChar(c, widePrint) + rest;
      assert t[1..] == rest;
    } else {
      HexEscapeUnescape(c, widePrint, rest);
    }
  }

  /** The characters written as a backslash and one letter or symbol. */
  predicate NamedEscape(c: char)
  {
    var n := c as int;
    c == '"' || c == '\\' || n == 7 || n == 8 || n == 12 || n == 10 || n == 13 || n == 9 || n == 11
  }

  lemma NamedEscapeUnescape(c: char, widePrint: char -> bool, rest: string)
    requires NamedEscape(c)
    ensures Unescape(EscapeChar(c, widePrint) + rest) == Prepend(c, Unescape(rest))
  {
    var t := EscapeChar(c, widePrint) + rest;
    assert t[2..] == rest;
  }

  lemma HexEscapeUnescape(c: char, widePrint: char -> bool, rest: string)
    requires !NamedEscape(c) && !IsPrint(c, widePrint)
    ensures Unescape(EscapeChar(c, widePrint) + rest) == Prepend(c, Unescape(rest))
  {
    var n := c as int;
    var letter := if n < 0x20 || n == 0x7F then 'x' else if n < 0x1_0000 then 'u' else 'U';
    Pow16Widths();
    assert EscapeChar(c, widePrint) == "\\" + [letter] + HexDigits(n, HexWidth(letter));
    HexEscapeReads(letter, n, rest);
  }

  /** `\x`, `\u` or `\U` and the digits of a code point read back as that
      character. */
  lemma HexEscapeReads(letter: char, n: int, rest: string)
    requires letter == 'x' || letter == 'u' || letter == 'U'
    requires (if letter == 'x' then 0 <= n < 0x80 else IsScalar(n)) && n < Pow16(HexWidth(letter))
    ensures Unescape("\\" + [letter] + HexDigits(n, HexWidth(letter)) + rest) == Prepend(n as char, Unescape(rest))
  {
    var k := HexWidth(letter);
    var t := "\\" + [letter] + HexDigits(n, k) + rest;
    HexNumberDigits(n, k);
    assert t[2..2 + k] == HexDigits(n, k);
    assert t[2 + k..] == rest;
  }

  /** Quoting loses nothing: Unquote reads back exactly the quoted string. */
  lemma {:induction false} QuoteRoundTrip(s: string, widePrint: char -> bool)
    ensures Unquote(Quote(s, widePrint)) == Some(s)
  {
    var r := Quote(s, widePrint);
    assert r[1..|r| - 1] == EscapeAll(s, widePrint);
    UnescapeEscapeAll(s, widePrint);
  }

  /** Every character strconv.Quote writes is printable: whatever is not is
      escaped. */
  lemma {:induction false} QuotePrintable(s: string, widePrint: char -> bool)
    ensures forall i :: 0 <= i < |Quote(s, widePrint)| ==> IsPrint(Quote(s, widePrint)[i], widePrint)
  {
    EscapeAllPrintable(s, widePrint);
  }

  lemma {:induction false} EscapeAllPrintable(s: string, widePrint: char -> bool)
    ensures forall i :: 0 <= i < |EscapeAll(s, widePrint)| ==> IsPrint(EscapeAll(s, widePrint)[i], widePrint)
  {
    if s != [] {
      EscapeAllPrintable(s[1..], widePrint);
      var e := EscapeChar(s[0], widePrint);
      assert forall i :: 0 <= i < |e| ==> IsPrint(e[i], widePrint);
    }
  }

  lemma {:induction false} UnescapeEscapeAll(s: string, widePrint: char -> bool)
    ensures Unescape(EscapeAll(s, widePrint)) == Some(s)
  {
    if s != [] {
      UnescapeEscapeAll(s[1..], widePrint);
      EscapeCharUnescape(s[0], widePrint, EscapeAll(s[1..], widePrint));
      assert [s[0]] + s[1..] == s;
    }
  }
}
