/**
 * The handful of Python `str` operations the scripts rely on, on Dafny strings
 * (`seq<char>`): whitespace stripping, `split` on a separator, `join`, `in`,
 * `endswith`, `isdigit`/`int` for decimal keys, `isalpha` for one character and
 * `splitlines`.
 */
module Strings {

  /** Python's `str.isspace` for one character (the Unicode whitespace set Python uses). */
  predicate IsSpace(c: char) {
    var n := c as int;
    n == 32 || 9 <= n <= 13 || 28 <= n <= 31 || n == 0x85 || n == 0xA0 || n == 0x1680
    || 0x2000 <= n <= 0x200A || n == 0x2028 || n == 0x2029 || n == 0x202F || n == 0x205F || n == 0x3000
  }

  /** True when `s` has no whitespace at either end (what `strip()` guarantees). */
  predicate Stripped(s: string) {
    s == [] || (!IsSpace(s[0]) && !IsSpace(s[|s| - 1]))
  }

  /** `s.lstrip()`. */
  function TrimLeft(s: string): (r: string)
    ensures |r| <= |s| && r == s[|s| - |r|..]
    ensures r == [] || !IsSpace(r[0])
  {
    if s == [] || !IsSpace(s[0]) then s else TrimLeft(s[1..])
  }

  /** `s.rstrip()`. */
  function TrimRight(s: string): (r: string)
    ensures |r| <= |s| && r == s[..|r|]
    ensures r == [] || !IsSpace(r[|r| - 1])
  {
    if s == [] || !IsSpace(s[|s| - 1]) then s else TrimRight(s[..|s| - 1])
  }

  /** `s.strip()`: `s` without the whitespace at either end. */
  function Strip(s: string): (r: string)
    ensures Stripped(r)
    ensures |r| <= |TrimLeft(s)| <= |s| && r == s[|s| - |TrimLeft(s)|..][..|r|]
  {
    var t := TrimLeft(s);
    var r := TrimRight(t);
    assert r != [] ==> r[0] == t[0];
    r
  }

  /** `sub` occurs in `s` at position `j`. */
  predicate OccursAt(s: string, sub: string, j: int) {
    0 <= j <= |s| - |sub| && s[j..j + |sub|] == sub
  }

  /** `sub in s` for strings: `sub` occurs at some position of `s`. */
  predicate Contains(s: string, sub: string) {
    IndexOf(s, sub) >= 0
  }

  /** `s.find(sub)`: the leftmost position where `sub` occurs, or -1. */
  function IndexOf(s: string, sub: string): (r: int)
    ensures r >= -1 && (r >= 0 ==> OccursAt(s, sub, r))
    ensures forall j :: 0 <= j && (r < 0 || j < r) ==> !OccursAt(s, sub, j)
    decreases |s|
  {
    if |s| < |sub| then -1
    else if s[..|sub|] == sub then 0
    else
      var k := IndexOf(s[1..], sub);
      forall j | 1 <= j ensures OccursAt(s, sub, j) <==> OccursAt(s[1..], sub, j - 1) {
        OccursAtTail(s, sub, j);
      }
      if k < 0 then -1 else k + 1
  }

  /** An occurrence after the first character is an occurrence in the tail, one position earlier. */
  lemma OccursAtTail(s: string, sub: string, j: int)
    requires s != [] && 1 <= j
    ensures OccursAt(s, sub, j) <==> OccursAt(s[1..], sub, j - 1)
  {
    if 0 <= j - 1 <= |s[1..]| - |sub| {
      assert s[1..][j - 1..j - 1 + |sub|] == s[j..j + |sub|];
    }
  }

  /** A string that does not contain `sub` has no slice that does. */
  lemma NotContainsSlice(s: string, sub: string, a: int, b: int)
    requires 0 <= a <= b <= |s|
    requires !Contains(s, sub)
    ensures !Contains(s[a..b], sub)
  {
    var p := IndexOf(s[a..b], sub);
    if p >= 0 {
      assert s[a..b][p..p + |sub|] == s[a + p..a + p + |sub|];
      assert OccursAt(s, sub, a + p);
    }
  }

  /** Stripping whitespace cannot make a string contain `sub`. */
  lemma NotContainsStrip(s: string, sub: string)
    requires !Contains(s, sub)
    ensures !Contains(Strip(s), sub)
  {
    var a := |s| - |TrimLeft(s)|;
    NotContainsSlice(s, sub, a, |s|);
    assert s[a..|s|] == s[a..];
    NotContainsSlice(s[a..], sub, 0, |Strip(s)|);
    assert s[a..][0..|Strip(s)|] == Strip(s);
  }

  /** `s.endswith(suffix)`. */
  predicate EndsWith(s: string, suffix: string) {
    |suffix| <= |s| && s[|s| - |suffix|..] == suffix
  }

  /** `s.startswith(prefix)`. */
  predicate StartsWith(s: string, prefix: string) {
    |prefix| <= |s| && s[..|prefix|] == prefix
  }

  /**
   * `s.split(sep)` for a non-empty separator: the pieces between the
   * non-overlapping occurrences of `sep`, found from the left.
   */
  function Split(s: string, sep: string): (r: seq<string>)
    requires sep != []
    ensures |r| >= 1 && (Contains(s, sep) <==> |r| >= 2)
    ensures forall i :: 0 <= i < |r| ==> !Contains(r[i], sep)
    decreases |s|
  {
    var k := IndexOf(s, sep);
    if k < 0 then [s]
    else
      NoEarlierOccurrence(s, sep, k);
      [s[..k]] + Split(s[k + |sep|..], sep)
  }

  /** A prefix of `s` that ends before the leftmost occurrence of `sep` does not contain `sep`. */
  lemma NoEarlierOccurrence(s: string, sep: string, k: int)
    requires sep != []
    requires 0 <= k <= |s| - |sep|
    requires forall j :: 0 <= j < k ==> !OccursAt(s, sep, j)
    ensures !Contains(s[..k], sep)
  {
    var p := IndexOf(s[..k], sep);
    if p >= 0 {
      assert s[..k][p..p + |sep|] == s[p..p + |sep|];
      assert OccursAt(s, sep, p);
    }
  }

  /** `sep.join(parts)`. */
  function Join(sep: string, parts: seq<string>): string {
    if parts == [] then ""
    else if |parts| == 1 then parts[0]
    else parts[0] + sep + Join(sep, parts[1..])
  }

  /** Joining the pieces of a split with the same separator gives the string back. */
  lemma {:induction false} JoinSplit(s: string, sep: string)
    requires sep != []
    ensures Join(sep, Split(s, sep)) == s
    decreases |s|
  {
    var k := IndexOf(s, sep);
    if k >= 0 {
      var rest := s[k + |sep|..];
      SplitAtFirst(s, sep, k);
      JoinSplit(rest, sep);
      JoinCons(sep, s[..k], Split(rest, sep));
    }
  }

  /** Where `sep` first occurs at `k`, `s` is the piece before it, `sep` and the rest, and so is its split. */
  lemma SplitAtFirst(s: string, sep: string, k: int)
    requires sep != [] && k == IndexOf(s, sep) && k >= 0
    ensures Split(s, sep) == [s[..k]] + Split(s[k + |sep|..], sep)
    ensures s == s[..k] + sep + s[k + |sep|..]
  {
    OccursAtSplits(s, sep, k);
  }

  /** An occurrence of `sub` at `k` cuts `s` into the part before, `sub` and the part after. */
  lemma OccursAtSplits(s: string, sub: string, k: int)
    requires OccursAt(s, sub, k)
    ensures s == s[..k] + sub + s[k + |sub|..]
  {
    assert s == s[..k] + s[k..k + |sub|] + s[k + |sub|..];
  }

  /** Joining a first piece in front of a non-empty list puts the separator between them. */
  lemma JoinCons(sep: string, first: string, parts: seq<string>)
    requires parts != []
    ensures Join(sep, [first] + parts) == first + sep + Join(sep, parts)
  {
    assert ([first] + parts)[1..] == parts;
  }

  /** A string `strip` leaves alone. */
  lemma StripStripped(s: string)
    requires Stripped(s)
    ensures Strip(s) == s
  {
    assert TrimLeft(s) == s;
  }

  /** A joined list starts with its first element, and is empty when the first element is the only, empty one. */
  lemma JoinStartsWith(sep: string, parts: seq<string>)
    requires parts != []
    ensures StartsWith(Join(sep, parts), parts[0])
    ensures Join(sep, parts) == [] ==> parts[0] == []
  {
    if |parts| > 1 {
      assert Join(sep, parts) == parts[0] + (sep + Join(sep, parts[1..]));
    }
  }

  /** ASCII decimal digit. */
  predicate IsDigit(c: char) {
    '0' <= c <= '9'
  }

  /** `s.isdigit()` for ASCII text: non-empty and made of decimal digits only. */
  predicate AllDigits(s: string) {
    s != [] && forall i :: 0 <= i < |s| ==> IsDigit(s[i])
  }

  /** `int(s)` for a string of decimal digits (leading zeros allowed, as in Python). */
  function DecimalValue(s: string): (n: nat)
    requires forall i :: 0 <= i < |s| ==> IsDigit(s[i])
  {
    if s == [] then 0
    else
      var d := s[|s| - 1];
      assert IsDigit(d);
      10 * DecimalValue(s[..|s| - 1]) + (d as int - '0' as int)
  }

  /** `c.isalpha()` for ASCII letters. */
  predicate IsAlpha(c: char) {
    'a' <= c <= 'z' || 'A' <= c <= 'Z'
  }

  /** The decimal text of an integer, as Python's `str(n)` writes it. */
  function IntToString(n: int): (s: string)
    ensures s != []
    decreases if n < 0 then 1 - n else n
  {
    if n < 0 then "-" + IntToString(-n)
    else if n < 10 then [('0' as int + n) as char]
    else IntToString(n / 10) + [('0' as int + n % 10) as char]
  }

  /**
   * `c.isprintable()` for the characters up to U+00FF: the C0 controls, DEL,
   * the C1 controls, the no-break space and the soft hyphen are not printable.
   * Every character above U+00FF counts as printable here.
   */
  predicate IsPrintable(c: char) {
    !(c as int < 0x20 || 0x7f <= c as int <= 0xa0 || c as int == 0xad)
  }

  /** The lower-case hexadecimal digit of `n`. */
  function HexDigit(n: int): (c: char)
    requires 0 <= n < 16
    ensures IsHexDigit(c) && HexValue(c) == n
  {
    if n < 10 then ('0' as int + n) as char else ('a' as int + n - 10) as char
  }

  predicate IsHexDigit(c: char) {
    '0' <= c <= '9' || 'a' <= c <= 'f' || 'A' <= c <= 'F'
  }

  function HexValue(c: char): (n: int)
    requires IsHexDigit(c)
    ensures 0 <= n < 16
  {
    if '0' <= c <= '9' then c as int - '0' as int
    else if 'a' <= c <= 'f' then c as int - 'a' as int + 10
    else c as int - 'A' as int + 10
  }

  /** The quote `repr(s)` uses: `"` when `s` holds `'` and no `"`, `'` otherwise. */
  function QuoteFor(s: string): (q: char)
    ensures q == '"' <==> '\'' in s && '"' !in s
    ensures q == '"' || q == '\''
  {
    if '\'' in s && '"' !in s then '"' else '\''
  }

  /** One character inside a `repr` literal quoted with `q`. */
  function EscapeChar(c: char, q: char): (e: string)
    ensures e != []
    ensures IsPrintable(c) && c != q && c != '\\' ==> e == [c]
  {
    if c == q || c == '\\' then ['\\', c]
    else if c == '\t' then "\\t"
    else if c == '\n' then "\\n"
    else if c == '\r' then "\\r"
    else if !IsPrintable(c) then "\\x" + [HexDigit(c as int / 16), HexDigit(c as int % 16)]
    else [c]
  }

  /** The characters of `s` inside a `repr` literal quoted with `q`. */
  function Escaped(s: string, q: char): string {
    if s == [] then [] else EscapeChar(s[0], q) + Escaped(s[1..], q)
  }

  /** `repr(s)` for a string, as Python writes it. */
  function ReprString(s: string): (r: string)
    ensures |r| >= 2 && r[0] == r[|r| - 1] == QuoteFor(s)
  {
    [QuoteFor(s)] + Escaped(s, QuoteFor(s)) + [QuoteFor(s)]
  }

  /** Reading the inside of a Python string literal: `\t`, `\n`, `\r`, `\xhh` and `\c` for any other `c`. */
  function Unescape(t: string): string {
    if t == [] then []
    else if t[0] != '\\' || |t| == 1 then [t[0]] + Unescape(t[1..])
    else if t[1] == 't' then ['\t'] + Unescape(t[2..])
    else if t[1] == 'n' then ['\n'] + Unescape(t[2..])
    else if t[1] == 'r' then ['\r'] + Unescape(t[2..])
    else if t[1] == 'x' && |t| >= 4 && IsHexDigit(t[2]) && IsHexDigit(t[3]) then
      [(HexValue(t[2]) * 16 + HexValue(t[3])) as char] + Unescape(t[4..])
    else [t[1]] + Unescape(t[2..])
  }

  /** Reading one escaped character back gives the character. */
  lemma UnescapeChar(c: char, q: char, rest: string)
    requires q == '"' || q == '\''
    ensures Unescape(EscapeChar(c, q) + rest) == [c] + Unescape(rest)
  {
    var e := EscapeChar(c, q);
    if !(c == q || c == '\\') && c != '\t' && c != '\n' && c != '\r' && !IsPrintable(c) {
      var hi, lo := HexDigit(c as int / 16), HexDigit(c as int % 16);
      assert e + rest == ['\\', 'x', hi, lo] + rest;
      assert (e + rest)[4..] == rest;
    } else if |e| == 2 {
      assert (e + rest)[2..] == rest;
    } else {
      assert (e + rest)[1..] == rest;
    }
  }

  /** The inside of `repr(s)` reads back as `s`: no character is lost or confused. */
  lemma {:induction false} UnescapeEscaped(s: string, q: char)
    requires q == '"' || q == '\''
    ensures Unescape(Escaped(s, q)) == s
  {
    if s != [] {
      UnescapeEscaped(s[1..], q);
      UnescapeChar(s[0], q, Escaped(s[1..], q));
    }
  }

  /** `repr` round trip: stripping the quotes and reading the escapes gives the string back. */
  lemma ReprStringRoundTrip(s: string)
    ensures var r := ReprString(s); Unescape(r[1..|r| - 1]) == s
  {
    var q := QuoteFor(s);
    var r := ReprString(s);
    assert r[1..|r| - 1] == Escaped(s, q);
    UnescapeEscaped(s, q);
  }

  /** A string of printable characters without quotes or backslashes is written between single quotes as it is. */
  lemma {:induction false} ReprStringPlain(s: string)
    requires forall i :: 0 <= i < |s| ==> IsPrintable(s[i]) && s[i] !in "'\"\\"
    ensures ReprString(s) == "'" + s + "'"
  {
    assert QuoteFor(s) == '\'';
    EscapedPlain(s);
  }

  lemma {:induction false} EscapedPlain(s: string)
    requires forall i :: 0 <= i < |s| ==> IsPrintable(s[i]) && s[i] !in "'\"\\"
    ensures Escaped(s, '\'') == s
  {
    if s != [] {
      assert s[0] !in "'\"\\";
      EscapedPlain(s[1..]);
      assert s == [s[0]] + s[1..];
    }
  }

  /** A character other than a quote, a backslash, an escape letter or a hex digit appears in `repr(s)` only if it appears in `s`. */
  lemma ReprStringAvoids(s: string, d: char)
    requires d !in s && d !in "'\"\\tnrx" && !IsHexDigit(d)
    ensures d !in ReprString(s)
  {
    EscapedAvoids(s, QuoteFor(s), d);
  }

  lemma {:induction false} EscapedAvoids(s: string, q: char, d: char)
    requires d !in s && d != q && d !in "\\tnrx" && !IsHexDigit(d)
    ensures d !in Escaped(s, q)
  {
    if s != [] {
      assert s[0] in s;
      EscapedAvoids(s[1..], q, d);
      var e := EscapeChar(s[0], q);
      assert d !in e by {
        if |e| == 4 {
          assert e[2] == HexDigit(s[0] as int / 16) && e[3] == HexDigit(s[0] as int % 16);
        }
      }
    }
  }
}
