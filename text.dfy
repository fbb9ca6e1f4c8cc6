/** String helpers used by the scripts' decisions: substring tests, ASCII
    lower-casing, whitespace stripping and integer rendering. */
module Text {

  /** `sub in s` on Python strings: `sub` occurs in `s` as a contiguous run. */
  predicate Contains(s: string, sub: string)
    decreases |s|
  {
    sub <= s || (|s| > 0 && Contains(s[1..], sub))
  }

  function LowerChar(c: char): char
  {
    if 'A' <= c <= 'Z' then (c as int + 32) as char else c
  }

  /** `str.lower()` restricted to ASCII letters. */
  function Lower(s: string): (r: string)
    ensures |r| == |s|
    ensures forall i :: 0 <= i < |s| ==> r[i] == LowerChar(s[i])
  {
    seq(|s|, i requires 0 <= i < |s| => LowerChar(s[i]))
  }

  /** The characters for which Python's `str.isspace()` holds. */
  predicate IsSpace(c: char)
  {
    var n := c as int;
    (9 <= n <= 13) || (28 <= n <= 32) || n == 0x85 || n == 0xA0 || n == 0x1680 ||
    (0x2000 <= n <= 0x200A) || n == 0x2028 || n == 0x2029 || n == 0x202F ||
    n == 0x205F || n == 0x3000
  }

  /** `s` without its leading whitespace. */
  function TrimStart(s: string): string
    decreases |s|
  {
    if |s| > 0 && IsSpace(s[0]) then TrimStart(s[1..]) else s
  }

  /** `s` without its trailing whitespace. */
  function TrimEnd(s: string): string
    decreases |s|
  {
    if |s| > 0 && IsSpace(s[|s| - 1]) then TrimEnd(s[..|s| - 1]) else s
  }

  /** `str.strip()`: drop leading and trailing whitespace. */
  function Strip(s: string): string
  {
    TrimEnd(TrimStart(s))
  }

  /** `TrimStart` removes a prefix made only of whitespace and stops at the first
      other character. */
  lemma {:induction false} TrimStartSpec(s: string)
    ensures |TrimStart(s)| <= |s| && TrimStart(s) == s[|s| - |TrimStart(s)|..]
    ensures TrimStart(s) == [] || !IsSpace(TrimStart(s)[0])
    ensures forall i :: 0 <= i < |s| - |TrimStart(s)| ==> IsSpace(s[i])
    decreases |s|
  {
    if |s| > 0 && IsSpace(s[0]) {
      TrimStartSpec(s[1..]);
      assert forall i :: 1 <= i < |s| ==> s[i] == s[1..][i - 1];
    }
  }

  /** `TrimEnd` removes a suffix made only of whitespace and stops at the last
      other character. */
  lemma {:induction false} TrimEndSpec(s: string)
    ensures |TrimEnd(s)| <= |s| && TrimEnd(s) == s[..|TrimEnd(s)|]
    ensures TrimEnd(s) == [] || !IsSpace(TrimEnd(s)[|TrimEnd(s)| - 1])
    ensures forall i :: |TrimEnd(s)| <= i < |s| ==> IsSpace(s[i])
    decreases |s|
  {
    if |s| > 0 && IsSpace(s[|s| - 1]) {
      TrimEndSpec(s[..|s| - 1]);
    }
  }

  /** `Strip(s)` is a contiguous part of `s`, everything cut off is whitespace,
      and it neither starts nor ends with whitespace. */
  lemma StripSpec(s: string)
    ensures exists lo, hi :: 0 <= lo <= hi <= |s| && Strip(s) == s[lo..hi] &&
              (forall i :: 0 <= i < lo ==> IsSpace(s[i])) &&
              (forall i :: hi <= i < |s| ==> IsSpace(s[i]))
    ensures Strip(s) == [] || (!IsSpace(Strip(s)[0]) && !IsSpace(Strip(s)[|Strip(s)| - 1]))
  {
    var t := TrimStart(s);
    TrimStartSpec(s);
    TrimEndSpec(t);
    var lo := |s| - |t|;
    var hi := lo + |TrimEnd(t)|;
    assert Strip(s) == s[lo..hi];
    assert forall i :: hi <= i < |s| ==> s[i] == t[i - lo];
    if Strip(s) != [] {
      assert Strip(s)[0] == t[0];
    }
  }

  function DigitChar(d: nat): char
    requires d < 10
  {
    "0123456789"[d]
  }

  function NatToString(n: nat): (r: string)
    ensures |r| > 0
    decreases n
  {
    if n < 10 then [DigitChar(n)] else NatToString(n / 10) + [DigitChar(n % 10)]
  }

  /** `str(n)` for a Python `int`. */
  function IntToString(n: int): string
  {
    if n < 0 then "-" + NatToString(-n) else NatToString(n)
  }

  /** `s.replace(a, b)` for single characters. */
  function ReplaceChar(s: string, a: char, b: char): (r: string)
    ensures |r| == |s|
    ensures forall i :: 0 <= i < |s| ==> r[i] == (if s[i] == a then b else s[i])
  {
    seq(|s|, i requires 0 <= i < |s| => if s[i] == a then b else s[i])
  }

  function HexDigit(d: nat): char
    requires d < 16
  {
    "0123456789abcdef"[d]
  }

  /** A character as it appears inside `repr()` of a string quoted with `q`:
      backslash, the quote and the ASCII control characters are escaped. */
  function EscapeChar(c: char, q: char): string
  {
    var n := c as int;
    if c == '\\' then "\\\\"
    else if c == q then ['\\', q]
    else if c == '\t' then "\\t"
    else if c == '\n' then "\\n"
    else if c == '\r' then "\\r"
    else if n < 32 || n == 127 then "\\x" + [HexDigit(n / 16), HexDigit(n % 16)]
    else [c]
  }

  function EscapeAll(s: string, q: char): string
    decreases |s|
  {
    if s == [] then [] else EscapeChar(s[0], q) + EscapeAll(s[1..], q)
  }

  /** `c in s`, written as a search. */
  predicate HasChar(s: string, c: char)
    decreases |s|
  {
    s != [] && (s[0] == c || HasChar(s[1..], c))
  }

  lemma {:induction false} HasCharSpec(s: string, c: char)
    ensures HasChar(s, c) <==> exists i :: 0 <= i < |s| && s[i] == c
    decreases |s|
  {
    if s != [] {
      HasCharSpec(s[1..], c);
      if HasChar(s[1..], c) {
        var i :| 0 <= i < |s[1..]| && s[1..][i] == c;
        assert s[i + 1] == c;
      }
      assert forall i :: 1 <= i < |s| ==> s[i] == s[1..][i - 1];
    }
  }

  /** The quote `repr()` chooses: double quotes only for a string that holds a
      single quote and no double quote. */
  function ReprQuote(s: string): char
  {
    if HasChar(s, '\'') && !HasChar(s, '"') then '"' else '\''
  }

  /** `repr()` of a Python string (ASCII escapes only). */
  function StrRepr(s: string): string
  {
    var q := ReprQuote(s);
    [q] + EscapeAll(s, q) + [q]
  }

  /** A character `repr()` leaves alone inside single quotes. */
  predicate PlainChar(c: char)
  {
    c != '\\' && c != '\'' && 32 <= c as int && c as int != 127
  }

  /** Text of plain characters is only wrapped in single quotes. */
  lemma {:induction false} EscapePlain(s: string, q: char)
    requires q == '\''
    requires forall i :: 0 <= i < |s| ==> PlainChar(s[i])
    ensures EscapeAll(s, q) == s
    decreases |s|
  {
    if s != [] {
      EscapePlain(s[1..], q);
    }
  }

  /** A name of plain characters is rendered as `'name'`. */
  lemma StrReprPlain(s: string)
    requires forall i :: 0 <= i < |s| ==> PlainChar(s[i])
    ensures StrRepr(s) == "'" + s + "'"
  {
    HasCharSpec(s, '\'');
    assert !HasChar(s, '\'') by {
      forall i | 0 <= i < |s| ensures s[i] != '\'' { assert PlainChar(s[i]); }
    }
    EscapePlain(s, '\'');
  }

  /** A name holding a single quote and no double quote is rendered between
      double quotes, its single quotes left as they are. */
  lemma {:induction false} EscapeKeepsSingleQuote(s: string)
    requires forall i :: 0 <= i < |s| ==> (PlainChar(s[i]) && s[i] != '"') || s[i] == '\''
    ensures EscapeAll(s, '"') == s
    decreases |s|
  {
    if s != [] {
      EscapeKeepsSingleQuote(s[1..]);
    }
  }

  lemma StrReprSingleQuote(s: string)
    requires '\'' in s
    requires forall i :: 0 <= i < |s| ==> (PlainChar(s[i]) && s[i] != '"') || s[i] == '\''
    ensures StrRepr(s) == "\"" + s + "\""
  {
    HasCharSpec(s, '\'');
    HasCharSpec(s, '"');
    assert !HasChar(s, '"') by {
      forall i | 0 <= i < |s| ensures s[i] != '"' { assert (PlainChar(s[i]) && s[i] != '"') || s[i] == '\''; }
    }
    EscapeKeepsSingleQuote(s);
  }

  /** Python's `",".join(...)`-style concatenation with a separator. */
  function Join(sep: string, parts: seq<string>): string
  {
    if parts == [] then "" else if |parts| == 1 then parts[0] else parts[0] + sep + Join(sep, parts[1..])
  }

  predicate NoDuplicates<T(==)>(s: seq<T>)
  {
    forall i, j :: 0 <= i < j < |s| ==> s[i] != s[j]
  }
}
