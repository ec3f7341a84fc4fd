/** Text helpers shared by the runtime and the code generator: the parts of
    Python's `str` API that the source relies on (`join`, `replace`, `in`,
    `lower`/`upper` on ASCII letters, `str(int)`, `int(str)`, `repr(str)`). */
module Strings {

  /** `sep.join(parts)` */
  function Join(parts: seq<string>, sep: string): (r: string)
    ensures |parts| == 0 ==> r == ""
    ensures |parts| == 1 ==> r == parts[0]
  {
    if |parts| == 0 then ""
    else if |parts| == 1 then parts[0]
    else parts[0] + sep + Join(parts[1..], sep)
  }

  lemma {:induction false} JoinAppend(parts: seq<string>, x: string, sep: string)
    requires |parts| > 0
    ensures Join(parts + [x], sep) == Join(parts, sep) + sep + x
  {
    if |parts| == 1 {
      assert parts + [x] == [parts[0], x];
    } else {
      assert (parts + [x])[1..] == parts[1..] + [x];
      JoinAppend(parts[1..], x, sep);
    }
  }

  /** `pat` occurs in `s` starting at index `i`. */
  predicate OccursAt(s: string, pat: string, i: int)
  {
    0 <= i && i + |pat| <= |s| && s[i..i + |pat|] == pat
  }

  /** Python's `pat in s` for two strings. */
  predicate Contains(s: string, pat: string)
  {
    exists i | 0 <= i <= |s| - |pat| :: OccursAt(s, pat, i)
  }

  lemma ContainsWitness(s: string, pat: string, i: int)
    requires OccursAt(s, pat, i)
    ensures Contains(s, pat)
  {
  }

  /** Inserts `rep` before every character and at the end, which is what
      `s.replace("", rep)` does. */
  function Interleave(s: string, rep: string): string
  {
    if |s| == 0 then rep else rep + [s[0]] + Interleave(s[1..], rep)
  }

  /** `s.replace(pat, rep)`: every non-overlapping occurrence of `pat`,
      scanning from the left, replaced by `rep`. */
  function ReplaceAll(s: string, pat: string, rep: string): (r: string)
    decreases |s|
  {
    if |pat| == 0 then Interleave(s, rep)
    else if |s| < |pat| then s
    else if s[..|pat|] == pat then rep + ReplaceAll(s[|pat|..], pat, rep)
    else [s[0]] + ReplaceAll(s[1..], pat, rep)
  }

  /** A string in which `pat` does not occur comes back unchanged. */
  lemma {:induction false} ReplaceAbsent(s: string, pat: string, rep: string)
    requires |pat| > 0
    requires !Contains(s, pat)
    ensures ReplaceAll(s, pat, rep) == s
    decreases |s|
  {
    if |s| >= |pat| {
      assert !OccursAt(s, pat, 0);
      forall i | OccursAt(s[1..], pat, i) ensures false {
        assert s[1..][i..i + |pat|] == s[i + 1..i + 1 + |pat|];
        assert OccursAt(s, pat, i + 1);
      }
      ReplaceAbsent(s[1..], pat, rep);
    }
  }

  /** A prefix that does not contain the first character of `pat` is copied
      over unchanged. */
  lemma {:induction false} ReplaceSkipsPrefix(u: string, t: string, pat: string, rep: string)
    requires |pat| > 0
    requires pat[0] !in u
    ensures ReplaceAll(u + t, pat, rep) == u + ReplaceAll(t, pat, rep)
    decreases |u|
  {
    if |u| > 0 {
      var s := u + t;
      assert s[0] == u[0] != pat[0];
      if |s| >= |pat| {
        assert s[..|pat|] != pat;
      }
      assert s[1..] == u[1..] + t;
      ReplaceSkipsPrefix(u[1..], t, pat, rep);
    } else {
      assert u + t == t;
    }
  }

  /** An occurrence at the very front is replaced. */
  lemma ReplaceAtFront(t: string, pat: string, rep: string)
    requires |pat| > 0
    ensures ReplaceAll(pat + t, pat, rep) == rep + ReplaceAll(t, pat, rep)
  {
    assert (pat + t)[..|pat|] == pat;
    assert (pat + t)[|pat|..] == t;
  }

  /** Removing every occurrence of a single character leaves none. */
  lemma {:induction false} ReplaceCharRemoves(s: string, c: char)
    ensures c !in ReplaceAll(s, [c], "")
    decreases |s|
  {
    if |s| > 0 {
      if s[..1] == [c] {
        ReplaceCharRemoves(s[1..], c);
      } else {
        assert s[0] != c;
        ReplaceCharRemoves(s[1..], c);
      }
    }
  }

  /** A string without the character comes back unchanged. */
  lemma {:induction false} ReplaceCharAbsent(s: string, c: char, rep: string)
    requires c !in s
    ensures ReplaceAll(s, [c], rep) == s
    decreases |s|
  {
    if |s| > 0 {
      assert s[0] != c && s[..1] == [s[0]];
      assert c !in s[1..];
      ReplaceCharAbsent(s[1..], c, rep);
    }
  }

  predicate IsDigit(c: char) { '0' <= c <= '9' }
  predicate IsLower(c: char) { 'a' <= c <= 'z' }
  predicate IsUpper(c: char) { 'A' <= c <= 'Z' }
  predicate IsAlnum(c: char) { IsDigit(c) || IsLower(c) || IsUpper(c) }

  /** `c.lower()` restricted to ASCII letters. */
  function Lower(c: char): (r: char)
    ensures IsUpper(c) ==> IsLower(r)
    ensures !IsUpper(c) ==> r == c
  {
    if IsUpper(c) then (c as int + 32) as char else c
  }

  /** `c.upper()` restricted to ASCII letters. */
  function Upper(c: char): (r: char)
    ensures IsLower(c) ==> IsUpper(r)
    ensures !IsLower(c) ==> r == c
  {
    if IsLower(c) then (c as int - 32) as char else c
  }

  function LowerStr(s: string): (r: string)
    ensures |r| == |s|
    ensures forall i :: 0 <= i < |s| ==> r[i] == Lower(s[i])
  {
    if |s| == 0 then "" else [Lower(s[0])] + LowerStr(s[1..])
  }

  function UpperStr(s: string): (r: string)
    ensures |r| == |s|
    ensures forall i :: 0 <= i < |s| ==> r[i] == Upper(s[i])
  {
    if |s| == 0 then "" else [Upper(s[0])] + UpperStr(s[1..])
  }

  function DigitChar(d: nat): (c: char)
    requires d < 10
    ensures IsDigit(c)
  {
    ('0' as int + d) as char
  }

  function DigitValue(c: char): (d: nat)
    requires IsDigit(c)
    ensures d < 10 && DigitChar(d) == c
  {
    c as int - '0' as int
  }

  predicate AllDigits(s: string)
  {
    forall i :: 0 <= i < |s| ==> IsDigit(s[i])
  }

  /** Decimal digits of `n`, most significant first, with no leading zero. */
  function NatToString(n: nat): (r: string)
    ensures |r| > 0 && AllDigits(r)
    ensures r[0] == '0' ==> n == 0
    decreases n
  {
    if n < 10 then [DigitChar(n)] else NatToString(n / 10) + [DigitChar(n % 10)]
  }

  /** `str(i)` for a Python int. */
  function IntToString(i: int): (r: string)
    ensures |r| > 0
    ensures i < 0 <==> r[0] == '-'
  {
    if i < 0 then "-" + NatToString(-i) else NatToString(i)
  }

  /** The value of a run of decimal digits. */
  function DigitsValue(s: string): nat
    requires AllDigits(s)
  {
    if |s| == 0 then 0 else DigitsValue(s[..|s| - 1]) * 10 + DigitValue(s[|s| - 1])
  }

  lemma {:induction false} DigitsValueOfNat(n: nat)
    ensures DigitsValue(NatToString(n)) == n
    decreases n
  {
    var s := NatToString(n);
    if n >= 10 {
      assert s[..|s| - 1] == NatToString(n / 10);
      DigitsValueOfNat(n / 10);
    }
  }

  /** `int(s)` for an optional sign followed by decimal digits; `None` where
      Python raises ValueError. */
  function ParseInt(s: string): (r: Option<int>)
    ensures r.Some? ==> |s| > 0
  {
    if |s| > 0 && (s[0] == '-' || s[0] == '+') then
      var rest := s[1..];
      if |rest| > 0 && AllDigits(rest) then
        var v: int := DigitsValue(rest);
        Some(if s[0] == '-' then -v else v)
      else None
    else if |s| > 0 && AllDigits(s) then Some(DigitsValue(s))
    else None
  }

  /** `int(str(i)) == i`: the decimal rendering parses back. */
  lemma ParseIntRoundTrip(i: int)
    ensures ParseInt(IntToString(i)) == Some(i)
  {
    var s := IntToString(i);
    if i < 0 {
      var digits := NatToString(-i);
      assert s == "-" + digits;
      assert s[1..] == digits;
      DigitsValueOfNat(-i);
      var v: int := DigitsValue(digits);
      assert ParseInt(s) == Some(-v);
    } else {
      var digits := NatToString(i);
      assert s == digits && s[0] != '-' && s[0] != '+';
      DigitsValueOfNat(i);
    }
  }

  datatype Option<+T> = None | Some(value: T)

  function Hex(d: nat): char
    requires d < 16
    ensures IsDigit(Hex(d)) || 'a' <= Hex(d) <= 'f'
  {
    if d < 10 then DigitChar(d) else ('a' as int + d - 10) as char
  }

  /** One character as it appears inside Python's `repr` of a str quoted with
      `q`: control characters and the non-printable Latin-1 characters
      (U+007F to U+00A0 and U+00AD) become `\xNN`; every character beyond
      U+00FF is written as it is. */
  function EscapeChar(c: char, q: char): (r: string)
    ensures |r| > 0
  {
    if c == '\\' then "\\\\"
    else if c == q then ['\\', q]
    else if c == '\t' then "\\t"
    else if c == '\n' then "\\n"
    else if c == '\r' then "\\r"
    else if c < ' ' || (127 <= c as int <= 0xa0) || c as int == 0xad then
      ['\\', 'x', Hex(c as int / 16), Hex(c as int % 16)]
    else [c]
  }

  function EscapeAll(s: string, q: char): string
  {
    if |s| == 0 then "" else EscapeChar(s[0], q) + EscapeAll(s[1..], q)
  }

  /** Python's `repr(s)` for a str: single quotes unless the text contains a
      single quote and no double quote. */
  function PyStrRepr(s: string): (r: string)
    ensures |r| >= 2
    ensures '\'' !in s ==> r[0] == '\'' && r[|r| - 1] == '\''
  {
    var q := if '\'' in s && '"' !in s then '"' else '\'';
    [q] + EscapeAll(s, q) + [q]
  }

  /** A non-printable Latin-1 character is written as a `\x` escape. */
  lemma ReprEscapesLatin1()
    ensures PyStrRepr("a\U{80}") == "'a\\x80'" && PyStrRepr("\U{a0}") == "'\\xa0'"
  {
  }

  lemma EscapeAllPlain(s: string, q: char)
    requires forall i :: 0 <= i < |s| ==> ' ' <= s[i] && s[i] as int < 127 && s[i] != '\\' && s[i] != q
    ensures EscapeAll(s, q) == s
  {
  }
}
