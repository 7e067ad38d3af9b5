/**
 * The Python string operations the modelled code relies on, written out on
 * `seq<char>`: substring test (`t in s`), `replace`, `lower`, `strip`,
 * `os.path.basename`, `rsplit(sep, 1)[0]`, `split(sep)[0]`, `str(n)`,
 * `zfill` and `int(text)`.
 */
module Text {
  import opened Wrappers

  /** Python `s.startswith(p)`. */
  predicate StartsWith(s: string, p: string) {
    |p| <= |s| && s[..|p|] == p
  }

  /** Python `s.endswith(p)`. */
  predicate EndsWith(s: string, p: string) {
    |p| <= |s| && s[|s| - |p|..] == p
  }

  /** `t` occurs in `s` starting at index `i`. */
  predicate OccursAt(s: string, t: string, i: int) {
    0 <= i <= |s| - |t| && s[i..i + |t|] == t
  }

  /** Python `t in s`: `t` occurs in `s` as a contiguous substring. */
  predicate Contains(s: string, t: string)
    decreases |s|
  {
    StartsWith(s, t) || (|s| > 0 && Contains(s[1..], t))
  }

  /** `Contains` agrees with the positional definition of a substring. */
  lemma {:induction false} ContainsIffOccursAt(s: string, t: string)
    ensures Contains(s, t) <==> exists i :: OccursAt(s, t, i)
    decreases |s|
  {
    if StartsWith(s, t) {
      assert OccursAt(s, t, 0);
    } else if |s| > 0 {
      ContainsIffOccursAt(s[1..], t);
      if exists i :: OccursAt(s, t, i) {
        var i :| OccursAt(s, t, i);
        assert i > 0;
        assert s[1..][i - 1..i - 1 + |t|] == s[i..i + |t|];
        assert OccursAt(s[1..], t, i - 1);
      }
      if Contains(s[1..], t) {
        var i :| OccursAt(s[1..], t, i);
        assert s[1..][i..i + |t|] == s[i + 1..i + 1 + |t|];
        assert OccursAt(s, t, i + 1);
      }
    } else {
      assert !exists i :: OccursAt(s, t, i);
    }
  }

  /** Python `s.replace('', rep)`: `rep` before every character and at the end. */
  function Interleave(s: string, rep: string): (r: string)
    ensures forall c :: c in r ==> c in s || c in rep
  {
    if s == [] then rep else rep + [s[0]] + Interleave(s[1..], rep)
  }

  /**
   * Python `s.replace(pat, rep)`: every non-overlapping occurrence of `pat`,
   * scanning left to right, is replaced by `rep`.
   */
  function Replace(s: string, pat: string, rep: string): string
    decreases |s|
  {
    if pat == [] then Interleave(s, rep)
    else if StartsWith(s, pat) then rep + Replace(s[|pat|..], pat, rep)
    else if s == [] then []
    else [s[0]] + Replace(s[1..], pat, rep)
  }

  /** Every character of the result comes from the text or from the replacement. */
  lemma {:induction false} ReplaceChars(s: string, pat: string, rep: string)
    ensures forall c :: c in Replace(s, pat, rep) ==> c in s || c in rep
    decreases |s|
  {
    if pat == [] {
    } else if StartsWith(s, pat) {
      ReplaceChars(s[|pat|..], pat, rep);
      assert forall c :: c in s[|pat|..] ==> c in s;
    } else if s != [] {
      ReplaceChars(s[1..], pat, rep);
      assert forall c :: c in s[1..] ==> c in s;
    }
  }

  /** A text without the pattern is left as it is. */
  lemma {:induction false} ReplaceAbsent(s: string, pat: string, rep: string)
    requires pat != [] && !Contains(s, pat)
    ensures Replace(s, pat, rep) == s
    decreases |s|
  {
    if s != [] {
      ReplaceAbsent(s[1..], pat, rep);
      assert s == [s[0]] + s[1..];
    }
  }

  /** Replacing a text by itself changes nothing. */
  lemma {:induction false} ReplaceBySelf(s: string, pat: string)
    ensures Replace(s, pat, pat) == s
    decreases |s|
  {
    if pat == [] {
      InterleaveEmpty(s);
    } else if StartsWith(s, pat) {
      ReplaceBySelf(s[|pat|..], pat);
      assert s == s[..|pat|] + s[|pat|..];
    } else if s != [] {
      ReplaceBySelf(s[1..], pat);
      assert s == [s[0]] + s[1..];
    }
  }

  lemma {:induction false} InterleaveEmpty(s: string)
    ensures Interleave(s, []) == s
  {
    if s != [] {
      InterleaveEmpty(s[1..]);
      assert s == [s[0]] + s[1..];
    }
  }

  /** Python `'A' <= c <= 'Z'` in the sense of `str.lower` on ASCII text. */
  predicate IsUpper(c: char) {
    'A' <= c <= 'Z'
  }

  function LowerChar(c: char): char {
    if IsUpper(c) then (c as int + 32) as char else c
  }

  /** Python `s.lower()` on ASCII letters. */
  function Lower(s: string): (r: string)
    ensures |r| == |s|
    ensures forall i :: 0 <= i < |s| ==> r[i] == LowerChar(s[i])
    ensures forall c :: c in r ==> !IsUpper(c)
  {
    seq(|s|, i requires 0 <= i < |s| => LowerChar(s[i]))
  }

  /** The characters Python's `str.isspace` accepts in the ASCII range. */
  predicate IsSpace(c: char) {
    c == ' ' || 9 <= c as int <= 13 || 28 <= c as int <= 31
  }

  /** Python `s.lstrip()`: drops the longest all-whitespace prefix. */
  function LStrip(s: string): (r: string)
    ensures |r| <= |s|
    ensures r == [] || !IsSpace(r[0])
    ensures forall k :: 0 <= k < |s| - |r| ==> IsSpace(s[k])
  {
    if s != [] && IsSpace(s[0]) then LStrip(s[1..]) else s
  }

  /** Python `s.rstrip()`: drops the longest all-whitespace suffix. */
  function RStrip(s: string): (r: string)
    ensures |r| <= |s|
    ensures r == [] || !IsSpace(r[|r| - 1])
    ensures forall k :: |r| <= k < |s| ==> IsSpace(s[k])
  {
    if s != [] && IsSpace(s[|s| - 1]) then RStrip(s[..|s| - 1]) else s
  }

  /** What `lstrip` keeps is a suffix of its input. */
  lemma {:induction false} LStripSuffix(s: string)
    ensures LStrip(s) == s[|s| - |LStrip(s)|..]
    decreases |s|
  {
    if s != [] && IsSpace(s[0]) {
      LStripSuffix(s[1..]);
      assert s[1..][|s| - 1 - |LStrip(s)|..] == s[|s| - |LStrip(s)|..];
    }
  }

  /** What `rstrip` keeps is a prefix of its input. */
  lemma {:induction false} RStripPrefix(s: string)
    ensures RStrip(s) == s[..|RStrip(s)|]
    decreases |s|
  {
    if s != [] && IsSpace(s[|s| - 1]) {
      RStripPrefix(s[..|s| - 1]);
      assert s[..|s| - 1][..|RStrip(s)|] == s[..|RStrip(s)|];
    }
  }

  /** Python `s.strip()`: neither end of the result is whitespace. */
  function Strip(s: string): (r: string)
    ensures r == [] || (!IsSpace(r[0]) && !IsSpace(r[|r| - 1]))
    ensures |r| <= |s|
  {
    var t := LStrip(s);
    RStripPrefix(t);
    RStrip(t)
  }

  /** A text with no whitespace at either end is its own strip. */
  lemma StripUnspaced(s: string)
    requires s == [] || (!IsSpace(s[0]) && !IsSpace(s[|s| - 1]))
    ensures Strip(s) == s
  {
  }

  /** Python `os.path.basename(path)`: the text after the last `/`. */
  function Basename(path: string): (r: string)
    ensures '/' !in r
    ensures EndsWith(path, r)
    ensures r == path || path[|path| - |r| - 1] == '/'
  {
    if path == [] || path[|path| - 1] == '/' then []
    else Basename(path[..|path| - 1]) + [path[|path| - 1]]
  }

  /** Python `s.rsplit(sep, 1)[0]`: the text before the last `sep`, or all of `s`. */
  function BeforeLast(s: string, sep: char): (r: string)
    ensures sep !in s ==> r == s
    ensures sep in s ==> |r| < |s| && s[..|r|] == r && s[|r|] == sep && sep !in s[|r| + 1..]
  {
    if sep !in s then s
    else if s[|s| - 1] == sep then s[..|s| - 1]
    else BeforeLast(s[..|s| - 1], sep)
  }

  /** Python `s.split(sep)[0]`: the text before the first `sep`, or all of `s`. */
  function BeforeFirst(s: string, sep: char): (r: string)
    ensures sep !in r
    ensures StartsWith(s, r)
    ensures r == s || s[|r|] == sep
  {
    if s == [] || s[0] == sep then [] else [s[0]] + BeforeFirst(s[1..], sep)
  }

  /** The text before the first `sep` of `s + [sep] + t` is `s`, when `s` has no `sep`. */
  lemma {:induction false} BeforeFirstPrefix(s: string, sep: char, t: string)
    requires sep !in s
    ensures BeforeFirst(s + [sep] + t, sep) == s
    decreases |s|
  {
    if s != [] {
      BeforeFirstPrefix(s[1..], sep, t);
      assert (s + [sep] + t)[1..] == s[1..] + [sep] + t;
    }
  }

  predicate IsDigit(c: char) {
    '0' <= c <= '9'
  }

  predicate AllDigits(s: string) {
    forall i :: 0 <= i < |s| ==> IsDigit(s[i])
  }

  function DigitChar(d: nat): char
    requires d < 10
  {
    ('0' as int + d) as char
  }

  /** The number a string of decimal digits denotes; leading zeros allowed. */
  function DigitsValue(s: string): nat
    requires AllDigits(s)
  {
    if s == [] then 0 else DigitsValue(s[..|s| - 1]) * 10 + (s[|s| - 1] as int - '0' as int)
  }

  /** Python `str(n)` for a non-negative integer: no sign, no leading zero. */
  function NatToString(n: nat): (r: string)
    ensures |r| > 0 && AllDigits(r)
    ensures r[0] == '0' ==> n == 0
  {
    if n < 10 then [DigitChar(n)] else NatToString(n / 10) + [DigitChar(n % 10)]
  }

  /** Python `str(n)` for any integer. */
  function IntToString(n: int): string {
    if n < 0 then "-" + NatToString(-n) else NatToString(n)
  }

  /** `str(n)` reads back as `n`. */
  lemma {:induction false} NatToStringValue(n: nat)
    ensures DigitsValue(NatToString(n)) == n
  {
    if n >= 10 {
      NatToStringValue(n / 10);
      var s := NatToString(n);
      assert s[..|s| - 1] == NatToString(n / 10);
    }
  }

  /** Leading zeros do not change the value of a digit string. */
  lemma {:induction false} LeadingZerosValue(z: nat, s: string)
    requires AllDigits(s)
    ensures AllDigits(Zeros(z) + s) && DigitsValue(Zeros(z) + s) == DigitsValue(s)
    decreases |s|
  {
    var t := Zeros(z) + s;
    assert AllDigits(t) by {
      forall i | 0 <= i < |t| ensures IsDigit(t[i]) {
        if i >= z { assert t[i] == s[i - z]; }
      }
    }
    if s == [] {
      assert t == Zeros(z);
      ZerosValue(z);
    } else {
      LeadingZerosValue(z, s[..|s| - 1]);
      assert t[..|t| - 1] == Zeros(z) + s[..|s| - 1];
    }
  }

  function Zeros(n: nat): (r: string)
    ensures |r| == n && forall i :: 0 <= i < n ==> r[i] == '0'
  {
    seq(n, i => '0')
  }

  lemma {:induction false} ZerosValue(n: nat)
    ensures AllDigits(Zeros(n)) && DigitsValue(Zeros(n)) == 0
  {
    if n > 0 {
      ZerosValue(n - 1);
      assert Zeros(n)[..n - 1] == Zeros(n - 1);
    }
  }

  /** Python `s.zfill(width)`: pad with `0` to `width`, after a leading sign. */
  function ZFill(s: string, width: nat): (r: string)
    ensures |r| == if |s| >= width then |s| else width
  {
    if |s| >= width then s
    else if |s| > 0 && (s[0] == '+' || s[0] == '-') then [s[0]] + Zeros(width - |s|) + s[1..]
    else Zeros(width - |s|) + s
  }

  /**
   * Python `int(text)` for base-10 literals: surrounding whitespace, an
   * optional sign, then at least one digit; anything else is `None`
   * (Python raises `ValueError`).
   */
  function ParseInt(text: string): Option<int> {
    ParseSigned(Strip(text))
  }

  /** `int(t)` once surrounding whitespace is gone. */
  function ParseSigned(t: string): Option<int> {
    if |t| > 0 && (t[0] == '-' || t[0] == '+') then
      var d := t[1..];
      if d != [] && AllDigits(d) then
        var v: int := DigitsValue(d);
        Some(if t[0] == '-' then -v else v)
      else None
    else if t != [] && AllDigits(t) then Some(DigitsValue(t))
    else None
  }

  /** `int(str(n)) == n`. */
  lemma IntToStringRoundTrip(n: int)
    ensures ParseInt(IntToString(n)) == Some(n)
  {
    var s := IntToString(n);
    StripUnspaced(s);
    if n < 0 {
      NatToStringValue(-n);
      assert s[1..] == NatToString(-n);
    } else {
      NatToStringValue(n);
      assert s[0] != '-' && s[0] != '+';
    }
  }

  /** `int(str(n).zfill(w)) == n`, and the padded text has at least `w` digits. */
  lemma ZFillRoundTrip(n: nat, width: nat)
    ensures AllDigits(ZFill(NatToString(n), width))
    ensures |ZFill(NatToString(n), width)| >= width
    ensures ParseInt(ZFill(NatToString(n), width)) == Some(n)
  {
    var s := NatToString(n);
    var r := ZFill(s, width);
    NatToStringValue(n);
    if |s| < width {
      LeadingZerosValue(width - |s|, s);
    }
    assert AllDigits(r) && DigitsValue(r) == n;
    assert r[0] != '-' && r[0] != '+';
    StripUnspaced(r);
  }
}
