/**
 * The few Python `str` operations the modelled code relies on: lower-casing,
 * prefix and suffix tests, `replace(p, '')`, `split`, `join`, `strip`,
 * `splitlines`, and `str(int)` / `int(str)` for decimal integers.
 */
module Text {
  import opened Wrappers

  // ---------------------------------------------------------------------------
  // Case and prefixes
  // ---------------------------------------------------------------------------

  /** `str.lower` on one character; only ASCII letters change case in this model. */
  function LowerChar(c: char): char
  {
    if 'A' <= c <= 'Z' then (c as int + 32) as char else c
  }

  function Lower(s: string): (r: string)
    ensures |r| == |s|
    ensures forall i :: 0 <= i < |s| ==> r[i] == LowerChar(s[i])
  {
    seq(|s|, i requires 0 <= i < |s| => LowerChar(s[i]))
  }

  predicate StartsWith(s: string, p: string)
  {
    |p| <= |s| && s[..|p|] == p
  }

  predicate EndsWith(s: string, p: string)
  {
    |p| <= |s| && s[|s| - |p|..] == p
  }

  /** `p in s` for strings: p occurs somewhere in s. */
  predicate Contains(s: string, p: string)
    decreases |s|
  {
    StartsWith(s, p) || (|s| > 0 && Contains(s[1..], p))
  }

  /** `s.replace(pat, '')`: every non-overlapping occurrence, scanned left to right, is removed. */
  function RemoveAll(s: string, pat: string): (r: string)
    requires pat != []
    ensures |r| <= |s|
    decreases |s|
  {
    if |s| == 0 then []
    else if StartsWith(s, pat) then RemoveAll(s[|pat|..], pat)
    else [s[0]] + RemoveAll(s[1..], pat)
  }

  // ---------------------------------------------------------------------------
  // split and join
  // ---------------------------------------------------------------------------

  /** `s.split(sep)` for a one-character separator: never empty, "" splits into [""]. */
  function Split(s: string, sep: char): (r: seq<string>)
    ensures |r| >= 1
    ensures forall k :: 0 <= k < |r| ==> sep !in r[k]
    decreases |s|
  {
    if |s| == 0 then [""]
    else if s[0] == sep then [""] + Split(s[1..], sep)
    else
      var rest := Split(s[1..], sep);
      [[s[0]] + rest[0]] + rest[1..]
  }

  /** `sep.join(parts)`. */
  function Join(parts: seq<string>, sep: string): string
  {
    if |parts| == 0 then ""
    else if |parts| == 1 then parts[0]
    else parts[0] + sep + Join(parts[1..], sep)
  }

  /** Splitting and joining back with the same separator gives the original text. */
  lemma {:induction false} JoinSplit(s: string, sep: char)
    ensures Join(Split(s, sep), [sep]) == s
    decreases |s|, 1
  {
    if |s| == 0 {
    } else if s[0] == sep {
      JoinSplitAtSep(s, sep);
    } else {
      JoinSplitAtChar(s, sep);
    }
  }

  lemma {:induction false} JoinSplitAtSep(s: string, sep: char)
    requires |s| > 0 && s[0] == sep
    ensures Join(Split(s, sep), [sep]) == s
    decreases |s|, 0
  {
    JoinSplit(s[1..], sep);
    var rest := Split(s[1..], sep);
    assert Split(s, sep) == [""] + rest;
    assert Join([""] + rest, [sep]) == "" + [sep] + Join(rest, [sep]);
    assert s == [sep] + s[1..];
  }

  lemma {:induction false} JoinSplitAtChar(s: string, sep: char)
    requires |s| > 0 && s[0] != sep
    ensures Join(Split(s, sep), [sep]) == s
    decreases |s|, 0
  {
    JoinSplit(s[1..], sep);
    var rest := Split(s[1..], sep);
    var parts := [[s[0]] + rest[0]] + rest[1..];
    assert Split(s, sep) == parts;
    if |rest| == 1 {
      assert Join(parts, [sep]) == [s[0]] + rest[0];
    } else {
      assert parts[1..] == rest[1..];
      assert Join(parts, [sep]) == [s[0]] + rest[0] + [sep] + Join(rest[1..], [sep]);
      assert Join(rest, [sep]) == rest[0] + [sep] + Join(rest[1..], [sep]);
      ConcatAssoc([s[0]] + rest[0], [sep], Join(rest[1..], [sep]));
      ConcatAssoc([s[0]], rest[0], [sep] + Join(rest[1..], [sep]));
      ConcatAssoc(rest[0], [sep], Join(rest[1..], [sep]));
    }
    assert s == [s[0]] + s[1..];
  }

  /** A string without the separator splits into itself alone. */
  lemma {:induction false} SplitNoSep(s: string, sep: char)
    requires sep !in s
    ensures Split(s, sep) == [s]
    decreases |s|
  {
    if |s| > 0 {
      assert sep !in s[1..] by {
        forall k | 0 <= k < |s| - 1 ensures s[1..][k] != sep { assert s[1..][k] == s[k + 1]; }
      }
      SplitNoSep(s[1..], sep);
      assert s == [s[0]] + s[1..];
    }
  }

  /** Splitting `a + [sep] + b` where `a` holds no separator puts `a` first. */
  lemma {:induction false} SplitCons(a: string, sep: char, b: string)
    requires sep !in a
    ensures Split(a + [sep] + b, sep) == [a] + Split(b, sep)
    decreases |a|
  {
    var s := a + [sep] + b;
    if |a| == 0 {
      assert s == [sep] + b;
      assert s[1..] == b;
    } else {
      assert s[1..] == a[1..] + [sep] + b;
      assert sep !in a[1..] by {
        forall k | 0 <= k < |a| - 1 ensures a[1..][k] != sep { assert a[1..][k] == a[k + 1]; }
      }
      SplitCons(a[1..], sep, b);
      assert s[0] == a[0];
      assert [a[0]] + a[1..] == a;
    }
  }

  /** Splitting at one separator splits both sides independently. */
  lemma {:induction false} SplitConcat(a: string, sep: char, b: string)
    ensures Split(a + [sep] + b, sep) == Split(a, sep) + Split(b, sep)
    decreases |a|, 1
  {
    if |a| == 0 {
      SplitCons(a, sep, b);
    } else if a[0] == sep {
      SplitConcatAtSep(a, sep, b);
    } else {
      SplitConcatAtChar(a, sep, b);
    }
  }

  lemma {:induction false} SplitConcatAtSep(a: string, sep: char, b: string)
    requires |a| > 0 && a[0] == sep
    ensures Split(a + [sep] + b, sep) == Split(a, sep) + Split(b, sep)
    decreases |a|, 0
  {
    var s := a + [sep] + b;
    assert s[0] == a[0];
    assert s[1..] == a[1..] + [sep] + b;
    SplitConcat(a[1..], sep, b);
    var ra := Split(a[1..], sep);
    var rest := Split(s[1..], sep);
    assert Split(s, sep) == [""] + rest;
    assert Split(a, sep) == [""] + ra;
    assert Split(a, sep) + Split(b, sep) == [""] + (ra + Split(b, sep));
  }

  lemma {:induction false} SplitConcatAtChar(a: string, sep: char, b: string)
    requires |a| > 0 && a[0] != sep
    ensures Split(a + [sep] + b, sep) == Split(a, sep) + Split(b, sep)
    decreases |a|, 0
  {
    var s := a + [sep] + b;
    assert s[0] == a[0];
    assert s[1..] == a[1..] + [sep] + b;
    SplitConcat(a[1..], sep, b);
    var ra := Split(a[1..], sep);
    var rest := Split(s[1..], sep);
    assert rest == ra + Split(b, sep);
    assert Split(s, sep) == [[a[0]] + rest[0]] + rest[1..];
    assert Split(a, sep) == [[a[0]] + ra[0]] + ra[1..];
    assert rest[0] == ra[0];
    assert rest[1..] == ra[1..] + Split(b, sep);
    assert Split(a, sep) + Split(b, sep) == [[a[0]] + ra[0]] + (ra[1..] + Split(b, sep));
  }

  /** Joining parts that hold no separator and splitting again gives the parts back. */
  lemma {:induction false} SplitJoin(parts: seq<string>, sep: char)
    requires |parts| >= 1
    requires forall i :: 0 <= i < |parts| ==> sep !in parts[i]
    ensures Split(Join(parts, [sep]), sep) == parts
    decreases |parts|
  {
    if |parts| == 1 {
      SplitNoSep(parts[0], sep);
    } else {
      var rest := parts[1..];
      assert forall i :: 0 <= i < |rest| ==> rest[i] == parts[i + 1];
      SplitJoin(rest, sep);
      SplitCons(parts[0], sep, Join(rest, [sep]));
      assert parts == [parts[0]] + rest;
    }
  }

  // ---------------------------------------------------------------------------
  // strip
  // ---------------------------------------------------------------------------

  lemma ConcatAssoc(a: string, b: string, c: string)
    ensures (a + b) + c == a + (b + c)
  {
  }

  /** The characters for which Python's `str.isspace` holds. */
  predicate IsSpace(c: char)
  {
    || c == ' ' || ('\t' <= c <= '\r') || ('\U{001c}' <= c <= '\U{001f}') || c == '\U{0085}'
    || c == '\U{00a0}' || c == '\U{1680}' || ('\U{2000}' <= c <= '\U{200a}') || c == '\U{2028}'
    || c == '\U{2029}' || c == '\U{202f}' || c == '\U{205f}' || c == '\U{3000}'
  }

  function LStrip(s: string): (r: string)
    ensures |r| <= |s| && r == s[|s| - |r|..]
    ensures r != [] ==> !IsSpace(r[0])
    decreases |s|
  {
    if |s| > 0 && IsSpace(s[0]) then LStrip(s[1..]) else s
  }

  function RStrip(s: string): (r: string)
    ensures |r| <= |s| && r == s[..|r|]
    ensures r != [] ==> !IsSpace(r[|r| - 1])
    decreases |s|
  {
    if |s| > 0 && IsSpace(s[|s| - 1]) then RStrip(s[..|s| - 1]) else s
  }

  /** `str.strip()` with no argument: surrounding whitespace removed. */
  function Strip(s: string): (r: string)
    ensures r != [] ==> !IsSpace(r[0]) && !IsSpace(r[|r| - 1])
  {
    RStrip(LStrip(s))
  }

  lemma StripUnpadded(s: string)
    requires s != [] && !IsSpace(s[0]) && !IsSpace(s[|s| - 1])
    ensures Strip(s) == s
  {
  }

  /** Text with no surrounding whitespace, followed by one newline, strips back to itself. */
  lemma StripNewline(s: string)
    requires s != [] && !IsSpace(s[0]) && !IsSpace(s[|s| - 1])
    ensures Strip(s + "\n") == s
  {
    var t := s + "\n";
    assert LStrip(t) == t;
    assert t[..|t| - 1] == s;
    assert RStrip(t) == RStrip(s);
  }

  // ---------------------------------------------------------------------------
  // splitlines
  // ---------------------------------------------------------------------------

  /** The line boundaries of Python's `str.splitlines`. */
  predicate IsLineBreak(c: char)
  {
    || c == '\n' || c == '\r' || c == '\U{000b}' || c == '\U{000c}' || c == '\U{001c}' || c == '\U{001d}'
    || c == '\U{001e}' || c == '\U{0085}' || c == '\U{2028}' || c == '\U{2029}'
  }

  predicate NoLineBreak(s: string)
  {
    forall i :: 0 <= i < |s| ==> !IsLineBreak(s[i])
  }

  /** Index of the first line boundary, or |s| when there is none. */
  function FirstBreak(s: string): (k: nat)
    ensures k <= |s|
    ensures k < |s| ==> IsLineBreak(s[k])
    ensures NoLineBreak(s[..k])
    decreases |s|
  {
    if |s| == 0 then 0
    else if IsLineBreak(s[0]) then 0
    else
      var k := 1 + FirstBreak(s[1..]);
      assert s[..k] == [s[0]] + s[1..][..k - 1];
      k
  }

  /** `s.splitlines()`: "\r\n" counts as one boundary and a final boundary adds no empty line. */
  function SplitLines(s: string): (r: seq<string>)
    ensures forall j :: 0 <= j < |r| ==> NoLineBreak(r[j])
    decreases |s|
  {
    if |s| == 0 then []
    else
      var k := FirstBreak(s);
      if k == |s| then [s]
      else
        var w := if s[k] == '\r' && k + 1 < |s| && s[k + 1] == '\n' then 2 else 1;
        [s[..k]] + SplitLines(s[k + w..])
  }

  lemma {:induction false} FirstBreakAppend(a: string, b: string)
    requires NoLineBreak(a)
    ensures FirstBreak(a + b) == |a| + FirstBreak(b)
    decreases |a|
  {
    if |a| > 0 {
      assert (a + b)[1..] == a[1..] + b;
      assert NoLineBreak(a[1..]) by {
        forall i | 0 <= i < |a| - 1 ensures !IsLineBreak(a[1..][i]) { assert a[1..][i] == a[i + 1]; }
      }
      FirstBreakAppend(a[1..], b);
    } else {
      assert a + b == b;
    }
  }

  /** Stripping a line keeps it free of line boundaries. */
  lemma StripNoBreak(s: string)
    requires NoLineBreak(s)
    ensures NoLineBreak(Strip(s))
  {
    var t := LStrip(s);
    forall i | 0 <= i < |t| ensures !IsLineBreak(t[i]) {
      assert t[i] == s[|s| - |t| + i];
    }
    var r := RStrip(t);
    forall i | 0 <= i < |r| ensures !IsLineBreak(r[i]) {
      assert r[i] == t[i];
    }
    assert r == Strip(s);
  }

  /** Two pieces without line boundaries make a piece without line boundaries. */
  lemma NoBreakConcat(a: string, b: string)
    requires NoLineBreak(a) && NoLineBreak(b)
    ensures NoLineBreak(a + b)
  {
    forall i | 0 <= i < |a + b| ensures !IsLineBreak((a + b)[i]) {
      if i >= |a| {
        assert (a + b)[i] == b[i - |a|];
      }
    }
  }

  /** A line without boundaries followed by "\n" splits off as exactly that line. */
  lemma SplitLinesCons(line: string, rest: string)
    requires NoLineBreak(line)
    ensures SplitLines(line + "\n" + rest) == [line] + SplitLines(rest)
  {
    var s := line + "\n" + rest;
    assert s == line + ("\n" + rest);
    FirstBreakAppend(line, "\n" + rest);
    assert FirstBreak("\n" + rest) == 0;
    assert FirstBreak(s) == |line|;
    assert s[..|line|] == line;
    assert s[|line| + 1..] == rest;
  }

  /** Lines each followed by "\n", concatenated. */
  function Terminated(ls: seq<string>): string
    decreases |ls|
  {
    if |ls| == 0 then "" else ls[0] + "\n" + Terminated(ls[1..])
  }

  /** Lines without boundaries, each terminated by "\n", split back into the same lines. */
  lemma {:induction false} SplitLinesTerminated(ls: seq<string>)
    requires forall i :: 0 <= i < |ls| ==> NoLineBreak(ls[i])
    ensures SplitLines(Terminated(ls)) == ls
    decreases |ls|
  {
    if |ls| > 0 {
      var rest := ls[1..];
      forall i | 0 <= i < |rest| ensures NoLineBreak(rest[i]) {
        assert rest[i] == ls[i + 1];
      }
      SplitLinesTerminated(rest);
      SplitLinesCons(ls[0], Terminated(rest));
      assert ls == [ls[0]] + rest;
    }
  }

  // ---------------------------------------------------------------------------
  // Decimal integers: str(int) and int(str)
  // ---------------------------------------------------------------------------

  function DigitChar(d: nat): char
    requires d < 10
  {
    ['0', '1', '2', '3', '4', '5', '6', '7', '8', '9'][d]
  }

  predicate IsDigit(c: char)
  {
    '0' <= c <= '9'
  }

  function DigitValue(c: char): nat
    requires IsDigit(c)
  {
    c as int - '0' as int
  }

  /** `str(n)` for a natural number. */
  function NatToDecimal(n: nat): (r: string)
    ensures |r| >= 1
    ensures forall i :: 0 <= i < |r| ==> IsDigit(r[i])
    decreases n
  {
    if n < 10 then [DigitChar(n)] else NatToDecimal(n / 10) + [DigitChar(n % 10)]
  }

  /** `str(i)` for a Python int. */
  function IntToDecimal(i: int): (r: string)
    ensures |r| >= 1
    ensures forall k :: 0 <= k < |r| ==> IsDigit(r[k]) || r[k] == '-'
  {
    if i < 0 then "-" + NatToDecimal(-i) else NatToDecimal(i)
  }

  /**
   * The ASCII digit strings Python's `int()` accepts after an optional sign:
   * digits with single underscores allowed between two digits. (`int()` also
   * reads the decimal digits of other scripts; this model reads only ASCII.)
   */
  predicate DigitsWellFormed(s: string)
  {
    && |s| >= 1
    && IsDigit(s[0]) && IsDigit(s[|s| - 1])
    && (forall i :: 0 <= i < |s| ==> IsDigit(s[i]) || s[i] == '_')
    && (forall i :: 0 <= i < |s| - 1 ==> !(s[i] == '_' && s[i + 1] == '_'))
  }

  /** The number a well-formed digit string denotes, underscores skipped. */
  function DigitsValue(s: string): nat
    requires forall i :: 0 <= i < |s| ==> IsDigit(s[i]) || s[i] == '_'
    decreases |s|
  {
    if |s| == 0 then 0
    else
      var init := s[..|s| - 1];
      assert forall i :: 0 <= i < |init| ==> init[i] == s[i];
      var c := s[|s| - 1];
      if c == '_' then DigitsValue(init) else DigitsValue(init) * 10 + DigitValue(c)
  }

  /** `int(s)`: surrounding whitespace, an optional '+' or '-', then well-formed digits. */
  function ParseInt(s: string): (r: Option<int>)
  {
    ParseSigned(Strip(s))
  }

  /** `int(s)` once the surrounding whitespace is gone. */
  function ParseSigned(t: string): (r: Option<int>)
  {
    if |t| >= 1 && (t[0] == '+' || t[0] == '-') then
      var d := t[1..];
      if DigitsWellFormed(d) then
        var v: int := if t[0] == '-' then -(DigitsValue(d) as int) else DigitsValue(d) as int;
        Some(v)
      else None
    else if DigitsWellFormed(t) then Some(DigitsValue(t))
    else None
  }

  lemma {:induction false} DigitsOfNat(n: nat)
    ensures DigitsValue(NatToDecimal(n)) == n
    decreases n
  {
    var s := NatToDecimal(n);
    if n < 10 {
      assert s[..|s| - 1] == [];
    } else {
      DigitsOfNat(n / 10);
      assert s[..|s| - 1] == NatToDecimal(n / 10);
      assert DigitValue(DigitChar(n % 10)) == n % 10;
    }
  }

  /** int(str(i) + '\n') == i: the trailing newline is stripped before parsing. */
  lemma DecimalNewlineRoundTrip(i: int)
    ensures ParseInt(IntToDecimal(i) + "\n") == Some(i)
  {
    var t := IntToDecimal(i);
    assert !IsSpace(t[0]) && !IsSpace(t[|t| - 1]);
    StripNewline(t);
    StripUnpadded(t);
    DecimalRoundTrip(i);
    assert ParseInt(t + "\n") == ParseSigned(t) == ParseInt(t);
  }

  /** int(str(i)) == i for every Python int. */
  lemma DecimalRoundTrip(i: int)
    ensures ParseInt(IntToDecimal(i)) == Some(i)
  {
    if i < 0 {
      NegativeDecimalRoundTrip(i);
    } else {
      NatDecimalRoundTrip(i);
    }
  }

  lemma NatDecimalRoundTrip(i: int)
    requires i >= 0
    ensures ParseInt(IntToDecimal(i)) == Some(i)
  {
    var s := NatToDecimal(i);
    assert IntToDecimal(i) == s;
    DigitsOfNat(i);
    assert DigitsWellFormed(s);
    StripUnpadded(s);
    assert Strip(s) == s;
    assert !(s[0] == '+' || s[0] == '-');
  }

  lemma NegativeDecimalRoundTrip(i: int)
    requires i < 0
    ensures ParseInt(IntToDecimal(i)) == Some(i)
  {
    var n: nat := -i;
    var digits := NatToDecimal(n);
    assert IntToDecimal(i) == "-" + digits;
    DecimalWellFormed(n);
    NegativeParseValue(digits);
    var v := DigitsValue(digits);
    DigitsOfNat(n);
    assert v == n;
  }

  lemma DecimalWellFormed(n: nat)
    ensures DigitsWellFormed(NatToDecimal(n))
  {
  }

  lemma NegativeParseValue(d: string)
    requires DigitsWellFormed(d)
    ensures ParseInt("-" + d) == Some(-(DigitsValue(d) as int))
  {
    NegativeUnpadded(d);
    ParseNegative(d);
  }

  lemma NegativeUnpadded(d: string)
    requires DigitsWellFormed(d)
    ensures Strip("-" + d) == "-" + d
  {
    var s := "-" + d;
    assert s[|s| - 1] == d[|d| - 1];
    StripUnpadded(s);
  }

  lemma ParseNegative(d: string)
    requires DigitsWellFormed(d)
    ensures ParseSigned("-" + d) == Some(-(DigitsValue(d) as int))
  {
    var t := "-" + d;
    assert t[0] == '-' && t[1..] == d;
  }
}
