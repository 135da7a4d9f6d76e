/**
 * The string operations script.js applies to city names: the regular
 * expression `/\s+/g` with `replace`, ASCII `toLowerCase`, and the decimal
 * rendering of an integer inside a template literal.
 */
module Strings {
  import opened Optional

  /** JavaScript's `\s` class: the ECMAScript white space and line terminator code points. */
  predicate IsWhitespace(c: char)
  {
    var n := c as int;
    n == 0x09 || n == 0x0A || n == 0x0B || n == 0x0C || n == 0x0D || n == 0x20 ||
    n == 0xA0 || n == 0x1680 || (0x2000 <= n <= 0x200A) || n == 0x2028 || n == 0x2029 ||
    n == 0x202F || n == 0x205F || n == 0x3000 || n == 0xFEFF
  }

  predicate NoWhitespace(s: string)
  {
    forall i :: 0 <= i < |s| ==> !IsWhitespace(s[i])
  }

  /** `s.replace(/\s+/g, '')`: every whitespace character removed, the rest kept in order. */
  function StripWhitespace(s: string): (r: string)
    ensures NoWhitespace(r)
    ensures |r| <= |s|
  {
    if s == [] then []
    else if IsWhitespace(s[0]) then StripWhitespace(s[1..])
    else [s[0]] + StripWhitespace(s[1..])
  }

  /** Stripping distributes over concatenation, so it acts character by character. */
  lemma {:induction false} StripConcat(a: string, b: string)
    ensures StripWhitespace(a + b) == StripWhitespace(a) + StripWhitespace(b)
  {
    if a == [] {
      assert a + b == b;
    } else {
      assert (a + b)[1..] == a[1..] + b;
      StripConcat(a[1..], b);
    }
  }

  /** A name without whitespace is left as it is. */
  lemma {:induction false} StripKeepsClean(s: string)
    requires NoWhitespace(s)
    ensures StripWhitespace(s) == s
  {
    if s != [] {
      StripKeepsClean(s[1..]);
    }
  }

  /** A run made only of whitespace is removed entirely. */
  lemma {:induction false} StripAllWhitespace(s: string)
    requires forall i :: 0 <= i < |s| ==> IsWhitespace(s[i])
    ensures StripWhitespace(s) == []
  {
    if s != [] {
      StripAllWhitespace(s[1..]);
    }
  }

  /** Stripping twice is stripping once. */
  lemma StripIdempotent(s: string)
    ensures StripWhitespace(StripWhitespace(s)) == StripWhitespace(s)
  {
    StripKeepsClean(StripWhitespace(s));
  }

  /** ASCII `toLowerCase`: 'A'..'Z' become 'a'..'z', every other character is kept. */
  function LowerChar(c: char): (r: char)
    ensures IsWhitespace(r) <==> IsWhitespace(c)
    ensures !('A' <= r <= 'Z')
  {
    if 'A' <= c <= 'Z' then (c as int + 32) as char else c
  }

  function Lower(s: string): (r: string)
    ensures |r| == |s|
    ensures forall i :: 0 <= i < |s| ==> r[i] == LowerChar(s[i])
  {
    if s == [] then [] else [LowerChar(s[0])] + Lower(s[1..])
  }

  /** Drops the whitespace at the front of `s`. */
  function SkipWhitespace(s: string): (r: string)
    ensures |r| <= |s| && forall i :: 0 <= i < |r| ==> r[i] == s[|s| - |r| + i]
    ensures r == [] || !IsWhitespace(r[0])
  {
    if s != [] && IsWhitespace(s[0]) then SkipWhitespace(s[1..]) else s
  }

  /** Everything skipped is whitespace, so what is left is exactly the text after the leading run. */
  lemma {:induction false} SkipDropsWhitespace(s: string)
    ensures forall i :: 0 <= i < |s| - |SkipWhitespace(s)| ==> IsWhitespace(s[i])
  {
    if s != [] && IsWhitespace(s[0]) {
      var t := s[1..];
      SkipDropsWhitespace(t);
      assert forall j :: 0 <= j < |t| ==> t[j] == s[j + 1];
    }
  }

  /** Skipping a run of whitespace stops exactly where the run ends. */
  lemma {:induction false} SkipRun(w: string, b: string)
    requires forall i :: 0 <= i < |w| ==> IsWhitespace(w[i])
    requires b == [] || !IsWhitespace(b[0])
    ensures SkipWhitespace(w + b) == b
  {
    if w == [] {
      assert w + b == b;
    } else {
      assert (w + b)[1..] == w[1..] + b;
      SkipRun(w[1..], b);
    }
  }

  /** `s.replace(/\s+/g, '-')`: each maximal run of whitespace becomes one '-'. */
  function DashRuns(s: string): (r: string)
    ensures NoWhitespace(r)
    ensures |r| <= |s|
    decreases |s|
  {
    if s == [] then []
    else if IsWhitespace(s[0]) then "-" + DashRuns(SkipWhitespace(s[1..]))
    else [s[0]] + DashRuns(s[1..])
  }

  /** A string without whitespace has no run to replace. */
  lemma {:induction false} DashRunsKeepsClean(s: string)
    requires NoWhitespace(s)
    ensures DashRuns(s) == s
  {
    if s != [] {
      DashRunsKeepsClean(s[1..]);
    }
  }

  /** A string that starts with a whole run of whitespace gets one '-' for it. */
  lemma DashRun(w: string, b: string)
    requires w != [] && forall i :: 0 <= i < |w| ==> IsWhitespace(w[i])
    requires b == [] || !IsWhitespace(b[0])
    ensures DashRuns(w + b) == "-" + DashRuns(b)
  {
    var s, t := w + b, w[1..];
    assert s[0] == w[0] && s[1..] == t + b;
    assert forall i :: 0 <= i < |t| ==> t[i] == w[i + 1];
    SkipRun(t, b);
    assert DashRuns(s) == "-" + DashRuns(SkipWhitespace(t + b));
  }

  /**
   * A whole run of whitespace after a clean prefix becomes one '-', and the
   * replacement carries on after the run.
   */
  lemma {:induction false} DashAt(a: string, w: string, b: string)
    requires NoWhitespace(a) && w != [] && forall i :: 0 <= i < |w| ==> IsWhitespace(w[i])
    requires b == [] || !IsWhitespace(b[0])
    ensures DashRuns(a + w + b) == a + "-" + DashRuns(b)
  {
    var s := a + w + b;
    if a == [] {
      assert s == w + b;
      DashRun(w, b);
    } else {
      assert s[0] == a[0] && !IsWhitespace(a[0]) && s[1..] == a[1..] + w + b;
      DashAt(a[1..], w, b);
      assert DashRuns(s) == [a[0]] + (a[1..] + "-" + DashRuns(b));
      assert [a[0]] + (a[1..] + "-" + DashRuns(b)) == a + "-" + DashRuns(b);
    }
  }

  /** The panorama key of a city name: `name.toLowerCase().replace(/\s+/g, '-')`. */
  function Slug(name: string): (r: string)
    ensures NoWhitespace(r)
    ensures forall i :: 0 <= i < |r| ==> !('A' <= r[i] <= 'Z')
  {
    LowerDashRuns(name);
    DashRuns(Lower(name))
  }

  /** Lower-casing first and collapsing runs after leaves no upper-case letter behind. */
  lemma {:induction false} LowerDashRuns(s: string)
    ensures forall i :: 0 <= i < |DashRuns(Lower(s))| ==> !('A' <= DashRuns(Lower(s))[i] <= 'Z')
  {
    NoUpperDashRuns(Lower(s));
  }

  lemma {:induction false} NoUpperDashRuns(s: string)
    requires forall i :: 0 <= i < |s| ==> !('A' <= s[i] <= 'Z')
    ensures forall i :: 0 <= i < |DashRuns(s)| ==> !('A' <= DashRuns(s)[i] <= 'Z')
    decreases |s|
  {
    if s != [] {
      if IsWhitespace(s[0]) {
        NoUpperDashRuns(SkipWhitespace(s[1..]));
      } else {
        NoUpperDashRuns(s[1..]);
      }
    }
  }

  predicate IsDigit(c: char)
  {
    '0' <= c <= '9'
  }

  function DigitChar(d: nat): (c: char)
    requires d < 10
    ensures IsDigit(c)
  {
    ('0' as int + d) as char
  }

  /** The decimal text of a non-negative integer, as a template literal renders it. */
  function DecimalString(n: nat): (r: string)
    ensures 1 <= |r|
    ensures forall i :: 0 <= i < |r| ==> IsDigit(r[i])
    ensures |r| > 1 ==> r[0] != '0'
    decreases n
  {
    if n < 10 then [DigitChar(n)] else DecimalString(n / 10) + [DigitChar(n % 10)]
  }

  /** The value of a string of decimal digits. */
  function DigitsValue(s: string): nat
    requires forall i :: 0 <= i < |s| ==> IsDigit(s[i])
  {
    if s == [] then 0
    else assert IsDigit(s[|s| - 1]); DigitsValue(s[..|s| - 1]) * 10 + (s[|s| - 1] as int - '0' as int)
  }

  /** Reads a decimal number back; None unless `s` is a non-empty run of digits. */
  function ParseDecimal(s: string): (r: Option<nat>)
    ensures r.Some? <==> s != [] && forall i :: 0 <= i < |s| ==> IsDigit(s[i])
  {
    if s != [] && forall i :: 0 <= i < |s| ==> IsDigit(s[i]) then Some(DigitsValue(s)) else None
  }

  /** Reading a rendered number gives the number back. */
  lemma {:induction false} ParseDecimalString(n: nat)
    ensures ParseDecimal(DecimalString(n)) == Some(n)
    decreases n
  {
    var s := DecimalString(n);
    if n >= 10 {
      ParseDecimalString(n / 10);
      assert s[..|s| - 1] == DecimalString(n / 10);
      assert s[|s| - 1] == DigitChar(n % 10);
      assert DigitsValue(s) == DigitsValue(DecimalString(n / 10)) * 10 + n % 10;
    } else {
      assert s == [DigitChar(n)];
      assert s[..0] == [];
    }
  }

  /** Numbers below 1000 render in at most three digits. */
  lemma {:induction false} DecimalStringBelow1000(n: nat)
    requires n < 1000
    ensures |DecimalString(n)| <= 3
  {
    if n >= 10 {
      DecimalStringBelow1000(n / 10);
      if n / 10 < 10 {
        assert |DecimalString(n / 10)| == 1;
      } else {
        assert n / 100 < 10;
        assert |DecimalString(n / 10)| == 2;
      }
    }
  }

  /** Each upper-case letter becomes the same letter in lower case; every other character is kept. */
  lemma LowerCharMaps(c: char)
    ensures !('A' <= c <= 'Z') ==> LowerChar(c) == c
    ensures 'A' <= c <= 'Z' ==> 'a' <= LowerChar(c) <= 'z' && LowerChar(c) as int - 'a' as int == c as int - 'A' as int
  {
  }
}
