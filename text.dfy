/** String helpers with the meaning JavaScript gives them: `String(n)` for a
    natural number, `String.prototype.trim`, `split("\n")` and `Array.prototype.join`. */
module Text {

  /** The decimal digit character for `d`. */
  function DigitChar(d: nat): char
    requires d < 10
  {
    ['0', '1', '2', '3', '4', '5', '6', '7', '8', '9'][d]
  }

  predicate IsDigit(c: char) {
    '0' <= c <= '9'
  }

  /** The value of a run of decimal digits (the inverse of `NatToString`). */
  function DigitsValue(s: string): nat
    requires forall i :: 0 <= i < |s| ==> IsDigit(s[i])
  {
    if s == [] then 0
    else
      assert IsDigit(s[|s| - 1]);
      DigitsValue(s[..|s| - 1]) * 10 + (s[|s| - 1] as int - '0' as int)
  }

  /** `String(n)` / template interpolation of a non-negative integer. */
  function NatToString(n: nat): (r: string)
    ensures |r| > 0
  {
    if n < 10 then [DigitChar(n)] else NatToString(n / 10) + [DigitChar(n % 10)]
  }

  /** `NatToString(n)` is all digits, reads back as `n`, and has no leading zero. */
  lemma {:induction false} NatToStringDigits(n: nat)
    ensures var r := NatToString(n);
            && (forall i :: 0 <= i < |r| ==> IsDigit(r[i]))
            && DigitsValue(r) == n
            && (|r| > 1 ==> r[0] != '0')
  {
    var r := NatToString(n);
    if n < 10 {
      DigitCharValue(n);
      assert r[..0] == [];
    } else {
      var p, d := NatToString(n / 10), DigitChar(n % 10);
      NatToStringDigits(n / 10);
      DigitCharValue(n % 10);
      assert r == p + [d];
      assert r[..|r| - 1] == p;
      forall i | 0 <= i < |r|
        ensures IsDigit(r[i])
      {
        if i < |p| {
          assert r[i] == p[i];
        }
      }
      assert DigitsValue(r) == DigitsValue(p) * 10 + n % 10;
      assert r[0] == p[0];
      if |p| == 1 {
        DigitCharValue(n / 10);
      }
    }
  }

  /** Each digit character stands for its own value. */
  lemma DigitCharValue(d: nat)
    requires d < 10
    ensures IsDigit(DigitChar(d)) && DigitChar(d) as int - '0' as int == d
  {
  }

  /** The length of the run of digits that `s` starts with. */
  function DigitRun(s: string): (n: nat)
    ensures n <= |s|
  {
    if s != [] && IsDigit(s[0]) then 1 + DigitRun(s[1..]) else 0
  }

  /** Digits followed by a non-digit: the run is exactly the digits. */
  lemma {:induction false} DigitRunLength(d: string, rest: string)
    requires forall i :: 0 <= i < |d| ==> IsDigit(d[i])
    requires rest != [] && !IsDigit(rest[0])
    ensures DigitRun(d + rest) == |d|
  {
    if d != [] {
      assert (d + rest)[1..] == d[1..] + rest;
      DigitRunLength(d[1..], rest);
    } else {
      assert d + rest == rest;
    }
  }

  /** Distinct numbers print differently. */
  lemma NatToStringInjective(m: nat, n: nat)
    requires NatToString(m) == NatToString(n)
    ensures m == n
  {
    NatToStringDigits(m);
    NatToStringDigits(n);
  }

  /** `s` contains `t` starting at index `i`. */
  predicate ContainsAt(s: string, t: string, i: int) {
    0 <= i && i + |t| <= |s| && s[i..i + |t|] == t
  }

  /** A piece of a concatenation is contained in the concatenation. */
  lemma ContainsMiddle(a: string, t: string, b: string)
    ensures ContainsAt(a + t + b, t, |a|)
  {
    assert (a + t + b)[|a|..|a| + |t|] == t;
  }

  /** A concatenation ends with its last piece. */
  lemma ContainsSuffix(a: string, t: string)
    ensures ContainsAt(a + t, t, |a|)
  {
    assert (a + t)[|a|..] == t;
  }

  /** What a text contains stays put when more text is appended. */
  lemma ContainsAtAppend(s: string, u: string, t: string, i: int)
    requires ContainsAt(s, t, i)
    ensures ContainsAt(s + u, t, i)
  {
    assert (s + u)[i..i + |t|] == s[i..i + |t|];
  }

  /** The characters `String.prototype.trim` removes: the WhiteSpace and
      LineTerminator code points of ECMAScript (section 12.2 and 12.3 of ECMA-262). */
  predicate IsJsSpace(c: char) {
    || c == '\t' || c == '\n' || c == '\U{000B}' || c == '\U{000C}' || c == '\r'
    || c == ' ' || c == '\U{00A0}' || c == '\U{1680}'
    || ('\U{2000}' <= c <= '\U{200A}')
    || c == '\U{2028}' || c == '\U{2029}' || c == '\U{202F}' || c == '\U{205F}' || c == '\U{3000}'
    || c == '\U{FEFF}'
  }

  /** Drops leading whitespace. */
  function TrimStart(s: string): (r: string)
    ensures |r| <= |s|
  {
    if s != [] && IsJsSpace(s[0]) then TrimStart(s[1..]) else s
  }

  /** Drops trailing whitespace. */
  function TrimEnd(s: string): (r: string)
    ensures |r| <= |s|
  {
    if s != [] && IsJsSpace(s[|s| - 1]) then TrimEnd(s[..|s| - 1]) else s
  }

  /** `s.trim()`. */
  function Trim(s: string): string {
    TrimEnd(TrimStart(s))
  }

  /** `TrimStart` keeps the longest suffix of `s` that does not start with
      whitespace: everything it drops is whitespace. */
  lemma {:induction false} TrimStartSuffix(s: string)
    ensures var r := TrimStart(s);
            && r == s[|s| - |r|..]
            && (r == [] || !IsJsSpace(r[0]))
            && forall i :: 0 <= i < |s| - |r| ==> IsJsSpace(s[i])
  {
    if s != [] && IsJsSpace(s[0]) {
      TrimStartSuffix(s[1..]);
      var r := TrimStart(s);
      assert s[1..][|s| - 1 - |r|..] == s[|s| - |r|..];
      forall i | 1 <= i < |s| - |r|
        ensures IsJsSpace(s[i])
      {
        assert s[i] == s[1..][i - 1];
      }
    }
  }

  /** `TrimEnd` keeps the longest prefix of `s` that does not end with
      whitespace: everything it drops is whitespace. */
  lemma {:induction false} TrimEndPrefix(s: string)
    ensures var r := TrimEnd(s);
            && r == s[..|r|]
            && (r == [] || !IsJsSpace(r[|r| - 1]))
            && forall i :: |r| <= i < |s| ==> IsJsSpace(s[i])
  {
    if s != [] && IsJsSpace(s[|s| - 1]) {
      TrimEndPrefix(s[..|s| - 1]);
      var r := TrimEnd(s);
      assert s[..|s| - 1][..|r|] == s[..|r|];
      forall i | |r| <= i < |s| - 1
        ensures IsJsSpace(s[i])
      {
        assert s[i] == s[..|s| - 1][i];
      }
    }
  }

  /** `s.trim()` is the slice of `s` between its leading and its trailing
      whitespace: it neither starts nor ends with whitespace, and everything
      around it in `s` is whitespace. */
  lemma TrimSlice(s: string)
    ensures var r, k := Trim(s), |s| - |TrimStart(s)|;
            && 0 <= k <= |s| - |r|
            && r == s[k..k + |r|]
            && (forall i :: 0 <= i < k ==> IsJsSpace(s[i]))
            && (forall i :: k + |r| <= i < |s| ==> IsJsSpace(s[i]))
    ensures var r := Trim(s); r == [] || (!IsJsSpace(r[0]) && !IsJsSpace(r[|r| - 1]))
  {
    var u := TrimStart(s);
    var r := TrimEnd(u);
    TrimStartSuffix(s);
    TrimEndPrefix(u);
    var k := |s| - |u|;
    SliceOfSlice(s, k, |r|);
    SpaceAfter(s, u, k, |r|);
    if r != [] {
      assert r[0] == u[0];
    }
  }

  /** Whitespace after position `n` of the suffix `s[k..]` is whitespace
      after position `k + n` of `s`. */
  lemma SpaceAfter(s: string, u: string, k: nat, n: nat)
    requires k + |u| == |s| && u == s[k..]
    requires forall i :: n <= i < |u| ==> IsJsSpace(u[i])
    ensures forall i :: k + n <= i < |s| ==> IsJsSpace(s[i])
  {
    forall i | k + n <= i < |s|
      ensures IsJsSpace(s[i])
    {
      assert s[i] == u[i - k];
    }
  }

  lemma SliceOfSlice<T>(s: seq<T>, k: nat, n: nat)
    requires k + n <= |s|
    ensures s[k..][..n] == s[k..k + n]
  {
  }

  /** `s.split("\n")`: the pieces between newlines, always at least one. */
  function SplitLines(s: string): (r: seq<string>)
    ensures |r| >= 1
  {
    if s == [] then [""]
    else if s[0] == '\n' then [""] + SplitLines(s[1..])
    else
      var t := SplitLines(s[1..]);
      [[s[0]] + t[0]] + t[1..]
  }

  /** `xs.join(sep)`. */
  function Join(xs: seq<string>, sep: string): string {
    if xs == [] then ""
    else if |xs| == 1 then xs[0]
    else xs[0] + sep + Join(xs[1..], sep)
  }

  /** Where the `i`-th piece starts in `Join(xs, sep)`. */
  function JoinOffset(xs: seq<string>, sep: string, i: nat): nat
    requires i <= |xs|
  {
    if i == 0 then 0 else |xs[0]| + |sep| + JoinOffset(xs[1..], sep, i - 1)
  }

  /** Each piece of a join stands at its offset. */
  lemma {:induction false} JoinContains(xs: seq<string>, sep: string, i: nat)
    requires i < |xs|
    ensures ContainsAt(Join(xs, sep), xs[i], JoinOffset(xs, sep, i))
  {
    if i == 0 {
      if |xs| > 1 {
        ContainsMiddle([], xs[0], sep + Join(xs[1..], sep));
        assert [] + xs[0] + (sep + Join(xs[1..], sep)) == Join(xs, sep);
      }
    } else {
      JoinContains(xs[1..], sep, i - 1);
      var rest := Join(xs[1..], sep);
      var k := JoinOffset(xs[1..], sep, i - 1);
      var pre := xs[0] + sep;
      assert Join(xs, sep) == pre + rest;
      assert (pre + rest)[|pre| + k..|pre| + k + |xs[i]|] == rest[k..k + |xs[i]|];
    }
  }

  /** The pieces of a join appear in order, each followed by a separator. */
  lemma {:induction false} JoinOffsetStep(xs: seq<string>, sep: string, i: nat)
    requires i < |xs|
    ensures JoinOffset(xs, sep, i + 1) == JoinOffset(xs, sep, i) + |xs[i]| + |sep|
  {
    if i > 0 {
      JoinOffsetStep(xs[1..], sep, i - 1);
    }
  }

  predicate NoNewline(s: string) {
    forall i :: 0 <= i < |s| ==> s[i] != '\n'
  }

  /** Every piece of a split is free of newlines. */
  lemma {:induction false} SplitLinesNoNewline(s: string)
    ensures forall k :: 0 <= k < |SplitLines(s)| ==> NoNewline(SplitLines(s)[k])
  {
    if s != [] {
      SplitLinesNoNewline(s[1..]);
    }
  }

  /** Joining the pieces of a split with the separator gives back the text. */
  lemma {:induction false} JoinSplitLines(s: string)
    ensures Join(SplitLines(s), "\n") == s
  {
    if s == [] {
    } else if s[0] == '\n' {
      JoinSplitLines(s[1..]);
      assert s == "\n" + s[1..];
    } else {
      var t := SplitLines(s[1..]);
      JoinSplitLines(s[1..]);
      if |t| == 1 {
        assert s == [s[0]] + t[0];
      } else {
        assert Join(t, "\n") == t[0] + "\n" + Join(t[1..], "\n");
        assert s == [s[0]] + s[1..];
      }
    }
  }

  /** Splitting newline-free pieces joined by newlines gives back the pieces. */
  lemma {:induction false} SplitLinesJoin(xs: seq<string>)
    requires |xs| >= 1
    requires forall k :: 0 <= k < |xs| ==> NoNewline(xs[k])
    ensures SplitLines(Join(xs, "\n")) == xs
  {
    if |xs| == 1 {
      SplitLinesOfLine(xs[0]);
    } else {
      SplitLinesJoin(xs[1..]);
      SplitLinesAfterLine(xs[0], Join(xs[1..], "\n"));
    }
  }

  /** A newline-free line followed by a newline splits off as the first piece. */
  lemma {:induction false} SplitLinesAfterLine(s: string, rest: string)
    requires NoNewline(s)
    ensures SplitLines(s + "\n" + rest) == [s] + SplitLines(rest)
  {
    if s == [] {
      assert s + "\n" + rest == "\n" + rest;
      assert ("\n" + rest)[1..] == rest;
    } else {
      SplitLinesAfterLine(s[1..], rest);
      assert (s + "\n" + rest)[1..] == s[1..] + "\n" + rest;
      assert s == [s[0]] + s[1..];
    }
  }

  /** A text without newlines splits into itself. */
  lemma {:induction false} SplitLinesOfLine(s: string)
    requires NoNewline(s)
    ensures SplitLines(s) == [s]
  {
    if s != [] {
      SplitLinesOfLine(s[1..]);
      assert s == [s[0]] + s[1..];
    }
  }

  /** The split of a concatenation: the complete pieces of `a`, then the split of
      `a`'s unterminated tail continued by `b`. This is what makes splitting a
      stream chunk by chunk agree with splitting it all at once. */
  lemma {:induction false} SplitLinesAppend(a: string, b: string)
    ensures var p := SplitLines(a);
            SplitLines(a + b) == p[..|p| - 1] + SplitLines(p[|p| - 1] + b)
  {
    if a == [] {
      assert a + b == b;
    } else {
      assert (a + b)[0] == a[0];
      assert (a + b)[1..] == a[1..] + b;
      SplitLinesAppend(a[1..], b);
      var q := SplitLines(a[1..]);
      if a[0] != '\n' && |q| == 1 {
        var c := [a[0]] + q[0] + b;
        assert c[0] == a[0] && c[1..] == q[0] + b;
        assert [a[0]] + q[0] + b == c;
      }
    }
  }
}
