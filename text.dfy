/** The operations on Python strings that the adapters use, on `seq<char>`. */
module Text {
  import opened Wrappers

  predicate StartsWith(s: string, prefix: string) {
    |prefix| <= |s| && s[..|prefix|] == prefix
  }

  predicate EndsWith(s: string, suffix: string) {
    |suffix| <= |s| && s[|s| - |suffix|..] == suffix
  }

  /** Index of the first `c` in `s`, or `|s|` when there is none. */
  function FirstIndex(s: string, c: char): (k: nat)
    ensures k <= |s|
    ensures c !in s[..k]
    ensures k < |s| ==> s[k] == c
  {
    if |s| == 0 then 0
    else if s[0] == c then 0
    else 1 + FirstIndex(s[1..], c)
  }

  /** The first `c` of `a + b` is the first one of `a`, or the first one of `b` past the end of `a`. */
  lemma {:induction false} FirstIndexConcat(a: string, b: string, c: char)
    ensures FirstIndex(a + b, c) == if FirstIndex(a, c) < |a| then FirstIndex(a, c) else |a| + FirstIndex(b, c)
  {
    if |a| == 0 {
      assert a + b == b;
    } else if a[0] != c {
      assert (a + b)[1..] == a[1..] + b;
      FirstIndexConcat(a[1..], b, c);
    }
  }

  /** The first `c` of `a + [c] + b` is the one after `a` when `a` holds none. */
  lemma FirstIndexAfter(a: string, c: char, b: string)
    requires c !in a
    ensures FirstIndex(a + [c] + b, c) == |a|
  {
    FirstIndexConcat(a, [c] + b, c);
    assert a[..|a|] == a;
    assert a + [c] + b == a + ([c] + b);
  }

  /** Python's `sep.join(parts)`. */
  function JoinWith(sep: string, parts: seq<string>): string
  {
    if |parts| == 0 then ""
    else if |parts| == 1 then parts[0]
    else parts[0] + sep + JoinWith(sep, parts[1..])
  }

  /** A token of a command line: not empty and free of spaces. */
  predicate IsWord(w: string) {
    w != "" && ' ' !in w
  }

  /** The command line `s` cut at its spaces into words, runs of spaces counting as one separator. */
  function Words(s: string): (r: seq<string>)
    ensures forall i :: 0 <= i < |r| ==> IsWord(r[i])
    decreases |s|
  {
    if |s| == 0 then []
    else if s[0] == ' ' then Words(s[1..])
    else
      var k := FirstIndex(s, ' ');
      [s[..k]] + Words(s[k..])
  }

  lemma {:induction false} WordsOfWord(w: string)
    requires IsWord(w)
    ensures Words(w) == [w]
  {
    assert FirstIndex(w, ' ') == |w|;
    assert w[..|w|] == w;
    assert w[|w|..] == "";
  }

  /** Joining two command lines with a space concatenates their words. */
  lemma {:induction false} WordsOfSpaceJoin(a: string, b: string)
    ensures Words(a + " " + b) == Words(a) + Words(b)
    decreases |a|
  {
    var s := a + " " + b;
    if |a| == 0 {
      assert s[1..] == b;
    } else if a[0] == ' ' {
      assert s[1..] == a[1..] + " " + b;
      WordsOfSpaceJoin(a[1..], b);
    } else {
      var k := FirstIndex(a, ' ');
      FirstIndexConcat(a, " " + b, ' ');
      assert s == a + (" " + b);
      assert FirstIndex(s, ' ') == k;
      assert s[..k] == a[..k];
      assert s[k..] == a[k..] + " " + b;
      WordsOfSpaceJoin(a[k..], b);
    }
  }

  /** Splitting a space-joined list of words gives the list back. */
  lemma {:induction false} WordsOfJoin(parts: seq<string>)
    requires forall i :: 0 <= i < |parts| ==> IsWord(parts[i])
    ensures Words(JoinWith(" ", parts)) == parts
  {
    if |parts| == 1 {
      WordsOfWord(parts[0]);
    } else if |parts| > 1 {
      WordsOfSpaceJoin(parts[0], JoinWith(" ", parts[1..]));
      WordsOfWord(parts[0]);
      WordsOfJoin(parts[1..]);
    }
  }

  /** Appending a space and one word to a command line appends that word. */
  lemma WordsAppendWord(a: string, w: string)
    requires IsWord(w)
    ensures Words(a + " " + w) == Words(a) + [w]
  {
    WordsOfSpaceJoin(a, w);
    WordsOfWord(w);
  }

  /** Five words joined by single spaces split back into those five. */
  lemma WordsOfFive(w0: string, w1: string, w2: string, w3: string, w4: string)
    requires IsWord(w0) && IsWord(w1) && IsWord(w2) && IsWord(w3) && IsWord(w4)
    ensures Words(w0 + " " + w1 + " " + w2 + " " + w3 + " " + w4) == [w0, w1, w2, w3, w4]
  {
    WordsOfWord(w0);
    WordsAppendWord(w0, w1);
    WordsAppendWord(w0 + " " + w1, w2);
    WordsAppendWord(w0 + " " + w1 + " " + w2, w3);
    WordsAppendWord(w0 + " " + w1 + " " + w2 + " " + w3, w4);
  }

  function DigitChar(d: nat): char
    requires d < 10
  {
    ('0' as int + d) as char
  }

  predicate IsDigit(c: char) {
    '0' <= c <= '9'
  }

  /** Python's `str(n)` for a natural number: its decimal digits. */
  function Decimal(n: nat): (r: string)
    ensures r != ""
    ensures forall i :: 0 <= i < |r| ==> IsDigit(r[i])
    ensures r[0] == '0' ==> r == "0"
  {
    if n < 10 then [DigitChar(n)] else Decimal(n / 10) + [DigitChar(n % 10)]
  }

  /** A flag followed by a number, such as `-Xmx1024`, is one word. */
  lemma NumberedFlagIsWord(flag: string, n: nat)
    requires IsWord(flag)
    ensures IsWord(flag + Decimal(n))
  {
    var d := Decimal(n);
    forall i | 0 <= i < |d|
      ensures d[i] != ' '
    {
      assert IsDigit(d[i]);
    }
  }

  /** Reads a string of decimal digits back as a number; anything else is not a number. */
  function ParseDecimal(s: string): Option<nat>
    decreases |s|
  {
    if s == [] || !IsDigit(s[|s| - 1]) then None
    else
      var d := s[|s| - 1] as int - '0' as int;
      if |s| == 1 then Some(d)
      else match ParseDecimal(s[..|s| - 1])
        case None => None
        case Some(p) => Some(10 * p + d)
  }

  lemma {:induction false} DecimalRoundTrip(n: nat)
    ensures ParseDecimal(Decimal(n)) == Some(n)
  {
    if n >= 10 {
      var s := Decimal(n);
      assert s[..|s| - 1] == Decimal(n / 10);
      DecimalRoundTrip(n / 10);
    }
  }

  predicate MatchAt(s: string, pat: string, i: nat) {
    i + |pat| <= |s| && s[i..i + |pat|] == pat
  }

  /** Python's `s.replace(pat, rep)`: every occurrence of `pat`, scanned left to right without overlap. */
  function ReplaceAll(s: string, pat: string, rep: string): string
    requires pat != ""
    decreases |s|
  {
    if |s| < |pat| then s
    else if s[..|pat|] == pat then rep + ReplaceAll(s[|pat|..], pat, rep)
    else [s[0]] + ReplaceAll(s[1..], pat, rep)
  }

  /** A prefix of `s` in which no occurrence of `pat` starts is left as it is. */
  lemma {:induction false} ReplaceSkip(s: string, pat: string, rep: string, n: nat)
    requires pat != "" && n <= |s|
    requires forall i :: 0 <= i < n ==> !MatchAt(s, pat, i)
    ensures ReplaceAll(s, pat, rep) == s[..n] + ReplaceAll(s[n..], pat, rep)
    decreases n
  {
    if n == 0 {
      assert s[..0] == "" && s[0..] == s;
    } else if |s| < |pat| {
      assert s[..n] + s[n..] == s;
    } else {
      assert !MatchAt(s, pat, 0);
      forall i | 0 <= i < n - 1
        ensures !MatchAt(s[1..], pat, i)
      {
        assert !MatchAt(s, pat, i + 1);
        if i + |pat| <= |s| - 1 {
          assert s[1..][i..i + |pat|] == s[i + 1..i + 1 + |pat|];
        }
      }
      ReplaceSkip(s[1..], pat, rep, n - 1);
      assert s[1..][n - 1..] == s[n..];
      assert [s[0]] + s[1..][..n - 1] == s[..n];
    }
  }

  /** A string in which `pat` does not occur is left as it is. */
  lemma ReplaceAbsent(s: string, pat: string, rep: string)
    requires pat != ""
    requires forall i :: 0 <= i < |s| ==> !MatchAt(s, pat, i)
    ensures ReplaceAll(s, pat, rep) == s
  {
    ReplaceSkip(s, pat, rep, |s|);
    assert s[..|s|] == s;
  }

  /** An occurrence of `pat` cannot start where the first character of `pat` is missing. */
  lemma NoMatchWithoutFirst(s: string, pat: string, n: nat)
    requires pat != "" && n <= |s|
    requires pat[0] !in s[..n]
    ensures forall i :: 0 <= i < n ==> !MatchAt(s, pat, i)
  {
    forall i | 0 <= i < n
      ensures !MatchAt(s, pat, i)
    {
      assert s[..n][i] == s[i];
      if i + |pat| <= |s| {
        assert s[i..i + |pat|][0] == s[i] != pat[0];
      }
    }
  }

  /** A pattern that ends with its only newline cannot start inside a line `x + "\n"`
      unless the line's text `x` ends with the rest of the pattern. */
  lemma NoMatchWithinLine(x: string, rest: string, pat: string)
    requires |pat| >= 1 && pat[|pat| - 1] == '\n' && '\n' !in pat[..|pat| - 1]
    requires '\n' !in x && !EndsWith(x, pat[..|pat| - 1])
    ensures forall i :: 0 <= i <= |x| ==> !MatchAt(x + "\n" + rest, pat, i)
  {
    var s := x + "\n" + rest;
    var m := |pat| - 1;
    forall i | 0 <= i <= |x|
      ensures !MatchAt(s, pat, i)
    {
      if i + |pat| <= |s| {
        var w := s[i..i + |pat|];
        if i + m < |x| {
          assert w[m] == x[i + m] != pat[m];
        } else if i + m == |x| {
          assert w[..m] == x[|x| - m..] != pat[..m];
        } else {
          assert pat[..m][|x| - i] == pat[|x| - i];
          assert w[|x| - i] == '\n' != pat[|x| - i];
        }
      }
    }
  }

  /** No line of `s` starts with `c`; `atStart` says whether `s` itself begins a line. */
  predicate LinesAvoid(s: string, c: char, atStart: bool) {
    && (atStart && |s| > 0 ==> s[0] != c)
    && forall i :: 0 < i < |s| && s[i - 1] == '\n' ==> s[i] != c
  }

  /** Deleting every occurrence of a pattern that ends with a line break starts no new line:
      what follows a deleted occurrence began a line already. */
  lemma {:induction false} ReplaceKeepsLinesAvoid(s: string, pat: string, c: char, atStart: bool)
    requires pat != "" && pat[|pat| - 1] == '\n'
    requires LinesAvoid(s, c, atStart)
    ensures LinesAvoid(ReplaceAll(s, pat, ""), c, atStart)
    decreases |s|
  {
    if |s| < |pat| {
    } else if s[..|pat|] == pat {
      var rest := s[|pat|..];
      assert s[|pat| - 1] == '\n';
      assert LinesAvoid(rest, c, true) by {
        forall i | 0 < i < |rest| && rest[i - 1] == '\n'
          ensures rest[i] != c
        {
          assert rest[i - 1] == s[|pat| + i - 1] && rest[i] == s[|pat| + i];
        }
      }
      ReplaceKeepsLinesAvoid(rest, pat, c, true);
      assert ReplaceAll(s, pat, "") == ReplaceAll(rest, pat, "");
    } else {
      var rest := s[1..];
      assert LinesAvoid(rest, c, s[0] == '\n') by {
        forall i | 0 < i < |rest| && rest[i - 1] == '\n'
          ensures rest[i] != c
        {
          assert rest[i - 1] == s[i] && rest[i] == s[i + 1];
        }
      }
      ReplaceKeepsLinesAvoid(rest, pat, c, s[0] == '\n');
      var r := ReplaceAll(rest, pat, "");
      assert ReplaceAll(s, pat, "") == [s[0]] + r;
      forall i | 0 < i < |[s[0]] + r| && ([s[0]] + r)[i - 1] == '\n'
        ensures ([s[0]] + r)[i] != c
      {
        assert ([s[0]] + r)[i] == r[i - 1];
        if i > 1 {
          assert ([s[0]] + r)[i - 1] == r[i - 2];
        }
      }
    }
  }

  /** The text after the last `c` of `s`, all of `s` when it holds none (Python's `s[s.rfind(c) + 1:]`). */
  function AfterLast(s: string, c: char): (r: string)
    ensures c !in r
    ensures EndsWith(s, r)
    ensures |r| < |s| ==> s[|s| - |r| - 1] == c
    decreases |s|
  {
    if s == [] || s[|s| - 1] == c then [] else AfterLast(s[..|s| - 1], c) + [s[|s| - 1]]
  }

  /** A character other than `c` at the end is kept. */
  lemma AfterLastSnoc(p: string, x: char, c: char)
    requires x != c
    ensures AfterLast(p + [x], c) == AfterLast(p, c) + [x]
  {
    assert (p + [x])[..|p|] == p;
  }

  /** Nothing before the last `c` shows in what follows it. */
  lemma {:induction false} AfterLastPastSeparator(a: string, c: char, b: string)
    ensures AfterLast(a + [c] + b, c) == AfterLast(b, c)
    decreases |b|
  {
    if b == [] {
      assert a + [c] + b == a + [c];
    } else {
      var b', x := b[..|b| - 1], b[|b| - 1];
      assert b == b' + [x];
      assert a + [c] + b == (a + [c] + b') + [x];
      if x != c {
        AfterLastPastSeparator(a, c, b');
        AfterLastSnoc(a + [c] + b', x, c);
        AfterLastSnoc(b', x, c);
      }
    }
  }

  lemma {:induction false} AfterLastWithout(s: string, c: char)
    requires c !in s
    ensures AfterLast(s, c) == s
    decreases |s|
  {
    if s != [] {
      assert s[|s| - 1] in s;
      assert forall i :: 0 <= i < |s| - 1 ==> s[..|s| - 1][i] == s[i];
      AfterLastWithout(s[..|s| - 1], c);
    }
  }
}
