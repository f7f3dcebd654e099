/** The pieces of Ruby's String and Array behaviour that the command parser and
    the help generator rely on: the `\w` character class, a greedy `\w+` run,
    `String#rstrip`, `%-Ns` padding, `Array#join` and `String#gsub` with a
    literal pattern. */
module Text {

  /** Ruby's `\w` on a non-Unicode regexp: an ASCII letter, digit or underscore. */
  predicate IsWordChar(c: char) {
    ('a' <= c <= 'z') || ('A' <= c <= 'Z') || ('0' <= c <= '9') || c == '_'
  }

  /** Concatenation regroups freely; stated once so callers can regroup
      without the solver searching for it. */
  lemma ConcatAssoc(a: string, b: string, c: string)
    ensures (a + b) + c == a + (b + c)
  {
  }

  lemma PrefixTransitive(a: string, b: string, c: string)
    requires a <= b && b <= c
    ensures a <= c
  {
  }

  lemma PrefixExtend(p: string, a: string, b: string)
    requires a <= b
    ensures p + a <= p + b
  {
    assert (p + b)[..|p + a|] == p + b[..|a|];
  }

  /** The longest prefix of `s` made only of word characters (a greedy `\w*`). */
  function WordRun(s: string): (r: string)
    ensures r <= s
    ensures forall i :: 0 <= i < |r| ==> IsWordChar(r[i])
    ensures |r| == |s| || !IsWordChar(s[|r|])
    decreases |s|
  {
    if s != [] && IsWordChar(s[0]) then [s[0]] + WordRun(s[1..]) else []
  }

  /** A prefix of word characters that cannot be extended is the word run. */
  lemma {:induction false} WordRunUnique(s: string, w: string)
    requires w <= s
    requires forall i :: 0 <= i < |w| ==> IsWordChar(w[i])
    requires |w| == |s| || !IsWordChar(s[|w|])
    ensures WordRun(s) == w
    decreases |s|
  {
    if w != [] {
      WordRunUnique(s[1..], w[1..]);
    }
  }

  /** The characters `String#rstrip` removes: NUL, tab, line feed, vertical
      tab, form feed, carriage return and space. */
  predicate IsStripSpace(c: char) {
    c == '\0' || c == '\t' || c == '\n' || c == '\U{B}' || c == '\U{C}' || c == '\r' || c == ' '
  }

  /** `String#rstrip`: `s` without its trailing run of whitespace. */
  function RStrip(s: string): (r: string)
    ensures r <= s
    ensures r == [] || !IsStripSpace(r[|r| - 1])
    ensures forall i :: |r| <= i < |s| ==> IsStripSpace(s[i])
    decreases |s|
  {
    if s == [] || !IsStripSpace(s[|s| - 1]) then s else RStrip(s[..|s| - 1])
  }

  /** The three properties of RStrip determine its result. */
  lemma RStripUnique(s: string, r: string)
    requires r <= s
    requires r == [] || !IsStripSpace(r[|r| - 1])
    requires forall i :: |r| <= i < |s| ==> IsStripSpace(s[i])
    ensures RStrip(s) == r
  {
  }

  /** Stripping never reaches into a prefix that ends in a visible character. */
  lemma {:induction false} RStripAfter(a: string, b: string)
    requires a != [] && !IsStripSpace(a[|a| - 1])
    ensures RStrip(a + b) == a + RStrip(b)
    decreases |b|
  {
    if b != [] && IsStripSpace(b[|b| - 1]) {
      assert (a + b)[..|a + b| - 1] == a + b[..|b| - 1];
      RStripAfter(a, b[..|b| - 1]);
    }
  }

  /** `"%-Ns" % s`: `s` left-justified in a field of `width` characters,
      padded with spaces and never truncated. */
  function PadRight(s: string, width: nat): (r: string)
    ensures |r| == if |s| < width then width else |s|
    ensures s <= r
    ensures forall i :: |s| <= i < |r| ==> r[i] == ' '
  {
    if |s| < width then s + seq(width - |s|, _ => ' ') else s
  }

  /** `Array#join(sep)` on an array of strings. */
  function Join(parts: seq<string>, sep: string): (r: string)
    ensures parts == [] ==> r == []
    ensures parts != [] ==> parts[0] <= r
    decreases |parts|
  {
    if parts == [] then ""
    else if |parts| == 1 then parts[0]
    else parts[0] + sep + Join(parts[1..], sep)
  }

  function TotalLength(parts: seq<string>): nat
    decreases |parts|
  {
    if parts == [] then 0 else |parts[0]| + TotalLength(parts[1..])
  }

  /** Joining adds exactly one separator between neighbours and none at the ends. */
  lemma {:induction false} JoinLength(parts: seq<string>, sep: string)
    requires parts != []
    ensures |Join(parts, sep)| == TotalLength(parts) + (|parts| - 1) * |sep|
    decreases |parts|
  {
    if |parts| > 1 {
      JoinLength(parts[1..], sep);
    }
  }

  /** Joining one more part appends the separator and that part. */
  lemma {:induction false} JoinSnoc(parts: seq<string>, p: string, sep: string)
    requires parts != []
    ensures Join(parts + [p], sep) == Join(parts, sep) + sep + p
    decreases |parts|
  {
    if |parts| == 1 {
      assert (parts + [p])[1..] == [p];
    } else {
      assert (parts + [p])[1..] == parts[1..] + [p];
      JoinSnoc(parts[1..], p, sep);
    }
  }

  /** `pat` occurs in `s` at position `i`. */
  predicate OccursAt(s: string, pat: string, i: nat) {
    i + |pat| <= |s| && s[i..i + |pat|] == pat
  }

  /** `s.gsub(pat, rep)` with a literal, non-empty `pat`: occurrences are found
      left to right, do not overlap, and the replacement is not re-scanned. */
  function ReplaceAll(s: string, pat: string, rep: string): (r: string)
    requires pat != []
    ensures |rep| <= |pat| ==> |r| <= |s|
    ensures |rep| >= |pat| ==> |r| >= |s|
    decreases |s|
  {
    if |s| < |pat| then s
    else if s[..|pat|] == pat then rep + ReplaceAll(s[|pat|..], pat, rep)
    else [s[0]] + ReplaceAll(s[1..], pat, rep)
  }

  /** A string in which `pat` never occurs is left as it is. */
  lemma {:induction false} ReplaceAllAbsent(s: string, pat: string, rep: string)
    requires pat != []
    requires forall i: nat :: !OccursAt(s, pat, i)
    ensures ReplaceAll(s, pat, rep) == s
    decreases |s|
  {
    if |s| >= |pat| {
      assert !OccursAt(s, pat, 0);
      forall i: nat | i + |pat| <= |s| - 1 ensures !OccursAt(s[1..], pat, i) {
        assert !OccursAt(s, pat, i + 1);
        assert s[1..][i..i + |pat|] == s[i + 1..i + 1 + |pat|];
      }
      ReplaceAllAbsent(s[1..], pat, rep);
    }
  }

  /** Replacing every occurrence by the pattern itself changes nothing. */
  lemma {:induction false} ReplaceAllSelf(s: string, pat: string)
    requires pat != []
    ensures ReplaceAll(s, pat, pat) == s
    decreases |s|
  {
    if |s| >= |pat| {
      if s[..|pat|] == pat {
        ReplaceAllSelf(s[|pat|..], pat);
        assert s == s[..|pat|] + s[|pat|..];
      } else {
        ReplaceAllSelf(s[1..], pat);
        assert s == [s[0]] + s[1..];
      }
    }
  }

  /** A replacement as long as the pattern keeps the text's length. */
  lemma ReplaceAllLength(s: string, pat: string, rep: string)
    requires pat != [] && |rep| == |pat|
    ensures |ReplaceAll(s, pat, rep)| == |s|
  {
  }

  /** A leading stretch none of whose characters can start the pattern is
      copied through unchanged. */
  lemma {:induction false} ReplaceAllSkip(a: string, s: string, pat: string, rep: string)
    requires pat != []
    requires forall i :: 0 <= i < |a| ==> a[i] != pat[0]
    ensures ReplaceAll(a + s, pat, rep) == a + ReplaceAll(s, pat, rep)
    decreases |a|
  {
    if a != [] {
      var t := a + s;
      assert t[1..] == a[1..] + s;
      ReplaceAllSkip(a[1..], s, pat, rep);
      if |t| >= |pat| {
        assert t[..|pat|] != pat by { assert t[..|pat|][0] == a[0]; }
        assert ReplaceAll(t, pat, rep) == [a[0]] + ReplaceAll(a[1..] + s, pat, rep);
        assert a == [a[0]] + a[1..];
      } else {
        assert ReplaceAll(t, pat, rep) == t;
        assert ReplaceAll(s, pat, rep) == s;
      }
    } else {
      assert a + s == s;
    }
  }

  /** A leading occurrence of the pattern becomes the replacement. */
  lemma ReplaceAllLeading(pat: string, s: string, rep: string)
    requires pat != []
    ensures ReplaceAll(pat + s, pat, rep) == rep + ReplaceAll(s, pat, rep)
  {
    assert (pat + s)[..|pat|] == pat;
    assert (pat + s)[|pat|..] == s;
  }

  /** Where the pattern does not start, one character is copied through. */
  lemma ReplaceAllCons(s: string, pat: string, rep: string)
    requires pat != [] && s != []
    requires |s| < |pat| || s[..|pat|] != pat
    ensures ReplaceAll(s, pat, rep) == [s[0]] + ReplaceAll(s[1..], pat, rep)
  {
    if |s| < |pat| {
      assert ReplaceAll(s[1..], pat, rep) == s[1..];
      assert s == [s[0]] + s[1..];
    }
  }

  /** An occurrence at the start of `a + b` cannot cover the last character
      of `a` when that character is foreign to the pattern. */
  lemma NoStraddle(a: string, b: string, pat: string)
    requires pat != [] && a != []
    requires forall j :: 0 <= j < |pat| ==> pat[j] != a[|a| - 1]
    ensures |a + b| >= |pat| && (a + b)[..|pat|] == pat ==> |a| > |pat|
  {
    if |a| <= |pat| <= |a + b| {
      var k := |a| - 1;
      assert (a + b)[..|pat|][k] == a[k];
    }
  }

  /** A text that ends in a character foreign to the pattern is replaced on
      its own: no occurrence straddles the end of `a`. */
  lemma {:induction false} ReplaceAllSplit(a: string, b: string, pat: string, rep: string)
    requires pat != [] && a != []
    requires forall j :: 0 <= j < |pat| ==> pat[j] != a[|a| - 1]
    ensures ReplaceAll(a + b, pat, rep) == ReplaceAll(a, pat, rep) + ReplaceAll(b, pat, rep)
    decreases |a|
  {
    var t := a + b;
    if |t| >= |pat| && t[..|pat|] == pat {
      NoStraddle(a, b, pat);
      assert a[..|pat|] == pat;
      assert t[|pat|..] == a[|pat|..] + b;
      ReplaceAllSplit(a[|pat|..], b, pat, rep);
      ConcatAssoc(rep, ReplaceAll(a[|pat|..], pat, rep), ReplaceAll(b, pat, rep));
    } else {
      ReplaceAllCons(t, pat, rep);
      assert t[1..] == a[1..] + b;
      if |a| >= |pat| {
        assert a[..|pat|] == t[..|pat|];
      }
      ReplaceAllCons(a, pat, rep);
      if |a| == 1 {
        assert a[1..] + b == b;
        assert ReplaceAll(a[1..], pat, rep) == [];
      } else {
        ReplaceAllSplit(a[1..], b, pat, rep);
        ConcatAssoc([a[0]], ReplaceAll(a[1..], pat, rep), ReplaceAll(b, pat, rep));
      }
    }
  }

  /** A last character foreign to the pattern survives replacement. */
  lemma {:induction false} ReplaceAllLast(s: string, pat: string, rep: string)
    requires pat != [] && s != []
    requires forall j :: 0 <= j < |pat| ==> pat[j] != s[|s| - 1]
    ensures var r := ReplaceAll(s, pat, rep); r != [] && r[|r| - 1] == s[|s| - 1]
    decreases |s|
  {
    if |s| >= |pat| {
      if s[..|pat|] == pat {
        // the occurrence ends in a pattern character, so it is not at the end
        assert s[|pat| - 1] == pat[|pat| - 1];
        ReplaceAllLast(s[|pat|..], pat, rep);
      } else if |s| > 1 {
        ReplaceAllLast(s[1..], pat, rep);
      }
    }
  }

  /** The parts written one after another. */
  function Concat(parts: seq<string>): string
    decreases |parts|
  {
    if parts == [] then "" else Concat(parts[..|parts| - 1]) + parts[|parts| - 1]
  }
}
