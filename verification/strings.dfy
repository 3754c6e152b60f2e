/**
  The two Foundation string operations the bot list is parsed with:
  `components(separatedBy:)` with a one-character separator, and
  `trimmingCharacters(in: .whitespacesAndNewlines)`.
 */
module Strings {

  /** The pieces of `s` between occurrences of `sep`, empty pieces included:
      "a,,b" gives ["a", "", "b"] and "" gives [""]. */
  function Split(s: string, sep: char): (parts: seq<string>)
    ensures |parts| >= 1
    ensures forall i | 0 <= i < |parts| :: sep !in parts[i]
    decreases |s|
  {
    if |s| == 0 then [""]
    else
      var rest := Split(s[1..], sep);
      if s[0] == sep then [""] + rest
      else [[s[0]] + rest[0]] + rest[1..]
  }

  /** The pieces glued back together with `sep` between neighbours. */
  function Join(parts: seq<string>, sep: char): string
    requires |parts| >= 1
  {
    if |parts| == 1 then parts[0] else parts[0] + [sep] + Join(parts[1..], sep)
  }

  /** Splitting loses nothing: the pieces joined with the separator give the
      string back. */
  lemma {:induction false} JoinSplit(s: string, sep: char)
    ensures Join(Split(s, sep), sep) == s
    decreases |s|
  {
    if |s| > 0 {
      var rest := Split(s[1..], sep);
      JoinSplit(s[1..], sep);
      if s[0] == sep {
        assert ([""] + rest)[1..] == rest;
      } else if |rest| > 1 {
        var parts := [[s[0]] + rest[0]] + rest[1..];
        assert parts[1..] == rest[1..];
        assert s == [s[0]] + s[1..];
      } else {
        assert s == [s[0]] + s[1..];
      }
    }
  }

  /** Splitting a prefix free of the separator extends the first piece. */
  lemma {:induction false} SplitPrefix(p: string, t: string, sep: char)
    requires sep !in p
    ensures Split(p + t, sep) == [p + Split(t, sep)[0]] + Split(t, sep)[1..]
    decreases |p|
  {
    if |p| > 0 {
      assert (p + t)[1..] == p[1..] + t;
      SplitPrefix(p[1..], t, sep);
      assert [p[0]] + (p[1..] + Split(t, sep)[0]) == p + Split(t, sep)[0];
    } else {
      var parts := Split(t, sep);
      assert p + t == t && p + parts[0] == parts[0];
      assert parts == [parts[0]] + parts[1..];
    }
  }

  /** The inverse direction: pieces free of the separator, joined with it,
      split back into the same pieces. */
  lemma {:induction false} SplitJoin(parts: seq<string>, sep: char)
    requires |parts| >= 1
    requires forall i | 0 <= i < |parts| :: sep !in parts[i]
    ensures Split(Join(parts, sep), sep) == parts
    decreases |parts|
  {
    if |parts| == 1 {
      SplitPrefix(parts[0], "", sep);
      assert Split("", sep) == [""];
      assert parts[0] + "" == parts[0];
      assert parts == [parts[0]];
    } else {
      var tail := Join(parts[1..], sep);
      SplitJoin(parts[1..], sep);
      assert parts[0] + [sep] + tail == parts[0] + ([sep] + tail);
      SplitPrefix(parts[0], [sep] + tail, sep);
      assert ([sep] + tail)[1..] == tail;
      assert Split([sep] + tail, sep) == [""] + parts[1..];
      assert parts[0] + "" == parts[0];
      assert parts == [parts[0]] + parts[1..];
    }
  }

  /** There are at least two pieces exactly when the separator occurs. */
  lemma {:induction false} SplitHasTwoParts(s: string, sep: char)
    ensures |Split(s, sep)| >= 2 <==> sep in s
    decreases |s|
  {
    if |s| > 0 {
      SplitHasTwoParts(s[1..], sep);
      assert sep in s <==> s[0] == sep || sep in s[1..] by {
        assert s == [s[0]] + s[1..];
      }
    }
  }

  /** The first two pieces of `a`, separator, `b`, then nothing or a
      separator and more, are `a` and `b` when neither holds the separator. */
  lemma SplitFirstTwo(a: string, b: string, rest: string, sep: char)
    requires sep !in a && sep !in b
    requires rest == "" || rest[0] == sep
    ensures var parts := Split(a + [sep] + b + rest, sep);
            |parts| >= 2 && parts[0] == a && parts[1] == b
  {
    var s := a + [sep] + b + rest;
    assert s == a + ([sep] + (b + rest));
    SplitPrefix(a, [sep] + (b + rest), sep);
    assert ([sep] + (b + rest))[1..] == b + rest;
    var tail := Split(b + rest, sep);
    assert Split([sep] + (b + rest), sep) == [""] + tail;
    SplitPrefix(b, rest, sep);
    if rest == "" {
      assert Split(rest, sep) == [""];
    } else {
      assert rest == [sep] + rest[1..];
      assert Split(rest, sep)[0] == "";
    }
    assert a + "" == a && b + "" == b;
  }

  /** Foundation's `whitespacesAndNewlines`: the space separators (Unicode
      general category Zs: U+0020, U+00A0, U+1680, U+2000 to U+200A, U+202F,
      U+205F and U+3000), the tab, and the newline characters U+000A to
      U+000D, U+0085, U+2028 and U+2029. */
  const Whitespace: set<char> := {
    ' ', '\U{A0}', '\U{1680}',
    '\U{2000}', '\U{2001}', '\U{2002}', '\U{2003}', '\U{2004}', '\U{2005}',
    '\U{2006}', '\U{2007}', '\U{2008}', '\U{2009}', '\U{200A}',
    '\U{202F}', '\U{205F}', '\U{3000}',
    '\t', '\U{A}', '\U{B}', '\U{C}', '\U{D}', '\U{85}', '\U{2028}', '\U{2029}'
  }

  predicate IsWhitespace(c: char)
  {
    c in Whitespace
  }

  predicate AllWhitespace(s: string)
  {
    forall k | 0 <= k < |s| :: IsWhitespace(s[k])
  }

  /** Neither end of `s` is whitespace (vacuously so for the empty string). */
  predicate Trimmed(s: string)
  {
    |s| > 0 ==> !IsWhitespace(s[0]) && !IsWhitespace(s[|s| - 1])
  }

  /** `s` without its leading whitespace: a suffix of `s`, what was removed
      is all whitespace, and what is left does not start with whitespace. */
  function TrimStart(s: string): (r: string)
    ensures |r| <= |s| && r == s[|s| - |r|..]
    ensures |r| > 0 ==> !IsWhitespace(r[0])
    decreases |s|
  {
    if |s| > 0 && IsWhitespace(s[0]) then TrimStart(s[1..]) else s
  }

  /** `s` without its trailing whitespace: a prefix of `s`, what was removed
      is all whitespace, and what is left does not end with whitespace. */
  function TrimEnd(s: string): (r: string)
    ensures |r| <= |s| && r == s[..|r|]
    ensures |r| > 0 ==> !IsWhitespace(r[|r| - 1])
    decreases |s|
  {
    if |s| > 0 && IsWhitespace(s[|s| - 1]) then TrimEnd(s[..|s| - 1]) else s
  }

  /** `trimmingCharacters(in: .whitespacesAndNewlines)`: no whitespace is
      left at either end. */
  function Trim(s: string): (r: string)
    ensures Trimmed(r) && |r| <= |s|
  {
    TrimEnd(TrimStart(s))
  }

  /** What `TrimStart` cuts is all whitespace. */
  lemma {:induction false} TrimStartCut(s: string)
    ensures AllWhitespace(s[..|s| - |TrimStart(s)|])
    decreases |s|
  {
    if |s| > 0 && IsWhitespace(s[0]) {
      TrimStartCut(s[1..]);
      var n := |s[1..]| - |TrimStart(s[1..])|;
      assert s[..n + 1] == [s[0]] + s[1..][..n];
    }
  }

  /** What `TrimEnd` cuts is all whitespace. */
  lemma {:induction false} TrimEndCut(s: string)
    ensures AllWhitespace(s[|TrimEnd(s)|..])
    decreases |s|
  {
    if |s| > 0 && IsWhitespace(s[|s| - 1]) {
      var init := s[..|s| - 1];
      TrimEndCut(init);
      assert s[|TrimEnd(init)|..] == init[|TrimEnd(init)|..] + [s[|s| - 1]];
    }
  }

  /** What trimming keeps is the slice of `s` that starts where `TrimStart`
      cut. */
  lemma TrimKeepsSlice(s: string)
    ensures |s| - |TrimStart(s)| + |Trim(s)| <= |s|
    ensures Trim(s) == s[|s| - |TrimStart(s)|..|s| - |TrimStart(s)| + |Trim(s)|]
  {
    var t := TrimStart(s);
    var i := |s| - |t|;
    assert t == s[i..] && Trim(s) == t[..|Trim(s)|];
  }

  /** What `TrimEnd` cuts after `TrimStart` is whitespace at the end of `s`. */
  lemma TrimEndCutOf(s: string)
    ensures |s| - |TrimStart(s)| + |Trim(s)| <= |s|
    ensures AllWhitespace(s[|s| - |TrimStart(s)| + |Trim(s)|..])
  {
    var t := TrimStart(s);
    TrimEndCut(t);
    assert s[|s| - |t| + |Trim(s)|..] == t[|Trim(s)|..];
  }

  /** What trimming keeps is a slice of `s`, and only whitespace is cut from
      either side of it. */
  lemma TrimSlice(s: string)
    ensures |s| - |TrimStart(s)| + |Trim(s)| <= |s|
    ensures Trim(s) == s[|s| - |TrimStart(s)|..|s| - |TrimStart(s)| + |Trim(s)|]
    ensures AllWhitespace(s[..|s| - |TrimStart(s)|])
    ensures AllWhitespace(s[|s| - |TrimStart(s)| + |Trim(s)|..])
  {
    TrimKeepsSlice(s);
    TrimStartCut(s);
    TrimEndCutOf(s);
  }

  lemma {:induction false} TrimStartOf(a: string, t: string)
    requires AllWhitespace(a)
    requires |t| > 0 ==> !IsWhitespace(t[0])
    ensures TrimStart(a + t) == t
    decreases |a|
  {
    if |a| > 0 {
      assert (a + t)[0] == a[0];
      assert (a + t)[1..] == a[1..] + t;
      TrimStartOf(a[1..], t);
    } else {
      assert a + t == t;
    }
  }

  lemma {:induction false} TrimEndOf(t: string, b: string)
    requires AllWhitespace(b)
    requires |t| > 0 ==> !IsWhitespace(t[|t| - 1])
    ensures TrimEnd(t + b) == t
    decreases |b|
  {
    if |b| > 0 {
      assert (t + b)[|t + b| - 1] == b[|b| - 1];
      assert (t + b)[..|t + b| - 1] == t + b[..|b| - 1];
      TrimEndOf(t, b[..|b| - 1]);
    } else {
      assert t + b == t;
    }
  }

  /** Trimming is pinned down by its result's shape: whitespace, then a
      trimmed core, then whitespace, trims to that core. */
  lemma TrimOf(a: string, core: string, b: string)
    requires AllWhitespace(a) && AllWhitespace(b) && Trimmed(core)
    ensures Trim(a + core + b) == core
  {
    if |core| > 0 {
      assert a + core + b == a + (core + b);
      assert (core + b)[0] == core[0];
      TrimStartOf(a, core + b);
      TrimEndOf(core, b);
    } else {
      assert a + core + b == (a + b) + "";
      assert AllWhitespace(a + b) by {
        forall k | 0 <= k < |a + b| ensures IsWhitespace((a + b)[k]) {
          if k < |a| { assert (a + b)[k] == a[k]; } else { assert (a + b)[k] == b[k - |a|]; }
        }
      }
      TrimStartOf(a + b, "");
    }
  }

  /** A string with no whitespace at its ends is its own trim, with or
      without one leading space. */
  lemma TrimTrimmed(s: string)
    requires Trimmed(s)
    ensures Trim(s) == s
    ensures Trim(" " + s) == s
  {
    TrimOf("", s, "");
    assert "" + s + "" == s;
    TrimOf(" ", s, "");
    assert " " + s + "" == " " + s;
  }

  /** Trimming twice is trimming once; a trimmed string is its own trim. */
  lemma TrimIdempotent(s: string)
    ensures Trim(Trim(s)) == Trim(s)
  {
    TrimOf("", Trim(s), "");
    assert "" + Trim(s) + "" == Trim(s);
  }
}
