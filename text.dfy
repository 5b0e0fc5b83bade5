/** The two string operations of the Rust standard library the
    configuration parser relies on: `str::trim`, which strips Unicode white
    space from both ends, and `str::split` on a one-character pattern,
    which cuts a string at every occurrence of that character. */
module Text {

  /** `char::is_whitespace`: the characters with the Unicode White_Space
      property. */
  predicate IsWhitespace(c: char) {
    ('\U{0009}' <= c <= '\U{000D}') || c == '\U{0020}' || c == '\U{0085}' || c == '\U{00A0}' ||
    c == '\U{1680}' || ('\U{2000}' <= c <= '\U{200A}') || c == '\U{2028}' || c == '\U{2029}' ||
    c == '\U{202F}' || c == '\U{205F}' || c == '\U{3000}'
  }

  predicate AllWhitespace(s: string) {
    forall k | 0 <= k < |s| :: IsWhitespace(s[k])
  }

  /** How many characters of white space `s` starts with. */
  function LeadingWhitespace(s: string): (n: nat)
    ensures n <= |s| && AllWhitespace(s[..n])
    ensures n < |s| ==> !IsWhitespace(s[n])
    decreases |s|
  {
    if s != [] && IsWhitespace(s[0]) then
      var m := LeadingWhitespace(s[1..]);
      WhitespaceBefore(s, m);
      m + 1
    else 0
  }

  /** White space in front of a run of white space extends the run. */
  lemma WhitespaceBefore(s: string, m: nat)
    requires s != [] && IsWhitespace(s[0])
    requires m <= |s| - 1 && AllWhitespace(s[1..][..m])
    requires m < |s| - 1 ==> !IsWhitespace(s[1..][m])
    ensures AllWhitespace(s[..m + 1])
    ensures m + 1 < |s| ==> !IsWhitespace(s[m + 1])
  {
    assert s[..m + 1] == [s[0]] + s[1..][..m];
    WhitespaceConcat([s[0]], s[1..][..m]);
  }

  /** How many characters of white space `s` ends with. */
  function TrailingWhitespace(s: string): (n: nat)
    ensures n <= |s| && AllWhitespace(s[|s| - n..])
    ensures n < |s| ==> !IsWhitespace(s[|s| - n - 1])
    decreases |s|
  {
    if s != [] && IsWhitespace(s[|s| - 1]) then
      var m := TrailingWhitespace(s[..|s| - 1]);
      WhitespaceAfter(s, m);
      m + 1
    else 0
  }

  /** White space behind a run of white space extends the run. */
  lemma WhitespaceAfter(s: string, m: nat)
    requires s != [] && IsWhitespace(s[|s| - 1])
    requires m <= |s| - 1 && AllWhitespace(s[..|s| - 1][|s| - 1 - m..])
    requires m < |s| - 1 ==> !IsWhitespace(s[..|s| - 1][|s| - 1 - m - 1])
    ensures AllWhitespace(s[|s| - (m + 1)..])
    ensures m + 1 < |s| ==> !IsWhitespace(s[|s| - (m + 1) - 1])
  {
    assert s[|s| - (m + 1)..] == s[..|s| - 1][|s| - 1 - m..] + [s[|s| - 1]];
    WhitespaceConcat(s[..|s| - 1][|s| - 1 - m..], [s[|s| - 1]]);
  }

  /** `str::trim_start`: the longest suffix that does not start with white
      space; everything removed is white space. */
  function TrimStart(s: string): (r: string)
    ensures |r| <= |s| && r == s[|s| - |r|..]
    ensures AllWhitespace(s[..|s| - |r|])
    ensures r != [] ==> !IsWhitespace(r[0])
  {
    s[LeadingWhitespace(s)..]
  }

  /** `str::trim_end`: the longest prefix that does not end with white
      space; everything removed is white space. */
  function TrimEnd(s: string): (r: string)
    ensures |r| <= |s| && r == s[..|r|]
    ensures AllWhitespace(s[|r|..])
    ensures r != [] ==> !IsWhitespace(r[|r| - 1])
  {
    s[..|s| - TrailingWhitespace(s)]
  }

  /** `str::trim`: `trim_start` followed by `trim_end`. What it keeps is a
      prefix of what `trim_start` keeps, and what lies past it is white
      space. */
  function Trim(s: string): (r: string)
    ensures |r| <= |TrimStart(s)| && r == TrimStart(s)[..|r|]
    ensures AllWhitespace(TrimStart(s)[|r|..])
  {
    TrimEnd(TrimStart(s))
  }

  /** Trimming keeps a slice of the input that neither starts nor ends
      with white space, and it is empty exactly when the input is all white
      space. */
  lemma TrimEnds(s: string)
    ensures Trim(s) != [] ==> !IsWhitespace(Trim(s)[0]) && !IsWhitespace(Trim(s)[|Trim(s)| - 1])
    ensures Trim(s) == [] <==> AllWhitespace(s)
  {
    TrimmedEnds(s, TrimStart(s), Trim(s));
  }

  /** `TrimEnds` for any `t` and `r` that meet the contracts of
      `TrimStart(s)` and `TrimEnd(t)`. */
  lemma TrimmedEnds(s: string, t: string, r: string)
    requires |t| <= |s| && t == s[|s| - |t|..] && AllWhitespace(s[..|s| - |t|])
    requires t != [] ==> !IsWhitespace(t[0])
    requires |r| <= |t| && r == t[..|r|] && AllWhitespace(t[|r|..])
    requires r != [] ==> !IsWhitespace(r[|r| - 1])
    ensures r != [] ==> !IsWhitespace(r[0]) && !IsWhitespace(r[|r| - 1])
    ensures r == [] <==> AllWhitespace(s)
  {
    var cut := s[..|s| - |t|];
    assert s == cut + t;
    WhitespaceConcat(cut, t);
    if r == [] {
      assert t[|r|..] == t;
    } else {
      assert r[0] == t[0];
    }
  }

  /** A concatenation is all white space iff both its parts are. */
  lemma WhitespaceConcat(a: string, b: string)
    ensures AllWhitespace(a + b) <==> AllWhitespace(a) && AllWhitespace(b)
  {
    if AllWhitespace(a + b) {
      forall k | 0 <= k < |a|
        ensures IsWhitespace(a[k])
      {
        assert a[k] == (a + b)[k];
      }
      forall k | 0 <= k < |b|
        ensures IsWhitespace(b[k])
      {
        assert b[k] == (a + b)[|a| + k];
      }
    } else {
      var k :| 0 <= k < |a + b| && !IsWhitespace((a + b)[k]);
      if k < |a| {
        assert a[k] == (a + b)[k];
      } else {
        assert b[k - |a|] == (a + b)[k];
      }
    }
  }

  /** `str::split` on the character `d`, collected: the pieces between the
      occurrences of `d`, in order. */
  function Split(s: string, d: char): (parts: seq<string>)
    ensures |parts| >= 1
    decreases |s|
  {
    if s == [] then [[]]
    else if s[0] == d then [[]] + Split(s[1..], d)
    else
      var rest := Split(s[1..], d);
      [[s[0]] + rest[0]] + rest[1..]
  }

  /** The pieces glued back together with `d` between them. */
  function Join(parts: seq<string>, d: char): string
    requires |parts| >= 1
    decreases |parts|
  {
    if |parts| == 1 then parts[0] else parts[0] + [d] + Join(parts[1..], d)
  }

  /** Splitting loses nothing: joining the pieces gives back the string. */
  lemma {:induction false} SplitJoin(s: string, d: char)
    ensures Join(Split(s, d), d) == s
    decreases |s|
  {
    if s != [] {
      SplitJoin(s[1..], d);
      var rest := Split(s[1..], d);
      if s[0] != d {
        JoinPrepend(s[0], rest, d);
      } else {
        assert Split(s, d)[1..] == rest;
      }
      assert s == [s[0]] + s[1..];
    }
  }

  /** Putting `c` in front of the first piece puts it in front of the
      joined string. */
  lemma JoinPrepend(c: char, parts: seq<string>, d: char)
    requires |parts| >= 1
    ensures Join([[c] + parts[0]] + parts[1..], d) == [c] + Join(parts, d)
  {
    var q := [[c] + parts[0]] + parts[1..];
    assert q[1..] == parts[1..];
  }

  /** No piece contains `d`. */
  lemma {:induction false} SplitPieces(s: string, d: char)
    ensures forall k | 0 <= k < |Split(s, d)| :: d !in Split(s, d)[k]
    decreases |s|
  {
    if s != [] {
      SplitPieces(s[1..], d);
      var rest := Split(s[1..], d);
      var parts := Split(s, d);
      if s[0] != d {
        forall k | 0 <= k < |parts|
          ensures d !in parts[k]
        {
          if k > 0 {
            assert parts[k] == rest[k];
          }
        }
      } else {
        assert parts[1..] == rest;
      }
    }
  }

  /** There is one piece more than there are occurrences of `d`. */
  lemma {:induction false} SplitCount(s: string, d: char)
    ensures |Split(s, d)| == multiset(s)[d] + 1
    decreases |s|
  {
    if s != [] {
      SplitCount(s[1..], d);
      assert s == [s[0]] + s[1..];
      assert multiset(s) == multiset{s[0]} + multiset(s[1..]);
    }
  }

  /** A string splits into exactly two pieces iff it holds `d` exactly
      once; the pieces are then what precedes and what follows it. */
  lemma SplitInTwo(s: string, d: char)
    ensures |Split(s, d)| == 2 <==> multiset(s)[d] == 1
    ensures |Split(s, d)| == 2 ==> s == Split(s, d)[0] + [d] + Split(s, d)[1]
  {
    SplitJoin(s, d);
    SplitCount(s, d);
    var parts := Split(s, d);
    if |parts| == 2 {
      assert Join(parts[1..], d) == parts[1];
    }
  }
}
