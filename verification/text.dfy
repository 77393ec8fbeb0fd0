/** The java.lang.String operations the services rely on: trim, isEmpty after
    trim, startsWith, replace (literal, left to right), String.join and the
    ASCII part of toUpperCase; plus the quote escaping both model clients apply
    to a prompt before embedding it in a request body. */
module Text {

  /** `String.trim` removes every character whose code point is at most U+0020. */
  predicate IsSpace(c: char) {
    c <= ' '
  }

  predicate AllSpace(s: string) {
    forall i :: 0 <= i < |s| ==> IsSpace(s[i])
  }

  /** Number of leading characters `trim` removes. */
  function LeadCount(s: string): (n: nat)
    ensures n <= |s|
    ensures AllSpace(s[..n])
    ensures n < |s| ==> !IsSpace(s[n])
  {
    if |s| == 0 || !IsSpace(s[0]) then 0
    else
      var k := LeadCount(s[1..]);
      assert s[1..][..k] == s[1..k + 1];
      1 + k
  }

  /** Number of trailing characters `trim` removes. */
  function TrailCount(s: string): (n: nat)
    ensures n <= |s|
    ensures AllSpace(s[|s| - n..])
    ensures n < |s| ==> !IsSpace(s[|s| - n - 1])
  {
    if |s| == 0 || !IsSpace(s[|s| - 1]) then 0
    else
      var k := TrailCount(s[..|s| - 1]);
      assert s[..|s| - 1][|s| - 1 - k..] == s[|s| - 1 - k..|s| - 1];
      1 + k
  }

  /** `String.trim()`: the slice of `s` left after dropping white space (and
      control characters) at both ends. */
  function Trim(s: string): (r: string)
    ensures |r| <= |s|
    ensures LeadCount(s) + |r| <= |s| && r == s[LeadCount(s)..LeadCount(s) + |r|]
    ensures AllSpace(s[..LeadCount(s)]) && AllSpace(s[LeadCount(s) + |r|..])
    ensures r != [] ==> !IsSpace(r[0]) && !IsSpace(r[|r| - 1])
    ensures r == [] <==> AllSpace(s)
  {
    var a := LeadCount(s);
    var t := s[a..];
    var b := TrailCount(t);
    TrimSlice(s, a, t, b);
    t[..|t| - b]
  }

  lemma TrimSlice(s: string, a: nat, t: string, b: nat)
    requires a == LeadCount(s) && t == s[a..] && b == TrailCount(t)
    ensures var r := t[..|t| - b];
      && a + |r| <= |s|
      && r == s[a..a + |r|]
      && AllSpace(s[..a]) && AllSpace(s[a + |r|..])
      && (r != [] ==> !IsSpace(r[0]) && !IsSpace(r[|r| - 1]))
      && (r == [] <==> AllSpace(s))
  {
    var r := t[..|t| - b];
    assert s[a + |r|..] == t[|t| - b..];
    if r == [] {
      assert AllSpace(t) by { assert t[|t| - b..] == t; }
      assert s == s[..a] + t;
    } else {
      assert t[|t| - b - 1] == r[|r| - 1];
      assert !IsSpace(s[a]);
    }
  }

  /** `s.trim().isEmpty()`. */
  predicate IsBlank(s: string) {
    Trim(s) == []
  }

  lemma BlankIffAllSpace(s: string)
    ensures IsBlank(s) <==> forall i :: 0 <= i < |s| ==> s[i] <= ' '
  {
  }

  /** Trimming a trimmed string changes nothing. */
  lemma TrimIdempotent(s: string)
    ensures Trim(Trim(s)) == Trim(s)
  {
    var r := Trim(s);
    if r != [] {
      assert LeadCount(r) == 0;
      assert TrailCount(r[LeadCount(r)..]) == 0 by {
        assert r[LeadCount(r)..] == r;
      }
    }
  }

  /** `s.startsWith(p)`. */
  predicate StartsWith(s: string, p: string) {
    |p| <= |s| && s[..|p|] == p
  }

  /** `s.contains(p)`, unfolded one start position at a time. */
  predicate Occurs(s: string, p: string)
    decreases |s|
  {
    |p| <= |s| && (s[..|p|] == p || Occurs(s[1..], p))
  }

  lemma {:induction false} OccursAppend(t: string, v: string, p: string)
    requires Occurs(t, p)
    ensures Occurs(t + v, p)
    decreases |t|
  {
    assert (t + v)[..|p|] == t[..|p|];
    if t[..|p|] != p {
      OccursAppend(t[1..], v, p);
      assert (t + v)[1..] == t[1..] + v;
    }
  }

  lemma {:induction false} OccursPrepend(u: string, t: string, p: string)
    requires Occurs(t, p)
    ensures Occurs(u + t, p)
    decreases |u|
  {
    if u == [] {
      assert u + t == t;
    } else {
      OccursPrepend(u[1..], t, p);
      assert (u + t)[1..] == u[1..] + t;
    }
  }

  /** An occurrence in a slice is an occurrence in the whole string. */
  lemma OccursInSlice(s: string, a: nat, b: nat, p: string)
    requires a <= b <= |s|
    requires Occurs(s[a..b], p)
    ensures Occurs(s, p)
  {
    OccursAppend(s[a..b], s[b..], p);
    OccursPrepend(s[..a], s[a..b] + s[b..], p);
    assert s[..a] + (s[a..b] + s[b..]) == s;
  }

  /** Trimming cannot create an occurrence of anything. */
  lemma TrimKeepsAbsence(s: string, p: string)
    requires !Occurs(s, p)
    ensures !Occurs(Trim(s), p)
  {
    var r := Trim(s);
    if Occurs(r, p) {
      OccursInSlice(s, LeadCount(s), LeadCount(s) + |r|, p);
    }
  }

  /** A string containing `p + q` contains `p`. */
  lemma {:induction false} OccursOfPrefix(s: string, p: string, q: string)
    requires Occurs(s, p + q)
    ensures Occurs(s, p)
    decreases |s|
  {
    if s[..|p + q|] == p + q {
      assert s[..|p|] == (p + q)[..|p|];
    } else {
      OccursOfPrefix(s[1..], p, q);
    }
  }

  /** `s.replace(pat, rep)` for a non-empty literal `pat`: occurrences are found
      from left to right and do not overlap. */
  function ReplaceAll(s: string, pat: string, rep: string): string
    requires |pat| > 0
    decreases |s|
  {
    if |s| < |pat| then s
    else if s[..|pat|] == pat then rep + ReplaceAll(s[|pat|..], pat, rep)
    else [s[0]] + ReplaceAll(s[1..], pat, rep)
  }

  /** With no occurrence of `pat`, `replace` returns its input. */
  lemma {:induction false} ReplaceAbsent(s: string, pat: string, rep: string)
    requires |pat| > 0
    requires !Occurs(s, pat)
    ensures ReplaceAll(s, pat, rep) == s
    decreases |s|
  {
    if |s| >= |pat| {
      ReplaceAbsent(s[1..], pat, rep);
      assert [s[0]] + s[1..] == s;
    }
  }

  /** A prefix holding no first character of `pat` passes through unchanged. */
  lemma {:induction false} ReplaceSkipsPrefix(x: string, y: string, pat: string, rep: string)
    requires |pat| > 0
    requires forall i :: 0 <= i < |x| ==> x[i] != pat[0]
    ensures ReplaceAll(x + y, pat, rep) == x + ReplaceAll(y, pat, rep)
    decreases |x|
  {
    if x != [] {
      var s := x + y;
      if |s| < |pat| {
        ReplaceAbsent(y, pat, rep);
      } else {
        assert s[0] == x[0];
        assert s[..|pat|] != pat;
        assert s[1..] == x[1..] + y;
        ReplaceSkipsPrefix(x[1..], y, pat, rep);
        assert [x[0]] + x[1..] == x;
      }
    } else {
      assert x + y == y;
    }
  }

  /** `String.join(sep, xs)`. */
  function Join(xs: seq<string>, sep: string): string
    decreases |xs|
  {
    if |xs| == 0 then ""
    else if |xs| == 1 then xs[0]
    else xs[0] + sep + Join(xs[1..], sep)
  }

  function TotalLength(xs: seq<string>): nat
    decreases |xs|
  {
    if |xs| == 0 then 0 else |xs[0]| + TotalLength(xs[1..])
  }

  /** The joined string holds every item and one separator between neighbours. */
  lemma {:induction false} JoinLength(xs: seq<string>, sep: string)
    requires |xs| > 0
    ensures |Join(xs, sep)| == TotalLength(xs) + |sep| * (|xs| - 1)
    decreases |xs|
  {
    if |xs| > 1 {
      JoinLength(xs[1..], sep);
    }
  }

  const Quote: char := '"'
  const Backslash: char := '\\'

  /** `s.replace("\"", "\\\"")`: every double quote gets a backslash in front;
      backslashes and control characters are left as they are. */
  function EscapeQuotes(s: string): string {
    ReplaceAll(s, [Quote], [Backslash, Quote])
  }

  /** The escaping, one character at a time. */
  lemma EscapeCons(c: char, t: string)
    ensures EscapeQuotes([c] + t) == (if c == Quote then [Backslash, Quote] else [c]) + EscapeQuotes(t)
  {
    var s := [c] + t;
    assert s[..1] == [c];
    assert s[1..] == t;
  }

  lemma EscapeEmpty()
    ensures EscapeQuotes("") == ""
  {
  }

  /** A reader of the escaped text that turns each backslash-quote pair back
      into a quote and copies every other character. */
  function UnescapeQuotes(s: string): string
    decreases |s|
  {
    if |s| == 0 then ""
    else if |s| >= 2 && s[0] == Backslash && s[1] == Quote then [Quote] + UnescapeQuotes(s[2..])
    else [s[0]] + UnescapeQuotes(s[1..])
  }

  /** Escaped text never starts with a bare quote. */
  lemma EscapedHead(t: string)
    requires t != []
    ensures EscapeQuotes(t) != [] && EscapeQuotes(t)[0] != Quote
  {
    EscapeCons(t[0], t[1..]);
    assert [t[0]] + t[1..] == t;
  }

  /** The escaping loses nothing: reading it back yields the original text. */
  lemma {:induction false} UnescapeEscape(s: string)
    ensures UnescapeQuotes(EscapeQuotes(s)) == s
    decreases |s|
  {
    if s != [] {
      var c, t := s[0], s[1..];
      assert [c] + t == s;
      EscapeCons(c, t);
      var e := EscapeQuotes(t);
      UnescapeEscape(t);
      if c == Quote {
        assert ([Backslash, Quote] + e)[2..] == e;
      } else {
        var w := [c] + e;
        if c == Backslash && t != [] {
          EscapedHead(t);
        }
        assert |w| >= 2 ==> w[1] == e[0];
        assert w[1..] == e;
      }
    } else {
      EscapeEmpty();
    }
  }

  function CountOf(s: string, c: char): nat
    decreases |s|
  {
    if |s| == 0 then 0 else (if s[0] == c then 1 else 0) + CountOf(s[1..], c)
  }

  /** Escaping adds exactly one character per quote. */
  lemma {:induction false} EscapeLength(s: string)
    ensures |EscapeQuotes(s)| == |s| + CountOf(s, Quote)
    decreases |s|
  {
    if s != [] {
      EscapeCons(s[0], s[1..]);
      assert [s[0]] + s[1..] == s;
      EscapeLength(s[1..]);
    } else {
      EscapeEmpty();
    }
  }

  /** Text without quotes is embedded verbatim. */
  lemma {:induction false} EscapeWithoutQuotes(s: string)
    requires forall i :: 0 <= i < |s| ==> s[i] != Quote
    ensures EscapeQuotes(s) == s
  {
    ReplaceSkipsPrefix(s, "", [Quote], [Backslash, Quote]);
    assert s + "" == s;
  }

  /** The ASCII part of `String.toUpperCase()`. */
  function UpperChar(c: char): char {
    if 'a' <= c <= 'z' then (c as int - 32) as char else c
  }

  function ToUpper(s: string): (r: string)
    ensures |r| == |s|
  {
    seq(|s|, i requires 0 <= i < |s| => UpperChar(s[i]))
  }

  /** Upper-casing twice is upper-casing once. */
  lemma ToUpperIdempotent(s: string)
    ensures ToUpper(ToUpper(s)) == ToUpper(s)
  {
  }
}
