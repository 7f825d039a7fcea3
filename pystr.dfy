/** The few Python `str` operations the pipeline relies on: `strip`,
    `startswith`, `split(sep)` and `isdigit`. */
module PyStr {

  /** The characters Python's `str.isspace` (and so `str.strip()`) treats as whitespace. */
  predicate IsSpace(c: char) {
    c == ' ' || c == '\t' || c == '\n' || c == '\r' || c == '\U{0B}' || c == '\U{0C}' ||
    ('\U{1C}' <= c <= '\U{1F}') || c == '\U{85}' || c == '\U{A0}' || c == '\U{1680}' ||
    ('\U{2000}' <= c <= '\U{200A}') || c == '\U{2028}' || c == '\U{2029}' ||
    c == '\U{202F}' || c == '\U{205F}' || c == '\U{3000}'
  }

  predicate AllSpace(s: string) {
    forall k :: 0 <= k < |s| ==> IsSpace(s[k])
  }

  /** `s.lstrip()` */
  function TrimStart(s: string): string
    decreases |s|
  {
    if |s| > 0 && IsSpace(s[0]) then TrimStart(s[1..]) else s
  }

  /** `s.rstrip()` */
  function TrimEnd(s: string): string
    decreases |s|
  {
    if |s| > 0 && IsSpace(s[|s| - 1]) then TrimEnd(s[..|s| - 1]) else s
  }

  /** `lstrip` keeps the longest suffix that does not start with whitespace. */
  lemma {:induction false} TrimStartSpec(s: string)
    ensures var r := TrimStart(s);
      |r| <= |s| && r == s[|s| - |r|..] && AllSpace(s[..|s| - |r|]) &&
      (r != [] ==> !IsSpace(r[0]))
    decreases |s|
  {
    if |s| > 0 && IsSpace(s[0]) {
      TrimStartSpec(s[1..]);
      var r := TrimStart(s[1..]);
      assert s[..|s| - |r|] == [s[0]] + s[1..][..|s| - 1 - |r|];
    }
  }

  /** `rstrip` keeps the longest prefix that does not end with whitespace. */
  lemma {:induction false} TrimEndSpec(s: string)
    ensures var r := TrimEnd(s);
      |r| <= |s| && r == s[..|r|] && AllSpace(s[|r|..]) &&
      (r != [] ==> !IsSpace(r[|r| - 1]))
    decreases |s|
  {
    if |s| > 0 && IsSpace(s[|s| - 1]) {
      TrimEndSpec(s[..|s| - 1]);
      var r := TrimEnd(s[..|s| - 1]);
      assert s[|r|..] == s[..|s| - 1][|r|..] + [s[|s| - 1]];
    }
  }

  /** `s.strip()` */
  function Strip(s: string): string {
    TrimEnd(TrimStart(s))
  }

  /** `s.strip()` cuts whitespace only at the two ends and leaves neither end on whitespace. */
  lemma StripIsTrimmedSlice(s: string) returns (i: nat)
    ensures i + |Strip(s)| <= |s| && Strip(s) == s[i..i + |Strip(s)|]
    ensures AllSpace(s[..i]) && AllSpace(s[i + |Strip(s)|..])
    ensures Strip(s) != [] ==> !IsSpace(Strip(s)[0]) && !IsSpace(Strip(s)[|Strip(s)| - 1])
  {
    var t := TrimStart(s);
    var r := TrimEnd(t);
    TrimStartSpec(s);
    TrimEndSpec(t);
    i := |s| - |t|;
    assert r == t[..|r|] && t == s[i..];
    assert s[i + |r|..] == t[|r|..];
  }

  /** Stripping twice is stripping once (the categoriser strips the reply twice). */
  lemma StripIdempotent(s: string)
    ensures Strip(Strip(s)) == Strip(s)
  {
    var r := Strip(s);
    var _ := StripIsTrimmedSlice(s);
    assert TrimStart(r) == r;
    assert TrimEnd(r) == r;
  }

  /** A message is blank after `strip()` exactly when it is all whitespace. */
  lemma StripEmptyIff(s: string)
    ensures Strip(s) == [] <==> AllSpace(s)
  {
    var t := TrimStart(s);
    TrimStartSpec(s);
    TrimEndSpec(t);
    if !AllSpace(s) {
      var k :| 0 <= k < |s| && !IsSpace(s[k]);
      assert k >= |s| - |t|;
      assert t != [];
      var r := TrimEnd(t);
      assert t[0] == s[|s| - |t|] && !IsSpace(t[0]);
    }
  }

  /** `s.startswith(p)` */
  predicate StartsWith(s: string, p: string) {
    |p| <= |s| && s[..|p|] == p
  }

  /** `sep in s`: `sep` occurs somewhere in `s`. */
  predicate Occurs(s: string, sep: string)
    decreases |s|
  {
    |sep| <= |s| && (s[..|sep|] == sep || (0 < |s| && Occurs(s[1..], sep)))
  }

  /** `s.split(sep)`: the pieces between the non-overlapping occurrences of `sep`,
      found from the left. */
  function Split(s: string, sep: string): (r: seq<string>)
    requires sep != []
    ensures |r| >= 1
    ensures |r[0]| <= |s| && r[0] == s[..|r[0]|]
    ensures StartsWith(s, sep) ==> |r| >= 2 && r[0] == ""
    decreases |s|
  {
    if |s| < |sep| then [s]
    else if s[..|sep|] == sep then [""] + Split(s[|sep|..], sep)
    else
      var rest := Split(s[1..], sep);
      [[s[0]] + rest[0]] + rest[1..]
  }

  /** `sep.join(ps)` */
  function Join(ps: seq<string>, sep: string): string
    decreases |ps|
  {
    if ps == [] then [] else if |ps| == 1 then ps[0] else ps[0] + sep + Join(ps[1..], sep)
  }

  lemma JoinConsHead(c: char, ps: seq<string>, sep: string)
    requires ps != []
    ensures Join([[c] + ps[0]] + ps[1..], sep) == [c] + Join(ps, sep)
  {
  }

  /** Joining the pieces with the separator gives back the string. */
  lemma {:induction false} SplitJoin(s: string, sep: string)
    requires sep != []
    ensures Join(Split(s, sep), sep) == s
    decreases |s|
  {
    if |s| < |sep| {
    } else if s[..|sep|] == sep {
      var rest := s[|sep|..];
      SplitJoin(rest, sep);
      var ps := [""] + Split(rest, sep);
      assert ps[1..] == Split(rest, sep);
      assert s == sep + rest;
    } else {
      SplitJoin(s[1..], sep);
      JoinConsHead(s[0], Split(s[1..], sep), sep);
      assert s == [s[0]] + s[1..];
    }
  }

  /** No piece of a split contains the separator. */
  lemma {:induction false} SplitPiecesFree(s: string, sep: string)
    requires sep != []
    ensures forall i :: 0 <= i < |Split(s, sep)| ==> !Occurs(Split(s, sep)[i], sep)
    decreases |s|
  {
    if |s| < |sep| {
    } else if s[..|sep|] == sep {
      SplitPiecesFree(s[|sep|..], sep);
      var ps := Split(s, sep);
      forall i | 0 <= i < |ps| ensures !Occurs(ps[i], sep) {
        if i > 0 {
          assert ps[i] == Split(s[|sep|..], sep)[i - 1];
        }
      }
    } else {
      var rest := Split(s[1..], sep);
      SplitPiecesFree(s[1..], sep);
      var p := [s[0]] + rest[0];
      assert p == s[..|p|];
      assert p[1..] == rest[0];
      assert |sep| <= |p| ==> p[..|sep|] == s[..|sep|];
      var ps := Split(s, sep);
      forall i | 0 <= i < |ps| ensures !Occurs(ps[i], sep) {
        if i > 0 {
          assert ps[i] == rest[i];
        }
      }
    }
  }

  /** The first piece of a split is followed by the separator, and no
      occurrence of it starts inside that piece. */
  predicate FirstCut(s: string, sep: string, r: seq<string>)
    requires sep != [] && |r| >= 1
  {
    |r| >= 2 && |r[0]| + |sep| <= |s| && s[..|r[0]| + |sep|] == r[0] + sep &&
    !Occurs(r[0] + sep[..|sep| - 1], sep) && r[1..] == Split(s[|r[0]| + |sep|..], sep)
  }

  /** The split cuts at the leftmost occurrence: when `sep` occurs, the first
      piece is followed by `sep`, no occurrence starts inside the first piece,
      and the other pieces are the split of what follows that `sep`; otherwise
      the string is its only piece. */
  lemma {:induction false} SplitFirstCut(s: string, sep: string)
    requires sep != []
    ensures Occurs(s, sep) ==> FirstCut(s, sep, Split(s, sep))
    ensures !Occurs(s, sep) ==> Split(s, sep) == [s]
    decreases |s|
  {
    if !Occurs(s, sep) {
      SplitAbsent(s, sep);
    } else if s[..|sep|] == sep {
      var r := Split(s, sep);
      assert r[0] + sep == sep && r[1..] == Split(s[|sep|..], sep);
    } else {
      SplitFirstCut(s[1..], sep);
      SplitFirstCutStep(s, sep);
    }
  }

  lemma SplitFirstCutStep(s: string, sep: string)
    requires sep != [] && |sep| <= |s| && s[..|sep|] != sep && Occurs(s, sep)
    requires FirstCut(s[1..], sep, Split(s[1..], sep))
    ensures FirstCut(s, sep, Split(s, sep))
  {
    var rest := Split(s[1..], sep);
    SplitCons(s, sep);
    var r := [[s[0]] + rest[0]] + rest[1..];
    var n := |rest[0]| + |sep|;
    FirstCutPrefix(s, sep, rest[0], sep[..|sep| - 1]);
    assert s[n + 1..] == s[1..][n..];
    assert r[0] == [s[0]] + rest[0] && r[1..] == rest[1..];
  }

  /** A split that does not start with the separator grows its first piece. */
  lemma SplitCons(s: string, sep: string)
    requires sep != [] && |sep| <= |s| && s[..|sep|] != sep
    ensures Split(s, sep) == [[s[0]] + Split(s[1..], sep)[0]] + Split(s[1..], sep)[1..]
  {
  }

  /** Putting back the first character keeps the first piece cut-free. */
  lemma FirstCutPrefix(s: string, sep: string, p0: string, q: string)
    requires sep != [] && |sep| <= |s| && s[..|sep|] != sep
    requires q == sep[..|sep| - 1]
    requires |p0| + |sep| <= |s[1..]| && s[1..][..|p0| + |sep|] == p0 + sep && !Occurs(p0 + q, sep)
    ensures s[..|p0| + 1 + |sep|] == [s[0]] + p0 + sep
    ensures !Occurs([s[0]] + p0 + q, sep)
  {
    var n := |p0| + |sep|;
    ConsPrefix(s, n);
    var w := [s[0]] + p0 + sep;
    assert s[..n + 1] == w;
    var x := p0 + q;
    var y := [s[0]] + x;
    assert y == w[..n];
    assert y[..|sep|] == w[..|sep|] == s[..|sep|];
    ConsNoOccurrence(s[0], x, sep, s[..|sep|]);
    assert [s[0]] + p0 + q == y;
  }

  lemma ConsPrefix(s: string, n: nat)
    requires n < |s|
    ensures s[..n + 1] == [s[0]] + s[1..][..n]
  {
  }

  /** A separator absent from `x` and not starting at `c` is absent from `[c] + x`. */
  lemma ConsNoOccurrence(c: char, x: string, sep: string, head: string)
    requires sep != [] && |sep| <= |x| + 1 && !Occurs(x, sep)
    requires head == ([c] + x)[..|sep|] && head != sep
    ensures !Occurs([c] + x, sep)
  {
    assert ([c] + x)[1..] == x;
  }

  /** `sep` cannot occur where its first character never does. */
  lemma {:induction false} OccursFirstChar(s: string, sep: string)
    requires sep != []
    requires forall i :: 0 <= i <= |s| - |sep| ==> s[i] != sep[0]
    ensures !Occurs(s, sep)
    decreases |s|
  {
    if |sep| <= |s| {
      assert s[..|sep|][0] == s[0];
      OccursFirstChar(s[1..], sep);
    }
  }

  /** A string without the separator splits into itself alone. */
  lemma {:induction false} SplitAbsent(s: string, sep: string)
    requires sep != [] && !Occurs(s, sep)
    ensures Split(s, sep) == [s]
    decreases |s|
  {
    if |s| >= |sep| {
      SplitAbsent(s[1..], sep);
      assert [s[0]] + s[1..] == s;
    }
  }

  /** A leading separator contributes an empty first piece. */
  lemma SplitLeading(x: string, sep: string)
    requires sep != []
    ensures Split(sep + x, sep) == [""] + Split(x, sep)
  {
  }

  /** `(x + sep).split(sep) == [x, ""]` when the first occurrence of `sep` in
      `x + sep` is the final one, that is when no occurrence starts inside `x`. */
  lemma {:induction false} SplitTrailing(x: string, sep: string)
    requires sep != [] && !Occurs(x + sep[..|sep| - 1], sep)
    ensures Split(x + sep, sep) == [x, ""]
    decreases |x|
  {
    var s := x + sep;
    if x == [] {
      assert s == sep + [];
      SplitLeading([], sep);
    } else {
      var q := sep[..|sep| - 1];
      var y := x + q;
      assert s[..|sep|] == y[..|sep|];
      assert y[1..] == x[1..] + q;
      SplitTrailing(x[1..], sep);
      assert s[1..] == x[1..] + sep;
      SplitCons(s, sep);
      assert [x[0]] + x[1..] == x;
    }
  }

  predicate IsAsciiDigit(c: char) {
    '0' <= c <= '9'
  }

  /** `k.isdigit()` for ASCII text: at least one character, all of them digits. */
  predicate IsDigits(k: string) {
    |k| > 0 && forall i :: 0 <= i < |k| ==> IsAsciiDigit(k[i])
  }
}
