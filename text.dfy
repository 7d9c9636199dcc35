/** The Python string primitives the backend routines are built from:
    the whitespace class shared by `str.strip()` and the `\s` of `re`,
    `str.strip()`, `str.split(sep)`, `str.lower()`, and the ASCII part of
    the `\d` and `\w` classes. */
module Text {

  /** Python's whitespace test. `str.isspace()`, `str.strip()` and the
      regular-expression class `\s` all use the same table, written out here. */
  const SPACES: set<char> := {
    '\t', '\n', '\U{0B}', '\U{0C}', '\r', '\U{1C}', '\U{1D}', '\U{1E}', '\U{1F}', ' ',
    '\U{85}', '\U{A0}', '\U{1680}',
    '\U{2000}', '\U{2001}', '\U{2002}', '\U{2003}', '\U{2004}', '\U{2005}',
    '\U{2006}', '\U{2007}', '\U{2008}', '\U{2009}', '\U{200A}',
    '\U{2028}', '\U{2029}', '\U{202F}', '\U{205F}', '\U{3000}'
  }

  predicate IsSpace(c: char) {
    c in SPACES
  }

  /** The ASCII digits (`\d` restricted to ASCII). */
  predicate IsDigit(c: char) {
    '0' <= c <= '9'
  }

  /** The ASCII word characters (`\w` restricted to ASCII). */
  predicate IsWordChar(c: char) {
    ('a' <= c <= 'z') || ('A' <= c <= 'Z') || IsDigit(c) || c == '_'
  }

  predicate AllSpace(s: string) {
    forall i :: 0 <= i < |s| ==> IsSpace(s[i])
  }

  /** No whitespace at either end. */
  predicate Trimmed(s: string) {
    s == [] || (!IsSpace(s[0]) && !IsSpace(s[|s| - 1]))
  }

  /** Drops the leading whitespace. */
  function TrimStart(s: string): (r: string)
    ensures |r| <= |s|
    ensures r == [] || !IsSpace(r[0])
  {
    if s != [] && IsSpace(s[0]) then TrimStart(s[1..]) else s
  }

  /** What `TrimStart` drops is a run of whitespace; the rest of the
      string is kept as it was. */
  lemma {:induction false} TrimStartDrops(s: string)
    ensures TrimStart(s) == s[|s| - |TrimStart(s)|..]
    ensures AllSpace(s[..|s| - |TrimStart(s)|])
    decreases |s|
  {
    if s != [] && IsSpace(s[0]) {
      var n := |s| - |TrimStart(s)|;
      TrimStartDrops(s[1..]);
      assert s[1..][n - 1..] == s[n..];
      assert s[..n] == [s[0]] + s[1..][..n - 1];
    }
  }

  /** Drops the trailing whitespace. */
  function TrimEnd(s: string): (r: string)
    ensures |r| <= |s|
    ensures r != [] ==> r[0] == s[0]
    ensures r == [] || !IsSpace(r[|r| - 1])
  {
    if s != [] && IsSpace(s[|s| - 1]) then TrimEnd(s[..|s| - 1]) else s
  }

  /** What `TrimEnd` drops is a run of whitespace; the start of the string
      is kept as it was. */
  lemma {:induction false} TrimEndDrops(s: string)
    ensures TrimEnd(s) == s[..|TrimEnd(s)|]
    ensures AllSpace(s[|TrimEnd(s)|..])
    decreases |s|
  {
    if s != [] && IsSpace(s[|s| - 1]) {
      var init := s[..|s| - 1];
      var n := |TrimEnd(s)|;
      TrimEndDrops(init);
      assert init[..n] == s[..n];
      assert s[n..] == init[n..] + [s[|s| - 1]];
    }
  }

  /** `str.strip()`: the result has no whitespace at either end and is no
      longer than the input. */
  function Strip(s: string): (r: string)
    ensures Trimmed(r) && |r| <= |s|
  {
    TrimEnd(TrimStart(s))
  }

  /** What `Strip` removes is a run of whitespace at each end: the result
      is the rest of the string, in place. Returns where it starts. */
  lemma StripOffset(s: string) returns (k: nat)
    ensures k + |Strip(s)| <= |s| && Strip(s) == s[k..k + |Strip(s)|]
    ensures AllSpace(s[..k]) && AllSpace(s[k + |Strip(s)|..])
  {
    var t := TrimStart(s);
    var r := TrimEnd(t);
    assert Strip(s) == r;
    k := |s| - |t|;
    TrimStartDrops(s);
    TrimEndDrops(t);
    SliceOfSuffix(s, k, |r|);
    assert t == s[k..];
    assert AllSpace(s[..k]);
    assert AllSpace(s[k + |r|..]) by { assert s[k + |r|..] == t[|r|..]; }
  }

  lemma SliceOfSuffix(s: string, k: nat, n: nat)
    requires k + n <= |s|
    ensures s[k..][..n] == s[k..k + n] && s[k..][n..] == s[k + n..]
  {
  }

  /** A string without whitespace at its ends is left alone by `Strip`. */
  lemma StripTrimmed(s: string)
    requires Trimmed(s)
    ensures Strip(s) == s
  {
  }

  /** `str.split(sep)` for a non-empty separator: the pieces between the
      leftmost non-overlapping occurrences of `sep`, always at least one. */
  function Split(s: string, sep: string): (r: seq<string>)
    requires sep != []
    ensures |r| >= 1
    decreases |s|
  {
    if |s| < |sep| then [s]
    else if s[..|sep|] == sep then [[]] + Split(s[|sep|..], sep)
    else
      var rest := Split(s[1..], sep);
      [[s[0]] + rest[0]] + rest[1..]
  }

  /** `sep` occurs in `t` starting at index `j`. */
  predicate OccursAt(t: string, sep: string, j: nat) {
    j + |sep| <= |t| && t[j..j + |sep|] == sep
  }

  /** `sep` occurs nowhere in `t`. */
  predicate Free(t: string, sep: string) {
    forall j :: 0 <= j < |t| ==> !OccursAt(t, sep, j)
  }

  /** In `p + sep`, the first occurrence of `sep` is the appended one: a
      piece cut off at the leftmost occurrence. */
  predicate CutAtFirst(p: string, sep: string) {
    forall j :: 0 <= j < |p| ==> !OccursAt(p + sep, sep, j)
  }

  lemma OccursShift(c: char, t: string, sep: string, j: nat)
    ensures OccursAt([c] + t, sep, j + 1) <==> OccursAt(t, sep, j)
  {
    if j + |sep| <= |t| {
      assert ([c] + t)[j + 1..j + 1 + |sep|] == t[j..j + |sep|];
    }
  }

  /** The shape `Split` gives its pieces: every piece but the last ends at
      the leftmost occurrence of the separator after it, and the last piece
      holds no occurrence. */
  predicate Cuts(r: seq<string>, sep: string) {
    && |r| >= 1
    && (forall i :: 0 <= i < |r| - 1 ==> CutAtFirst(r[i], sep))
    && Free(r[|r| - 1], sep)
  }

  /** Where `Split` cuts; with `JoinSplit`, this is Python's leftmost,
      non-overlapping splitting. */
  lemma {:induction false} SplitCuts(s: string, sep: string)
    requires sep != []
    ensures Cuts(Split(s, sep), sep)
    decreases |s|
  {
    if |s| < |sep| {
      FreeShort(s, sep);
    } else if s[..|sep|] == sep {
      SplitCuts(s[|sep|..], sep);
      PrependEmpty(Split(s[|sep|..], sep), sep);
    } else {
      SplitCuts(s[1..], sep);
      JoinSplit(s[1..], sep);
      ConsCuts(s, sep, Split(s[1..], sep));
    }
  }

  lemma FreeShort(s: string, sep: string)
    requires |s| < |sep|
    ensures Cuts([s], sep)
  {
  }

  /** The step of `SplitCuts` where the first character is not the start of
      a separator and joins the first piece. */
  lemma ConsCuts(s: string, sep: string, rest: seq<string>)
    requires sep != [] && |s| >= |sep| && s[..|sep|] != sep
    requires Cuts(rest, sep) && Join(rest, sep) == s[1..]
    ensures Cuts([[s[0]] + rest[0]] + rest[1..], sep)
  {
    if |rest| == 1 {
      assert [s[0]] + rest[0] == s;
      FreeCons(s, sep);
    } else {
      ConsCutFirst(s, sep, rest);
      ReplaceFirst([s[0]] + rest[0], rest, sep);
    }
  }

  lemma ReplaceFirst(p: string, rest: seq<string>, sep: string)
    requires |rest| >= 2 && CutAtFirst(p, sep) && Cuts(rest, sep)
    ensures Cuts([p] + rest[1..], sep)
  {
    var r := [p] + rest[1..];
    forall i | 0 <= i < |r| - 1
      ensures CutAtFirst(r[i], sep)
    {
      if i > 0 {
        assert r[i] == rest[i];
      }
    }
    assert r[|r| - 1] == rest[|rest| - 1];
  }

  lemma PrependEmpty(rest: seq<string>, sep: string)
    requires Cuts(rest, sep)
    ensures Cuts([[]] + rest, sep)
  {
    var r := [[]] + rest;
    forall i | 0 <= i < |r| - 1
      ensures CutAtFirst(r[i], sep)
    {
      if i > 0 {
        assert r[i] == rest[i - 1];
      }
    }
    assert r[|r| - 1] == rest[|rest| - 1];
  }

  lemma FreeCons(s: string, sep: string)
    requires s != [] && (|s| < |sep| || s[..|sep|] != sep) && Free(s[1..], sep)
    ensures Cuts([s], sep)
  {
    forall j | 0 <= j < |s|
      ensures !OccursAt(s, sep, j)
    {
      if j > 0 {
        assert s == [s[0]] + s[1..];
        OccursShift(s[0], s[1..], sep, j - 1);
      }
    }
  }

  lemma ConsCutFirst(s: string, sep: string, rest: seq<string>)
    requires sep != [] && |s| >= |sep| && s[..|sep|] != sep
    requires |rest| >= 2 && Join(rest, sep) == s[1..]
    requires CutAtFirst(rest[0], sep)
    ensures CutAtFirst([s[0]] + rest[0], sep)
  {
    var q := [s[0]] + (rest[0] + sep);
    var x := Join(rest[1..], sep);
    assert s == q + x by {
      assert s == [s[0]] + s[1..];
      assert s[1..] == (rest[0] + sep) + x;
    }
    PrefixOccurs(q, x, sep);
    CutCons(s[0], rest[0], sep);
  }

  /** An occurrence at the start of a string of at least the separator's
      length does not depend on what follows. */
  lemma PrefixOccurs(a: string, x: string, sep: string)
    requires |a| >= |sep|
    ensures OccursAt(a + x, sep, 0) <==> OccursAt(a, sep, 0)
  {
    assert (a + x)[..|sep|] == a[..|sep|];
  }

  lemma CutCons(c: char, t: string, sep: string)
    requires CutAtFirst(t, sep) && !OccursAt([c] + (t + sep), sep, 0)
    ensures CutAtFirst([c] + t, sep)
  {
    assert [c] + t + sep == [c] + (t + sep);
    forall j | 0 < j < |t| + 1
      ensures !OccursAt([c] + t + sep, sep, j)
    {
      OccursShift(c, t + sep, sep, j - 1);
    }
  }

  /** `sep.join(pieces)`. */
  function Join(pieces: seq<string>, sep: string): string
    requires |pieces| >= 1
  {
    if |pieces| == 1 then pieces[0] else pieces[0] + sep + Join(pieces[1..], sep)
  }

  lemma JoinConsChar(c: char, pieces: seq<string>, sep: string)
    requires |pieces| >= 1
    ensures Join([[c] + pieces[0]] + pieces[1..], sep) == [c] + Join(pieces, sep)
  {
    var p := [[c] + pieces[0]] + pieces[1..];
    assert p[1..] == pieces[1..];
  }

  /** Splitting on a separator and joining the pieces with it gives the
      string back: no character is lost or invented by `Split`. */
  lemma {:induction false} JoinSplit(s: string, sep: string)
    requires sep != []
    ensures Join(Split(s, sep), sep) == s
    decreases |s|
  {
    if |s| < |sep| {
    } else if s[..|sep|] == sep {
      var rest := Split(s[|sep|..], sep);
      JoinSplit(s[|sep|..], sep);
      var p := [[]] + rest;
      assert Split(s, sep) == p;
      assert p[1..] == rest;
      assert Join(p, sep) == [] + sep + Join(rest, sep);
      assert s == sep + s[|sep|..];
    } else {
      var rest := Split(s[1..], sep);
      JoinSplit(s[1..], sep);
      assert Split(s, sep) == [[s[0]] + rest[0]] + rest[1..];
      JoinConsChar(s[0], rest, sep);
      assert s == [s[0]] + s[1..];
    }
  }

  function LowerChar(c: char): char {
    if 'A' <= c <= 'Z' then (c as int + 32) as char else c
  }

  /** `str.lower()` on the ASCII letters. */
  function Lower(s: string): (r: string)
    ensures |r| == |s|
  {
    seq(|s|, i requires 0 <= i < |s| => LowerChar(s[i]))
  }

  /** Lower-casing twice is lower-casing once. */
  lemma LowerIdempotent(s: string)
    ensures Lower(Lower(s)) == Lower(s)
  {
  }
}
