/** The text clean-up of backend/utils/helpers.py: `clean_text` replaces
    every character outside `[\w\s.,!?]` with a blank, turns each run of
    whitespace into one blank and strips the ends; `clean_documents` applies
    it to each document of a list. */
module Helpers {
  import opened Text

  /** The characters `[^\w\s.,!?]` does not match. */
  predicate Allowed(c: char) {
    IsWordChar(c) || IsSpace(c) || c in ".,!?"
  }

  /** The shape of a cleaned text: every character is a word character, a
      blank or one of `.,!?`; no two whitespace characters are adjacent; no
      whitespace at either end. */
  predicate Cleaned(s: string) {
    CleanChars(s) && NoDoubleSpace(s) && Trimmed(s)
  }

  predicate CleanChars(s: string) {
    forall i :: 0 <= i < |s| ==> IsWordChar(s[i]) || s[i] == ' ' || s[i] in ".,!?"
  }

  predicate NoDoubleSpace(s: string) {
    forall i :: 0 <= i < |s| - 1 ==> !(IsSpace(s[i]) && IsSpace(s[i + 1]))
  }

  /** `re.sub(r"[^\w\s.,!?]", " ", text)` (helpers.py:4): only allowed
      characters remain, allowed ones keep their place, the length is kept. */
  function ReplaceDisallowed(s: string): (r: string)
    ensures |r| == |s|
    ensures forall i :: 0 <= i < |r| ==> Allowed(r[i])
    ensures forall i :: 0 <= i < |s| ==> (r[i] == s[i] <==> Allowed(s[i]))
    ensures forall i :: 0 <= i < |s| && !Allowed(s[i]) ==> r[i] == ' '
  {
    seq(|s|, i requires 0 <= i < |s| => if Allowed(s[i]) then s[i] else ' ')
  }

  /** No whitespace character but the blank, and no two whitespace
      characters in a row. */
  predicate Collapsed(s: string) {
    && (forall i :: 0 <= i < |s| ==> IsSpace(s[i]) ==> s[i] == ' ')
    && (forall i :: 0 <= i < |s| - 1 ==> !(IsSpace(s[i]) && IsSpace(s[i + 1])))
  }

  /** `re.sub(r"\s+", " ", text)` (helpers.py:5): each maximal run of
      whitespace becomes one blank. The result is collapsed, no longer than
      the input, starts the way the input does, and every other character
      comes from the input. */
  function Collapse(s: string): (r: string)
    ensures Collapsed(r) && |r| <= |s|
    ensures s != [] ==> r != [] && r[0] == (if IsSpace(s[0]) then ' ' else s[0])
    ensures forall c :: c in r && c != ' ' ==> c in s
    decreases |s|
  {
    if s == [] then []
    else if IsSpace(s[0]) then
      var t := TrimStart(s[1..]);
      var rest := Collapse(t);
      ConsCollapsed(' ', rest);
      assert forall c :: c in t ==> c in s by {
        TrimStartDrops(s[1..]);
        assert t == s[|s| - |t|..];
      }
      [' '] + rest
    else
      var rest := Collapse(s[1..]);
      ConsCollapsed(s[0], rest);
      assert forall c :: c in s[1..] ==> c in s;
      [s[0]] + rest
  }

  lemma ConsCollapsed(c: char, rest: string)
    requires Collapsed(rest)
    requires IsSpace(c) ==> c == ' ' && (rest == [] || !IsSpace(rest[0]))
    ensures Collapsed([c] + rest)
  {
    var s := [c] + rest;
    forall i | 0 <= i < |s|
      ensures IsSpace(s[i]) ==> s[i] == ' '
    {
      if i > 0 {
        assert s[i] == rest[i - 1];
      }
    }
    forall i | 0 <= i < |s| - 1
      ensures !(IsSpace(s[i]) && IsSpace(s[i + 1]))
    {
      if i > 0 {
        assert s[i] == rest[i - 1] && s[i + 1] == rest[i];
      }
    }
  }

  /** A collapsed string is left alone by `Collapse`. */
  lemma {:induction false} CollapseCollapsed(s: string)
    requires Collapsed(s)
    ensures Collapse(s) == s
    decreases |s|
  {
    if s != [] {
      var tail := s[1..];
      CollapsedTail(s);
      CollapseCollapsed(tail);
      if IsSpace(s[0]) {
        assert tail == [] || !IsSpace(tail[0]);
        assert TrimStart(tail) == tail;
        assert s == [' '] + tail;
      } else {
        assert s == [s[0]] + tail;
      }
    }
  }

  lemma CollapsedTail(s: string)
    requires s != [] && Collapsed(s)
    ensures Collapsed(s[1..])
    ensures IsSpace(s[0]) ==> s[0] == ' ' && (|s| == 1 || !IsSpace(s[1]))
  {
    var t := s[1..];
    forall i | 0 <= i < |t|
      ensures IsSpace(t[i]) ==> t[i] == ' '
    {
      assert t[i] == s[i + 1];
    }
    forall i | 0 <= i < |t| - 1
      ensures !(IsSpace(t[i]) && IsSpace(t[i + 1]))
    {
      assert t[i] == s[i + 1] && t[i + 1] == s[i + 2];
    }
  }

  /** A reference reading of `re.sub(r"\s+", " ", text)` in one pass from
      left to right: a whitespace character gives a blank unless the
      previous character was whitespace too (`afterSpace`), and any other
      character is copied. */
  function Squeeze(s: string, afterSpace: bool): string
    decreases |s|
  {
    if s == [] then [] else Emit(s[0], afterSpace) + Squeeze(s[1..], IsSpace(s[0]))
  }

  /** What one character gives in `Squeeze`. */
  function Emit(c: char, afterSpace: bool): string {
    if !IsSpace(c) then [c] else if afterSpace then [] else [' ']
  }

  /** `Collapse` is the one-pass reading. */
  lemma {:induction false} CollapseSqueeze(s: string)
    ensures Collapse(s) == Squeeze(s, false)
    decreases |s|
  {
    if s != [] {
      if IsSpace(s[0]) {
        CollapseSqueeze(TrimStart(s[1..]));
        SqueezeSkip(s[1..]);
      } else {
        CollapseSqueeze(s[1..]);
      }
    }
  }

  /** After whitespace, further leading whitespace gives nothing. */
  lemma {:induction false} SqueezeSkip(t: string)
    ensures Squeeze(t, true) == Squeeze(TrimStart(t), false)
    decreases |t|
  {
    if t != [] && IsSpace(t[0]) {
      SqueezeSkip(t[1..]);
    }
  }

  /** Whether the text read so far ends in whitespace. */
  function EndsInSpace(x: string, afterSpace: bool): bool {
    if x == [] then afterSpace else IsSpace(x[|x| - 1])
  }

  lemma {:induction false} SqueezeAppend(x: string, y: string, afterSpace: bool)
    ensures Squeeze(x + y, afterSpace) == Squeeze(x, afterSpace) + Squeeze(y, EndsInSpace(x, afterSpace))
    decreases |x|
  {
    if x != [] {
      var state := IsSpace(x[0]);
      SqueezeCons(x, y, afterSpace);
      SqueezeAppend(x[1..], y, state);
      EndsInSpaceTail(x, afterSpace);
      Assoc(Emit(x[0], afterSpace), Squeeze(x[1..], state), Squeeze(y, EndsInSpace(x, afterSpace)));
    } else {
      assert x + y == y;
    }
  }

  /** One step of `Squeeze` on a concatenation. */
  lemma SqueezeCons(x: string, y: string, afterSpace: bool)
    requires x != []
    ensures Squeeze(x + y, afterSpace) == Emit(x[0], afterSpace) + Squeeze(x[1..] + y, IsSpace(x[0]))
  {
    assert (x + y)[0] == x[0] && (x + y)[1..] == x[1..] + y;
  }

  lemma EndsInSpaceTail(x: string, afterSpace: bool)
    requires x != []
    ensures EndsInSpace(x[1..], IsSpace(x[0])) == EndsInSpace(x, afterSpace)
  {
  }

  lemma Assoc(a: string, b: string, c: string)
    ensures a + (b + c) == (a + b) + c
  {
  }

  /** A non-empty run of whitespace alone gives one blank. */
  lemma {:induction false} SqueezeRun(w: string)
    requires w != [] && AllSpace(w)
    ensures Squeeze(w, false) == " "
  {
    SqueezeAllSpace(w[1..]);
  }

  lemma {:induction false} SqueezeAllSpace(w: string)
    requires AllSpace(w)
    ensures Squeeze(w, true) == []
    decreases |w|
  {
    if w != [] {
      SqueezeAllSpace(w[1..]);
    }
  }

  /** Each maximal run of whitespace becomes exactly one blank, with what
      comes before and after it collapsed independently. */
  lemma CollapseRun(x: string, w: string, y: string)
    requires x == [] || !IsSpace(x[|x| - 1])
    requires w != [] && AllSpace(w)
    requires y == [] || !IsSpace(y[0])
    ensures Collapse(x + w + y) == Collapse(x) + " " + Collapse(y)
  {
    SqueezeRunSplit(x, w, y);
    CollapseSqueeze(x + w + y);
    CollapseSqueeze(x);
    CollapseSqueeze(y);
  }

  lemma SqueezeRunSplit(x: string, w: string, y: string)
    requires x == [] || !IsSpace(x[|x| - 1])
    requires w != [] && AllSpace(w)
    requires y == [] || !IsSpace(y[0])
    ensures Squeeze(x + w + y, false) == Squeeze(x, false) + " " + Squeeze(y, false)
  {
    RunThen(w, y);
    assert !EndsInSpace(x, false);
    assert x + w + y == x + (w + y);
    SqueezeAppend(x, w + y, false);
    Assoc(Squeeze(x, false), " ", Squeeze(y, false));
  }

  /** A run of whitespace and then a character that is not whitespace: one
      blank, then the rest read afresh. */
  lemma RunThen(w: string, y: string)
    requires w != [] && AllSpace(w)
    requires y == [] || !IsSpace(y[0])
    ensures Squeeze(w + y, false) == " " + Squeeze(y, false)
  {
    SqueezeAppend(w, y, false);
    assert EndsInSpace(w, false);
    SqueezeRun(w);
    SqueezeAfterSpace(y);
  }

  /** Before a character that is not whitespace, the state does not
      matter. */
  lemma SqueezeAfterSpace(y: string)
    requires y == [] || !IsSpace(y[0])
    ensures Squeeze(y, true) == Squeeze(y, false)
  {
  }

  /** A character that is not whitespace is copied in place. */
  lemma CollapseCons(c: char, y: string)
    requires !IsSpace(c)
    ensures Collapse([c] + y) == [c] + Collapse(y)
  {
    assert ([c] + y)[1..] == y;
  }

  /** The characters of `s` that are not whitespace, in order. */
  function NonSpace(s: string): string
    decreases |s|
  {
    if s == [] then []
    else if IsSpace(s[0]) then NonSpace(s[1..])
    else [s[0]] + NonSpace(s[1..])
  }

  lemma {:induction false} NonSpaceAppend(a: string, b: string)
    ensures NonSpace(a + b) == NonSpace(a) + NonSpace(b)
    decreases |a|
  {
    if a != [] {
      NonSpaceCons(a, b);
      NonSpaceAppend(a[1..], b);
      Assoc(if IsSpace(a[0]) then [] else [a[0]], NonSpace(a[1..]), NonSpace(b));
    } else {
      assert a + b == b;
    }
  }

  lemma NonSpaceCons(a: string, b: string)
    requires a != []
    ensures NonSpace(a + b) == (if IsSpace(a[0]) then [] else [a[0]]) + NonSpace(a[1..] + b)
    ensures NonSpace(a) == (if IsSpace(a[0]) then [] else [a[0]]) + NonSpace(a[1..])
  {
    assert (a + b)[0] == a[0] && (a + b)[1..] == a[1..] + b;
  }

  lemma {:induction false} NonSpaceAllSpace(w: string)
    requires AllSpace(w)
    ensures NonSpace(w) == []
    decreases |w|
  {
    if w != [] {
      NonSpaceAllSpace(w[1..]);
    }
  }

  lemma {:induction false} NonSpaceSqueeze(s: string, afterSpace: bool)
    ensures NonSpace(Squeeze(s, afterSpace)) == NonSpace(s)
    decreases |s|
  {
    if s != [] {
      var rest := Squeeze(s[1..], IsSpace(s[0]));
      NonSpaceSqueeze(s[1..], IsSpace(s[0]));
      NonSpaceAppend(Emit(s[0], afterSpace), rest);
    }
  }

  /** Collapsing whitespace keeps every other character, in order. */
  lemma CollapseNonSpace(s: string)
    ensures NonSpace(Collapse(s)) == NonSpace(s)
  {
    CollapseSqueeze(s);
    NonSpaceSqueeze(s, false);
  }

  /** Stripping removes only whitespace. */
  lemma StripNonSpace(s: string)
    ensures NonSpace(Strip(s)) == NonSpace(s)
  {
    var k := StripOffset(s);
    var r := Strip(s);
    assert s == s[..k] + r + s[k + |r|..];
    NonSpaceAppend(s[..k] + r, s[k + |r|..]);
    NonSpaceAppend(s[..k], r);
    NonSpaceAllSpace(s[..k]);
    NonSpaceAllSpace(s[k + |r|..]);
  }

  /** Cleaning changes only whitespace, once the characters outside the
      allowed class are blanked: every other character of the blanked text
      is kept, in order. */
  lemma CleanTextNonSpace(s: string)
    ensures NonSpace(CleanText(s)) == NonSpace(ReplaceDisallowed(s))
  {
    var d := ReplaceDisallowed(s);
    CollapseNonSpace(d);
    StripNonSpace(Collapse(d));
  }

  /** `clean_text` (helpers.py:3-6). */
  function CleanText(s: string): (r: string)
    ensures Cleaned(r)
    ensures |r| <= |s|
  {
    var d := ReplaceDisallowed(s);
    var c := Collapse(d);
    forall x | x in c && x != ' '
      ensures IsWordChar(x) || x in ".,!?"
    {
      var j :| 0 <= j < |c| && c[j] == x;
      var m :| 0 <= m < |d| && d[m] == x;
    }
    StripCleaned(c);
    Strip(c)
  }

  /** Stripping a collapsed string whose other characters are word
      characters or `.,!?` gives a cleaned text. */
  lemma StripCleaned(c: string)
    requires Collapsed(c)
    requires forall x :: x in c && x != ' ' ==> IsWordChar(x) || x in ".,!?"
    ensures Cleaned(Strip(c))
  {
    var r := Strip(c);
    var k := StripOffset(c);
    SliceShape(c, k, k + |r|, r);
  }

  /** A slice of a collapsed string is collapsed and draws its characters
      from the string. */
  lemma SliceShape(c: string, lo: nat, hi: nat, r: string)
    requires lo <= hi <= |c| && r == c[lo..hi]
    requires Collapsed(c)
    requires forall x :: x in c && x != ' ' ==> IsWordChar(x) || x in ".,!?"
    ensures CleanChars(r) && NoDoubleSpace(r)
  {
    forall i | 0 <= i < |r|
      ensures IsWordChar(r[i]) || r[i] == ' ' || r[i] in ".,!?"
    {
      assert r[i] == c[lo + i];
      assert c[lo + i] in c;
    }
    forall i | 0 <= i < |r| - 1
      ensures !(IsSpace(r[i]) && IsSpace(r[i + 1]))
    {
      assert r[i] == c[lo + i] && r[i + 1] == c[lo + i + 1];
    }
  }

  /** A cleaned text is its own clean-up, and only a cleaned text is: so
      cleaning twice is cleaning once. */
  lemma CleanTextFixedPoint(s: string)
    ensures CleanText(s) == s <==> Cleaned(s)
    ensures CleanText(CleanText(s)) == CleanText(s)
  {
    if Cleaned(s) {
      CleanedFixed(s);
    }
    CleanedFixed(CleanText(s));
  }

  lemma CleanedFixed(s: string)
    requires Cleaned(s)
    ensures CleanText(s) == s
  {
    assert forall i :: 0 <= i < |s| ==> Allowed(s[i]);
    assert ReplaceDisallowed(s) == s;
    assert Collapsed(s);
    CollapseCollapsed(s);
    StripTrimmed(s);
  }

  /** `clean_documents` (helpers.py:9-10): one cleaned text per document, in
      the same order. */
  function CleanDocuments(documents: seq<string>): (r: seq<string>)
    ensures |r| == |documents|
    ensures forall i :: 0 <= i < |r| ==> Cleaned(r[i]) && |r[i]| <= |documents[i]|
    ensures forall i :: 0 <= i < |r| ==> r[i] == CleanText(documents[i])
  {
    seq(|documents|, i requires 0 <= i < |documents| => CleanText(documents[i]))
  }
}
