/** The post-processing of the model's reply in `expand_query`
    (backend/services/llm_service.py:7-27). The reply is an input here: the
    prompt it answers and the call into the language model are not part of
    this model. */
module QueryExpansion {
  import opened Text
  import opened Prompts

  /** The length of the run of digits at the start of `s`. */
  function LeadingDigits(s: string): (n: nat)
    ensures n <= |s|
    ensures n < |s| ==> !IsDigit(s[n])
  {
    if s != [] && IsDigit(s[0]) then 1 + LeadingDigits(s[1..]) else 0
  }

  /** `re.sub(r'^\d+\.\s*', '', s)` (llm_service.py:22): one leading
      numbering `N.` and the whitespace after it are removed; a string that
      does not start with digits and a dot is left alone. */
  function StripNumbering(s: string): (r: string)
    ensures |r| <= |s|
  {
    var n := LeadingDigits(s);
    if 0 < n < |s| && s[n] == '.' then TrimStart(s[n + 1..]) else s
  }

  /** What is removed is a prefix: the result is the rest of the input. */
  lemma StripNumberingSuffix(s: string)
    ensures StripNumbering(s) == s[|s| - |StripNumbering(s)|..]
  {
    var n := LeadingDigits(s);
    if 0 < n < |s| && s[n] == '.' {
      var t := s[n + 1..];
      TrimStartDrops(t);
      assert t[|t| - |TrimStart(t)|..] == s[|s| - |TrimStart(t)|..];
    }
  }

  /** The numbering prefix is removed exactly: digits, a dot and any
      whitespace, up to the first other character. */
  lemma {:induction false} StripNumberingPrefix(digits: string, spaces: string, rest: string)
    requires digits != [] && forall i :: 0 <= i < |digits| ==> IsDigit(digits[i])
    requires AllSpace(spaces)
    requires rest == [] || !IsSpace(rest[0])
    ensures StripNumbering(digits + "." + spaces + rest) == rest
  {
    var tail := spaces + rest;
    var s := digits + "." + spaces + rest;
    assert s == digits + (['.'] + tail);
    LeadingDigitsOf(digits, ['.'] + tail);
    assert s[|digits|] == '.';
    assert s[|digits| + 1..] == tail;
    TrimStartOf(spaces, rest);
  }

  lemma {:induction false} LeadingDigitsOf(digits: string, tail: string)
    requires forall i :: 0 <= i < |digits| ==> IsDigit(digits[i])
    requires tail == [] || !IsDigit(tail[0])
    ensures LeadingDigits(digits + tail) == |digits|
    decreases |digits|
  {
    if digits != [] {
      assert (digits + tail)[1..] == digits[1..] + tail;
      LeadingDigitsOf(digits[1..], tail);
    }
  }

  lemma {:induction false} TrimStartOf(spaces: string, rest: string)
    requires AllSpace(spaces)
    requires rest == [] || !IsSpace(rest[0])
    ensures TrimStart(spaces + rest) == rest
    decreases |spaces|
  {
    if spaces != [] {
      assert (spaces + rest)[1..] == spaces[1..] + rest;
      TrimStartOf(spaces[1..], rest);
    }
  }

  /** A piece that does not start with a digit is not renumbered. */
  lemma StripNumberingNoDigit(s: string)
    requires s == [] || !IsDigit(s[0])
    ensures StripNumbering(s) == s
  {
  }

  /** Leading digits that are not followed by a dot, as in "2024 trends" or
      a bare "42", are not a numbering: the piece is left alone. */
  lemma StripNumberingNoDot(digits: string, rest: string)
    requires digits != [] && forall i :: 0 <= i < |digits| ==> IsDigit(digits[i])
    requires rest == [] || (!IsDigit(rest[0]) && rest[0] != '.')
    ensures StripNumbering(digits + rest) == digits + rest
  {
    LeadingDigitsOf(digits, rest);
    if rest != [] {
      assert (digits + rest)[|digits|] == rest[0];
    }
  }

  /** What one piece of the split reply becomes (llm_service.py:20-23):
      stripped, its numbering removed, stripped again. */
  function CleanPiece(piece: string): (r: string)
    ensures Trimmed(r) && |r| <= |piece|
  {
    var stripped := Strip(piece);
    if stripped == [] then [] else Strip(StripNumbering(stripped))
  }

  /** Whether the piece adds a query (llm_service.py:21, 24). */
  predicate Adds(query: string, piece: string) {
    CleanPiece(piece) != [] && CleanPiece(piece) != query
  }

  /** Every query is non-empty, trimmed and different from `query`. */
  predicate AllAdded(query: string, qs: seq<string>) {
    forall j :: 0 <= j < |qs| ==> qs[j] != [] && Trimmed(qs[j]) && qs[j] != query
  }

  /** The cleaned text of each piece, in order. */
  function CleanPieces(pieces: seq<string>): (r: seq<string>)
    ensures |r| == |pieces|
  {
    if pieces == [] then [] else CleanPieces(pieces[..|pieces| - 1]) + [CleanPiece(pieces[|pieces| - 1])]
  }

  lemma {:induction false} CleanPiecesIndex(pieces: seq<string>, i: nat)
    requires i < |pieces|
    ensures CleanPieces(pieces)[i] == CleanPiece(pieces[i])
    decreases |pieces|
  {
    var init := pieces[..|pieces| - 1];
    if i < |init| {
      CleanPiecesIndex(init, i);
      assert init[i] == pieces[i];
    }
  }

  lemma CleanPiecesTrimmed(pieces: seq<string>)
    ensures forall j :: 0 <= j < |pieces| ==> Trimmed(CleanPieces(pieces)[j])
  {
    forall j | 0 <= j < |pieces|
      ensures Trimmed(CleanPieces(pieces)[j])
    {
      CleanPiecesIndex(pieces, j);
    }
  }

  lemma {:induction false} CleanPiecesAppend(a: seq<string>, b: seq<string>)
    ensures CleanPieces(a + b) == CleanPieces(a) + CleanPieces(b)
    decreases |b|
  {
    if b != [] {
      assert (a + b)[..|a + b| - 1] == a + b[..|b| - 1];
      CleanPiecesAppend(a, b[..|b| - 1]);
    } else {
      assert a + b == a;
    }
  }

  /** What one cleaned text adds: itself, if it is not empty and not the
      original query. */
  function Keep(query: string, c: string): (r: seq<string>)
    ensures |r| <= 1
  {
    if c != [] && c != query then [c] else []
  }

  /** The cleaned texts that are kept, in order. */
  function Filtered(query: string, cs: seq<string>): (r: seq<string>)
    ensures |r| <= |cs|
  {
    if cs == [] then [] else Filtered(query, cs[..|cs| - 1]) + Keep(query, cs[|cs| - 1])
  }

  /** The queries the pieces add, in order, at most one per piece. */
  function Expansions(query: string, pieces: seq<string>): (r: seq<string>)
    ensures |r| <= |pieces|
  {
    Filtered(query, CleanPieces(pieces))
  }

  lemma {:induction false} FilteredAppend(query: string, a: seq<string>, b: seq<string>)
    ensures Filtered(query, a + b) == Filtered(query, a) + Filtered(query, b)
    decreases |b|
  {
    if b != [] {
      assert (a + b)[..|a + b| - 1] == a + b[..|b| - 1];
      FilteredAppend(query, a, b[..|b| - 1]);
    } else {
      assert a + b == a;
    }
  }

  lemma {:induction false} FilteredComplete(query: string, cs: seq<string>, i: nat)
    requires i < |cs| && cs[i] != [] && cs[i] != query
    ensures cs[i] in Filtered(query, cs)
    decreases |cs|
  {
    var init := cs[..|cs| - 1];
    if i < |cs| - 1 {
      assert init[i] == cs[i];
      FilteredComplete(query, init, i);
    }
  }

  lemma {:induction false} FilteredSound(query: string, cs: seq<string>, e: string)
    requires e in Filtered(query, cs)
    ensures exists i :: 0 <= i < |cs| && cs[i] == e && e != [] && e != query
    decreases |cs|
  {
    var init := cs[..|cs| - 1];
    if e in Filtered(query, init) {
      FilteredSound(query, init, e);
      var i :| 0 <= i < |init| && init[i] == e && e != [] && e != query;
      assert cs[i] == init[i];
    } else {
      assert e in Keep(query, cs[|cs| - 1]);
    }
  }

  lemma {:induction false} FilteredAdded(query: string, cs: seq<string>)
    requires forall j :: 0 <= j < |cs| ==> Trimmed(cs[j])
    ensures AllAdded(query, Filtered(query, cs))
    decreases |cs|
  {
    if cs != [] {
      var init := cs[..|cs| - 1];
      var f := Filtered(query, init);
      var k := Keep(query, cs[|cs| - 1]);
      FilteredAdded(query, init);
      forall j | 0 <= j < |f + k|
        ensures (f + k)[j] != [] && Trimmed((f + k)[j]) && (f + k)[j] != query
      {
        if j < |f| {
          assert (f + k)[j] == f[j];
        } else {
          assert (f + k)[j] == cs[|cs| - 1];
        }
      }
    }
  }

  /** Every added query is non-empty, trimmed and different from the
      original query. */
  lemma ExpansionsAdded(query: string, pieces: seq<string>)
    ensures AllAdded(query, Expansions(query, pieces))
  {
    CleanPiecesTrimmed(pieces);
    FilteredAdded(query, CleanPieces(pieces));
  }

  /** Splitting the pieces splits the expansions: each piece contributes in
      its own turn, so the added queries keep the pieces' order. */
  lemma ExpansionsAppend(query: string, a: seq<string>, b: seq<string>)
    ensures Expansions(query, a + b) == Expansions(query, a) + Expansions(query, b)
  {
    CleanPiecesAppend(a, b);
    FilteredAppend(query, CleanPieces(a), CleanPieces(b));
  }

  /** Every passing piece contributes its cleaned text; repeated pieces are
      all kept. */
  lemma ExpansionsComplete(query: string, pieces: seq<string>, i: nat)
    requires i < |pieces| && Adds(query, pieces[i])
    ensures CleanPiece(pieces[i]) in Expansions(query, pieces)
  {
    CleanPiecesIndex(pieces, i);
    FilteredComplete(query, CleanPieces(pieces), i);
  }

  /** Nothing but the cleaned text of a passing piece is added. */
  lemma ExpansionsSound(query: string, pieces: seq<string>, e: string)
    requires e in Expansions(query, pieces)
    ensures exists i :: 0 <= i < |pieces| && Adds(query, pieces[i]) && e == CleanPiece(pieces[i])
  {
    var cs := CleanPieces(pieces);
    FilteredSound(query, cs, e);
    var i :| 0 <= i < |cs| && cs[i] == e && e != [] && e != query;
    CleanPiecesIndex(pieces, i);
    assert Adds(query, pieces[i]);
  }

  lemma AppendAssoc(a: seq<string>, b: seq<string>, c: seq<string>)
    ensures a + (b + c) == (a + b) + c
  {
  }

  /** One more piece extends the expansions by what that piece adds. */
  lemma ExpansionsSnoc(query: string, pieces: seq<string>, i: nat)
    requires i < |pieces|
    ensures Expansions(query, pieces[..i + 1]) == Expansions(query, pieces[..i]) + Keep(query, CleanPiece(pieces[i]))
  {
    var p := pieces[..i + 1];
    assert p[..|p| - 1] == pieces[..i];
    var cs := CleanPieces(p);
    assert cs == CleanPieces(pieces[..i]) + [CleanPiece(pieces[i])];
    assert cs[..|cs| - 1] == CleanPieces(pieces[..i]);
  }

  /** One turn of the loop of `ExpandPieces`. */
  lemma ExpandStep(query: string, pieces: seq<string>, i: nat, before: seq<string>, after: seq<string>)
    requires i < |pieces|
    requires before == [query] + Expansions(query, pieces[..i])
    requires after == before + Keep(query, CleanPiece(pieces[i]))
    ensures after == [query] + Expansions(query, pieces[..i + 1])
  {
    ExpansionsSnoc(query, pieces, i);
    AppendAssoc([query], Expansions(query, pieces[..i]), Keep(query, CleanPiece(pieces[i])));
  }

  /** The original query followed by the expansions: first, and followed
      only by added queries, at most one per piece. */
  lemma ExpandedShape(query: string, pieces: seq<string>, queries: seq<string>)
    requires queries == [query] + Expansions(query, pieces)
    ensures |queries| >= 1 && queries[0] == query
    ensures |queries| <= 1 + |pieces|
    ensures AllAdded(query, queries[1..])
  {
    assert queries[1..] == Expansions(query, pieces);
    ExpansionsAdded(query, pieces);
  }

  /** The loop of `expand_query` (llm_service.py:17-25): the original query
      first, then each piece's cleaned text when it is not empty and not the
      original query. */
  method ExpandPieces(query: string, contents: seq<string>) returns (queries: seq<string>)
    ensures queries == [query] + Expansions(query, contents)
  {
    queries := [query];
    var i := 0;
    while i < |contents|
      invariant 0 <= i <= |contents|
      invariant queries == [query] + Expansions(query, contents[..i])
    {
      var cleaned := CleanPiece(contents[i]);
      ghost var before := queries;
      if cleaned != [] && cleaned != query {
        queries := queries + [cleaned];
      }
      ExpandStep(query, contents, i, before, queries);
      i := i + 1;
    }
    assert contents[..i] == contents;
  }

  /** `expand_query`'s handling of the reply (llm_service.py:16-27): the
      reply is stripped and split on the separator, and the pieces are
      expanded. */
  method ExpandQueries(query: string, response: string) returns (queries: seq<string>)
    ensures queries == [query] + Expansions(query, Split(Strip(response), SEPARATOR))
    ensures |queries| >= 1 && queries[0] == query
    ensures AllAdded(query, queries[1..])
  {
    var contents := Split(Strip(response), SEPARATOR);
    queries := ExpandPieces(query, contents);
    ExpandedShape(query, contents, queries);
  }
}
