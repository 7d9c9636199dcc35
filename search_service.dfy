/** The reranking of backend/services/search_service.py: each document is
    paired with the cross-encoder's score for it, the pairs are sorted by
    score, highest first, keeping the input order among equal scores, the
    first `top_k` are kept and their documents returned. The scores are an
    input here: the cross-encoder that computes them is not part of this
    model. */
module Rerank {

  /** A document with its score (search_service.py:9). */
  datatype Scored<D> = Scored(score: int, doc: D)

  function Min(a: int, b: int): int {
    if a <= b then a else b
  }

  /** `list(zip(scores, docs, strict=False))` (search_service.py:9): the
      i-th score with the i-th document, as far as the shorter list goes. */
  function Zip<D>(scores: seq<int>, docs: seq<D>): (r: seq<Scored<D>>)
    ensures |r| == Min(|scores|, |docs|)
    ensures forall i :: 0 <= i < |r| ==> r[i].score == scores[i] && r[i].doc == docs[i]
  {
    seq(Min(|scores|, |docs|), i requires 0 <= i < Min(|scores|, |docs|) => Scored(scores[i], docs[i]))
  }

  /** Highest score first. */
  predicate SortedDesc<D>(s: seq<Scored<D>>) {
    forall i, j :: 0 <= i < j < |s| ==> s[i].score >= s[j].score
  }

  /** The pairs with score `k`, in order. */
  function WithScore<D>(s: seq<Scored<D>>, k: int): (r: seq<Scored<D>>)
    ensures |r| <= |s|
  {
    if s == [] then []
    else (if s[0].score == k then [s[0]] else []) + WithScore(s[1..], k)
  }

  /** Places `x` in front of the first pair that does not score higher:
      after the higher ones, before the ones it ties with, which come from
      later in the input. */
  function Insert<D>(x: Scored<D>, s: seq<Scored<D>>): (r: seq<Scored<D>>)
    ensures |r| == |s| + 1
  {
    if s == [] || s[0].score <= x.score then [x] + s
    else [s[0]] + Insert(x, s[1..])
  }

  /** `scored_query_doc_tuples.sort(key=lambda x: x[0], reverse=True)`
      (search_service.py:10), a stable sort by descending score. */
  function SortDesc<D>(s: seq<Scored<D>>): (r: seq<Scored<D>>)
    ensures |r| == |s|
  {
    if s == [] then [] else Insert(s[0], SortDesc(s[1..]))
  }

  lemma {:induction false} InsertSorted<D>(x: Scored<D>, s: seq<Scored<D>>)
    requires SortedDesc(s)
    ensures SortedDesc(Insert(x, s))
    ensures Insert(x, s) != [] && (Insert(x, s)[0] == x || Insert(x, s)[0] == s[0])
    decreases |s|
  {
    if s != [] && s[0].score > x.score {
      InsertSorted(x, s[1..]);
      var r := Insert(x, s);
      var t := Insert(x, s[1..]);
      assert r == [s[0]] + t;
      forall i, j | 0 <= i < j < |r|
        ensures r[i].score >= r[j].score
      {
        if i > 0 {
          assert r[i] == t[i - 1] && r[j] == t[j - 1];
        } else if t[j - 1] == x {
          assert r[j] == x;
        } else {
          assert r[j] == t[j - 1];
          InsertFrom(x, s[1..], j - 1);
        }
      }
    }
  }

  /** Every pair of `Insert(x, s)` is `x` or a pair of `s`. */
  lemma {:induction false} InsertFrom<D>(x: Scored<D>, s: seq<Scored<D>>, j: nat)
    requires j < |Insert(x, s)|
    ensures Insert(x, s)[j] == x || Insert(x, s)[j] in s
    decreases |s|
  {
    if s != [] && s[0].score > x.score && j > 0 {
      InsertFrom(x, s[1..], j - 1);
    }
  }

  lemma {:induction false} InsertPermutes<D>(x: Scored<D>, s: seq<Scored<D>>)
    ensures multiset(Insert(x, s)) == multiset(s) + multiset{x}
    decreases |s|
  {
    if s != [] && s[0].score > x.score {
      InsertPermutes(x, s[1..]);
      assert s == [s[0]] + s[1..];
    }
  }

  /** Only `x` is added to the pairs of its own score, in front of them. */
  lemma {:induction false} InsertWithScore<D>(x: Scored<D>, s: seq<Scored<D>>, k: int)
    ensures WithScore(Insert(x, s), k) == (if x.score == k then [x] else []) + WithScore(s, k)
    decreases |s|
  {
    if s == [] || s[0].score <= x.score {
      assert ([x] + s)[1..] == s;
    } else {
      var t := Insert(x, s[1..]);
      assert ([s[0]] + t)[1..] == t;
      InsertWithScore(x, s[1..], k);
      var rest := WithScore(s[1..], k);
      if x.score == k {
        assert WithScore(t, k) == [x] + rest;
        assert WithScore(s, k) == rest;
      } else {
        assert WithScore(t, k) == rest;
      }
    }
  }

  /** The sort orders by descending score. */
  lemma {:induction false} SortDescSorted<D>(s: seq<Scored<D>>)
    ensures SortedDesc(SortDesc(s))
    decreases |s|
  {
    if s != [] {
      SortDescSorted(s[1..]);
      InsertSorted(s[0], SortDesc(s[1..]));
    }
  }

  /** The sort neither loses nor invents a pair. */
  lemma {:induction false} SortDescPermutes<D>(s: seq<Scored<D>>)
    ensures multiset(SortDesc(s)) == multiset(s)
    decreases |s|
  {
    if s != [] {
      SortDescPermutes(s[1..]);
      InsertPermutes(s[0], SortDesc(s[1..]));
      assert s == [s[0]] + s[1..];
    }
  }

  /** The sort is stable: the pairs of any one score come out in the order
      they went in. */
  lemma {:induction false} SortDescStable<D>(s: seq<Scored<D>>, k: int)
    ensures WithScore(SortDesc(s), k) == WithScore(s, k)
    decreases |s|
  {
    if s != [] {
      SortDescStable(s[1..], k);
      InsertWithScore(s[0], SortDesc(s[1..]), k);
    }
  }

  /** The length of `s[:top_k]` for a list of length `n`: a negative
      `top_k` counts from the end. */
  function SliceLen(n: nat, topK: int): (m: nat)
    ensures m <= n
    ensures topK >= 0 ==> m == Min(topK, n)
    ensures topK < 0 ==> m == (if n + topK < 0 then 0 else n + topK)
  {
    if topK >= 0 then Min(topK, n) else if n + topK < 0 then 0 else n + topK
  }

  /** The documents of the pairs, scores dropped (search_service.py:13). */
  function Docs<D>(s: seq<Scored<D>>): (r: seq<D>)
    ensures |r| == |s|
  {
    if s == [] then [] else [s[0].doc] + Docs(s[1..])
  }

  lemma {:induction false} DocsIndex<D>(s: seq<Scored<D>>, i: nat)
    requires i < |s|
    ensures Docs(s)[i] == s[i].doc
    decreases |s|
  {
    if i > 0 {
      DocsIndex(s[1..], i - 1);
    }
  }

  lemma {:induction false} DocsPrefix<D>(s: seq<Scored<D>>, n: nat)
    requires n <= |s|
    ensures Docs(s[..n]) == Docs(s)[..n]
    decreases n
  {
    if n > 0 {
      assert s[..n][1..] == s[1..][..n - 1];
      DocsPrefix(s[1..], n - 1);
    }
  }

  lemma {:induction false} DocsInsert<D>(x: Scored<D>, s: seq<Scored<D>>)
    ensures multiset(Docs(Insert(x, s))) == multiset(Docs(s)) + multiset{x.doc}
    decreases |s|
  {
    if s != [] && s[0].score > x.score {
      DocsInsert(x, s[1..]);
      assert ([s[0]] + Insert(x, s[1..]))[1..] == Insert(x, s[1..]);
    } else {
      assert ([x] + s)[1..] == s;
    }
  }

  lemma {:induction false} DocsSort<D>(s: seq<Scored<D>>)
    ensures multiset(Docs(SortDesc(s))) == multiset(Docs(s))
    decreases |s|
  {
    if s != [] {
      DocsSort(s[1..]);
      DocsInsert(s[0], SortDesc(s[1..]));
    }
  }

  /** The sorted pairs `rerank_documents` keeps (search_service.py:9-12). */
  function RerankScored<D>(query: string, docs: seq<D>, scores: seq<int>, topK: int): (r: seq<Scored<D>>)
    ensures |r| == SliceLen(Min(|scores|, |docs|), topK)
  {
    var sorted := SortDesc(Zip(scores, docs));
    sorted[..SliceLen(|sorted|, topK)]
  }

  /** `rerank_documents(query, docs, top_k)` (search_service.py:3-15), with
      `scores` the cross-encoder's score of each document against `query`. */
  function RerankDocuments<D>(query: string, docs: seq<D>, scores: seq<int>, topK: int): (r: seq<D>)
    ensures |r| == SliceLen(Min(|scores|, |docs|), topK)
    ensures topK >= 0 ==> |r| == Min(topK, Min(|scores|, |docs|))
  {
    Docs(RerankScored(query, docs, scores, topK))
  }

  /** The documents come out by descending score: the i-th returned
      document is the i-th kept pair's, and the kept pairs are sorted. */
  lemma RerankOrdered<D>(query: string, docs: seq<D>, scores: seq<int>, topK: int)
    ensures SortedDesc(RerankScored(query, docs, scores, topK))
    ensures forall i :: 0 <= i < |RerankDocuments(query, docs, scores, topK)| ==>
      RerankDocuments(query, docs, scores, topK)[i] == RerankScored(query, docs, scores, topK)[i].doc
  {
    var sorted := SortDesc(Zip(scores, docs));
    SortDescSorted(Zip(scores, docs));
    var kept := RerankScored(query, docs, scores, topK);
    assert kept == sorted[..|kept|];
    forall i | 0 <= i < |kept|
      ensures Docs(kept)[i] == kept[i].doc
    {
      DocsIndex(kept, i);
    }
  }

  /** Every returned document is one of the input documents, returned no
      more often than it occurs among the scored ones. */
  lemma RerankFromInput<D>(query: string, docs: seq<D>, scores: seq<int>, topK: int)
    ensures multiset(RerankDocuments(query, docs, scores, topK)) <= multiset(docs)
  {
    var z := Zip(scores, docs);
    var sorted := SortDesc(z);
    var n := SliceLen(|sorted|, topK);
    DocsPrefix(sorted, n);
    PrefixMultiset(Docs(sorted), n);
    DocsSort(z);
    DocsZip(scores, docs);
    PrefixMultiset(docs, |z|);
  }

  lemma PrefixMultiset<T>(s: seq<T>, n: nat)
    requires n <= |s|
    ensures multiset(s[..n]) <= multiset(s)
  {
    assert s == s[..n] + s[n..];
  }

  /** The documents of the pairs are the documents given, up to the
      shorter of the two lists. */
  lemma DocsZip<D>(scores: seq<int>, docs: seq<D>)
    ensures Docs(Zip(scores, docs)) == docs[..|Zip(scores, docs)|]
  {
    var z := Zip(scores, docs);
    forall i | 0 <= i < |z|
      ensures Docs(z)[i] == docs[i]
    {
      DocsIndex(z, i);
    }
  }


  /** Documents of equal score come out in their input order: for each
      score, the kept pairs with it are the first of the input's pairs with
      it. */
  lemma RerankStable<D>(query: string, docs: seq<D>, scores: seq<int>, topK: int, k: int)
    ensures var kept := WithScore(RerankScored(query, docs, scores, topK), k);
      |kept| <= |WithScore(Zip(scores, docs), k)| && kept == WithScore(Zip(scores, docs), k)[..|kept|]
  {
    var sorted := SortDesc(Zip(scores, docs));
    var n := SliceLen(|sorted|, topK);
    SortDescStable(Zip(scores, docs), k);
    assert sorted == sorted[..n] + sorted[n..];
    WithScoreAppend(sorted[..n], sorted[n..], k);
  }

  lemma {:induction false} WithScoreAppend<D>(a: seq<Scored<D>>, b: seq<Scored<D>>, k: int)
    ensures WithScore(a + b, k) == WithScore(a, k) + WithScore(b, k)
    decreases |a|
  {
    if a != [] {
      assert (a + b)[1..] == a[1..] + b;
      WithScoreAppend(a[1..], b, k);
    } else {
      assert a + b == b;
    }
  }

  /** The kept pairs are the best: none of the dropped pairs scores higher
      than a kept one, and kept and dropped together are the scored pairs. */
  lemma RerankTopK<D>(query: string, docs: seq<D>, scores: seq<int>, topK: int)
    ensures var sorted := SortDesc(Zip(scores, docs));
      var kept := RerankScored(query, docs, scores, topK);
      var dropped := sorted[|kept|..];
      && multiset(kept) + multiset(dropped) == multiset(Zip(scores, docs))
      && forall x, y :: x in kept && y in dropped ==> x.score >= y.score
  {
    var sorted := SortDesc(Zip(scores, docs));
    var kept := RerankScored(query, docs, scores, topK);
    SortDescSorted(Zip(scores, docs));
    SortDescPermutes(Zip(scores, docs));
    assert sorted == kept + sorted[|kept|..];
    SortedCut(sorted, |kept|);
  }

  /** Cutting a sorted list leaves no score after the cut above one
      before it. */
  lemma SortedCut<D>(s: seq<Scored<D>>, n: nat)
    requires SortedDesc(s) && n <= |s|
    ensures forall x, y :: x in s[..n] && y in s[n..] ==> x.score >= y.score
  {
    forall x, y | x in s[..n] && y in s[n..]
      ensures x.score >= y.score
    {
      var i :| 0 <= i < n && s[..n][i] == x;
      var j :| 0 <= j < |s| - n && s[n..][j] == y;
      assert s[i] == x && s[n + j] == y;
    }
  }

}
