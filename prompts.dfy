/** The prompt texts of backend/templates/prompts.py: the separator the
    query-expansion prompt asks the model to put between its questions, and
    the answer prompt `RAGPromptTemplate.create_prompt`, which lists the
    retrieved documents as a context block under the user's query. */
module Prompts {
  import opened Text

  /** `QueryExpansionTemplate.separator` (prompts.py:15-17). */
  const SEPARATOR: string := "#next-question#"

  /** A retrieved document as `create_prompt` reads it: its id, already
      rendered as text, and its content. */
  datatype PromptDoc = PromptDoc(id: string, content: string)

  const BLOCK_ID: string := "Document ID: "
  const BLOCK_CONTENT: string := "\nContent: "

  /** One document's block (prompts.py:34). */
  function Block(doc: PromptDoc): (r: string)
    ensures |r| == |BLOCK_ID| + |doc.id| + |BLOCK_CONTENT| + |doc.content|
    ensures r[..|BLOCK_ID|] == BLOCK_ID
    ensures r[|BLOCK_ID|..|BLOCK_ID| + |doc.id|] == doc.id
    ensures r[|BLOCK_ID| + |doc.id|..|r| - |doc.content|] == BLOCK_CONTENT
    ensures r[|r| - |doc.content|..] == doc.content
  {
    BLOCK_ID + doc.id + BLOCK_CONTENT + doc.content
  }

  /** The documents' blocks, in order. */
  function Blocks(docs: seq<PromptDoc>): (r: seq<string>)
    ensures |r| == |docs|
  {
    if docs == [] then [] else Blocks(docs[..|docs| - 1]) + [Block(docs[|docs| - 1])]
  }

  lemma {:induction false} BlocksFirst(docs: seq<PromptDoc>)
    requires docs != []
    ensures Blocks(docs)[0] == Block(docs[0])
    decreases |docs|
  {
    var init := docs[..|docs| - 1];
    if init != [] {
      BlocksFirst(init);
    }
  }

  /** The blocks of the documents, in order, joined by single newlines
      (prompts.py:33-36); no documents give the empty context. */
  function Context(docs: seq<PromptDoc>): string
  {
    if docs == [] then "" else Join(Blocks(docs), "\n")
  }

  /** The context is empty exactly when there are no documents, since every
      block starts with `Document ID: `. */
  lemma ContextEmptyIff(docs: seq<PromptDoc>)
    ensures Context(docs) == "" <==> docs == []
    ensures docs != [] ==> |Context(docs)| >= |BLOCK_ID| && Context(docs)[..|BLOCK_ID|] == BLOCK_ID
  {
    if docs != [] {
      var blocks := Blocks(docs);
      BlocksFirst(docs);
      JoinStartsWith(blocks, "\n");
      var b := Block(docs[0]);
      assert Context(docs)[..|b|] == b;
      assert b[..|BLOCK_ID|] == BLOCK_ID;
      assert Context(docs)[..|BLOCK_ID|] == b[..|BLOCK_ID|];
    }
  }

  lemma JoinStartsWith(pieces: seq<string>, sep: string)
    requires |pieces| >= 1
    ensures |Join(pieces, sep)| >= |pieces[0]|
    ensures Join(pieces, sep)[..|pieces[0]|] == pieces[0]
  {
  }

  /** One more document adds a newline and its block at the end: the
      blocks follow the documents' order, one each. */
  lemma ContextAppend(docs: seq<PromptDoc>, doc: PromptDoc)
    ensures Context(docs + [doc]) == if docs == [] then Block(doc) else Context(docs) + "\n" + Block(doc)
  {
    var all := docs + [doc];
    assert all[..|all| - 1] == docs;
    assert Blocks(all) == Blocks(docs) + [Block(doc)];
    if docs != [] {
      JoinAppend(Blocks(docs), Block(doc), "\n");
    } else {
      assert Blocks(all) == [Block(doc)];
    }
  }

  /** Joining one more piece appends the separator and the piece. */
  lemma {:induction false} JoinAppend(pieces: seq<string>, last: string, sep: string)
    requires |pieces| >= 1
    ensures Join(pieces + [last], sep) == Join(pieces, sep) + sep + last
    decreases |pieces|
  {
    if |pieces| == 1 {
    } else {
      assert (pieces + [last])[1..] == pieces[1..] + [last];
      JoinAppend(pieces[1..], last, sep);
    }
  }

  const PROMPT_HEAD: string := "You are a helpful assistant. Write what the user asked you to while using\n        the provided context as the primary source of information for the content.\n        User query: "
  const PROMPT_MIDDLE: string := "\n        Context: "
  const PROMPT_TAIL: string := "\n        "

  /** `RAGPromptTemplate.create_prompt` (prompts.py:30-42): the query
      verbatim after `User query: `, then on the next line `Context: ` and
      the context, then a newline and the indentation. */
  function CreatePrompt(query: string, docs: seq<PromptDoc>): (r: string)
    ensures |r| == |PROMPT_HEAD| + |query| + |PROMPT_MIDDLE| + |Context(docs)| + |PROMPT_TAIL|
    ensures r[..|PROMPT_HEAD|] == PROMPT_HEAD
    ensures r[|PROMPT_HEAD|..|PROMPT_HEAD| + |query|] == query
    ensures r[|PROMPT_HEAD| + |query|..|PROMPT_HEAD| + |query| + |PROMPT_MIDDLE|] == PROMPT_MIDDLE
    ensures r[|r| - |PROMPT_TAIL| - |Context(docs)|..|r| - |PROMPT_TAIL|] == Context(docs)
    ensures r[|r| - |PROMPT_TAIL|..] == PROMPT_TAIL
  {
    Parts(PROMPT_HEAD, query, PROMPT_MIDDLE, Context(docs), PROMPT_TAIL);
    PROMPT_HEAD + query + PROMPT_MIDDLE + Context(docs) + PROMPT_TAIL
  }

  /** Where each of five concatenated strings sits in the result. */
  lemma Parts(a: string, b: string, c: string, d: string, e: string)
    ensures var r := a + b + c + d + e;
      && |r| == |a| + |b| + |c| + |d| + |e|
      && r[..|a|] == a
      && r[|a|..|a| + |b|] == b
      && r[|a| + |b|..|a| + |b| + |c|] == c
      && r[|r| - |e| - |d|..|r| - |e|] == d
      && r[|r| - |e|..] == e
  {
    var r := a + b + c + d + e;
    assert r == (((a + b) + c) + d) + e;
    assert r[..|a|] == a;
    assert r[|a|..|a| + |b|] == b;
    assert r[|a| + |b|..|a| + |b| + |c|] == c;
    assert r[|r| - |e| - |d|..|r| - |e|] == d;
    assert r[|r| - |e|..] == e;
  }

  /** The query and the context can be read back from the prompt: two
      prompts over the same documents are equal only for equal queries, and
      two prompts for the same query only for equal contexts. */
  lemma PromptInjective(q1: string, q2: string, d1: seq<PromptDoc>, d2: seq<PromptDoc>)
    requires CreatePrompt(q1, d1) == CreatePrompt(q2, d2)
    ensures |q1| == |q2| ==> q1 == q2 && Context(d1) == Context(d2)
    ensures Context(d1) == Context(d2) ==> q1 == q2
  {
    PartsInjective(PROMPT_HEAD, q1, PROMPT_MIDDLE, Context(d1), PROMPT_TAIL, q2, Context(d2));
  }

  /** Between fixed strings, a part of known length, and then the other
      part, can be read back from the concatenation. */
  lemma PartsInjective(a: string, b1: string, c: string, d1: string, e: string, b2: string, d2: string)
    requires a + b1 + c + d1 + e == a + b2 + c + d2 + e
    ensures |b1| == |b2| ==> b1 == b2 && d1 == d2
    ensures d1 == d2 ==> b1 == b2
  {
    Parts(a, b1, c, d1, e);
    Parts(a, b2, c, d2, e);
  }
}
