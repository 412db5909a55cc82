/** The question-answering chain (src/llm/qa_chain.py): a retriever slot
    that starts empty, a fixed prompt template, one language-model call per
    answered question, and the list of sources shown beside the answer. */
module QA {
  import opened Wrappers
  import opened Strings
  import opened Documents
  import opened MemoryStore

  const NotInitialized := "QA chain not initialized. Please create the chain first."

  /** The template's text before the context. */
  const PromptHead :=
    "You are a medical research assistant helping researchers understand clinical and medical documents.\n\n"
    + "Use the following pieces of context from medical documents to answer the question at the end.\n\n"
    + "Guidelines:\n"
    + "1. Be precise and cite specific information from the context when possible\n"
    + "2. If you're unsure or the context doesn't contain enough information, clearly state that\n"
    + "3. Use medical terminology accurately\n"
    + "4. Provide relevant context and explanations when needed\n"
    + "5. If the question asks about something not in the context, say \"I don't have information about that in the provided documents\"\n\n"
    + "Context:\n"

  /** The template's text between the context and the question. */
  const QuestionLabel := "\n\nQuestion: "

  /** The template's text after the question. */
  const AnswerLabel := "\n\nAnswer: "

  /** `_get_qa_prompt(context, question)`: `str.format` substitutes both
      values verbatim, braces included. */
  function QaPrompt(context: string, question: string): string
  {
    PromptHead + context + QuestionLabel + question + AnswerLabel
  }

  /** The prompt is the fixed template with the context and the question
      each in its own slot: both can be read back from the prompt at fixed
      offsets, so distinct inputs of the same context length never give
      the same prompt. */
  lemma {:induction false} PromptKeepsContextAndQuestion(context: string, question: string)
    ensures |QaPrompt(context, question)| == |PromptHead| + |context| + |QuestionLabel| + |question| + |AnswerLabel|
    ensures StartsWith(QaPrompt(context, question), PromptHead)
    ensures EndsWith(QaPrompt(context, question), AnswerLabel)
    ensures QaPrompt(context, question)[|PromptHead|..|PromptHead| + |context|] == context
    ensures QaPrompt(context, question)[|PromptHead| + |context| + |QuestionLabel|..|QaPrompt(context, question)| - |AnswerLabel|] == question
  {
    SlotsReadBack(PromptHead, context, QuestionLabel, question, AnswerLabel);
  }

  /** Filling two slots of a three-part template: each filling can be read
      back at the offset the fixed parts determine. */
  lemma {:induction false} SlotsReadBack(head: string, x: string, mid: string, y: string, tail: string)
    ensures StartsWith(head + x + mid + y + tail, head)
    ensures EndsWith(head + x + mid + y + tail, tail)
    ensures (head + x + mid + y + tail)[|head|..|head| + |x|] == x
    ensures (head + x + mid + y + tail)[|head| + |x| + |mid|..|head + x + mid + y + tail| - |tail|] == y
  {
    var p := head + x + mid + y + tail;
    assert p == head + (x + (mid + (y + tail)));
    assert p[|head|..] == x + (mid + (y + tail));
    assert p[|head|..|head| + |x|] == p[|head|..][..|x|];
    assert p[|head| + |x|..] == mid + (y + tail);
    assert p[|head| + |x| + |mid|..] == y + tail;
    assert p[|head| + |x| + |mid|..|p| - |tail|] == p[|head| + |x| + |mid|..][..|y|];
    assert p[..|head|] == head;
    assert p[|p| - |tail|..] == tail;
  }

  lemma {:induction false} PromptIsInjective(c1: string, q1: string, c2: string, q2: string)
    requires |c1| == |c2| && QaPrompt(c1, q1) == QaPrompt(c2, q2)
    ensures c1 == c2 && q1 == q2
  {
    PromptKeepsContextAndQuestion(c1, q1);
    PromptKeepsContextAndQuestion(c2, q2);
  }

  /** `"\n\n".join(doc.page_content for doc in relevant_docs)`. */
  function Context(docs: seq<Document>): string
  {
    Join(Texts(docs), "\n\n")
  }

  /** Every retrieved text appears whole in the context, in retrieval
      order, each after the earlier ones and a blank line. */
  lemma {:induction false} ContextKeepsRetrievedTexts(docs: seq<Document>, i: nat)
    requires i < |docs|
    ensures JoinOffset(Texts(docs), "\n\n", i) + |docs[i].pageContent| <= |Context(docs)|
    ensures Context(docs)[JoinOffset(Texts(docs), "\n\n", i)..JoinOffset(Texts(docs), "\n\n", i) + |docs[i].pageContent|]
      == docs[i].pageContent
  {
    JoinKeepsParts(Texts(docs), "\n\n", i);
  }

  /** One entry of `sources`. */
  datatype SourceEntry = SourceEntry(source: string, chunk: int, content: string)

  datatype Answer = Answer(answer: string, sources: seq<SourceEntry>, question: string)

  /** `{"source": metadata.get("source", "Unknown"), "chunk":
      metadata.get("chunk", 0), "content": <200-character excerpt>}`. */
  function SourceOf(doc: Document): SourceEntry
  {
    SourceEntry(doc.metadata.source.GetOr("Unknown"), doc.metadata.chunk.GetOr(0), Preview(doc.pageContent, 200))
  }

  /** What a source entry says about its document: where it came from, with
      the stated defaults, and an excerpt of at most 203 characters that
      begins with the document's first 200 characters and is the whole
      content when that is short enough. */
  lemma {:induction false} SourceOfDescribesDocument(doc: Document)
    ensures doc.metadata.source.None? ==> SourceOf(doc).source == "Unknown"
    ensures doc.metadata.source.Some? ==> SourceOf(doc).source == doc.metadata.source.value
    ensures doc.metadata.chunk.None? ==> SourceOf(doc).chunk == 0
    ensures doc.metadata.chunk.Some? ==> SourceOf(doc).chunk == doc.metadata.chunk.value
    ensures |SourceOf(doc).content| <= 203
    ensures StartsWith(SourceOf(doc).content, doc.pageContent[..Min(200, |doc.pageContent|)])
    ensures |doc.pageContent| <= 200 ==> SourceOf(doc).content == doc.pageContent
  {
    PreviewBounds(doc.pageContent, 200);
  }

  /** The `sources` list: one entry per retrieved document, in order. */
  function Sources(docs: seq<Document>): seq<SourceEntry>
  {
    seq(|docs|, i requires 0 <= i < |docs| => SourceOf(docs[i]))
  }

  /** The language model. `respond(prompt)` is its reply, `None` when the
      call raises; the ghost `prompts` records every prompt it has been
      sent, in order. */
  class Llm {
    const respond: string -> Option<string>
    ghost var prompts: seq<string>

    constructor (respond: string -> Option<string>)
      ensures this.respond == respond && prompts == []
    {
      this.respond := respond;
      prompts := [];
    }

    /** `llm.invoke(prompt)`. */
    method Invoke(prompt: string) returns (r: Result<string, Error>)
      modifies this
      ensures prompts == old(prompts) + [prompt]
      ensures respond(prompt).None? ==> r == Err(LlmFailed)
      ensures respond(prompt).Some? ==> r == Ok(respond(prompt).value)
    {
      prompts := prompts + [prompt];
      var reply := respond(prompt);
      if reply.None? {
        return Err(LlmFailed);
      }
      r := Ok(reply.value);
    }
  }

  /** `QAChain`: the model and the retriever slot `create_qa_chain` fills. */
  class QAChain {
    const llm: Llm
    var retriever: Retriever?

    constructor (llm: Llm)
      ensures this.llm == llm && retriever == null
    {
      this.llm := llm;
      retriever := null;
    }

    /** `create_qa_chain(retriever)` only sets the retriever. */
    method CreateQaChain(retriever: Retriever)
      modifies this
      ensures this.retriever == retriever
    {
      this.retriever := retriever;
    }

    /** What `answer_question(question)` may return and send to the model,
        given what the retriever returned (`retrieved`, at positions
        `top`) and the prompts sent `before`. Without a retriever it
        raises and the model is not called; a retrieval failure is raised
        again before the model is called; otherwise the model is called
        once, on the template filled with the retrieved context, and its
        reply is returned with the sources and the question. */
    ghost predicate Outcome(question: string, r: Result<Answer, Error>, retrieved: Result<seq<Document>, Error>,
                            top: seq<nat>, before: seq<string>)
      reads this, llm, if retriever == null then {} else {retriever.store}
    {
      if retriever == null then r == Err(ValueError(NotInitialized)) && llm.prompts == before
      else
        && retriever.store.SearchOutcome(question, retriever.k, retrieved, top)
        && match retrieved
           case Err(e) => r == Err(e) && llm.prompts == before
           case Ok(docs) =>
             && llm.prompts == before + [QaPrompt(Context(docs), question)]
             && r == match llm.respond(QaPrompt(Context(docs), question))
                     case None => Err(LlmFailed)
                     case Some(reply) => Ok(Answer(reply, Sources(docs), question))
    }

    /** `answer_question(question)`. */
    method AnswerQuestion(question: string)
      returns (r: Result<Answer, Error>, ghost retrieved: Result<seq<Document>, Error>, ghost top: seq<nat>)
      modifies llm
      ensures Outcome(question, r, retrieved, top, old(llm.prompts))
    {
      if retriever == null {
        r := Err(ValueError(NotInitialized));
        return r, Err(ValueError(NotInitialized)), [];
      }
      var found;
      found, top := retriever.Invoke(question);
      retrieved := found;
      if found.Err? {
        return Err(found.error), retrieved, top;
      }
      var docs := found.value;
      var reply := llm.Invoke(QaPrompt(Context(docs), question));
      if reply.Err? {
        return Err(reply.error), retrieved, top;
      }
      var sources: seq<SourceEntry> := [];
      var i := 0;
      while i < |docs|
        invariant 0 <= i <= |docs| && |sources| == i
        invariant forall j :: 0 <= j < i ==> sources[j] == SourceOf(docs[j])
      {
        sources := sources + [SourceOf(docs[i])];
        i := i + 1;
      }
      assert sources == Sources(docs);
      r := Ok(Answer(reply.value, sources, question));
    }
  }

  /** The model is called at most once per question, only after a
      successful retrieval, and earlier prompts are kept. */
  lemma {:induction false} AnswerCallsLlmAtMostOnce(chain: QAChain, question: string, r: Result<Answer, Error>,
                                 retrieved: Result<seq<Document>, Error>, top: seq<nat>, before: seq<string>)
    requires chain.Outcome(question, r, retrieved, top, before)
    ensures |before| <= |chain.llm.prompts| <= |before| + 1 && chain.llm.prompts[..|before|] == before
    ensures |chain.llm.prompts| == |before| + 1 <==> chain.retriever != null && retrieved.Ok?
    ensures r.Ok? ==>
      && chain.retriever != null && retrieved.Ok?
      && chain.llm.prompts[|before|] == QaPrompt(Context(retrieved.value), question)
  {
    if chain.retriever != null && retrieved.Ok? {
      assert chain.llm.prompts[..|before|] == before;
    }
  }

  /** An answer returned over an aligned store carries the question as
      asked, the model's reply to the prompt, and one source per retrieved
      document in retrieval order: `min(k, n)` of them for a positive `k`. */
  lemma {:induction false} AnswerDescribesRetrieval(chain: QAChain, question: string, r: Result<Answer, Error>,
                                 retrieved: Result<seq<Document>, Error>, top: seq<nat>, before: seq<string>)
    requires chain.Outcome(question, r, retrieved, top, before)
    requires chain.retriever != null && chain.retriever.store.Aligned()
    requires r.Ok?
    ensures retrieved.Ok? && r.value.question == question
    ensures chain.llm.respond(QaPrompt(Context(retrieved.value), question)) == Some(r.value.answer)
    ensures |r.value.sources| == |retrieved.value|
    ensures chain.retriever.k >= 1 ==> |r.value.sources| == Min(chain.retriever.k, |chain.retriever.store.documents|)
    ensures forall i :: 0 <= i < |retrieved.value| ==> r.value.sources[i] == SourceOf(retrieved.value[i])
  {
    var store := chain.retriever.store;
    AlignedSearchShape(store, question, chain.retriever.k, retrieved, top);
  }
}
