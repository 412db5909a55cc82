/** The integrated document processor (src/document_processor.py): it owns
    the chunker settings, the in-memory store and the QA chain. Ingesting a
    document chunks it, appends the chunks to the store and re-arms the QA
    chain with a fresh `k = 3` retriever over that store; asking delegates
    to the QA chain. Before the first successful ingest the processor is
    not ready and every question is refused. */
module Orchestrator {
  import opened Wrappers
  import opened Documents
  import opened Chunker
  import opened MemoryStore
  import opened QA

  /** The `k` the processor asks its retriever for. */
  const RetrieverDepth := 3

  class DocumentProcessor {
    const splitter: SplitterConfig
    const vectorStore: InMemoryStore
    const qaChain: QAChain

    /** A retriever, once set, searches this processor's own store three
        results deep, and the store is not empty. */
    ghost predicate Valid()
      reads this, vectorStore, qaChain
    {
      && splitter.Valid()
      && (qaChain.retriever != null ==>
            && qaChain.retriever.store == vectorStore
            && qaChain.retriever.k == RetrieverDepth
            && vectorStore.documents != [])
    }

    /** READY once a document has been ingested, EMPTY before. */
    predicate Ready()
      reads this, qaChain
    {
      qaChain.retriever != null
    }

    /** The store and the chain start empty; the embedding service and the
        model are whatever configuration chose. */
    constructor (embeddings: Embedder, llm: Llm)
      ensures Valid() && !Ready()
      ensures splitter == DefaultSplitter
      ensures fresh(vectorStore) && fresh(qaChain)
      ensures vectorStore.embeddings == embeddings && vectorStore.documents == [] && vectorStore.documentEmbeddings == []
      ensures qaChain.llm == llm
    {
      splitter := DefaultSplitter;
      vectorStore := new InMemoryStore(embeddings, "medical_docs");
      qaChain := new QAChain(llm);
    }

    /** What `process_document(name)` returned (`r`) and did to the store
        and the chain. A file the chunker refuses or cannot read changes
        nothing. Otherwise the chunks are appended to the store; if that
        and the retriever both succeed, the chain is re-armed and the
        chunks are returned. A first document with no text leaves the store
        empty, so `as_retriever` raises its `ValueError` and nothing is
        armed. When the embedding call fails on a first document, the store
        keeps the new chunks beside the old embeddings (`create_vectorstore`
        assigns before it embeds) and the chain is not armed; on a later
        document nothing changes. */
    twostate predicate Ingested(name: string, read: FileKind -> Option<string>, new r: Result<seq<Document>, Error>)
      requires splitter.Valid()
      reads this, vectorStore, qaChain
    {
      && (Extracted(name, read).Err? ==>
            r == Err(Extracted(name, read).error) && unchanged(vectorStore) && unchanged(qaChain))
      && (r.Ok? ==>
            && Extracted(name, read).Ok?
            && r.value == Tag(BaseName(name), Windows(Extracted(name, read).value, splitter))
            && vectorStore.documents == old(vectorStore.documents) + r.value
            && Ready())
      && (r.Err? ==> unchanged(qaChain))
      && ((old(vectorStore.documents) == [] && Extracted(name, read).Ok?
           && Windows(Extracted(name, read).value, splitter) == []) ==>
            && r == (if vectorStore.embeddings.batchFails([]) then Err(EmbeddingFailed)
                     else Err(ValueError(StoreNotInitialized)))
            && !Ready())
      && (r.Ok? && old(vectorStore.Aligned()) ==> vectorStore.Aligned())
      && (Extracted(name, read).Ok? ==>
            var docs := Tag(BaseName(name), Windows(Extracted(name, read).value, splitter));
            var embedded := vectorStore.embeddings.EmbedDocuments(Texts(docs));
            && (embedded.None? ==>
                  && r == Err(EmbeddingFailed) && unchanged(qaChain)
                  && vectorStore.documentEmbeddings == old(vectorStore.documentEmbeddings)
                  && vectorStore.documents == (if old(vectorStore.documents) == [] then docs else old(vectorStore.documents)))
            && (embedded.Some? ==>
                  && vectorStore.documents == old(vectorStore.documents) + docs
                  && vectorStore.documentEmbeddings
                     == (if old(vectorStore.documents) == [] then embedded.value
                         else old(vectorStore.documentEmbeddings) + embedded.value)
                  && (vectorStore.documents != [] ==> r == Ok(docs) && Ready())))
    }

    /** `process_document(file_path)`. */
    method ProcessDocument(name: string, read: FileKind -> Option<string>) returns (r: Result<seq<Document>, Error>)
      requires Valid()
      modifies vectorStore, qaChain
      ensures Valid()
      ensures Ingested(name, read, r)
    {
      var documents := Chunker.ProcessDocument(splitter, name, read);
      if documents.Err? {
        return documents;
      }
      var added := vectorStore.AddDocuments(documents.value);
      if added.Err? {
        return Err(added.error);
      }
      var retriever := vectorStore.AsRetriever(Some(map["k" := RetrieverDepth]));
      if retriever.Err? {
        return Err(retriever.error);
      }
      qaChain.CreateQaChain(retriever.value);
      r := documents;
    }

    /** `answer_question(question)`: exactly the QA chain's answer. */
    method AnswerQuestion(question: string)
      returns (r: Result<Answer, Error>, ghost retrieved: Result<seq<Document>, Error>, ghost top: seq<nat>)
      requires Valid()
      modifies qaChain.llm
      ensures qaChain.Outcome(question, r, retrieved, top, old(qaChain.llm.prompts))
      ensures !Ready() ==> r == Err(ValueError(NotInitialized))
      ensures r.Ok? ==> r.value.question == question
    {
      r, retrieved, top := qaChain.AnswerQuestion(question);
    }
  }

  /** Once ready, a question is never refused for want of a chain or of
      documents, and over an aligned store the search never fails with
      IndexError either: any failure comes from the embedding service,
      numpy's dimension check (a `ValueError`) or the model. */
  lemma {:induction false} ReadyAnswersAreNotRefused(p: DocumentProcessor, question: string, r: Result<Answer, Error>,
                                  retrieved: Result<seq<Document>, Error>, top: seq<nat>, before: seq<string>)
    requires p.Valid() && p.Ready()
    requires p.qaChain.Outcome(question, r, retrieved, top, before)
    ensures r != Err(ValueError(NotInitialized)) && r != Err(ValueError(StoreNotInitialized))
    ensures p.vectorStore.Aligned() ==> r != Err(IndexOutOfRange)
    ensures r.Err? ==> r.error in {EmbeddingFailed, ValueError(ShapesNotAligned), IndexOutOfRange, LlmFailed}
  {
    var store := p.qaChain.retriever.store;
    if store.Aligned() {
      AlignedSearchNeverIndexError(store, question, p.qaChain.retriever.k, retrieved, top);
    }
  }
}
