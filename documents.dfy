/** The values that flow through the pipeline: LangChain's `Document` (page
    content plus a metadata dictionary), embedding vectors, the exceptions
    the components raise, and the embedding service, which the model treats
    as an oracle. */
module Documents {
  import opened Wrappers

  /** The metadata keys the pipeline reads or writes. `source` and `chunk`
      are set by the chunker; `score` is added by the persistent store's
      search. A missing key is `None`. */
  datatype Metadata = Metadata(source: Option<string>, chunk: Option<int>, score: Option<real>)

  datatype Document = Document(pageContent: string, metadata: Metadata)

  type Vector = seq<real>

  /** The exceptions raised along the pipeline. `ValueError` carries its
      message because callers print it; the others stand for failures of
      collaborators whose messages are not part of the model. */
  datatype Error =
    | ValueError(message: string)
    | ExtractionFailed        // the PDF or text reader raised
    | EmbeddingFailed         // the embedding service raised
    | LlmFailed               // the language model raised
    | StoreFailed             // the ChromaDB client raised
    | IndexOutOfRange         // Python IndexError
    | DecodingFailed          // base64: malformed upload content
    | NameError(name: string) // an unbound global name was looked up

  const StoreNotInitialized := "Vector store not initialized. Please add documents first."

  /** numpy's `ValueError` for a dot product of vectors of different
      lengths (its message also names the two shapes). */
  const ShapesNotAligned := "shapes not aligned"

  /** The `page_content` of each document, in order. */
  function Texts(docs: seq<Document>): (r: seq<string>)
    ensures |r| == |docs|
    ensures forall i :: 0 <= i < |docs| ==> r[i] == docs[i].pageContent
  {
    seq(|docs|, i requires 0 <= i < |docs| => docs[i].pageContent)
  }

  /** The embedding service (OpenAI or Ollama behind LangChain). `embed` is
      the vector the model gives a text; `batchFails` and `queryFails` say
      for which inputs the remote call raises. A batch call embeds each
      text with the same function as a query, so a batch result always has
      one vector per text. */
  datatype Embedder = Embedder(
    embed: string -> Vector,
    batchFails: seq<string> -> bool,
    queryFails: string -> bool)
  {
    /** `embed_documents(texts)`: one vector per text, in order, or failure. */
    function EmbedDocuments(texts: seq<string>): (r: Option<seq<Vector>>)
      ensures r.None? <==> batchFails(texts)
      ensures r.Some? ==> |r.value| == |texts|
      ensures r.Some? ==> forall i :: 0 <= i < |texts| ==> r.value[i] == embed(texts[i])
    {
      if batchFails(texts) then None
      else Some(seq(|texts|, i requires 0 <= i < |texts| => embed(texts[i])))
    }

    /** `embed_query(text)`. */
    function EmbedQuery(text: string): Option<Vector>
    {
      if queryFails(text) then None else Some(embed(text))
    }
  }
}
