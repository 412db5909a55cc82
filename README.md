# Medical document assistant: the retrieval pipeline, verified

This project models the core of a retrieval-augmented question-answering assistant for
medical documents. An uploaded PDF or text file is split into overlapping chunks, and each
chunk is tagged with its file name and position. The chunks are embedded and kept in a
vector store. A question is answered by retrieving the three chunks most similar to it,
filling a fixed prompt template with them and asking a language model. Five MCP tools put
this pipeline behind a name-based dispatch: upload, ask, search, summarize and extract
medical entities.

The model follows the program's structure, one module per source file:

| module | file | form |
|---|---|---|
| `Chunker` | `src/document_digestion/processor.py` | the splitter's `while` loop as a method, proved against a closed form; the tagging as a function |
| `MemoryStore` | `src/vector_store/chroma_store.py` | a class whose two parallel lists are replaced or extended in place; the search loop and the top-k selection as methods |
| `QA` | `src/llm/qa_chain.py` | a class with a retriever slot; the prompt and the context as functions; the language model as an object that logs its prompts |
| `Orchestrator` | `src/document_processor.py` | the processor that owns the store and the chain: an EMPTY/READY state machine |
| `PersistentStore` | `src/vector_store/chroma_store_persistent.py` | the ChromaDB collection as a sequence of records, updated by delete and add |
| `Tools`, `UploadNames` | `mcp_server/src/tools.py` | dispatch, argument checks and replies; the naming rules an upload passes through |

`Strings`, `Documents` and `Wrappers` hold shared values. `Strings` covers Python slicing,
`str.join`, `endswith`, `in`, `lower` and the "first n characters plus `...`" excerpt.
`Documents` covers the `Document` and metadata values, the exceptions and the embedding
service. `Wrappers` holds `Option` and `Result`.

Some collaborators cannot be seen or computed, so they are parameters:
- the embedding service is a per-text function plus failure predicates;
- the language model is a reply function, `None` when the call raises;
- the PDF and text readers are one function from the file kind to the text;
- base64 decoding is a function, `None` on malformed input;
- the temporary file's directory and random stem are parameters;
- ChromaDB's `add` refusals and its nearest-neighbour answers are functions of the collection.

Points where the model follows the code rather than its description:
- The chunk count is `ceil(len(text) / (chunk_size - chunk_overlap))`. This is what the loop
  produces (`Chunker.CountIsLeastCover`), not a formula that first subtracts the overlap.
- In the in-memory store, `create_vectorstore` assigns the documents before it embeds them.
  An embedding failure there leaves the two lists misaligned, so alignment is stated as an
  invariant of every successful call, not of every call.
- The upload handler's extension check is looser than the processor's suffix test. A name
  whose final component is the bare extension (`.pdf`, `notes/.TXT`) passes the check and is
  then refused with "Unsupported file type" (`UploadNames.AcceptedNameReachesReader`).
- Uploaded chunks are tagged with the temporary file's name (`tmp<random><suffix>`), not the
  name the client gave. The suffix is kept, so the same reader is chosen.

## Model

| member | source | states |
|---|---|---|
| Chunker.SplitText | src/document_digestion/processor.py:20-35 | the loop returns exactly the windows `text[i*step : i*step + chunk_size]` for every start below the text's length, for settings with `chunk_overlap < chunk_size` (the loop's termination condition) and `0 < chunk_size` |
| Chunker.CountIsLeastCover | src/document_digestion/processor.py:25-33 | a count `c` whose windows all start inside the text and whose next start does not is `ceil(n / step)`: the break at the end of the loop body is equivalent to the loop guard |
| Chunker.CountBounds | src/document_digestion/processor.py:25-33 | the chunk count covers the text, its last window starts inside the text, and it is zero exactly for the empty text |
| Chunker.EmptyTextHasNoChunks | src/document_digestion/processor.py:22-25 | `split_text("")` is `[]` |
| Chunker.WindowShape | src/document_digestion/processor.py:25-31 | chunk `i` starts inside the text, is `text[i*step : min(i*step + chunk_size, len(text))]`, is non-empty and has at most `chunk_size` characters |
| Chunker.ChunksCoverText | src/document_digestion/processor.py:25-31 | for a non-negative overlap, chunk 0 followed by every later chunk minus its first `chunk_overlap` characters is the text again |
| Chunker.TailsFrom | src/document_digestion/processor.py:25-31 | the overlap-stripped chunks after chunk `i` are the text from the end of chunk `i` to the end |
| Chunker.TailsBefore | src/document_digestion/processor.py:25-31 | chunk `i + 1`, stripped of its overlap, extends the cover of the later chunks back to the end of chunk `i` |
| Chunker.StrippedWindow | src/document_digestion/processor.py:25-31 | consecutive chunks overlap by exactly `chunk_overlap` characters, or by what is left of the text |
| Chunker.LastWindowReachesEnd | src/document_digestion/processor.py:25-33 | the last chunk ends at the end of the text |
| Chunker.BaseName | src/document_digestion/processor.py:90 | for a path with no trailing slash and no "." component, `Path(p).name` is the tail of the path after its last slash and holds no slash |
| Chunker.Suffix | src/document_digestion/processor.py:76-81 | `Path(p).suffix` is empty or a dot followed by at least one character, with no further dot or slash |
| Chunker.DetectKindAccepts | src/document_digestion/processor.py:75-81 | a reader is chosen exactly when the lower-cased suffix is `.pdf`, `.txt` or `.text` |
| Chunker.DetectKindCases | src/document_digestion/processor.py:75-81 | `.pdf` in any case selects the PDF reader, `.txt` or `.text` the text reader, and anything else raises `ValueError` |
| Chunker.TagIsFaithful | src/document_digestion/processor.py:86-93 | one document per chunk, in order: document `i` holds chunk `i` and the metadata `{"source": name, "chunk": i}` |
| Chunker.ProcessDocument | src/document_digestion/processor.py:73-95 | an unknown suffix or a failed read is reported; otherwise the result is the tagged chunks of the text read, named after the path's final component |
| MemoryStore.NormSqIsNonNegative | src/vector_store/chroma_store.py:76-77 | a squared norm is never negative |
| MemoryStore.ZeroNormScoresZero | src/vector_store/chroma_store.py:79-80 | a zero vector on either side scores 0 |
| MemoryStore.ScoreIsSignedSquareOfCosine | src/vector_store/chroma_store.py:70-82 | the score computed without a square root is the signed square of `dot / (norm1 * norm2)` |
| MemoryStore.CosineOrder | src/vector_store/chroma_store.py:62 | the signed square is strictly increasing, so ranking by the score is ranking by the cosine, ties included |
| MemoryStore.SelfSimilarityIsOne | src/vector_store/chroma_store.py:70-82 | a non-zero vector's similarity with itself is 1 |
| MemoryStore.Scores | src/vector_store/chroma_store.py:56-59 | one similarity per stored embedding |
| MemoryStore.TakeCount | src/vector_store/chroma_store.py:62 | `argsort(s)[-k:]` keeps `min(k, n)` positions for a positive `k`, all of them for `k == 0`, and never more than `n` |
| MemoryStore.SelectTop | src/vector_store/chroma_store.py:62 | the selection returns `m` distinct positions in non-increasing score order, and no position left out scores higher than one taken |
| MemoryStore.BestPosition | src/vector_store/chroma_store.py:62 | the chosen place holds a score no other place beats |
| MemoryStore.MoveKeepsSplit | src/vector_store/chroma_store.py:62 | moving one position from the candidates to the selection keeps every position in exactly one of them, without repeats |
| MemoryStore.MoveKeepsRanking | src/vector_store/chroma_store.py:62 | moving a best candidate keeps the selection best first and ahead of every remaining candidate |
| MemoryStore.InMemoryStore.constructor | src/vector_store/chroma_store.py:15-21 | a new store is empty and aligned |
| MemoryStore.InMemoryStore.CreateVectorstore | src/vector_store/chroma_store.py:23-33 | the documents are replaced first; the embeddings are replaced when the embedding call succeeds and are left as they were when it raises |
| MemoryStore.InMemoryStore.AddDocuments | src/vector_store/chroma_store.py:35-44 | on an empty store it is `create_vectorstore`; otherwise it appends both lists in order, or changes nothing when embedding fails; alignment is kept |
| MemoryStore.InMemoryStore.SimilaritySearch | src/vector_store/chroma_store.py:46-68 | an empty store raises `ValueError`; otherwise the documents at the top positions of the query's scores, best first |
| MemoryStore.InMemoryStore.AsRetriever | src/vector_store/chroma_store.py:84-103 | refused on an empty store; otherwise a retriever over this store with `k` from `search_kwargs`, 3 by default |
| MemoryStore.AlignedSearchShape | src/vector_store/chroma_store.py:56-64 | a search of an aligned store returns `min(k, n)` stored documents for a positive `k` |
| MemoryStore.AlignedSearchNeverIndexError | src/vector_store/chroma_store.py:62-64 | a search of an aligned store never raises `IndexError` |
| MemoryStore.Retriever.constructor | src/vector_store/chroma_store.py:93-95 | the retriever keeps its store and `k` |
| MemoryStore.Retriever.GetRelevantDocuments | src/vector_store/chroma_store.py:97-98 | exactly `similarity_search(query, k)` |
| MemoryStore.SearchPicksByEmbeddingPosition | src/vector_store/chroma_store.py:57-64 | a search returns the documents at the positions of the best embeddings, so with misaligned lists it returns a document for another document's embedding and never one past the last embedding |
| MemoryStore.Retriever.Invoke | src/vector_store/chroma_store.py:100-101 | exactly `get_relevant_documents(query)` |
| QA.PromptKeepsContextAndQuestion | src/llm/qa_chain.py:25-45 | the prompt is the fixed template with the context and the question each read back verbatim from its own slot |
| QA.SlotsReadBack | src/llm/qa_chain.py:39-43 | the two substituted values can be read back at the offsets the fixed text determines |
| QA.PromptIsInjective | src/llm/qa_chain.py:25-45 | equal prompts with contexts of equal length come from the same context and question |
| QA.ContextKeepsRetrievedTexts | src/llm/qa_chain.py:56-57 | every retrieved text appears whole in the context, in retrieval order |
| Strings.JoinKeepsParts | src/llm/qa_chain.py:57 | `sep.join(parts)` holds every part verbatim, each one separator after the previous |
| QA.SourceOfDescribesDocument | src/llm/qa_chain.py:68-72 | a source names the document's source ("Unknown" if missing) and chunk (0 if missing), and its excerpt has at most 203 characters, starts with the first 200 and is the whole text when that is short enough |
| Strings.PreviewBounds | src/llm/qa_chain.py:71 | an excerpt is at most `n + 3` characters, starts with the first `n`, and is the text itself when no more than `n` |
| QA.Llm.Invoke | src/llm/qa_chain.py:63 | the model is sent the prompt once and its reply is returned |
| QA.QAChain.constructor | src/llm/qa_chain.py:14-18 | a new chain has no retriever |
| QA.QAChain.CreateQaChain | src/llm/qa_chain.py:20-23 | only the retriever changes |
| QA.QAChain.AnswerQuestion | src/llm/qa_chain.py:47-82 | with no retriever it raises `ValueError` and the model is not called; a retrieval failure is raised again; otherwise the model is called once on the filled template and the answer, sources and question are returned |
| QA.AnswerCallsLlmAtMostOnce | src/llm/qa_chain.py:49-63 | at most one prompt is added, exactly when a retriever is set and retrieval succeeds, and earlier prompts are kept |
| QA.AnswerDescribesRetrieval | src/llm/qa_chain.py:54-80 | an answer echoes the question, is the model's reply to the prompt, and has one source per retrieved document, `min(k, n)` of them, source `i` describing retrieved document `i` |
| Orchestrator.DocumentProcessor.constructor | src/document_processor.py:19-52 | a new processor is EMPTY: an empty store and a chain without a retriever |
| Orchestrator.DocumentProcessor.ProcessDocument | src/document_processor.py:54-66 | a refused file changes nothing; a success returns the chunks it appended to the store and leaves the processor READY; a first document with no text stays EMPTY and fails with `as_retriever`'s `ValueError` (or the embedding error, if embedding the empty batch fails); a failed embedding leaves the chain as it was, and on a first document leaves the new chunks in the store beside the old embeddings |
| Orchestrator.DocumentProcessor.AnswerQuestion | src/document_processor.py:68-69 | the chain's answer to the unchanged question; `ValueError` while EMPTY |
| Orchestrator.ReadyAnswersAreNotRefused | src/document_processor.py:60-69 | once READY, a question is never refused for want of a chain or documents; any failure comes from the embedding service, numpy's dimension check (a `ValueError`) or the model |
| PersistentStore.ConvertedHitsAreScored | src/vector_store/chroma_store_persistent.py:143-154 | each hit keeps its text, order and stored metadata, and its score is `1 - distance` |
| PersistentStore.Collection.DeleteAll | src/vector_store/chroma_store_persistent.py:72-74 | every record is deleted |
| PersistentStore.Collection.Add | src/vector_store/chroma_store_persistent.py:78-83 | the records are appended unless ChromaDB refuses them |
| PersistentStore.NumberedIdsAreDistinct | src/vector_store/chroma_store_persistent.py:61 | records numbered by position have distinct ids |
| PersistentStore.ChromaStore.NewRecordsContinueNumbering | src/vector_store/chroma_store_persistent.py:101-106 | records numbered on from the count keep a collection numbered by position, and record `count + i` holds document `i`'s text, metadata and embedding under `hash(text[:100])` |
| PersistentStore.ChromaStore.CreateVectorstore | src/vector_store/chroma_store_persistent.py:49-90 | no documents, a failed embedding or a dropped collection change nothing; otherwise all old records are deleted and the new ones are added from 0 |
| PersistentStore.ChromaStore.AddDocuments | src/vector_store/chroma_store_persistent.py:92-123 | a dropped collection fails and changes nothing; on an empty collection it is `create_vectorstore`; otherwise the records are numbered on from the count and appended, and a failure changes nothing |
| PersistentStore.ChromaStore.SimilaritySearch | src/vector_store/chroma_store_persistent.py:125-161 | the converted hits of a query for `min(k, count)` results, or `[]` on an empty or dropped collection or any error |
| PersistentStore.FoundIsBounded | src/vector_store/chroma_store_persistent.py:137-140 | a search returns at most `min(k, count)` documents, and none from an empty collection |
| PersistentStore.ChromaStore.DeleteCollection | src/vector_store/chroma_store_persistent.py:176-184 | `True` when the client drops the collection, which then holds nothing; `False`, changing nothing, when the client raises, as it does on a collection dropped already |
| PersistentStore.Collection.Drop | src/vector_store/chroma_store_persistent.py:179 | the deleted collection is marked dropped and holds no records |
| PersistentStore.DroppedCollectionFindsNothing | src/vector_store/chroma_store_persistent.py:125-161 | a search on a dropped collection returns `[]` |
| Tools.DispatchMatchesToolList | mcp_server/src/tools.py:109-123 | a name selects a tool exactly when it is that tool's name |
| Tools.DocumentTools.CallTool | mcp_server/src/tools.py:109-125 | "Unknown tool" exactly for the other names, and nothing changes then; otherwise the reply and the effect are those of the selected handler (`UploadReplies`, `AskReplies`, `SearchReplies`, `SummaryReplies`, `EntityReplies`); only an upload changes the store or the chain, and neither an upload nor a search sends the model anything |
| Tools.DocumentTools.Upload | mcp_server/src/tools.py:127-166 | missing fields or an unaccepted extension are refused before the processor is called; a decoding or processing failure is reported; once decoded, the store and the chain change exactly as processing the temporary file does (`Orchestrator.DocumentProcessor.Ingested`), and a success counts the chunks the processor stored |
| UploadNames.TempNameKeepsSuffix | mcp_server/src/tools.py:146-151 | the temporary file keeps the upload's suffix, so the processor chooses the reader the upload's own name selects |
| UploadNames.AcceptedNameReachesReader | mcp_server/src/tools.py:137-151 | an accepted name reaches a reader unless its final component is the bare extension |
| UploadNames.BareExtensionIsRefused | mcp_server/src/tools.py:138 | an accepted name whose final component is the bare extension has no suffix and is refused |
| UploadNames.LongerNameIsRead | mcp_server/src/tools.py:138 | any other accepted name has a known suffix |
| Tools.AskRepliesFollowReadiness | mcp_server/src/tools.py:175-189 | before an upload the reply is "No documents available"; afterwards it is that reply exactly when numpy's dimension check raises `ValueError`; an answer echoes the question and carries the model's reply and the sources |
| Tools.DocumentTools.AskQuestion | mcp_server/src/tools.py:168-189 | an empty or missing question is refused without calling the processor; otherwise the processor's outcome, with every `ValueError` (no chain yet, or numpy's dimension check) mapped to "No documents available" |
| Tools.HitsDescribeDocuments | mcp_server/src/tools.py:206-214 | results are ranked 1, 2, ... in store order, keep the metadata and score, and preview at most 503 characters starting with the first 500 |
| Tools.SearchReplyShape | mcp_server/src/tools.py:194-214 | a search shows `min(limit, n)` stored documents, and fails on an empty store |
| Tools.DocumentTools.Search | mcp_server/src/tools.py:191-225 | an empty or missing query is refused; otherwise the store is searched `limit` deep (3 by default) and each document becomes a ranked result |
| Tools.FocusQuestionCases | mcp_server/src/tools.py:233-241 | each focus gets one of the five questions, an unknown focus the general one, and distinct foci distinct questions |
| Tools.DocumentTools.Summarize | mcp_server/src/tools.py:227-254 | asks the focus's question ("general" by default) and reports the focus as given |
| Tools.ConditionsClassified | mcp_server/src/tools.py:264-275 | the conditions question is filed under "conditions" |
| Tools.MedicationsClassified | mcp_server/src/tools.py:266-275 | the medications question is filed under "medications" |
| Tools.ProceduresClassified | mcp_server/src/tools.py:268-275 | the procedures question is filed under "procedures" |
| Tools.QuestionsFiledByKind | mcp_server/src/tools.py:262-275 | each question asked is filed under the kind it was asked for |
| Tools.RequestedKindsMatchRequest | mcp_server/src/tools.py:262-268 | the kinds asked about are known, requested and distinct, and cover every requested kind, all three for "all" |
| Tools.EntityQuestionsMatchRequest | mcp_server/src/tools.py:258-275 | one question per requested kind, in the order conditions, medications, procedures, each filed back under its own key |
| Tools.EntityResultsAppend | mcp_server/src/tools.py:271-281 | one more question files its answer on top of the earlier ones, or skips it on failure |
| Tools.EntityResultsKeys | mcp_server/src/tools.py:271-281 | every key filed is the key of a question whose answer succeeded |
| Tools.EntityResultsHoldSuccesses | mcp_server/src/tools.py:271-281 | with one key per question, the dictionary holds exactly the successful answers, each under its question's key |
| Tools.DocumentTools.AskFor | mcp_server/src/tools.py:273 | an answer carries its question, and before an upload the question is refused |
| Tools.DocumentTools.AskEach | mcp_server/src/tools.py:270-281 | the loop builds the dictionary of the successful answers, skipping the failures |
| Tools.DocumentTools.ExtractEntities | mcp_server/src/tools.py:256-290 | the requested questions are asked in order (`["all"]` by default) and the reply files their successful answers; before an upload every question fails |
| Tools.AsWrittenOnlyUploadSucceeds | mcp_server/src/tools.py:184-189 | as written, every success reply but the upload's is replaced by its handler's error reply |
| Tools.AsWrittenLosesAnswer | mcp_server/src/tools.py:184-189 | an answered question comes back as "Error answering question" |

## Left out

- Text extraction (PyPDF2 and file reads) is one function from the file kind to the text; page joining and encodings are not modelled.
- The embedding service and the language model are oracles. Their network calls, retries and configuration (OpenAI or Ollama) are not modelled.
- MemoryStore.CosineSimilarity: the score is computed in exact real arithmetic as `sign(dot) * dot^2 / (|a|^2 * |b|^2)`, because there is no square root. This orders vectors exactly as the cosine does (`MemoryStore.CosineOrder`), but floating-point rounding is not modelled.
- MemoryStore.SelectTop: numpy does not fix the order among equal scores, so the contract allows any order of ties.
- Python list aliasing is not modelled: `create_vectorstore` keeps the caller's list, so a later `extend` also grows that list. The model holds sequences as values.
- ChromaDB internals (HNSW ranking, distances, the persistence directory, `get_or_create_collection`) are oracles, and Python's salted `hash` is a parameter. `get_collection_info` only reads the count and is not modelled.
- The async layer, MCP wiring, the JSON text of replies and `list_tools` schemas are not modelled. Replies are a datatype with one constructor per kind of text.
- Arguments of the wrong JSON type (a number as `question`, a string as `entity_types`) are not modelled. `Arguments` holds each property absent or of its declared type.
- The temporary file is not modelled: its write, a failure to write it, its deletion after success, and the file left behind when processing fails. Its name is `TempName(dir, stem, filename)`. The text the processor reads from it is the `read` function's and is not tied to the decoded bytes.
- The search handler's "No documents available for search" branch is not modelled: the processor always owns a store, so the branch cannot be taken.
- `call_tool`'s outer `except` is not modelled: every handler catches its own failures.
- Tools.DocumentTools.ExtractEntities: each answer is stated to carry its question and to be a refusal before an upload, but is not tied to the prompt and the retrieval behind it as `AskQuestion`'s contract is.
- Windows path separators are not modelled. `Path.name` and `Path.suffix` are modelled for `/` only.
- Chunker.BaseName: pathlib's normalisation is not modelled. A trailing slash or a "." component is dropped first (`Path("a/b/").name` is `"b"`), where the model takes the empty tail. The upload path is built from a temporary directory and a name with a suffix, so it ends in neither.
- Chunker.SplitText: a non-positive `chunk_size` is not modelled. Python would read its negative slice bounds from the end of the text; the processor only builds the splitter with 1000 and 200.
- Strings.Lower lower-cases ASCII letters only, where Python's `str.lower` is Unicode-aware. Every literal the core lower-cases or compares against is ASCII.
- QA.Llm.Invoke: the reply is modelled as the text of the model's answer. The processor gives the chain `get_llm()`, langchain's `ChatOpenAI` (src/document_processor.py:50), whose `invoke` returns a message object with the text in `.content`; `qa_chain.py` stores the object itself as the answer, and `json.dumps` in the ask, summarize and extract handlers would raise `TypeError` on it once the `TextContent` lookup is corrected.
- Orchestrator.DocumentProcessor.ProcessDocument: the misaligned store left by a failed first embedding is stated, not repaired. A later upload extends both lists, and searches then return chunks of one file for embeddings of another (`MemoryStore.SearchPicksByEmbeddingPosition`).

## Findings

| source | as written | input that shows it | evidently intended | confidence | as-written member | corrected member |
|---|---|---|---|---|---|---|
| mcp_server/src/tools.py:184 | the ask, search, summarize and extract handlers build their success reply with the bare name `TextContent`. The module imports only `mcp.types as types`, so the lookup raises `NameError`, and each handler's own `except` sends its error reply instead (the same at lines 222, 251 and 288) | `ask_document_question` with `{"question": "Which drug?"}` after a successful upload: the reply is "Error answering question: name 'TextContent' is not defined" | `types.TextContent`, as in every other reply of the module, so that the answer, results, summary or entities reach the client; for the ask, summarize and extract replies also the model's text rather than its message object (see the `QA.Llm.Invoke` line under "Left out"), which `json.dumps` would refuse next | not executed | Tools.AsWrittenOnlyUploadSucceeds | Tools.DocumentTools.AskQuestion |
