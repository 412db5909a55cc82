/** The MCP tools (mcp_server/src/tools.py): five tools over one document
    processor, selected by name. Each handler checks its arguments, calls
    the processor and turns the outcome into a reply. The JSON text of a
    reply is not modelled; its fields are. */
module Tools {
  import opened Wrappers
  import opened Strings
  import opened Documents
  import opened Chunker
  import opened MemoryStore
  import opened QA
  import opened Orchestrator
  import opened UploadNames

  datatype Tool = UploadDocument | AskDocumentQuestion | SearchDocuments | SummarizeDocument | ExtractMedicalEntities

  /** The name each tool is listed under by `list_tools`. */
  function ToolName(t: Tool): string
  {
    match t
    case UploadDocument => "upload_document"
    case AskDocumentQuestion => "ask_document_question"
    case SearchDocuments => "search_documents"
    case SummarizeDocument => "summarize_document"
    case ExtractMedicalEntities => "extract_medical_entities"
  }

  /** `call_tool`'s chain of name tests: the tool a name selects, if any. */
  function ToolOf(name: string): Option<Tool>
  {
    if name == "upload_document" then Some(UploadDocument)
    else if name == "ask_document_question" then Some(AskDocumentQuestion)
    else if name == "search_documents" then Some(SearchDocuments)
    else if name == "summarize_document" then Some(SummarizeDocument)
    else if name == "extract_medical_entities" then Some(ExtractMedicalEntities)
    else None
  }

  /** The dispatch chain and the tool list agree: a name selects a tool
      exactly when it is the name that tool is listed under. */
  lemma {:induction false} DispatchMatchesToolList(name: string, t: Tool)
    ensures ToolOf(name) == Some(t) <==> name == ToolName(t)
  {
  }

  /** The `arguments` dictionary read through the tools' input schemas:
      each property is absent (`None`) or a value of its declared type. */
  datatype Arguments = Arguments(
    content: Option<string>,
    filename: Option<string>,
    question: Option<string>,
    query: Option<string>,
    limit: Option<int>,
    focus: Option<string>,
    entityTypes: Option<seq<string>>)

  /** Python truthiness of an optional string argument. */
  predicate Given(arg: Option<string>)
  {
    arg.Some? && arg.value != ""
  }

  /** One entry of a search reply's `results`. */
  datatype SearchHit = SearchHit(rank: nat, content: string, metadata: Metadata, similarityScore: Option<real>)

  /** One value of `extracted_entities`. */
  datatype EntityAnswer = EntityAnswer(entities: string, sources: seq<SourceEntry>)

  /** The replies the tools send back, one constructor per kind of text. */
  datatype Reply =
    | UnknownTool(name: string)
    | MissingUploadFields
    | UnsupportedUpload
    | Uploaded(filename: string, chunksCreated: nat)
    | ProcessingFailed(error: Error)
    | NoQuestion
    | Answered(answer: string, question: string, sources: seq<SourceEntry>)
    | NoDocuments(error: Error)
    | AnswerFailed(error: Error)
    | NoQuery
    | SearchResults(query: string, results: seq<SearchHit>)
    | SearchFailed(error: Error)
    | Summary(focus: string, summary: string, sources: seq<SourceEntry>)
    | SummaryFailed(error: Error)
    | Entities(extracted: map<string, EntityAnswer>, requested: seq<string>)
    | EntitiesFailed(error: Error)
  {
    /** The replies built in a handler's success branch. */
    predicate IsSuccess()
    {
      Uploaded? || Answered? || SearchResults? || Summary? || Entities?
    }
  }

  /** The kinds of reply each tool's handler can send. */
  predicate RepliesOf(t: Tool, reply: Reply)
  {
    match t
    case UploadDocument => reply.MissingUploadFields? || reply.UnsupportedUpload? || reply.Uploaded? || reply.ProcessingFailed?
    case AskDocumentQuestion => reply.NoQuestion? || reply.Answered? || reply.NoDocuments? || reply.AnswerFailed?
    case SearchDocuments => reply.NoQuery? || reply.SearchResults? || reply.SearchFailed?
    case SummarizeDocument => reply.Summary? || reply.SummaryFailed?
    case ExtractMedicalEntities => reply.Entities? || reply.EntitiesFailed?
  }

  // ---------------------------------------------------------------- ask

  /** The ask handler's reply for the processor's outcome: any `ValueError`
      (no chain yet, or numpy's dimension check) is reported as "No
      documents available", any other failure as "Error answering
      question". */
  function AskReply(r: Result<Answer, Error>): Reply
  {
    match r
    case Ok(a) => Answered(a.answer, a.question, a.sources)
    case Err(ValueError(m)) => NoDocuments(ValueError(m))
    case Err(e) => AnswerFailed(e)
  }

  /** Before any upload, a question is answered "No documents available";
      afterwards only when numpy's dimension check raises its `ValueError`
      (the query's embedding and a stored one differ in length). An answer
      echoes the question and carries the model's reply to the filled
      template. */
  lemma {:induction false} AskRepliesFollowReadiness(p: DocumentProcessor, question: string, r: Result<Answer, Error>,
                                  retrieved: Result<seq<Document>, Error>, top: seq<nat>, before: seq<string>)
    requires p.Valid() && p.qaChain.Outcome(question, r, retrieved, top, before)
    ensures !p.Ready() ==> AskReply(r) == NoDocuments(ValueError(NotInitialized))
    ensures p.Ready() ==> (AskReply(r).NoDocuments? <==> r == Err(ValueError(ShapesNotAligned)))
    ensures AskReply(r).Answered? ==>
      && retrieved.Ok? && AskReply(r).question == question
      && p.qaChain.llm.respond(QaPrompt(Context(retrieved.value), question)) == Some(AskReply(r).answer)
      && AskReply(r).sources == Sources(retrieved.value)
  {
    if p.Ready() {
      ReadyAnswersAreNotRefused(p, question, r, retrieved, top, before);
    }
  }

  // ---------------------------------------------------------------- search

  /** The number of results a search asks for when `limit` is absent. */
  const DefaultLimit := 3

  /** The search reply's `results`: rank from 1, a 500-character preview
      of the content, the metadata, and the `score` metadata entry, if any,
      as the similarity score. */
  function Hits(docs: seq<Document>): seq<SearchHit>
  {
    seq(|docs|, i requires 0 <= i < |docs| =>
      SearchHit(i + 1, Preview(docs[i].pageContent, 500), docs[i].metadata, docs[i].metadata.score))
  }

  /** One result per document, in the order found, ranked 1, 2, ...; each
      shows the document's metadata and at most 503 characters that begin
      with its first 500. */
  lemma {:induction false} HitsDescribeDocuments(docs: seq<Document>)
    ensures |Hits(docs)| == |docs|
    ensures forall i :: 0 <= i < |docs| ==>
      && Hits(docs)[i].rank == i + 1
      && Hits(docs)[i].metadata == docs[i].metadata
      && Hits(docs)[i].similarityScore == docs[i].metadata.score
      && |Hits(docs)[i].content| <= 503
      && StartsWith(Hits(docs)[i].content, docs[i].pageContent[..Min(500, |docs[i].pageContent|)])
  {
    forall i | 0 <= i < |docs|
      ensures |Hits(docs)[i].content| <= 503
      ensures StartsWith(Hits(docs)[i].content, docs[i].pageContent[..Min(500, |docs[i].pageContent|)])
    {
      PreviewBounds(docs[i].pageContent, 500);
    }
  }

  /** A search of an aligned store that succeeds shows `TakeCount(limit, n)`
      stored documents, `min(limit, n)` for a positive limit; on an empty
      store it fails with the store's `ValueError`. */
  lemma {:induction false} SearchReplyShape(store: InMemoryStore, query: string, limit: int, found: Result<seq<Document>, Error>, top: seq<nat>)
    requires store.Aligned() && store.SearchOutcome(query, limit, found, top)
    ensures store.documents == [] ==> found == Err(ValueError(StoreNotInitialized))
    ensures found.Ok? ==> |Hits(found.value)| == TakeCount(limit, |store.documents|)
    ensures found.Ok? && limit >= 1 ==> |Hits(found.value)| == Min(limit, |store.documents|)
    ensures found.Ok? ==> forall i :: 0 <= i < |found.value| ==> found.value[i] in store.documents
  {
    if found.Ok? {
      AlignedSearchShape(store, query, limit, found, top);
    }
  }

  // ---------------------------------------------------------------- summarize

  const GeneralQuestion :=
    "Provide a comprehensive summary of the main content and key points in these documents."

  /** The summarization question for each focus. */
  const FocusQuestions: map<string, string> := map[
    "general" := GeneralQuestion,
    "findings" := "Summarize the key findings, results, and conclusions from these documents.",
    "medications" := "List and summarize all medications, treatments, and therapeutic interventions mentioned.",
    "treatment" := "Summarize all treatment plans, procedures, and interventions discussed.",
    "diagnosis" := "Summarize any diagnoses, conditions, or medical assessments mentioned."
  ]

  /** `focus_questions.get(focus, focus_questions["general"])`. */
  function FocusQuestion(focus: string): string
  {
    if focus in FocusQuestions then FocusQuestions[focus] else FocusQuestions["general"]
  }

  /** Every focus gets one of the five questions: its own when it is one of
      the five keys, the general one otherwise; distinct keys ask distinct
      questions. */
  lemma {:induction false} FocusQuestionCases(focus: string, other: string)
    ensures FocusQuestion(focus) in FocusQuestions.Values
    ensures focus !in FocusQuestions ==> FocusQuestion(focus) == GeneralQuestion
    ensures focus in FocusQuestions && other in FocusQuestions && focus != other ==>
      FocusQuestion(focus) != FocusQuestion(other)
  {
    assert FocusQuestions.Keys == {"general", "findings", "medications", "treatment", "diagnosis"};
  }

  /** The summarize handler's reply: the focus as given, the answer and its
      sources, or "Error generating summary". */
  function SummaryReply(focus: string, r: Result<Answer, Error>): Reply
  {
    match r
    case Ok(a) => Summary(focus, a.answer, a.sources)
    case Err(e) => SummaryFailed(e)
  }

  // ---------------------------------------------------------------- extract

  /** The three extraction questions (split into pieces only to keep each
      literal short). */
  const ConditionsQuestion :=
    "List" + " all medical conditions, " + "diseases, and diagnoses " + "mentioned in the documents."
  const MedicationsQuestion :=
    "List" + " all medications, drugs, " + "and pharmaceutical " + "treatments mentioned."
  const ProceduresQuestion :=
    "List" + " all medical procedures, " + "surgeries, and " + "interventions mentioned."

  /** The entity kinds the extraction tool knows. */
  const EntityKinds: set<string> := {"conditions", "medications", "procedures"}

  /** `"all" in entity_types or kind in entity_types`. */
  predicate Selected(types: seq<string>, kind: string)
  {
    "all" in types || kind in types
  }

  /** The extraction questions for the requested kinds, in the fixed order
      conditions, medications, procedures. */
  function EntityQuestions(types: seq<string>): seq<string>
  {
    (if Selected(types, "conditions") then [ConditionsQuestion] else [])
    + (if Selected(types, "medications") then [MedicationsQuestion] else [])
    + (if Selected(types, "procedures") then [ProceduresQuestion] else [])
  }

  /** The key an answer is filed under, found again from its question's
      wording. */
  function Classify(question: string): string
  {
    if Contains(Lower(question), "condition") then "conditions"
    else if Contains(Lower(question), "medication") then "medications"
    else "procedures"
  }

  lemma ConditionsPiecesAreLowerCase()
    ensures Lower(" all medical conditions, ") == " all medical conditions, "
    ensures Lower("diseases, and diagnoses ") == "diseases, and diagnoses "
    ensures Lower("mentioned in the documents.") == "mentioned in the documents."
  {
    LowerOfNoUpper(" all medical conditions, ");
    LowerOfNoUpper("diseases, and diagnoses ");
    LowerOfNoUpper("mentioned in the documents.");
  }

  lemma LowerConditions()
    ensures Lower(ConditionsQuestion) == "list" + " all medical conditions, " + "diseases, and diagnoses " + "mentioned in the documents."
  {
    LowerOfFour("List", " all medical conditions, ", "diseases, and diagnoses ", "mentioned in the documents.");
    assert Lower("List") == "list";
    ConditionsPiecesAreLowerCase();
  }

  lemma ConditionsMentioned()
    ensures Contains("list" + " all medical conditions, " + "diseases, and diagnoses " + "mentioned in the documents.", "condition")
  {
    var s := "list" + " all medical conditions, " + "diseases, and diagnoses " + "mentioned in the documents.";
    assert s[17..26] == " all medical conditions, "[13..22];
    ContainsAt(s, "condition", 17);
  }

  /** The conditions question mentions "condition". */
  lemma ConditionsClassified()
    ensures Classify(ConditionsQuestion) == "conditions"
  {
    LowerConditions();
    ConditionsMentioned();
  }

  lemma MedicationsPiecesAreLowerCase()
    ensures Lower(" all medications, drugs, ") == " all medications, drugs, "
    ensures Lower("and pharmaceutical ") == "and pharmaceutical "
    ensures Lower("treatments mentioned.") == "treatments mentioned."
  {
    LowerOfNoUpper(" all medications, drugs, ");
    LowerOfNoUpper("and pharmaceutical ");
    LowerOfNoUpper("treatments mentioned.");
  }

  lemma LowerMedications()
    ensures Lower(MedicationsQuestion) == "list" + " all medications, drugs, " + "and pharmaceutical " + "treatments mentioned."
  {
    LowerOfFour("List", " all medications, drugs, ", "and pharmaceutical ", "treatments mentioned.");
    assert Lower("List") == "list";
    MedicationsPiecesAreLowerCase();
  }

  lemma MedicationsMentioned()
    ensures Contains("list" + " all medications, drugs, " + "and pharmaceutical " + "treatments mentioned.", "medication")
    ensures !HasPair("list" + " all medications, drugs, " + "and pharmaceutical " + "treatments mentioned.", 'c', 'o')
  {
    var s := "list" + " all medications, drugs, " + "and pharmaceutical " + "treatments mentioned.";
    assert s[9..19] == " all medications, drugs, "[5..15];
    ContainsAt(s, "medication", 9);
    PairFreeFour("list", " all medications, drugs, ", "and pharmaceutical ", "treatments mentioned.", 'c', 'o');
  }

  /** The medications question mentions "medication" but not "condition"
      (it has no "co" at all). */
  lemma MedicationsClassified()
    ensures Classify(MedicationsQuestion) == "medications"
  {
    LowerMedications();
    MedicationsMentioned();
    ContainedPair(Lower(MedicationsQuestion), "condition", 0);
  }

  lemma ProceduresPiecesAreLowerCase()
    ensures Lower(" all medical procedures, ") == " all medical procedures, "
    ensures Lower("surgeries, and ") == "surgeries, and "
    ensures Lower("interventions mentioned.") == "interventions mentioned."
  {
    LowerOfNoUpper(" all medical procedures, ");
    LowerOfNoUpper("surgeries, and ");
    LowerOfNoUpper("interventions mentioned.");
  }

  lemma LowerProcedures()
    ensures Lower(ProceduresQuestion) == "list" + " all medical procedures, " + "surgeries, and " + "interventions mentioned."
  {
    LowerOfFour("List", " all medical procedures, ", "surgeries, and ", "interventions mentioned.");
    assert Lower("List") == "list";
    ProceduresPiecesAreLowerCase();
  }

  /** The lower-cased procedures question has no "co", so no "condition". */
  lemma ProceduresLackCo()
    ensures !HasPair("list" + " all medical procedures, " + "surgeries, and " + "interventions mentioned.", 'c', 'o')
  {
    PairFreeFour("list", " all medical procedures, ", "surgeries, and ", "interventions mentioned.", 'c', 'o');
  }

  /** ... and no "at", so no "medication". */
  lemma ProceduresLackAt()
    ensures !HasPair("list" + " all medical procedures, " + "surgeries, and " + "interventions mentioned.", 'a', 't')
  {
    PairFreeFour("list", " all medical procedures, ", "surgeries, and ", "interventions mentioned.", 'a', 't');
  }

  /** The procedures question mentions neither "condition" nor
      "medication", so it falls to the last branch. */
  lemma ProceduresClassified()
    ensures Classify(ProceduresQuestion) == "procedures"
  {
    LowerProcedures();
    ProceduresLackCo();
    ProceduresLackAt();
    ContainedPair(Lower(ProceduresQuestion), "condition", 0);
    ContainedPair(Lower(ProceduresQuestion), "medication", 5);
  }

  /** The keys the requested questions are meant for, in asking order. */
  function RequestedKinds(types: seq<string>): seq<string>
  {
    (if Selected(types, "conditions") then ["conditions"] else [])
    + (if Selected(types, "medications") then ["medications"] else [])
    + (if Selected(types, "procedures") then ["procedures"] else [])
  }

  /** Each question asked is filed under the kind it was asked for. */
  lemma {:induction false} QuestionsFiledByKind(types: seq<string>)
    ensures |EntityQuestions(types)| == |RequestedKinds(types)|
    ensures forall i :: 0 <= i < |EntityQuestions(types)| ==> Classify(EntityQuestions(types)[i]) == RequestedKinds(types)[i]
  {
    ConditionsClassified();
    MedicationsClassified();
    ProceduresClassified();
  }

  /** The requested kinds are known, requested, distinct, and cover every
      known kind requested (all three for "all"). */
  lemma {:induction false} RequestedKindsMatchRequest(types: seq<string>)
    ensures |RequestedKinds(types)| <= 3
    ensures forall i :: 0 <= i < |RequestedKinds(types)| ==>
      RequestedKinds(types)[i] in EntityKinds && Selected(types, RequestedKinds(types)[i])
    ensures forall i, j :: 0 <= i < j < |RequestedKinds(types)| ==> RequestedKinds(types)[i] != RequestedKinds(types)[j]
    ensures forall kind :: kind in EntityKinds && Selected(types, kind) ==> kind in RequestedKinds(types)
  {
    var ks := RequestedKinds(types);
    forall i, j | 0 <= i < j < |ks|
      ensures ks[i] != ks[j]
    {
      assert ks[i][0] != ks[j][0];
    }
  }

  /** The questions asked are exactly one per requested kind: each is filed
      back under its own kind, no two under the same key, and every known
      kind that was requested (or all of them, for "all") is asked about. */
  lemma {:induction false} EntityQuestionsMatchRequest(types: seq<string>)
    ensures |EntityQuestions(types)| <= 3
    ensures forall i :: 0 <= i < |EntityQuestions(types)| ==>
      Classify(EntityQuestions(types)[i]) in EntityKinds && Selected(types, Classify(EntityQuestions(types)[i]))
    ensures forall i, j :: 0 <= i < j < |EntityQuestions(types)| ==>
      Classify(EntityQuestions(types)[i]) != Classify(EntityQuestions(types)[j])
    ensures forall kind :: kind in EntityKinds && Selected(types, kind) ==>
      exists i :: 0 <= i < |EntityQuestions(types)| && Classify(EntityQuestions(types)[i]) == kind
  {
    QuestionsFiledByKind(types);
    RequestedKindsMatchRequest(types);
    var qs, ks := EntityQuestions(types), RequestedKinds(types);
    forall kind | kind in EntityKinds && Selected(types, kind)
      ensures exists i :: 0 <= i < |qs| && Classify(qs[i]) == kind
    {
      var i :| 0 <= i < |ks| && ks[i] == kind;
      assert Classify(qs[i]) == kind;
    }
  }

  /** The `extracted_entities` dictionary after asking `questions` in order
      with outcomes `answers`: a failed answer is skipped, a successful one
      is filed under its question's key. */
  function EntityResults(questions: seq<string>, answers: seq<Result<Answer, Error>>): map<string, EntityAnswer>
    requires |answers| == |questions|
  {
    if questions == [] then map[]
    else
      var n := |questions| - 1;
      var earlier := EntityResults(questions[..n], answers[..n]);
      if answers[n].Ok? then earlier[Classify(questions[n]) := EntityAnswer(answers[n].value.answer, answers[n].value.sources)]
      else earlier
  }

  /** Asking one more question files its answer, if it succeeded, on top of
      the earlier ones. */
  lemma {:induction false} EntityResultsAppend(questions: seq<string>, answers: seq<Result<Answer, Error>>,
                            question: string, answer: Result<Answer, Error>)
    requires |answers| == |questions|
    ensures EntityResults(questions + [question], answers + [answer])
      == if answer.Ok? then EntityResults(questions, answers)[Classify(question) := EntityAnswer(answer.value.answer, answer.value.sources)]
         else EntityResults(questions, answers)
  {
    assert (questions + [question])[..|questions|] == questions;
    assert (answers + [answer])[..|answers|] == answers;
  }

  /** The same, for the first `|answers|` questions of a list. */
  lemma {:induction false} EntityResultsStep(questions: seq<string>, answers: seq<Result<Answer, Error>>, answer: Result<Answer, Error>)
    requires |answers| < |questions|
    ensures EntityResults(questions[..|answers| + 1], answers + [answer])
      == if answer.Ok? then EntityResults(questions[..|answers|], answers)[Classify(questions[|answers|]) := EntityAnswer(answer.value.answer, answer.value.sources)]
         else EntityResults(questions[..|answers|], answers)
  {
    var i := |answers|;
    assert questions[..i + 1] == questions[..i] + [questions[i]];
    EntityResultsAppend(questions[..i], answers, questions[i], answer);
  }

  /** Every key of the dictionary is the key of a question whose answer
      succeeded. */
  lemma {:induction false} EntityResultsKeys(questions: seq<string>, answers: seq<Result<Answer, Error>>)
    requires |answers| == |questions|
    ensures forall key :: key in EntityResults(questions, answers) ==>
      exists i :: 0 <= i < |questions| && Classify(questions[i]) == key && answers[i].Ok?
  {
    if questions != [] {
      var n := |questions| - 1;
      EntityResultsKeys(questions[..n], answers[..n]);
      var earlier := EntityResults(questions[..n], answers[..n]);
      forall key | key in EntityResults(questions, answers)
        ensures exists i :: 0 <= i < |questions| && Classify(questions[i]) == key && answers[i].Ok?
      {
        if key !in earlier {
          assert Classify(questions[n]) == key && answers[n].Ok?;
        } else {
          var i :| 0 <= i < n && Classify(questions[..n][i]) == key && answers[..n][i].Ok?;
          assert questions[..n][i] == questions[i] && answers[..n][i] == answers[i];
        }
      }
    }
  }

  /** With one key per question, the dictionary holds exactly the
      successful answers, each under its own question's key. */
  lemma {:induction false} EntityResultsHoldSuccesses(questions: seq<string>, answers: seq<Result<Answer, Error>>)
    requires |answers| == |questions|
    requires forall i, j :: 0 <= i < j < |questions| ==> Classify(questions[i]) != Classify(questions[j])
    ensures forall i :: 0 <= i < |questions| ==>
      && (Classify(questions[i]) in EntityResults(questions, answers) <==> answers[i].Ok?)
      && (answers[i].Ok? ==>
            EntityResults(questions, answers)[Classify(questions[i])]
              == EntityAnswer(answers[i].value.answer, answers[i].value.sources))
  {
    if questions != [] {
      var n := |questions| - 1;
      var qs, ans := questions[..n], answers[..n];
      var earlier := EntityResults(qs, ans);
      EntityResultsHoldSuccesses(qs, ans);
      EntityResultsKeys(qs, ans);
      var last := Classify(questions[n]);
      assert forall j :: 0 <= j < n ==> qs[j] == questions[j];
      assert last !in earlier;
      forall i | 0 <= i < n
        ensures Classify(questions[i]) != last
        ensures (Classify(questions[i]) in EntityResults(questions, answers) <==> answers[i].Ok?)
        ensures answers[i].Ok? ==>
          EntityResults(questions, answers)[Classify(questions[i])]
            == EntityAnswer(answers[i].value.answer, answers[i].value.sources)
      {
        assert qs[i] == questions[i] && ans[i] == answers[i];
      }
    }
  }

  // ---------------------------------------------------------------- the reply lost to `TextContent`

  /** The reply a handler sends when its success branch raises `e`: the
      handler's own `except` turns it into its error reply. */
  function Caught(t: Tool, e: Error): Reply
  {
    match t
    case UploadDocument => ProcessingFailed(e)
    case AskDocumentQuestion => AskReply(Err(e))
    case SearchDocuments => SearchFailed(e)
    case SummarizeDocument => SummaryFailed(e)
    case ExtractMedicalEntities => EntitiesFailed(e)
  }

  /** The reply as the handlers are written, given the reply their logic
      builds: the success branches of the ask, search, summarize and extract
      handlers construct the reply with the bare name `TextContent`, which
      the module never binds (it imports `mcp.types as types`), so building
      it raises `NameError` and the handler's `except` answers instead. */
  function AsWritten(t: Tool, reply: Reply): Reply
  {
    if t != UploadDocument && reply.IsSuccess() then Caught(t, NameError("TextContent")) else reply
  }

  /** As written, only an upload can succeed: every answer, search result,
      summary and extraction is replaced by its handler's error reply. */
  lemma {:induction false} AsWrittenOnlyUploadSucceeds(t: Tool, reply: Reply)
    requires RepliesOf(t, reply)
    ensures RepliesOf(t, AsWritten(t, reply))
    ensures AsWritten(t, reply).IsSuccess() <==> reply.Uploaded?
    ensures t != UploadDocument && reply.IsSuccess() ==> AsWritten(t, reply) != reply
  {
  }

  /** A concrete instance: an answered question comes back as an error. */
  lemma AsWrittenLosesAnswer()
    ensures AsWritten(AskDocumentQuestion, Answered("Metformin.", "Which drug?", []))
      == AnswerFailed(NameError("TextContent"))
  {
  }

  // ---------------------------------------------------------------- the handlers

  /** `DocumentTools`: the handlers over one document processor. They are
      modelled with the success replies their logic builds; `AsWritten`
      gives what the module as written sends instead. */
  class DocumentTools {
    const processor: DocumentProcessor

    constructor (processor: DocumentProcessor)
      ensures this.processor == processor
    {
      this.processor := processor;
    }

    /** What `_upload_document` replies and does to the processor, given
        what the processor made of the file (`processed`). */
    twostate predicate UploadReplies(args: Arguments, decode: string -> Option<seq<bv8>>, dir: string, stem: string,
                                     read: FileKind -> Option<string>, reply: Reply,
                                     new processed: Result<seq<Document>, Error>)
      requires processor.splitter.Valid()
      reads this, processor, processor.vectorStore, processor.qaChain
    {
      && (!(Given(args.content) && Given(args.filename)) ==>
            reply == MissingUploadFields && unchanged(processor.vectorStore, processor.qaChain))
      && (Given(args.content) && Given(args.filename) && !UploadNameAccepted(args.filename.value) ==>
            reply == UnsupportedUpload && unchanged(processor.vectorStore, processor.qaChain))
      && (Given(args.content) && Given(args.filename) && UploadNameAccepted(args.filename.value) ==>
        && (processed.Ok? ==> reply == Uploaded(args.filename.value, |processed.value|))
        && (processed.Err? ==> reply == ProcessingFailed(processed.error))
        && (decode(args.content.value).None? ==>
              processed == Err(DecodingFailed) && unchanged(processor.vectorStore, processor.qaChain))
        && (decode(args.content.value).Some? ==>
              processor.Ingested(TempName(dir, stem, args.filename.value), read, processed))
        && (decode(args.content.value).Some? && Extracted(args.filename.value, read).Err? ==>
              processed == Err(Extracted(args.filename.value, read).error)
              && unchanged(processor.vectorStore, processor.qaChain))
        && (processed.Ok? ==>
              && decode(args.content.value).Some? && Extracted(args.filename.value, read).Ok?
              && processed.value == Tag("tmp" + stem + Suffix(args.filename.value),
                                        Windows(Extracted(args.filename.value, read).value, processor.splitter))
              && processor.vectorStore.documents == old(processor.vectorStore.documents) + processed.value
              && processor.Ready()))
    }

    /** `_upload_document`. Both fields must be non-empty and the name must
        pass the extension check; then the content is decoded (`decode`
        stands for base64 decoding, `None` when it raises), written to the
        temporary file `TempName(dir, stem, filename)` and processed. The
        reply counts the chunks created. */
    method Upload(args: Arguments, decode: string -> Option<seq<bv8>>, dir: string, stem: string,
                  read: FileKind -> Option<string>)
      returns (reply: Reply, ghost processed: Result<seq<Document>, Error>)
      requires processor.Valid() && RandomStem(stem)
      modifies processor.vectorStore, processor.qaChain
      ensures processor.Valid()
      ensures RepliesOf(UploadDocument, reply)
      ensures UploadReplies(args, decode, dir, stem, read, reply, processed)
    {
      if !Given(args.content) || !Given(args.filename) {
        return MissingUploadFields, Err(ValueError("Missing content or filename"));
      }
      var filename := args.filename.value;
      if !UploadNameAccepted(filename) {
        return UnsupportedUpload, Err(ValueError("Only PDF and TXT files are supported"));
      }
      var fileData := decode(args.content.value);
      if fileData.None? {
        return ProcessingFailed(DecodingFailed), Err(DecodingFailed);
      }
      var tempPath := TempName(dir, stem, filename);
      TempNameKeepsSuffix(dir, stem, filename, read);
      var documents := processor.ProcessDocument(tempPath, read);
      processed := documents;
      if documents.Err? {
        return ProcessingFailed(documents.error), processed;
      }
      reply := Uploaded(filename, |documents.value|);
    }

    /** What `_ask_question` replies and sends to the model, given the
        processor's answer and what its retriever found. */
    twostate predicate AskReplies(args: Arguments, reply: Reply, new answered: Result<Answer, Error>,
                                  new retrieved: Result<seq<Document>, Error>, top: seq<nat>)
      reads this, processor, processor.qaChain, processor.qaChain.llm
      reads if processor.qaChain.retriever == null then {} else {processor.qaChain.retriever.store}
    {
      && (!Given(args.question) ==> reply == NoQuestion && unchanged(processor.qaChain.llm))
      && (Given(args.question) ==>
            && processor.qaChain.Outcome(args.question.value, answered, retrieved, top, old(processor.qaChain.llm.prompts))
            && reply == AskReply(answered))
    }

    /** `_ask_question`: an empty or missing question is refused without
        consulting the processor; otherwise the processor's answer. */
    method AskQuestion(args: Arguments)
      returns (reply: Reply, answered: Result<Answer, Error>, ghost retrieved: Result<seq<Document>, Error>,
               ghost top: seq<nat>)
      requires processor.Valid()
      modifies processor.qaChain.llm
      ensures RepliesOf(AskDocumentQuestion, reply)
      ensures AskReplies(args, reply, answered, retrieved, top)
    {
      if !Given(args.question) {
        return NoQuestion, Err(ValueError("No question provided")), Err(ValueError("No question provided")), [];
      }
      answered, retrieved, top := processor.AnswerQuestion(args.question.value);
      reply := AskReply(answered);
    }

    /** What `_search_documents` replies, given what the store found at
        positions `top`. */
    ghost predicate SearchReplies(args: Arguments, reply: Reply, found: Result<seq<Document>, Error>, top: seq<nat>)
      reads this, processor, processor.vectorStore
    {
      && (!Given(args.query) ==> reply == NoQuery)
      && (Given(args.query) ==>
            && processor.vectorStore.SearchOutcome(args.query.value, args.limit.GetOr(DefaultLimit), found, top)
            && (found.Ok? ==> reply == SearchResults(args.query.value, Hits(found.value)))
            && (found.Err? ==> reply == SearchFailed(found.error)))
    }

    /** `_search_documents`: an empty or missing query is refused; otherwise
        the processor's store is searched `limit` deep (3 by default) and
        every document found becomes a ranked result. The guard against a
        missing store never fires: the processor always has one. */
    method Search(args: Arguments)
      returns (reply: Reply, found: Result<seq<Document>, Error>, ghost top: seq<nat>)
      ensures RepliesOf(SearchDocuments, reply)
      ensures SearchReplies(args, reply, found, top)
    {
      if !Given(args.query) {
        return NoQuery, Err(ValueError("No query provided")), [];
      }
      var query := args.query.value;
      found, top := processor.vectorStore.SimilaritySearch(query, args.limit.GetOr(DefaultLimit));
      if found.Err? {
        return SearchFailed(found.error), found, top;
      }
      var docs := found.value;
      var results: seq<SearchHit> := [];
      var i := 0;
      while i < |docs|
        invariant 0 <= i <= |docs| && |results| == i
        invariant forall j :: 0 <= j < i ==>
          results[j] == SearchHit(j + 1, Preview(docs[j].pageContent, 500), docs[j].metadata, docs[j].metadata.score)
      {
        results := results + [SearchHit(i + 1, Preview(docs[i].pageContent, 500), docs[i].metadata, docs[i].metadata.score)];
        i := i + 1;
      }
      assert results == Hits(docs);
      reply := SearchResults(query, results);
    }

    /** What `_summarize_document` replies and sends to the model, given
        the processor's answer and what its retriever found. */
    twostate predicate SummaryReplies(args: Arguments, reply: Reply, new answered: Result<Answer, Error>,
                                      new retrieved: Result<seq<Document>, Error>, top: seq<nat>)
      reads this, processor, processor.qaChain, processor.qaChain.llm
      reads if processor.qaChain.retriever == null then {} else {processor.qaChain.retriever.store}
    {
      && processor.qaChain.Outcome(FocusQuestion(args.focus.GetOr("general")), answered, retrieved, top,
                                   old(processor.qaChain.llm.prompts))
      && reply == SummaryReply(args.focus.GetOr("general"), answered)
    }

    /** `_summarize_document`: asks the question for the focus ("general"
        when absent) and reports the focus as given. */
    method Summarize(args: Arguments)
      returns (reply: Reply, answered: Result<Answer, Error>, ghost retrieved: Result<seq<Document>, Error>,
               ghost top: seq<nat>)
      requires processor.Valid()
      modifies processor.qaChain.llm
      ensures RepliesOf(SummarizeDocument, reply)
      ensures SummaryReplies(args, reply, answered, retrieved, top)
    {
      var focus := args.focus.GetOr("general");
      var question := FocusQuestion(focus);
      answered, retrieved, top := processor.AnswerQuestion(question);
      reply := SummaryReply(focus, answered);
    }

    /** What `_extract_medical_entities` replies, given the answer to each
        question it asks: one answer per question, each carrying its
        question, all refused before an upload, and the successful ones
        filed under their kinds. */
    ghost predicate EntityReplies(args: Arguments, reply: Reply, answers: seq<Result<Answer, Error>>)
      reads this, processor, processor.qaChain
    {
      var questions := EntityQuestions(args.entityTypes.GetOr(["all"]));
      && |answers| == |questions|
      && reply == Entities(EntityResults(questions, answers), args.entityTypes.GetOr(["all"]))
      && (forall i :: 0 <= i < |answers| && answers[i].Ok? ==> answers[i].value.question == questions[i])
      && (!processor.Ready() ==> forall i :: 0 <= i < |answers| ==> answers[i] == Err(ValueError(NotInitialized)))
    }

    /** `_extract_medical_entities`: asks one question per requested kind
        (`["all"]` when absent), skips the ones that fail and files the rest
        under their kinds. Before any upload every question fails, so the
        dictionary is empty. */
    method ExtractEntities(args: Arguments) returns (reply: Reply, ghost answers: seq<Result<Answer, Error>>)
      requires processor.Valid()
      modifies processor.qaChain.llm
      ensures EntityReplies(args, reply, answers)
    {
      var types := args.entityTypes.GetOr(["all"]);
      var results;
      results, answers := AskEach(EntityQuestions(types));
      reply := Entities(results, types);
    }

    /** One extraction question, put to the processor: an answer carries
        the question it answers, and before any upload it is refused. */
    method AskFor(question: string) returns (r: Result<Answer, Error>)
      requires processor.Valid()
      modifies processor.qaChain.llm
      ensures r.Ok? ==> r.value.question == question
      ensures !processor.Ready() ==> r == Err(ValueError(NotInitialized))
    {
      ghost var retrieved, top;
      r, retrieved, top := processor.AnswerQuestion(question);
    }

    /** The loop of `_extract_medical_entities`: each question in turn,
        filing the successful answers under their keys. */
    method AskEach(questions: seq<string>) returns (results: map<string, EntityAnswer>, ghost answers: seq<Result<Answer, Error>>)
      requires processor.Valid()
      modifies processor.qaChain.llm
      ensures |answers| == |questions| && results == EntityResults(questions, answers)
      ensures forall i :: 0 <= i < |answers| && answers[i].Ok? ==> answers[i].value.question == questions[i]
      ensures !processor.Ready() ==> forall i :: 0 <= i < |answers| ==> answers[i] == Err(ValueError(NotInitialized))
    {
      results := map[];
      answers := [];
      var i := 0;
      while i < |questions|
        invariant 0 <= i <= |questions| && |answers| == i
        invariant results == EntityResults(questions[..i], answers)
        invariant forall j :: 0 <= j < i && answers[j].Ok? ==> answers[j].value.question == questions[j]
        invariant !processor.Ready() ==> forall j :: 0 <= j < i ==> answers[j] == Err(ValueError(NotInitialized))
      {
        var result := AskFor(questions[i]);
        EntityResultsStep(questions, answers, result);
        ghost var earlier := answers;
        answers := answers + [result];
        assert answers[i] == result && forall j :: 0 <= j < i ==> answers[j] == earlier[j];
        if result.Ok? {
          results := results[Classify(questions[i]) := EntityAnswer(result.value.answer, result.value.sources)];
        }
        i := i + 1;
      }
      assert questions[..i] == questions;
    }

    /** `call_tool`: the reply of the handler the name selects, or
        "Unknown tool". The ghost results are what the selected handler
        worked from: the processed upload, the processor's answer, what the
        store found and where, and the entity answers. Only an upload
        changes the store or the chain. */
    method CallTool(name: string, args: Arguments, decode: string -> Option<seq<bv8>>, dir: string, stem: string,
                    read: FileKind -> Option<string>)
      returns (reply: Reply, ghost processed: Result<seq<Document>, Error>, ghost answered: Result<Answer, Error>,
               ghost retrieved: Result<seq<Document>, Error>, ghost top: seq<nat>,
               ghost answers: seq<Result<Answer, Error>>)
      requires processor.Valid() && RandomStem(stem)
      modifies processor.vectorStore, processor.qaChain, processor.qaChain.llm
      ensures processor.Valid()
      ensures ToolOf(name).None? ==> reply == UnknownTool(name)
      ensures ToolOf(name).Some? ==> RepliesOf(ToolOf(name).value, reply)
      ensures reply.UnknownTool? <==> ToolOf(name).None?
      ensures ToolOf(name).None? ==> unchanged(processor.vectorStore, processor.qaChain, processor.qaChain.llm)
      ensures ToolOf(name) != Some(UploadDocument) ==> unchanged(processor.vectorStore, processor.qaChain)
      ensures ToolOf(name) == Some(UploadDocument) ==> UploadReplies(args, decode, dir, stem, read, reply, processed)
      ensures ToolOf(name) in {Some(UploadDocument), Some(SearchDocuments)} ==> unchanged(processor.qaChain.llm)
      ensures ToolOf(name) == Some(AskDocumentQuestion) ==> AskReplies(args, reply, answered, retrieved, top)
      ensures ToolOf(name) == Some(SearchDocuments) ==> SearchReplies(args, reply, retrieved, top)
      ensures ToolOf(name) == Some(SummarizeDocument) ==> SummaryReplies(args, reply, answered, retrieved, top)
      ensures ToolOf(name) == Some(ExtractMedicalEntities) ==> EntityReplies(args, reply, answers)
    {
      processed, answered, retrieved, top, answers := Err(ValueError(name)), Err(ValueError(name)), Err(ValueError(name)), [], [];
      match ToolOf(name)
      case None =>
        reply := UnknownTool(name);
      case Some(UploadDocument) =>
        reply, processed := Upload(args, decode, dir, stem, read);
      case Some(AskDocumentQuestion) =>
        var answer;
        reply, answer, retrieved, top := AskQuestion(args);
        answered := answer;
      case Some(SearchDocuments) =>
        var found;
        reply, found, top := Search(args);
        retrieved := found;
      case Some(SummarizeDocument) =>
        var answer;
        reply, answer, retrieved, top := Summarize(args);
        answered := answer;
      case Some(ExtractMedicalEntities) =>
        reply, answers := ExtractEntities(args);
    }
  }
}
