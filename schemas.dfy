/** The data shapes of the assistant: interaction modes, chat messages, retrieval records,
    the external collaborators (language model, JSON parser, vector index on disk) and the
    per-conversation session record. */
module Schemas {
  import opened Common

  /** The two interaction modes a session is created in. */
  datatype Mode = CoReviewer | InteractiveAssistant

  function ModeName(m: Mode): string
  {
    match m
    case CoReviewer => "co_reviewer"
    case InteractiveAssistant => "interactive_assistant"
  }

  /** Validation of the `Literal["co_reviewer", "interactive_assistant"]` field of a session. */
  function ParseMode(s: string): (r: Option<Mode>)
    ensures r.Some? <==> s == "co_reviewer" || s == "interactive_assistant"
    ensures r.Some? ==> ModeName(r.value) == s
  {
    if s == "co_reviewer" then Some(CoReviewer)
    else if s == "interactive_assistant" then Some(InteractiveAssistant)
    else None
  }

  lemma ParseModeName(m: Mode)
    ensures ParseMode(ModeName(m)) == Some(m)
  {
  }

  /** The query the first co-reviewer turn of a session is replaced with. */
  const InitialReviewQuery := "Generate a comprehensive initial code review summary for this PR."

  datatype Role = User | Assistant

  /** One `{"role": ..., "content": ...}` entry of a chat history. */
  datatype Message = Message(role: Role, content: string)

  /** One provenance record: the chunk's `text_preview` merged with the chunk's metadata. */
  type Source = map<string, string>

  /** A retrieved chunk: its text and its metadata. */
  datatype Node = Node(text: string, metadata: map<string, string>)

  /** What a collection's query engine gives back for one query: a generated answer with the
      chunks it was conditioned on, or an exception. */
  datatype EngineReply = Answered(answer: string, nodes: seq<Node>) | EngineFailed

  /** A loaded collection's query engine, as an opaque function of the query text. */
  datatype Engine = Engine(query: string -> EngineReply)

  /** What the retrieval gateway returns for one collection. */
  datatype RetrievalResult = RetrievalResult(answer: string, sources: seq<Source>, collection: string)

  /** An HTTP error raised to the transport layer. */
  datatype HttpError = HttpError(status: int, reason: ErrorReason)

  datatype ErrorReason =
    | SessionConflict      // session exists with another pr_id or mode
    | SessionNotFound      // an explicit session id that is not stored
    | IndexLoadFailed      // no index directory, or no collection could be loaded
    | ApiKeyMissing        // OPENAI_API_KEY unset or left at its placeholder
    | ChatProcessingFailed // anything raised while planning, retrieving or synthesising
    | Unexpected           // any other exception reaching the agent service

  /** An exception as the callers tell them apart: an HTTPException, or anything else. */
  datatype Raised = HttpRaised(error: HttpError) | OtherRaised

  /** What a language-model completion call does: returns text, or raises. KeyError is told
      apart because the synthesis functions catch it separately. */
  datatype Completion = Completed(text: string) | KeyErrorRaised | ErrorRaised

  /** A prompt, recorded by the inputs it is built from; its wording is not modelled. */
  datatype Prompt =
    | PlannerPrompt(query: string, available: seq<string>, prId: string)
    | CoReviewerPrompt(query: string, responses: seq<Option<RetrievalResult>>,
                       history: seq<Message>, initialReview: bool)
    | InteractivePrompt(query: string, responses: seq<Option<RetrievalResult>>, history: seq<Message>)
    | AgentPrompt(request: string, prId: string, sessionId: string, exchanges: int, mode: string,
                  initialRequest: bool, systemPrompt: Mode, toolsList: string)
    | AgentSynthesisPrompt(request: string, initialReview: bool, gathered: seq<RetrievalResult>)

  /** One pull request's index directory: the collections its vector database lists, and the
      query engine of each collection whose persisted storage loads. */
  datatype ProjectIndex = ProjectIndex(collections: seq<string>, storage: map<string, Engine>)

  /** Everything outside the core: the language model, `json.loads`, the two regular
      expressions, the index directories on disk (by pr_id) and the OPENAI_API_KEY variable. */
  datatype Externals = Externals(
    llm: Prompt -> Completion,
    parse: string -> Option<Json>,
    fencedBlocks: string -> seq<string>,
    filePathHint: string -> Option<string>,
    indexes: map<string, ProjectIndex>,
    apiKey: Option<string>)

  /** The value of a session at one moment. */
  datatype SessionView = SessionView(
    prId: string,
    mode: Mode,
    chatHistory: seq<Message>,
    initialReviewGenerated: bool,
    queryEngines: map<string, Engine>,
    collections: seq<string>)

  /** Per-conversation state. pr_id, mode, the query engines and the collection names are
      fixed when the session is created; the history and the flag are updated in place. */
  class SessionData {
    const prId: string
    const mode: Mode
    var chatHistory: seq<Message>
    var initialReviewGenerated: bool
    const queryEngines: map<string, Engine>
    const collections: seq<string>

    constructor (prId: string, mode: Mode, queryEngines: map<string, Engine>, collections: seq<string>)
      ensures this.prId == prId && this.mode == mode
      ensures this.queryEngines == queryEngines && this.collections == collections
      ensures chatHistory == [] && !initialReviewGenerated
    {
      this.prId := prId;
      this.mode := mode;
      this.queryEngines := queryEngines;
      this.collections := collections;
      chatHistory := [];
      initialReviewGenerated := false;
    }

    function View(): (v: SessionView)
      reads this
      ensures v.chatHistory == chatHistory && v.initialReviewGenerated == initialReviewGenerated
      ensures v.prId == prId && v.mode == mode
      ensures v.queryEngines == queryEngines && v.collections == collections
    {
      SessionView(prId, mode, chatHistory, initialReviewGenerated, queryEngines, collections)
    }
  }
}
