/** The agent's five tools. Each chooses its query and focus text by mode, restricts the
    collections it queries, and returns a record of what it gathered; a missing session (and,
    for two of them, a missing pr_id) makes it raise. */
module Tools {
  import opened Common
  import opened Schemas
  import opened RagUtils

  /** A declared parameter: its name, and its "type" and "description" entries if given. */
  datatype ParamSpec = ParamSpec(name: string, typ: Option<string>, description: Option<string>)

  datatype ToolKind = RagSearch | CollectionPlanner | PrSummary | FileAnalysis | ResponseSynthesis

  /** A tool as registered with the agent: its name, description, declared parameters, and
      which `execute` it runs. */
  datatype Tool = Tool(name: string, description: string, parameters: seq<ParamSpec>, kind: ToolKind)

  function Param(name: string, typ: string, description: string): ParamSpec
  {
    ParamSpec(name, Some(typ), Some(description))
  }

  /** `AVAILABLE_TOOLS`, in registration order. */
  function AvailableTools(): (r: seq<Tool>)
    ensures |r| == 5
    ensures forall i, j :: 0 <= i < j < |r| ==> r[i].name != r[j].name
    ensures forall i :: 0 <= i < |r| ==> r[i].kind == [RagSearch, CollectionPlanner, PrSummary, FileAnalysis, ResponseSynthesis][i]
  {
    [ Tool("rag_search",
           "Search through RAG collections for relevant information about PRs, code, or requirements",
           [Param("query", "string", "The search query"),
            Param("collections", "array", "List of collections to search"),
            Param("focus", "string", "What to focus on in the search")],
           RagSearch),
      Tool("collection_planner",
           "Determine which collections to query based on the user request",
           [Param("query", "string", "The search query")],
           CollectionPlanner),
      Tool("pr_summary",
           "Generate a summary of a pull request",
           [Param("mode", "string", "Summary mode (initial or follow-up)")],
           PrSummary),
      Tool("file_analysis",
           "Analyze a specific file in the PR",
           [Param("file_path", "string", "Path to the file"),
            Param("analysis_type", "string", "Type of analysis to perform")],
           FileAnalysis),
      Tool("response_synthesis",
           "Synthesize a final response based on multiple information sources",
           [Param("query", "string", "Original user query"),
            Param("responses", "array", "List of RAG responses")],
           ResponseSynthesis) ]
  }

  /** The `session_data` a tool receives: the session id, the request's pr_id and mode, the
      history, the live session (absent when not provided) and whether this is the session's
      initial review. */
  datatype SessionContext = SessionContext(
    sessionId: string,
    prId: string,
    history: seq<Message>,
    session: Option<SessionView>,
    mode: string,
    isInitialRequest: bool)

  /** What each tool returns. */
  datatype ToolResult =
    | SearchResult(responses: seq<RetrievalResult>, collectionsSearched: Json, mode: string)
    | PlannerResult(plan: Plan, collections: seq<string>, mode: string)
    | SummaryResult(summary: Synthesis, prId: string, mode: string)
    | FileResult(filePath: Json, analysis: seq<RetrievalResult>, analysisType: Json, mode: string)
    | SynthesisResult(answer: string, sources: seq<Source>, collectionsUsed: seq<string>, sessionMode: Mode)

  /** `execute` returns its record or raises. */
  datatype ToolOutcome = Executed(result: ToolResult) | ToolRaised

  // ===========================================================================
  // Binding `**parameters` to `execute`

  function ParamNames(params: seq<ParamSpec>): (r: seq<string>)
    ensures |r| == |params| && forall k :: 0 <= k < |params| ==> r[k] == params[k].name
  {
    seq(|params|, k requires 0 <= k < |params| => params[k].name)
  }

  /** The arguments of a call `execute(**params, session_data=...)`: `params` must be an object
      whose keys are exactly the declared names (a missing, extra or non-object argument list
      raises TypeError). */
  function BindArgs(names: seq<string>, params: Json): (r: Option<seq<Json>>)
    ensures r.Some? <==>
      && params.JObj?
      && (forall i :: 0 <= i < |params.fields| ==> params.fields[i].0 in names)
      && (forall k :: 0 <= k < |names| ==> Get(params.fields, names[k]).Some?)
    ensures r.Some? ==>
      |r.value| == |names| && forall k :: 0 <= k < |names| ==> Get(params.fields, names[k]) == Some(r.value[k])
  {
    if !params.JObj? then None
    else if exists i :: 0 <= i < |params.fields| && params.fields[i].0 !in names then None
    else if exists k :: 0 <= k < |names| && Get(params.fields, names[k]).None? then None
    else Some(seq(|names|, k requires 0 <= k < |names| => Get(params.fields, names[k]).value))
  }

  // ===========================================================================
  // rag_search

  const DetailedSearchFocus := "PR structure, key changes, potential issues, and code quality aspects"

  /** The search query: a prefix chosen by mode and initial flag, then the caller's query. */
  function SearchQuery(mode: string, initial: bool, query: Json): (r: string)
    ensures EndsWith(r, PyStr(query))
    ensures mode == "co_reviewer" && initial ==> StartsWith(r, "Comprehensive PR review focus - ")
    ensures mode == "co_reviewer" && !initial ==> StartsWith(r, "Detailed code review - ")
    ensures mode != "co_reviewer" ==> StartsWith(r, "Specific query - ")
  {
    var prefix := if mode == "co_reviewer" then
                    (if initial then "Comprehensive PR review focus - " else "Detailed code review - ")
                  else "Specific query - ";
    prefix + PyStr(query)
  }

  /** The search focus: on an initial co-reviewer request a focus mentioning "general" (in any
      case) is replaced by the detailed focus, and a focus that is not a string raises there;
      otherwise the focus is used as given. */
  function SearchFocus(mode: string, initial: bool, focus: Json): (r: Option<string>)
    ensures r.None? <==> mode == "co_reviewer" && initial && !focus.JStr?
    ensures r.Some? && mode == "co_reviewer" && initial ==>
      r.value == if Contains(Lower(focus.s), "general") then DetailedSearchFocus else focus.s
    ensures !(mode == "co_reviewer" && initial) ==> r == Some(PyStr(focus))
  {
    if mode == "co_reviewer" && initial then
      if !focus.JStr? then None
      else if Contains(Lower(focus.s), "general") then Some(DetailedSearchFocus)
      else Some(focus.s)
    else Some(PyStr(focus))
  }

  function RagSearchRun(query: Json, collections: Json, focus: Json, ctx: SessionContext, ext: Externals): ToolOutcome
  {
    if ctx.session.None? then ToolRaised
    else
      var session := ctx.session.value;
      match SearchFocus(ctx.mode, ctx.isInitialRequest, focus)
      case None => ToolRaised
      case Some(focusText) =>
        match Iterate(collections)
        case None => ToolRaised
        case Some(requested) =>
          var q := SearchQuery(ctx.mode, ctx.isInitialRequest, query);
          Executed(SearchResult(Kept(session.queryEngines, Surviving(requested, session.collections), q, focusText, ext),
                                collections, ctx.mode))
  }

  /** The loop of rag_search: each requested name that is a collection of the session is
      queried, in request order, and present results are kept. */
  method SearchCollections(engines: map<string, Engine>, requested: seq<Json>, allowed: seq<string>,
                           query: string, focus: string, ext: Externals) returns (responses: seq<RetrievalResult>)
    ensures responses == Kept(engines, Surviving(requested, allowed), query, focus, ext)
  {
    responses := [];
    var i := 0;
    while i < |requested|
      invariant 0 <= i <= |requested|
      invariant responses == Kept(engines, Surviving(requested[..i], allowed), query, focus, ext)
    {
      SurvivingSnoc(requested, i, allowed);
      ghost var names := Surviving(requested[..i], allowed);
      var collection := requested[i];
      if collection.JStr? && collection.s in allowed {
        assert Surviving(requested[..i + 1], allowed) == names + [collection.s];
        KeptSnoc(engines, names, collection.s, query, focus, ext);
        var response := QueryCollection(engines, collection.s, query, focus, ext);
        if response.Some? {
          responses := responses + [response.value];
        }
      } else {
        assert Surviving(requested[..i + 1], allowed) == names;
      }
      i := i + 1;
    }
    assert requested[..i] == requested;
  }

  /** `RAGSearchTool.execute`. */
  method RagSearchExecute(query: Json, collections: Json, focus: Json, ctx: SessionContext, ext: Externals)
    returns (r: ToolOutcome)
    ensures r == RagSearchRun(query, collections, focus, ctx, ext)
  {
    if ctx.session.None? {
      return ToolRaised;
    }
    var session := ctx.session.value;
    var enhanced := SearchQuery(ctx.mode, ctx.isInitialRequest, query);
    var focusText := SearchFocus(ctx.mode, ctx.isInitialRequest, focus);
    if focusText.None? {
      return ToolRaised;
    }
    var iterated := Iterate(collections);
    if iterated.None? {
      return ToolRaised;
    }
    var responses := SearchCollections(session.queryEngines, iterated.value, session.collections,
                                       enhanced, focusText.value, ext);
    r := Executed(SearchResult(responses, collections, ctx.mode));
  }

  /** rag_search queries only requested names that are collections of the session, and keeps
      only results that are present. */
  lemma RagSearchQueriesSessionCollections(query: Json, collections: Json, focus: Json,
                                           ctx: SessionContext, ext: Externals)
    ensures RagSearchRun(query, collections, focus, ctx, ext).Executed? ==>
      var result := RagSearchRun(query, collections, focus, ctx, ext).result;
      && result.collectionsSearched == collections
      && forall resp :: resp in result.responses ==>
           && resp.collection in ctx.session.value.collections
           && JStr(resp.collection) in Iterate(collections).value
           && resp.collection in ctx.session.value.queryEngines
    ensures ctx.session.None? ==> RagSearchRun(query, collections, focus, ctx, ext) == ToolRaised
  {
    if ctx.session.Some? && RagSearchRun(query, collections, focus, ctx, ext).Executed? {
      var session := ctx.session.value;
      var requested := Iterate(collections).value;
      var q := SearchQuery(ctx.mode, ctx.isInitialRequest, query);
      var f := SearchFocus(ctx.mode, ctx.isInitialRequest, focus).value;
      var names := Surviving(requested, session.collections);
      KeptSpec(session.queryEngines, names, q, f, ext);
      SurvivingFromRequested(requested, session.collections);
    }
  }

  /** Every surviving name was requested as a string. */
  lemma {:induction false} SurvivingFromRequested(requested: seq<Json>, available: seq<string>)
    ensures forall c :: c in Surviving(requested, available) ==> JStr(c) in requested
    decreases |requested|
  {
    if requested != [] {
      var init := requested[..|requested| - 1];
      SurvivingFromRequested(init, available);
      assert forall x :: x in init ==> x in requested;
    }
  }

  // ===========================================================================
  // collection_planner

  /** The planning query: a mode-specific wrapping of the caller's query. */
  function PlannerQuery(mode: string, initial: bool, query: Json): (r: string)
    ensures mode == "co_reviewer" && initial ==>
      && StartsWith(r, "Initial PR review: ") && EndsWith(r, " - Need comprehensive overview.")
      && |r| == 19 + |PyStr(query)| + 31 && r[19..|r| - 31] == PyStr(query)
    ensures mode == "co_reviewer" && !initial ==>
      && StartsWith(r, "Co-reviewer follow up: ") && EndsWith(r, " - Focus on detailed code review aspects.")
      && |r| == 23 + |PyStr(query)| + 41 && r[23..|r| - 41] == PyStr(query)
    ensures mode != "co_reviewer" ==>
      && StartsWith(r, "Interactive assistance: ") && EndsWith(r, " - Focus on specific answers.")
      && |r| == 24 + |PyStr(query)| + 29 && r[24..|r| - 29] == PyStr(query)
  {
    if mode == "co_reviewer" then
      if initial then "Initial PR review: " + PyStr(query) + " - Need comprehensive overview."
      else "Co-reviewer follow up: " + PyStr(query) + " - Focus on detailed code review aspects."
    else "Interactive assistance: " + PyStr(query) + " - Focus on specific answers."
  }

  function PlannerRun(query: Json, ctx: SessionContext, ext: Externals): ToolOutcome
  {
    if ctx.session.None? || ctx.prId == "" then ToolRaised
    else
      match PlanFor(PlannerQuery(ctx.mode, ctx.isInitialRequest, query), ctx.session.value.collections, ctx.prId, ext)
      case PlanRaised => ToolRaised
      case Planned(plan) => Executed(PlannerResult(plan, plan.collections, ctx.mode))
  }

  /** `CollectionPlannerTool.execute`. */
  method PlannerExecute(query: Json, ctx: SessionContext, ext: Externals) returns (r: ToolOutcome)
    ensures r == PlannerRun(query, ctx, ext)
    ensures r.Executed? ==>
      && r.result.collections == r.result.plan.collections
      && forall c :: c in r.result.collections ==> c in ctx.session.value.collections
  {
    if ctx.session.None? || ctx.prId == "" {
      return ToolRaised;
    }
    var enhanced := PlannerQuery(ctx.mode, ctx.isInitialRequest, query);
    var planned := GetCollectionPlan(enhanced, ctx.session.value.collections, ctx.prId, ext);
    if planned.PlanRaised? {
      return ToolRaised;
    }
    PlanIsAvailable(enhanced, ctx.session.value.collections, ctx.prId, ext);
    r := Executed(PlannerResult(planned.plan, planned.plan.collections, ctx.mode));
  }

  lemma PlanIsAvailable(query: string, available: seq<string>, prId: string, ext: Externals)
    ensures PlanFor(query, available, prId, ext).Planned? ==>
      forall c :: c in PlanFor(query, available, prId, ext).plan.collections ==> c in available
  {
    var reply := ext.llm(PlannerPrompt(query, available, prId));
    if reply.Completed? {
      PlanCollectionsAvailable(ext.parse(reply.text), available);
    }
  }

  // ===========================================================================
  // pr_summary

  /** The summary query and focus by agent mode and initial flag. */
  function SummaryQuery(agentMode: string, initial: bool): (r: (string, string))
  {
    if agentMode == "co_reviewer" then
      if initial then ("Generate a comprehensive initial code review summary", "PR structure, key changes, and potential issues")
      else ("Update PR summary with additional details", "PR context for follow-up questions")
    else ("Get key PR information for reference", "PR facts and context for specific questions")
  }

  function PrSummaryRun(summaryMode: Json, ctx: SessionContext, ext: Externals): ToolOutcome
  {
    if ctx.session.None? || ctx.prId == "" then ToolRaised
    else
      var session := ctx.session.value;
      var initial := summaryMode == JStr("initial") || ctx.isInitialRequest;
      var (q, focus) := SummaryQuery(ctx.mode, initial);
      var kept := Kept(session.queryEngines, session.collections, q, focus, ext);
      Executed(SummaryResult(CoReviewerSynthesis(q, AsResponses(kept), session.chatHistory, initial, ext),
                             ctx.prId, ctx.mode))
  }

  /** The summary tool's retrieval loop: every collection is queried, in order. */
  method QueryAllCollections(engines: map<string, Engine>, collections: seq<string>, query: string,
                             focus: string, ext: Externals) returns (responses: seq<RetrievalResult>)
    ensures responses == Kept(engines, collections, query, focus, ext)
  {
    responses := [];
    var i := 0;
    while i < |collections|
      invariant 0 <= i <= |collections|
      invariant responses == Kept(engines, collections[..i], query, focus, ext)
    {
      assert collections[..i + 1] == collections[..i] + [collections[i]];
      KeptSnoc(engines, collections[..i], collections[i], query, focus, ext);
      var response := QueryCollection(engines, collections[i], query, focus, ext);
      if response.Some? {
        responses := responses + [response.value];
      }
      i := i + 1;
    }
    assert collections[..i] == collections;
  }

  /** `PRSummaryTool.execute`: every collection of the session is queried, and the summary is
      written as an initial review exactly when the requested mode is "initial" or this is
      the session's initial request. */
  method PrSummaryExecute(summaryMode: Json, ctx: SessionContext, ext: Externals) returns (r: ToolOutcome)
    ensures r == PrSummaryRun(summaryMode, ctx, ext)
    ensures r.Executed? ==>
      var initial := summaryMode == JStr("initial") || ctx.isInitialRequest;
      ext.llm(CoReviewerPrompt(SummaryQuery(ctx.mode, initial).0,
                               AsResponses(Kept(ctx.session.value.queryEngines, ctx.session.value.collections,
                                                SummaryQuery(ctx.mode, initial).0, SummaryQuery(ctx.mode, initial).1, ext)),
                               ctx.session.value.chatHistory, initial)).Completed?
      ==> r.result.summary.answer == ext.llm(CoReviewerPrompt(SummaryQuery(ctx.mode, initial).0,
                               AsResponses(Kept(ctx.session.value.queryEngines, ctx.session.value.collections,
                                                SummaryQuery(ctx.mode, initial).0, SummaryQuery(ctx.mode, initial).1, ext)),
                               ctx.session.value.chatHistory, initial)).text
  {
    if ctx.session.None? || ctx.prId == "" {
      return ToolRaised;
    }
    var session := ctx.session.value;
    var initial := summaryMode == JStr("initial") || ctx.isInitialRequest;
    var (q, focus) := SummaryQuery(ctx.mode, initial);
    var responses := QueryAllCollections(session.queryEngines, session.collections, q, focus, ext);
    var summary := SynthesizeCoReviewerResponse(q, AsResponses(responses), session.chatHistory, initial, ext);
    r := Executed(SummaryResult(summary, ctx.prId, ctx.mode));
  }

  // ===========================================================================
  // file_analysis

  const DetailedAnalysisType := "code quality, best practices, potential bugs, and improvement suggestions"

  /** The session's source-code collections, in order. */
  function SourceCodeCollections(collections: seq<string>): (r: seq<string>)
    ensures forall c :: c in r <==> c in collections && EndsWith(c, "_source_code")
  {
    if collections == [] then []
    else
      var last := collections[|collections| - 1];
      SourceCodeCollections(collections[..|collections| - 1]) + (if EndsWith(last, "_source_code") then [last] else [])
  }

  lemma SourceCodeSnoc(collections: seq<string>, i: nat)
    requires i < |collections|
    ensures SourceCodeCollections(collections[..i + 1])
            == SourceCodeCollections(collections[..i])
               + (if EndsWith(collections[i], "_source_code") then [collections[i]] else [])
  {
    assert collections[..i + 1][..i] == collections[..i];
  }

  /** The analysis type used: for a co-reviewer one mentioning "general" the detailed type, and
      for a co-reviewer one that is not a string a raise; otherwise as given. */
  function AnalysisType(mode: string, analysisType: Json): (r: Option<Json>)
    ensures r.None? <==> mode == "co_reviewer" && !analysisType.JStr?
    ensures r.Some? && mode == "co_reviewer" && Contains(Lower(analysisType.s), "general") ==>
      r.value == JStr(DetailedAnalysisType)
    ensures r.Some? && !(mode == "co_reviewer" && Contains(Lower(analysisType.s), "general")) ==>
      r.value == analysisType
  {
    if mode == "co_reviewer" then
      if !analysisType.JStr? then None
      else if Contains(Lower(analysisType.s), "general") then Some(JStr(DetailedAnalysisType))
      else Some(analysisType)
    else Some(analysisType)
  }

  function FileQuery(mode: string, filePath: Json): (r: string)
    ensures EndsWith(r, PyStr(filePath))
    ensures mode == "co_reviewer" ==> StartsWith(r, "Review and analyze file in detail: ")
    ensures mode != "co_reviewer" ==> StartsWith(r, "Find specific information about file: ")
  {
    (if mode == "co_reviewer" then "Review and analyze file in detail: " else "Find specific information about file: ")
    + PyStr(filePath)
  }

  function FileFocus(analysisType: Json): string
  {
    "Focus on " + PyStr(analysisType) + " aspects of the file"
  }

  function FileAnalysisRun(filePath: Json, analysisType: Json, ctx: SessionContext, ext: Externals): ToolOutcome
  {
    if ctx.session.None? then ToolRaised
    else
      match AnalysisType(ctx.mode, analysisType)
      case None => ToolRaised
      case Some(kind) =>
        var session := ctx.session.value;
        var kept := Kept(session.queryEngines, SourceCodeCollections(session.collections),
                         FileQuery(ctx.mode, filePath), FileFocus(kind), ext);
        Executed(FileResult(filePath, kept, kind, ctx.mode))
  }

  /** The loop of file_analysis: each source-code collection of the session is queried, in
      order, and present results are kept. */
  method QuerySourceCode(engines: map<string, Engine>, collections: seq<string>, query: string,
                         focus: string, ext: Externals) returns (responses: seq<RetrievalResult>)
    ensures responses == Kept(engines, SourceCodeCollections(collections), query, focus, ext)
  {
    responses := [];
    var i := 0;
    while i < |collections|
      invariant 0 <= i <= |collections|
      invariant responses == Kept(engines, SourceCodeCollections(collections[..i]), query, focus, ext)
    {
      SourceCodeSnoc(collections, i);
      ghost var names := SourceCodeCollections(collections[..i]);
      var collection := collections[i];
      if EndsWith(collection, "_source_code") {
        assert SourceCodeCollections(collections[..i + 1]) == names + [collection];
        KeptSnoc(engines, names, collection, query, focus, ext);
        var response := QueryCollection(engines, collection, query, focus, ext);
        if response.Some? {
          responses := responses + [response.value];
        }
      } else {
        assert SourceCodeCollections(collections[..i + 1]) == names;
      }
      i := i + 1;
    }
    assert collections[..i] == collections;
  }

  /** `FileAnalysisTool.execute`. */
  method FileAnalysisExecute(filePath: Json, analysisType: Json, ctx: SessionContext, ext: Externals)
    returns (r: ToolOutcome)
    ensures r == FileAnalysisRun(filePath, analysisType, ctx, ext)
  {
    if ctx.session.None? {
      return ToolRaised;
    }
    var session := ctx.session.value;
    var kind := AnalysisType(ctx.mode, analysisType);
    if kind.None? {
      return ToolRaised;
    }
    var query := FileQuery(ctx.mode, filePath);
    var focus := FileFocus(kind.value);
    var responses := QuerySourceCode(session.queryEngines, session.collections, query, focus, ext);
    r := Executed(FileResult(filePath, responses, kind.value, ctx.mode));
  }

  /** file_analysis only reports results of source-code collections of the session. */
  lemma FileAnalysisQueriesSourceCode(filePath: Json, analysisType: Json, ctx: SessionContext, ext: Externals)
    ensures FileAnalysisRun(filePath, analysisType, ctx, ext).Executed? ==>
      forall resp :: resp in FileAnalysisRun(filePath, analysisType, ctx, ext).result.analysis ==>
        resp.collection in ctx.session.value.collections && EndsWith(resp.collection, "_source_code")
  {
    if FileAnalysisRun(filePath, analysisType, ctx, ext).Executed? {
      var session := ctx.session.value;
      var kind := AnalysisType(ctx.mode, analysisType).value;
      KeptSpec(session.queryEngines, SourceCodeCollections(session.collections),
               FileQuery(ctx.mode, filePath), FileFocus(kind), ext);
    }
  }

  // ===========================================================================
  // response_synthesis

  /** A provenance record decoded from a JSON object of strings; a later key overrides. */
  function SourceFromFields(fields: seq<(string, Json)>): Option<Source>
  {
    if fields == [] then Some(map[])
    else
      var last := fields[|fields| - 1];
      match SourceFromFields(fields[..|fields| - 1])
      case None => None
      case Some(m) => if last.1.JStr? then Some(m[last.0 := last.1.s]) else None
  }

  function SourcesFrom(items: seq<Json>): Option<seq<Source>>
  {
    if items == [] then Some([])
    else
      var last := items[|items| - 1];
      match SourcesFrom(items[..|items| - 1])
      case None => None
      case Some(rest) =>
        if !last.JObj? then None
        else match SourceFromFields(last.fields)
             case None => None
             case Some(src) => Some(rest + [src])
  }

  /** One element of the `responses` argument: a falsy element is skipped; an object with a
      string "collection", a string "answer" and (optionally) a list of string-valued
      "sources" objects is a retrieval result; anything else raises. */
  function DecodeResponse(item: Json): Option<Option<RetrievalResult>>
  {
    if !Truthy(item) then Some(None)
    else if !item.JObj? then None
    else
      var collection := Get(item.fields, "collection");
      var answer := Get(item.fields, "answer");
      var sources := Get(item.fields, "sources");
      if collection.None? || !collection.value.JStr? || answer.None? || !answer.value.JStr? then None
      else
        var decoded := if sources.None? then Some([])
                       else if sources.value.JArr? then SourcesFrom(sources.value.items)
                       else None;
        if decoded.None? then None
        else Some(Some(RetrievalResult(answer.value.s, decoded.value, collection.value.s)))
  }

  function DecodeResponses(items: seq<Json>): (r: Option<seq<Option<RetrievalResult>>>)
    ensures r.Some? <==> forall k :: 0 <= k < |items| ==> DecodeResponse(items[k]).Some?
    ensures r.Some? ==> |r.value| == |items|
    ensures r.Some? ==> forall k :: 0 <= k < |items| ==> r.value[k] == DecodeResponse(items[k]).value
  {
    if items == [] then Some([])
    else
      match DecodeResponses(items[..|items| - 1])
      case None => None
      case Some(rest) =>
        match DecodeResponse(items[|items| - 1])
        case None => None
        case Some(d) => Some(rest + [d])
  }

  function ResponseSynthesisRun(query: Json, responses: Json, ctx: SessionContext, ext: Externals): ToolOutcome
  {
    if ctx.session.None? then ToolRaised
    else
      var session := ctx.session.value;
      match Iterate(responses)
      case None => ToolRaised
      case Some(items) =>
        match DecodeResponses(items)
        case None => ToolRaised
        case Some(decoded) =>
          var syn := if session.mode == CoReviewer
                     then CoReviewerSynthesis(PyStr(query), decoded, session.chatHistory, ctx.isInitialRequest, ext)
                     else InteractiveSynthesis(PyStr(query), decoded, session.chatHistory, ext);
          Executed(SynthesisResult(syn.answer, syn.sources, syn.collectionsUsed, session.mode))
  }

  /** `ResponseSynthesisTool.execute`: the synthesis follows the session's own mode. */
  method ResponseSynthesisExecute(query: Json, responses: Json, ctx: SessionContext, ext: Externals)
    returns (r: ToolOutcome)
    ensures r == ResponseSynthesisRun(query, responses, ctx, ext)
    ensures r.Executed? ==> r.result.sessionMode == ctx.session.value.mode && Distinct(r.result.collectionsUsed)
  {
    if ctx.session.None? {
      return ToolRaised;
    }
    var session := ctx.session.value;
    var items := Iterate(responses);
    if items.None? {
      return ToolRaised;
    }
    var decoded := DecodeResponses(items.value);
    if decoded.None? {
      return ToolRaised;
    }
    var syn: Synthesis;
    if session.mode == CoReviewer {
      syn := SynthesizeCoReviewerResponse(PyStr(query), decoded.value, session.chatHistory, ctx.isInitialRequest, ext);
    } else {
      syn := SynthesizeInteractiveResponse(PyStr(query), decoded.value, session.chatHistory, ext);
    }
    UsedCollectionsSpec(decoded.value);
    r := Executed(SynthesisResult(syn.answer, syn.sources, syn.collectionsUsed, session.mode));
  }

  // ===========================================================================
  // Dispatch

  /** `tool.execute(**params, session_data=ctx)`. */
  function Execute(tool: Tool, params: Json, ctx: SessionContext, ext: Externals): ToolOutcome
  {
    match BindArgs(ParamNames(tool.parameters), params)
    case None => ToolRaised
    case Some(args) =>
      match tool.kind
      case RagSearch => if |args| == 3 then RagSearchRun(args[0], args[1], args[2], ctx, ext) else ToolRaised
      case CollectionPlanner => if |args| == 1 then PlannerRun(args[0], ctx, ext) else ToolRaised
      case PrSummary => if |args| == 1 then PrSummaryRun(args[0], ctx, ext) else ToolRaised
      case FileAnalysis => if |args| == 2 then FileAnalysisRun(args[0], args[1], ctx, ext) else ToolRaised
      case ResponseSynthesis => if |args| == 2 then ResponseSynthesisRun(args[0], args[1], ctx, ext) else ToolRaised
  }

  method ExecuteTool(tool: Tool, params: Json, ctx: SessionContext, ext: Externals) returns (r: ToolOutcome)
    ensures r == Execute(tool, params, ctx, ext)
  {
    var args := BindArgs(ParamNames(tool.parameters), params);
    if args.None? {
      return ToolRaised;
    }
    var a := args.value;
    match tool.kind
    case RagSearch =>
      if |a| != 3 { return ToolRaised; }
      r := RagSearchExecute(a[0], a[1], a[2], ctx, ext);
    case CollectionPlanner =>
      if |a| != 1 { return ToolRaised; }
      r := PlannerExecute(a[0], ctx, ext);
    case PrSummary =>
      if |a| != 1 { return ToolRaised; }
      r := PrSummaryExecute(a[0], ctx, ext);
    case FileAnalysis =>
      if |a| != 2 { return ToolRaised; }
      r := FileAnalysisExecute(a[0], a[1], ctx, ext);
    case ResponseSynthesis =>
      if |a| != 2 { return ToolRaised; }
      r := ResponseSynthesisExecute(a[0], a[1], ctx, ext);
  }

  /** Without a session every tool raises, whatever its arguments; the planner and the
      summary also raise for an empty pr_id. */
  lemma MissingSessionRaises(tool: Tool, params: Json, ctx: SessionContext, ext: Externals)
    requires ctx.session.None? || (ctx.prId == "" && tool.kind in {CollectionPlanner, PrSummary})
    ensures Execute(tool, params, ctx, ext) == ToolRaised
  {
  }
}
