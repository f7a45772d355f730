/** The tool-using agent: it asks the language model which tools to run, extracts the JSON
    selection from the reply, runs the selected registered tools in order, and synthesises a
    response from their results, falling back to the model's raw reply. */
module Agent {
  import opened Common
  import opened Schemas
  import opened RagUtils
  import opened Tools

  // ===========================================================================
  // JSON extraction

  /** The first fenced block that parses, in order of occurrence. */
  function FirstParsed(blocks: seq<string>, ext: Externals): (r: Option<Json>)
    ensures r.None? <==> forall k :: 0 <= k < |blocks| ==> ext.parse(blocks[k]).None?
    ensures r.Some? ==>
      exists k :: 0 <= k < |blocks| && ext.parse(blocks[k]) == r
                  && forall j :: 0 <= j < k ==> ext.parse(blocks[j]).None?
  {
    if blocks == [] then None
    else match ext.parse(blocks[0])
      case Some(j) => Some(j)
      case None =>
        var rest := FirstParsed(blocks[1..], ext);
        assert forall k :: 1 <= k < |blocks| ==> blocks[1..][k - 1] == blocks[k];
        rest
  }

  /** `text[first '{' .. last '}']`, inclusive, when the first '{' comes before the last '}'. */
  function BraceSpan(text: string): (r: Option<string>)
    ensures r.Some? ==>
      |r.value| >= 2 && r.value[0] == '{' && r.value[|r.value| - 1] == '}' && |r.value| <= |text|
    ensures r.None? <==> !(Find(text, '{') >= 0 && RFind(text, '}') > Find(text, '{'))
  {
    var start := Find(text, '{');
    var end := RFind(text, '}');
    if start >= 0 && end > start then Some(text[start..end + 1]) else None
  }

  predicate IsControl(c: char)
  {
    c == '\n' || c == '\r' || c == '\t'
  }

  /** `re.sub(r'[\n\r\t]', '', s)`. */
  function StripControls(s: string): (r: string)
    ensures forall c :: c in r <==> c in s && !IsControl(c)
    ensures |r| <= |s|
    ensures (forall k :: 0 <= k < |s| ==> !IsControl(s[k])) ==> r == s
  {
    if s == [] then ""
    else
      var rest := StripControls(s[1..]);
      assert forall c :: c in s <==> c == s[0] || c in s[1..];
      if IsControl(s[0]) then rest else [s[0]] + rest
  }

  /** Removal works piece by piece, so the kept characters stay in order and keep their
      repetitions. */
  lemma {:induction false} StripControlsAppend(a: string, b: string)
    ensures StripControls(a + b) == StripControls(a) + StripControls(b)
    decreases |a|
  {
    if a == [] {
      assert a + b == b;
    } else {
      assert (a + b)[0] == a[0];
      assert (a + b)[1..] == a[1..] + b;
      StripControlsAppend(a[1..], b);
    }
  }

  /** `_extract_json`: the whole text, else the first fenced block, else the brace span (and
      once more without line breaks and tabs) that parses; `{}` when nothing does. */
  function ExtractJson(text: string, ext: Externals): Json
  {
    match ext.parse(text)
    case Some(j) => j
    case None =>
      match FirstParsed(ext.fencedBlocks(text), ext)
      case Some(j) => j
      case None =>
        match BraceSpan(text)
        case None => JObj([])
        case Some(span) =>
          match ext.parse(span)
          case Some(j) => j
          case None =>
            match ext.parse(StripControls(span))
            case Some(j) => j
            case None => JObj([])
  }

  /** The texts `_extract_json` tries, in order: the whole text, the fenced blocks, and the
      brace span as it is and without line breaks and tabs. */
  function Candidates(text: string, ext: Externals): seq<string>
  {
    [text] + ext.fencedBlocks(text)
    + (if BraceSpan(text).Some? then [BraceSpan(text).value, StripControls(BraceSpan(text).value)] else [])
  }

  /** Searching a concatenation finds the first part's block when it has one, else the second's. */
  lemma {:induction false} FirstParsedAppend(a: seq<string>, b: seq<string>, ext: Externals)
    ensures FirstParsed(a + b, ext) == if FirstParsed(a, ext).Some? then FirstParsed(a, ext) else FirstParsed(b, ext)
    decreases |a|
  {
    if a == [] {
      assert a + b == b;
    } else {
      assert (a + b)[0] == a[0];
      assert (a + b)[1..] == a[1..] + b;
      FirstParsedAppend(a[1..], b, ext);
    }
  }

  /** The cascade is the first candidate that parses, `{}` when none does. */
  lemma ExtractJsonCascade(text: string, ext: Externals)
    ensures var first := FirstParsed(Candidates(text, ext), ext);
      ExtractJson(text, ext) == if first.Some? then first.value else JObj([])
  {
    var span := if BraceSpan(text).Some? then [BraceSpan(text).value, StripControls(BraceSpan(text).value)] else [];
    FirstParsedAppend([text] + ext.fencedBlocks(text), span, ext);
    FirstParsedAppend([text], ext.fencedBlocks(text), ext);
    if BraceSpan(text).Some? {
      FirstParsedAppend([span[0]], [span[1]], ext);
      assert span == [span[0]] + [span[1]];
    }
  }

  /** When no stage parses, the result is the empty object. */
  lemma ExtractJsonEmpty(text: string, ext: Externals)
    requires ext.parse(text).None?
    requires forall k :: 0 <= k < |ext.fencedBlocks(text)| ==> ext.parse(ext.fencedBlocks(text)[k]).None?
    requires BraceSpan(text).Some? ==>
      ext.parse(BraceSpan(text).value).None? && ext.parse(StripControls(BraceSpan(text).value)).None?
    ensures ExtractJson(text, ext) == JObj([])
  {
  }

  // ===========================================================================
  // The tools prompt

  /** The system prompt chosen for a mode: an unknown mode gets the co-reviewer prompt. */
  function PromptMode(mode: string): (r: Mode)
    ensures r == InteractiveAssistant <==> mode == "interactive_assistant"
  {
    if mode == "interactive_assistant" then InteractiveAssistant else CoReviewer
  }

  function ParamLine(p: ParamSpec): string
  {
    "  - " + p.name + " (" + (if p.typ.Some? then p.typ.value else "any") + "): "
    + (if p.description.Some? then p.description.value else "")
  }

  function ToolEntry(t: Tool): (r: string)
    ensures StartsWith(r, "- " + t.name + ": " + t.description + "\n  Parameters:\n")
  {
    "- " + t.name + ": " + t.description + "\n" + "  Parameters:\n"
    + Join("\n", seq(|t.parameters|, k requires 0 <= k < |t.parameters| => ParamLine(t.parameters[k])))
  }

  function ToolEntries(tools: seq<Tool>): (r: seq<string>)
    ensures |r| == |tools| && forall k :: 0 <= k < |tools| ==> r[k] == ToolEntry(tools[k])
  {
    seq(|tools|, k requires 0 <= k < |tools| => ToolEntry(tools[k]))
  }

  /** The `tools_list` the system prompt is filled with. */
  function ToolsList(tools: seq<Tool>): string
  {
    Join("\n\n", ToolEntries(tools))
  }

  /** Registering one more tool appends its entry to the tools list. */
  lemma ToolsListAppend(tools: seq<Tool>, t: Tool)
    requires tools != []
    ensures ToolsList(tools + [t]) == ToolsList(tools) + "\n\n" + ToolEntry(t)
  {
    assert ToolEntries(tools + [t]) == ToolEntries(tools) + [ToolEntry(t)];
    JoinAppend("\n\n", ToolEntries(tools), ToolEntry(t));
  }

  // ===========================================================================
  // Tool lookup and dispatch

  /** The first registered tool whose name equals `name`. */
  function FindTool(tools: seq<Tool>, name: Json): (r: Option<Tool>)
    ensures r.None? <==> forall k :: 0 <= k < |tools| ==> name != JStr(tools[k].name)
    ensures r.Some? ==>
      exists k :: 0 <= k < |tools| && tools[k] == r.value && name == JStr(r.value.name)
                  && forall j :: 0 <= j < k ==> name != JStr(tools[j].name)
  {
    if tools == [] then None
    else if name == JStr(tools[0].name) then Some(tools[0])
    else
      var rest := FindTool(tools[1..], name);
      assert forall k :: 1 <= k < |tools| ==> tools[1..][k - 1] == tools[k];
      rest
  }

  /** The state of the dispatch loop: the names of the tools found so far, the results of
      those that ran, and whether one of them (or a malformed selection) raised. */
  datatype Dispatch = Dispatch(used: seq<string>, results: seq<(string, ToolResult)>, raised: bool)

  /** One selection: a selection that is not an object raises; an unknown or missing name is
      skipped; a known tool is recorded, then run with its "parameters" (default `{}`). */
  function Step(tools: seq<Tool>, d: Dispatch, selection: Json, ctx: SessionContext, ext: Externals): Dispatch
  {
    if !selection.JObj? then Dispatch(d.used, d.results, true)
    else
      var name := Get(selection.fields, "name");
      var tool := if name.Some? then FindTool(tools, name.value) else None;
      if tool.None? then d
      else
        var t := tool.value;
        var params := Get(selection.fields, "parameters");
        match Execute(t, if params.Some? then params.value else JObj([]), ctx, ext)
        case ToolRaised => Dispatch(d.used + [t.name], d.results, true)
        case Executed(result) => Dispatch(d.used + [t.name], d.results + [(t.name, result)], false)
  }

  /** The dispatch loop over the selections, stopping at the first raise. */
  function DispatchRun(tools: seq<Tool>, selections: seq<Json>, ctx: SessionContext, ext: Externals): Dispatch
  {
    if selections == [] then Dispatch([], [], false)
    else
      var d := DispatchRun(tools, selections[..|selections| - 1], ctx, ext);
      if d.raised then d else Step(tools, d, selections[|selections| - 1], ctx, ext)
  }

  /** Every recorded name is a registered tool's; without a raise the recorded names are
      exactly the names of the results, in order. */
  lemma {:induction false} DispatchRecordsTools(tools: seq<Tool>, selections: seq<Json>, ctx: SessionContext,
                                               ext: Externals)
    ensures var d := DispatchRun(tools, selections, ctx, ext);
      && (forall n :: n in d.used ==> exists k :: 0 <= k < |tools| && tools[k].name == n)
      && |d.results| <= |d.used| <= |selections|
      && (!d.raised ==> |d.used| == |d.results| && forall k :: 0 <= k < |d.used| ==> d.used[k] == d.results[k].0)
    decreases |selections|
  {
    if selections != [] {
      DispatchRecordsTools(tools, selections[..|selections| - 1], ctx, ext);
    }
  }

  /** Once a selection raises, later selections are not run. */
  lemma {:induction false} DispatchStopsAtRaise(tools: seq<Tool>, selections: seq<Json>, i: nat,
                                               ctx: SessionContext, ext: Externals)
    requires i <= |selections|
    requires DispatchRun(tools, selections[..i], ctx, ext).raised
    ensures DispatchRun(tools, selections, ctx, ext) == DispatchRun(tools, selections[..i], ctx, ext)
    decreases |selections| - i
  {
    if i < |selections| {
      assert selections[..i + 1][..i] == selections[..i];
      DispatchStopsAtRaise(tools, selections, i + 1, ctx, ext);
    } else {
      assert selections[..i] == selections;
    }
  }

  /** An object selection whose "name" is missing or names no registered tool. */
  predicate Unknown(tools: seq<Tool>, selection: Json)
  {
    selection.JObj? &&
    (Get(selection.fields, "name").None? || FindTool(tools, Get(selection.fields, "name").value).None?)
  }

  /** An unknown selection is skipped wherever it stands among the others: the run is the
      run without it. */
  lemma {:induction false} DispatchSkipsUnknown(tools: seq<Tool>, before: seq<Json>, u: Json, after: seq<Json>,
                                               ctx: SessionContext, ext: Externals)
    requires Unknown(tools, u)
    ensures DispatchRun(tools, before + [u] + after, ctx, ext) == DispatchRun(tools, before + after, ctx, ext)
    decreases |after|
  {
    if after == [] {
      assert before + [u] + after == before + [u];
      assert (before + [u])[..|before + [u]| - 1] == before;
      assert before + after == before;
    } else {
      var after' := after[..|after| - 1];
      var with := before + [u] + after;
      var without := before + after;
      assert with[..|with| - 1] == before + [u] + after';
      assert without[..|without| - 1] == before + after';
      assert with[|with| - 1] == without[|without| - 1];
      DispatchSkipsUnknown(tools, before, u, after', ctx, ext);
    }
  }

  /** Selections that are all unknown run nothing. */
  lemma {:induction false} DispatchAllUnknown(tools: seq<Tool>, selections: seq<Json>, ctx: SessionContext,
                                             ext: Externals)
    requires forall k :: 0 <= k < |selections| ==> Unknown(tools, selections[k])
    ensures DispatchRun(tools, selections, ctx, ext) == Dispatch([], [], false)
    decreases |selections|
  {
    if selections != [] {
      DispatchAllUnknown(tools, selections[..|selections| - 1], ctx, ext);
    }
  }

  /** The tool selections of the analysis: the iteration of "tools" of an object that has it. */
  function Selections(j: Json): (r: Option<seq<Json>>)
    ensures r.Some? ==> j.JObj? && Get(j.fields, "tools").Some?
  {
    if j.JObj? && Get(j.fields, "tools").Some? then Iterate(Get(j.fields, "tools").value) else None
  }

  // ===========================================================================
  // Responses

  /** The response the agent returns. `initialRequest` is the metadata entry, absent in the
      fallback. */
  datatype AgentResponse = AgentResponse(
    sessionId: string,
    answer: string,
    sources: seq<Source>,
    collectionsUsed: seq<string>,
    mode: string,
    prId: string,
    toolsUsed: seq<string>,
    initialRequest: Option<bool>)

  /** `process_request` returns a response, or raises when the analysis call raises. */
  datatype AgentOutcome = AgentAnswered(response: AgentResponse) | AgentRaised

  /** The default response: the raw analysis, no sources or collections, the tools recorded. */
  function Fallback(analysis: string, ctx: SessionContext, used: seq<string>): AgentResponse
  {
    AgentResponse(ctx.sessionId, analysis, [], [], ctx.mode, ctx.prId, used, None)
  }

  function ResultNames(results: seq<(string, ToolResult)>): (r: seq<string>)
    ensures |r| == |results| && forall k :: 0 <= k < |results| ==> r[k] == results[k].0
  {
    seq(|results|, k requires 0 <= k < |results| => results[k].0)
  }

  /** The retrieval results gathered by rag_search runs, in order. */
  function Gathered(results: seq<(string, ToolResult)>): seq<RetrievalResult>
  {
    if results == [] then []
    else
      var last := results[|results| - 1].1;
      Gathered(results[..|results| - 1]) + (if last.SearchResult? then last.responses else [])
  }

  /** The sources reported by response_synthesis runs, in order. */
  function ReportedSources(results: seq<(string, ToolResult)>): seq<Source>
  {
    if results == [] then []
    else
      var last := results[|results| - 1].1;
      ReportedSources(results[..|results| - 1]) + (if last.SynthesisResult? then last.sources else [])
  }

  /** The collection names reported by response_synthesis runs, in order. */
  function ReportedCollections(results: seq<(string, ToolResult)>): seq<string>
  {
    if results == [] then []
    else
      var last := results[|results| - 1].1;
      ReportedCollections(results[..|results| - 1]) + (if last.SynthesisResult? then last.collectionsUsed else [])
  }

  /** Whether the synthesis prompt is the initial-review one. */
  predicate InitialSynthesis(ctx: SessionContext)
  {
    ctx.mode == "co_reviewer" && ctx.isInitialRequest
  }

  /** `_synthesize_response` as written: it looks for "sources" and "collections_used" on the
      `{"tool", "result"}` wrapper, where they never are, and joins the gathered response
      records with "\n", which raises TypeError as soon as there is one. */
  function SynthesizeAsWritten(request: string, results: seq<(string, ToolResult)>, ctx: SessionContext,
                               ext: Externals): Option<AgentResponse>
  {
    if Gathered(results) != [] then None
    else
      match ext.llm(AgentSynthesisPrompt(request, InitialSynthesis(ctx), []))
      case Completed(text) =>
        Some(AgentResponse(ctx.sessionId, text, [], [], ctx.mode, ctx.prId, ResultNames(results), Some(ctx.isInitialRequest)))
      case _ => None
  }

  /** As written, the synthesised response never carries sources or collections, and any
      rag_search result with a response makes it raise. */
  lemma {:induction false} SynthesizeAsWrittenLosesProvenance(request: string, results: seq<(string, ToolResult)>,
                                                             ctx: SessionContext, ext: Externals)
    ensures SynthesizeAsWritten(request, results, ctx, ext).Some? ==>
      SynthesizeAsWritten(request, results, ctx, ext).value.sources == []
      && SynthesizeAsWritten(request, results, ctx, ext).value.collectionsUsed == []
    ensures (exists k :: 0 <= k < |results| && results[k].1.SearchResult? && results[k].1.responses != []) ==>
      SynthesizeAsWritten(request, results, ctx, ext).None?
  {
    if exists k :: 0 <= k < |results| && results[k].1.SearchResult? && results[k].1.responses != [] {
      var k :| 0 <= k < |results| && results[k].1.SearchResult? && results[k].1.responses != [];
      GatheredIncludes(results, k);
      assert results[k].1.responses[0] in Gathered(results);
    }
  }

  lemma {:induction false} GatheredIncludes(results: seq<(string, ToolResult)>, k: nat)
    requires k < |results| && results[k].1.SearchResult?
    ensures forall resp :: resp in results[k].1.responses ==> resp in Gathered(results)
    decreases |results|
  {
    if k < |results| - 1 {
      GatheredIncludes(results[..|results| - 1], k);
    }
  }

  /** A concrete run: one response_synthesis result with one source, reported as written with
      no sources, and as intended with that source. */
  lemma SynthesisSourcesCounterexample(ext: Externals)
    requires ext.llm(AgentSynthesisPrompt("q", false, [])).Completed?
    ensures var ctx := SessionContext("s", "pr", [], None, "interactive_assistant", false);
      var results := [("response_synthesis", SynthesisResult("a", [map["text_preview" := "t"]], ["c"], InteractiveAssistant))];
      && SynthesizeAsWritten("q", results, ctx, ext).value.sources == []
      && Synthesize("q", results, ctx, ext).value.sources == [map["text_preview" := "t"]]
      && Synthesize("q", results, ctx, ext).value.collectionsUsed == ["c"]
  {
    var results := [("response_synthesis", SynthesisResult("a", [map["text_preview" := "t"]], ["c"], InteractiveAssistant))];
    assert results[..0] == [];
  }

  /** `_synthesize_response` as intended: sources and collections are read from each tool's
      result, the collections without duplicates, and the gathered responses go into the
      synthesis prompt. It raises only when the completion call does. */
  function Synthesize(request: string, results: seq<(string, ToolResult)>, ctx: SessionContext,
                      ext: Externals): Option<AgentResponse>
  {
    match ext.llm(AgentSynthesisPrompt(request, InitialSynthesis(ctx), Gathered(results)))
    case Completed(text) =>
      Some(AgentResponse(ctx.sessionId, text, ReportedSources(results), Dedup(ReportedCollections(results)),
                         ctx.mode, ctx.prId, ResultNames(results), Some(ctx.isInitialRequest)))
    case _ => None
  }

  /** The reported sources are exactly those of the response_synthesis results. */
  lemma {:induction false} ReportedSourcesMembers(results: seq<(string, ToolResult)>)
    ensures forall src :: src in ReportedSources(results) <==>
      exists k :: 0 <= k < |results| && results[k].1.SynthesisResult? && src in results[k].1.sources
    decreases |results|
  {
    if results != [] {
      var init := results[..|results| - 1];
      var last := results[|results| - 1].1;
      ReportedSourcesMembers(init);
      assert ReportedSources(results) == ReportedSources(init) + (if last.SynthesisResult? then last.sources else []);
      forall src | src in ReportedSources(results)
        ensures exists k :: 0 <= k < |results| && results[k].1.SynthesisResult? && src in results[k].1.sources
      {
        if src in ReportedSources(init) {
          var k :| 0 <= k < |init| && init[k].1.SynthesisResult? && src in init[k].1.sources;
          assert results[k] == init[k];
        }
      }
      forall src | exists k :: 0 <= k < |results| && results[k].1.SynthesisResult? && src in results[k].1.sources
        ensures src in ReportedSources(results)
      {
        var k :| 0 <= k < |results| && results[k].1.SynthesisResult? && src in results[k].1.sources;
        if k < |init| {
          assert init[k] == results[k];
        }
      }
    }
  }

  lemma {:induction false} ReportedCollectionsMembers(results: seq<(string, ToolResult)>)
    ensures forall c :: c in ReportedCollections(results) <==>
      exists k :: 0 <= k < |results| && results[k].1.SynthesisResult? && c in results[k].1.collectionsUsed
    decreases |results|
  {
    if results != [] {
      var init := results[..|results| - 1];
      var last := results[|results| - 1].1;
      ReportedCollectionsMembers(init);
      assert ReportedCollections(results)
             == ReportedCollections(init) + (if last.SynthesisResult? then last.collectionsUsed else []);
      forall c | c in ReportedCollections(results)
        ensures exists k :: 0 <= k < |results| && results[k].1.SynthesisResult? && c in results[k].1.collectionsUsed
      {
        if c in ReportedCollections(init) {
          var k :| 0 <= k < |init| && init[k].1.SynthesisResult? && c in init[k].1.collectionsUsed;
          assert results[k] == init[k];
        }
      }
      forall c | exists k :: 0 <= k < |results| && results[k].1.SynthesisResult? && c in results[k].1.collectionsUsed
        ensures c in ReportedCollections(results)
      {
        var k :| 0 <= k < |results| && results[k].1.SynthesisResult? && c in results[k].1.collectionsUsed;
        if k < |init| {
          assert init[k] == results[k];
        }
      }
    }
  }

  /** The reported provenance is that of the response_synthesis results and nothing else. */
  lemma ReportedProvenance(results: seq<(string, ToolResult)>)
    ensures forall src :: src in ReportedSources(results) <==>
      exists k :: 0 <= k < |results| && results[k].1.SynthesisResult? && src in results[k].1.sources
    ensures forall c :: c in Dedup(ReportedCollections(results)) <==>
      exists k :: 0 <= k < |results| && results[k].1.SynthesisResult? && c in results[k].1.collectionsUsed
    ensures Distinct(Dedup(ReportedCollections(results)))
  {
    ReportedSourcesMembers(results);
    ReportedCollectionsMembers(results);
  }

  /** `process_request` on a given set of registered tools, with `_synthesize_response` as
      written or as intended. */
  function RunWith(asWritten: bool, tools: seq<Tool>, request: string, ctx: SessionContext, ext: Externals)
    : AgentOutcome
  {
    var prompt := AgentPrompt(request, ctx.prId, ctx.sessionId, |ctx.history| / 2, ctx.mode,
                              ctx.isInitialRequest, PromptMode(ctx.mode), ToolsList(tools));
    match ext.llm(prompt)
    case Completed(analysis) =>
      (match Selections(ExtractJson(analysis, ext))
       case None => AgentAnswered(Fallback(analysis, ctx, []))
       case Some(selections) =>
         var d := DispatchRun(tools, selections, ctx, ext);
         if d.raised || d.results == [] then AgentAnswered(Fallback(analysis, ctx, d.used))
         else
           var synthesis := if asWritten then SynthesizeAsWritten(request, d.results, ctx, ext)
                            else Synthesize(request, d.results, ctx, ext);
           match synthesis
           case None => AgentAnswered(Fallback(analysis, ctx, d.used))
           case Some(response) => AgentAnswered(response))
    case _ => AgentRaised
  }

  /** `process_request` with the intended synthesis; the rest of the model uses this one. */
  function AgentRun(tools: seq<Tool>, request: string, ctx: SessionContext, ext: Externals): AgentOutcome
  {
    RunWith(false, tools, request, ctx, ext)
  }

  /** `process_request` exactly as written. */
  function AgentRunAsWritten(tools: seq<Tool>, request: string, ctx: SessionContext, ext: Externals): AgentOutcome
  {
    RunWith(true, tools, request, ctx, ext)
  }

  /** As written, a request whose tools ran without raising and include a rag_search with at
      least one response is answered with the raw analysis and no metadata, where the
      intended run answers with the synthesis whenever its completion call succeeds. */
  lemma AgentRunAsWrittenFallsBack(tools: seq<Tool>, request: string, ctx: SessionContext, ext: Externals,
                                   analysis: string, selections: seq<Json>)
    requires ext.llm(AgentPrompt(request, ctx.prId, ctx.sessionId, |ctx.history| / 2, ctx.mode,
                                 ctx.isInitialRequest, PromptMode(ctx.mode), ToolsList(tools))) == Completed(analysis)
    requires Selections(ExtractJson(analysis, ext)) == Some(selections)
    requires !DispatchRun(tools, selections, ctx, ext).raised
    requires exists k :: 0 <= k < |DispatchRun(tools, selections, ctx, ext).results|
                         && DispatchRun(tools, selections, ctx, ext).results[k].1.SearchResult?
                         && DispatchRun(tools, selections, ctx, ext).results[k].1.responses != []
    ensures AgentRunAsWritten(tools, request, ctx, ext)
            == AgentAnswered(Fallback(analysis, ctx, DispatchRun(tools, selections, ctx, ext).used))
    ensures AgentRunAsWritten(tools, request, ctx, ext).response.initialRequest.None?
    ensures ext.llm(AgentSynthesisPrompt(request, InitialSynthesis(ctx), Gathered(DispatchRun(tools, selections, ctx, ext).results))).Completed? ==>
      AgentRun(tools, request, ctx, ext).response.initialRequest == Some(ctx.isInitialRequest)
  {
    SynthesizeAsWrittenLosesProvenance(request, DispatchRun(tools, selections, ctx, ext).results, ctx, ext);
  }

  /** Only a failing analysis call raises; a reply the agent cannot act on is returned raw,
      with no sources or collections and the tools recorded so far. */
  lemma AgentFallback(tools: seq<Tool>, request: string, ctx: SessionContext, ext: Externals)
    ensures var prompt := AgentPrompt(request, ctx.prId, ctx.sessionId, |ctx.history| / 2, ctx.mode,
                                      ctx.isInitialRequest, PromptMode(ctx.mode), ToolsList(tools));
      AgentRun(tools, request, ctx, ext).AgentRaised? <==> !ext.llm(prompt).Completed?
    ensures var out := AgentRun(tools, request, ctx, ext);
      out.AgentAnswered? && out.response.initialRequest.None? ==>
        && out.response.sources == [] && out.response.collectionsUsed == []
        && (forall n :: n in out.response.toolsUsed ==> exists k :: 0 <= k < |tools| && tools[k].name == n)
  {
    var prompt := AgentPrompt(request, ctx.prId, ctx.sessionId, |ctx.history| / 2, ctx.mode,
                              ctx.isInitialRequest, PromptMode(ctx.mode), ToolsList(tools));
    if ext.llm(prompt).Completed? {
      var selections := Selections(ExtractJson(ext.llm(prompt).text, ext));
      if selections.Some? {
        DispatchRecordsTools(tools, selections.value, ctx, ext);
      }
    }
  }

  // ===========================================================================
  // The agent

  class BaseAgent {
    var tools: seq<Tool>

    constructor ()
      ensures tools == []
    {
      tools := [];
    }

    /** `register_tool`: the tool goes to the end of the list. */
    method RegisterTool(tool: Tool)
      modifies this
      ensures tools == old(tools) + [tool]
    {
      tools := tools + [tool];
    }

    /** `_format_tools_prompt`: the system prompt for the mode and the formatted tools list. */
    method FormatToolsPrompt(mode: string) returns (systemPrompt: Mode, toolsList: string)
      ensures systemPrompt == PromptMode(mode) && toolsList == ToolsList(tools)
    {
      var formatted: seq<string> := [];
      var i := 0;
      while i < |tools|
        invariant 0 <= i <= |tools|
        invariant formatted == ToolEntries(tools[..i])
      {
        var tool := tools[i];
        var params: seq<string> := [];
        var j := 0;
        while j < |tool.parameters|
          invariant 0 <= j <= |tool.parameters|
          invariant |params| == j && forall k :: 0 <= k < j ==> params[k] == ParamLine(tool.parameters[k])
        {
          params := params + [ParamLine(tool.parameters[j])];
          j := j + 1;
        }
        assert params == seq(|tool.parameters|, k requires 0 <= k < |tool.parameters| => ParamLine(tool.parameters[k]));
        formatted := formatted + ["- " + tool.name + ": " + tool.description + "\n" + "  Parameters:\n" + Join("\n", params)];
        assert formatted == ToolEntries(tools[..i + 1]);
        i := i + 1;
      }
      assert tools[..i] == tools;
      systemPrompt := PromptMode(mode);
      toolsList := Join("\n\n", formatted);
    }

    /** `_synthesize_response` (as intended): the aggregation loop over the tool results. */
    method SynthesizeResponse(request: string, results: seq<(string, ToolResult)>, ctx: SessionContext,
                              ext: Externals) returns (r: Option<AgentResponse>)
      ensures r == Synthesize(request, results, ctx, ext)
    {
      var sources: seq<Source> := [];
      var collections: seq<string> := [];
      var responses: seq<RetrievalResult> := [];
      var i := 0;
      while i < |results|
        invariant 0 <= i <= |results|
        invariant sources == ReportedSources(results[..i])
        invariant collections == ReportedCollections(results[..i])
        invariant responses == Gathered(results[..i])
      {
        assert results[..i + 1][..i] == results[..i];
        var result := results[i].1;
        if result.SynthesisResult? {
          sources := sources + result.sources;
          collections := collections + result.collectionsUsed;
        }
        if result.SearchResult? {
          responses := responses + result.responses;
        }
        i := i + 1;
      }
      assert results[..i] == results;
      var completion := ext.llm(AgentSynthesisPrompt(request, InitialSynthesis(ctx), responses));
      if !completion.Completed? {
        return None;
      }
      r := Some(AgentResponse(ctx.sessionId, completion.text, sources, Dedup(collections), ctx.mode, ctx.prId,
                              ResultNames(results), Some(ctx.isInitialRequest)));
    }

    /** `process_request`: analysis, extraction, the dispatch loop, synthesis or fallback. */
    method ProcessRequest(request: string, ctx: SessionContext, ext: Externals) returns (r: AgentOutcome)
      ensures r == AgentRun(tools, request, ctx, ext)
    {
      var systemPrompt, toolsList := FormatToolsPrompt(ctx.mode);
      var analysis := ext.llm(AgentPrompt(request, ctx.prId, ctx.sessionId, |ctx.history| / 2, ctx.mode,
                                          ctx.isInitialRequest, systemPrompt, toolsList));
      if !analysis.Completed? {
        return AgentRaised;
      }
      var selections := Selections(ExtractJson(analysis.text, ext));
      if selections.None? {
        return AgentAnswered(Fallback(analysis.text, ctx, []));
      }
      var items := selections.value;
      var used: seq<string> := [];
      var results: seq<(string, ToolResult)> := [];
      var raised := false;
      var i := 0;
      while i < |items| && !raised
        invariant 0 <= i <= |items|
        invariant Dispatch(used, results, raised) == DispatchRun(tools, items[..i], ctx, ext)
      {
        assert items[..i + 1][..i] == items[..i];
        var selection := items[i];
        if !selection.JObj? {
          raised := true;
        } else {
          var name := Get(selection.fields, "name");
          var tool := if name.Some? then FindTool(tools, name.value) else None;
          if tool.Some? {
            used := used + [tool.value.name];
            var params := Get(selection.fields, "parameters");
            var outcome := ExecuteTool(tool.value, if params.Some? then params.value else JObj([]), ctx, ext);
            if outcome.ToolRaised? {
              raised := true;
            } else {
              results := results + [(tool.value.name, outcome.result)];
            }
          }
        }
        i := i + 1;
      }
      if raised {
        DispatchStopsAtRaise(tools, items, i, ctx, ext);
      } else {
        assert items[..i] == items;
      }
      if raised || results == [] {
        return AgentAnswered(Fallback(analysis.text, ctx, used));
      }
      var synthesized := SynthesizeResponse(request, results, ctx, ext);
      if synthesized.None? {
        return AgentAnswered(Fallback(analysis.text, ctx, used));
      }
      r := AgentAnswered(synthesized.value);
    }
  }
}
