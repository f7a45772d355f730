/** The retrieval core: loading a pull request's collections, planning which collections to
    query, querying one collection with a focused query, and merging partial results into
    one answer. The language model and the query engines are the `Externals`. */
module RagUtils {
  import opened Common
  import opened Schemas

  // ===========================================================================
  // Loading a project's index

  /** The engines and names a pull request's index directory yields. */
  datatype IndexData = IndexData(queryEngines: map<string, Engine>, collections: seq<string>)

  datatype IndexOutcome = Loaded(data: IndexData) | LoadFailed

  /** The engines of the listed collections whose storage loads. */
  function LoadedEngines(names: seq<string>, storage: map<string, Engine>): map<string, Engine>
  {
    map c | c in names && c in storage :: storage[c]
  }

  /** What loading the index of `prId` gives: a missing directory or a directory in which no
      collection loads is an error; otherwise every listed name is kept, loaded or not. */
  function IndexFor(prId: string, indexes: map<string, ProjectIndex>): (r: IndexOutcome)
    ensures prId !in indexes ==> r.LoadFailed?
    ensures prId in indexes ==>
      (r.LoadFailed? <==> forall c :: c in indexes[prId].collections ==> c !in indexes[prId].storage)
    ensures r.Loaded? ==>
      && r.data.collections == indexes[prId].collections
      && (forall c :: c in r.data.queryEngines <==> c in r.data.collections && c in indexes[prId].storage)
      && (forall c :: c in r.data.queryEngines ==> r.data.queryEngines[c] == indexes[prId].storage[c])
  {
    if prId !in indexes then LoadFailed
    else
      var dir := indexes[prId];
      var engines := LoadedEngines(dir.collections, dir.storage);
      if engines == map[] then
        assert forall c :: c in dir.collections && c in dir.storage ==> c in engines;
        LoadFailed
      else Loaded(IndexData(engines, dir.collections))
  }

  /** Loads every collection the index directory lists; a collection whose storage is missing
      or fails to load is skipped but still named in `collections`. */
  method LoadProjectIndex(prId: string, indexes: map<string, ProjectIndex>) returns (r: IndexOutcome)
    ensures r == IndexFor(prId, indexes)
  {
    if prId !in indexes {
      return LoadFailed;
    }
    var dir := indexes[prId];
    var engines: map<string, Engine> := map[];
    var collections: seq<string> := [];
    var i := 0;
    while i < |dir.collections|
      invariant 0 <= i <= |dir.collections|
      invariant collections == dir.collections[..i]
      invariant engines == LoadedEngines(dir.collections[..i], dir.storage)
    {
      var name := dir.collections[i];
      collections := collections + [name];
      if name in dir.storage {
        engines := engines[name := dir.storage[name]];
      }
      assert dir.collections[..i + 1] == dir.collections[..i] + [name];
      i := i + 1;
    }
    assert dir.collections[..i] == dir.collections;
    if engines == map[] {
      return LoadFailed;
    }
    r := Loaded(IndexData(engines, collections));
  }

  // ===========================================================================
  // Collection planning

  /** A validated plan: the collections to query, and the reasoning and search focus values
      of the model's reply (absent when the reply has no such key). */
  datatype Plan = Plan(collections: seq<string>, reasoning: Option<Json>, searchFocus: Option<Json>)

  /** get_collection_plan returns a plan or raises. */
  datatype PlanOutcome = Planned(plan: Plan) | PlanRaised

  const GeneralFocus := "General information"
  const NoValidReasoning := "Using all available collections as no specific ones were determined or validated"
  const UnparsedReasoning := "Could not parse LLM response for collection plan, using all available collections"

  /** The suggested names that are available collections, in the model's order. */
  function Surviving(suggested: seq<Json>, available: seq<string>): (r: seq<string>)
    ensures forall c :: c in r ==> c in available
    ensures forall c :: c in r ==> JStr(c) in suggested
    ensures forall k :: (0 <= k < |suggested| && suggested[k].JStr? && suggested[k].s in available)
                        ==> suggested[k].s in r
    ensures |r| <= |suggested|
  {
    if suggested == [] then []
    else
      var rest := Surviving(suggested[..|suggested| - 1], available);
      var last := suggested[|suggested| - 1];
      assert forall k :: 0 <= k < |suggested| - 1 ==> suggested[..|suggested| - 1][k] == suggested[k];
      if last.JStr? && last.s in available then rest + [last.s] else rest
  }

  /** The plan built from the planner's parsed reply. */
  function PlanFromReply(parsed: Option<Json>, available: seq<string>): PlanOutcome
  {
    match parsed
    case None =>
      Planned(Plan(available, Some(JStr(UnparsedReasoning)), Some(JStr(GeneralFocus))))
    case Some(JObj(fields)) =>
      var field := Get(fields, "collections");
      var suggested := if field.Some? then field.value else JArr([]);
      (match Iterate(suggested)
       case None => PlanRaised
       case Some(items) =>
         var valid := Surviving(items, available);
         if valid == [] then
           Planned(Plan(available, Some(JStr(NoValidReasoning)), Some(JStr(GeneralFocus))))
         else
           Planned(Plan(valid, Get(fields, "reasoning"), Get(fields, "search_focus"))))
    case Some(_) => PlanRaised
  }

  /** The plan for `query`: a failed completion raises; otherwise the reply is parsed and
      repaired against `available`. */
  function PlanFor(query: string, available: seq<string>, prId: string, ext: Externals): PlanOutcome
  {
    match ext.llm(PlannerPrompt(query, available, prId))
    case Completed(text) => PlanFromReply(ext.parse(text), available)
    case _ => PlanRaised
  }

  method GetCollectionPlan(query: string, available: seq<string>, prId: string, ext: Externals)
    returns (r: PlanOutcome)
    ensures r == PlanFor(query, available, prId, ext)
  {
    var reply := ext.llm(PlannerPrompt(query, available, prId));
    if !reply.Completed? {
      return PlanRaised;
    }
    var parsed := ext.parse(reply.text);
    if parsed.None? {
      return Planned(Plan(available, Some(JStr(UnparsedReasoning)), Some(JStr(GeneralFocus))));
    }
    if !parsed.value.JObj? {
      return PlanRaised;
    }
    var fields := parsed.value.fields;
    var field := Get(fields, "collections");
    var iterated := Iterate(if field.Some? then field.value else JArr([]));
    if iterated.None? {
      return PlanRaised;
    }
    var suggested := iterated.value;
    var valid: seq<string> := [];
    var i := 0;
    while i < |suggested|
      invariant 0 <= i <= |suggested|
      invariant valid == Surviving(suggested[..i], available)
    {
      var collection := suggested[i];
      if collection.JStr? && collection.s in available {
        valid := valid + [collection.s];
      }
      assert suggested[..i + 1][..i] == suggested[..i];
      i := i + 1;
    }
    assert suggested[..i] == suggested;
    if valid == [] {
      r := Planned(Plan(available, Some(JStr(NoValidReasoning)), Some(JStr(GeneralFocus))));
    } else {
      r := Planned(Plan(valid, Get(fields, "reasoning"), Get(fields, "search_focus")));
    }
  }

  /** One more suggestion survives when it names an available collection. */
  lemma SurvivingSnoc(suggested: seq<Json>, i: nat, available: seq<string>)
    requires i < |suggested|
    ensures Surviving(suggested[..i + 1], available)
            == Surviving(suggested[..i], available)
               + (if suggested[i].JStr? && suggested[i].s in available then [suggested[i].s] else [])
  {
    assert suggested[..i + 1][..i] == suggested[..i];
  }

  /** Filtering distributes over concatenation: the surviving names keep the model's order. */
  lemma {:induction false} SurvivingAppend(a: seq<Json>, b: seq<Json>, available: seq<string>)
    ensures Surviving(a + b, available) == Surviving(a, available) + Surviving(b, available)
    decreases |b|
  {
    if b == [] {
      assert a + b == a;
    } else {
      var b' := b[..|b| - 1];
      assert (a + b)[..|a + b| - 1] == a + b';
      assert (a + b)[|a + b| - 1] == b[|b| - 1];
      SurvivingAppend(a, b', available);
    }
  }

  /** A suggestion list made only of available names survives unchanged. */
  lemma {:induction false} SurvivingAllValid(suggested: seq<Json>, available: seq<string>)
    requires forall k :: 0 <= k < |suggested| ==> suggested[k].JStr? && suggested[k].s in available
    ensures |Surviving(suggested, available)| == |suggested|
    ensures forall k :: 0 <= k < |suggested| ==> Surviving(suggested, available)[k] == suggested[k].s
    decreases |suggested|
  {
    if suggested != [] {
      var init := suggested[..|suggested| - 1];
      SurvivingAllValid(init, available);
      assert Surviving(suggested, available) == Surviving(init, available) + [suggested[|suggested| - 1].s];
    }
  }

  /** Every collection of a plan is available; the plan is empty only when nothing is. */
  lemma PlanCollectionsAvailable(parsed: Option<Json>, available: seq<string>)
    ensures PlanFromReply(parsed, available).Planned? ==>
      var plan := PlanFromReply(parsed, available).plan;
      && (forall c :: c in plan.collections ==> c in available)
      && (plan.collections == [] ==> available == [])
  {
  }

  /** An unparseable reply, or an object without suggestions, gives the full list with the
      general focus; an unparseable reply never raises. */
  lemma PlanFallback(parsed: Option<Json>, available: seq<string>)
    ensures parsed.None? ==>
      PlanFromReply(parsed, available) == Planned(Plan(available, Some(JStr(UnparsedReasoning)), Some(JStr(GeneralFocus))))
    ensures parsed.Some? && parsed.value.JObj? && Get(parsed.value.fields, "collections").None? ==>
      PlanFromReply(parsed, available) == Planned(Plan(available, Some(JStr(NoValidReasoning)), Some(JStr(GeneralFocus))))
    ensures parsed.Some? && parsed.value.JObj? && Get(parsed.value.fields, "collections") == Some(JArr([])) ==>
      PlanFromReply(parsed, available) == Planned(Plan(available, Some(JStr(NoValidReasoning)), Some(JStr(GeneralFocus))))
  {
  }

  /** A "collections" value whose every suggestion is unavailable (or not a string) gives the
      full list with the general focus, whatever the reply's own reasoning says. */
  lemma PlanAllInvalid(fields: seq<(string, Json)>, suggested: Json, available: seq<string>)
    requires Get(fields, "collections") == Some(suggested)
    requires Iterate(suggested).Some?
    requires forall k :: 0 <= k < |Iterate(suggested).value| ==>
               !(Iterate(suggested).value[k].JStr? && Iterate(suggested).value[k].s in available)
    ensures PlanFromReply(Some(JObj(fields)), available)
            == Planned(Plan(available, Some(JStr(NoValidReasoning)), Some(JStr(GeneralFocus))))
  {
    SurvivingNone(Iterate(suggested).value, available);
  }

  /** No suggestion survives when none of them names an available collection. */
  lemma {:induction false} SurvivingNone(suggested: seq<Json>, available: seq<string>)
    requires forall k :: 0 <= k < |suggested| ==> !(suggested[k].JStr? && suggested[k].s in available)
    ensures Surviving(suggested, available) == []
    decreases |suggested|
  {
    if suggested != [] {
      SurvivingNone(suggested[..|suggested| - 1], available);
    }
  }

  /** A reply that names available collections is followed: the plan is exactly the
      surviving names with the reply's own reasoning and focus. */
  lemma PlanFollowsReply(fields: seq<(string, Json)>, items: seq<Json>, available: seq<string>)
    requires Get(fields, "collections") == Some(JArr(items))
    requires exists k :: 0 <= k < |items| && items[k].JStr? && items[k].s in available
    ensures PlanFromReply(Some(JObj(fields)), available)
            == Planned(Plan(Surviving(items, available), Get(fields, "reasoning"), Get(fields, "search_focus")))
  {
  }

  /** A reply that does not parse to an object, or whose "collections" is null, a number or
      a boolean, raises. */
  lemma PlanRaises(parsed: Json, available: seq<string>)
    requires !parsed.JObj? || (var c := Get(parsed.fields, "collections"); c.Some? && (c.value.JNull? || c.value.JBool? || c.value.JNum?))
    ensures PlanFromReply(Some(parsed), available) == PlanRaised
  {
  }

  // ===========================================================================
  // Querying one collection

  /** The query text with the focus instruction appended. */
  function FocusedQuery(query: string, focus: string): (r: string)
    ensures StartsWith(r, query) && EndsWith(r, focus)
    ensures |r| == |query| + 12 + |focus|
    ensures r[|query|..|query| + 12] == "\n\nFocus on: "
  {
    query + "\n\nFocus on: " + focus
  }

  /** The text sent to the engine: the focused query, plus a file hint for source-code
      collections when the query mentions a file and names a path the pattern finds. */
  function EngineQueryText(name: string, query: string, focus: string, ext: Externals): (r: string)
    ensures StartsWith(r, FocusedQuery(query, focus))
    ensures !EndsWith(name, "_source_code") ==> r == FocusedQuery(query, focus)
  {
    var focused := FocusedQuery(query, focus);
    if EndsWith(name, "_source_code") && Contains(Lower(query), "file") then
      match ext.filePathHint(query)
      case Some(path) => focused + "\n\nSpecifically look for file: " + path
      case None => focused
    else focused
  }

  /** A chunk's text cut to 200 characters, marked with "..." when cut. */
  function TextPreview(text: string): (r: string)
    ensures |r| <= 203
    ensures |text| <= 200 ==> r == text
    ensures |text| > 200 ==> StartsWith(r, text[..200]) && EndsWith(r, "...") && |r| == 203
  {
    if |text| > 200 then text[..200] + "..." else text
  }

  /** A chunk's provenance record: its preview, overridden by any metadata of the same key. */
  function SourceOf(node: Node): (r: Source)
    ensures r.Keys == {"text_preview"} + node.metadata.Keys
    ensures forall k :: k in node.metadata ==> r[k] == node.metadata[k]
    ensures "text_preview" !in node.metadata ==> r["text_preview"] == TextPreview(node.text)
  {
    map["text_preview" := TextPreview(node.text)] + node.metadata
  }

  /** The retrieval result for one collection, or None when the collection has no engine in
      the session or its engine raises. */
  function Retrieve(engines: map<string, Engine>, name: string, query: string, focus: string,
                    ext: Externals): (r: Option<RetrievalResult>)
    ensures name !in engines ==> r.None?
    ensures name in engines ==>
      (r.None? <==> engines[name].query(EngineQueryText(name, query, focus, ext)).EngineFailed?)
    ensures r.Some? ==>
      var reply := engines[name].query(EngineQueryText(name, query, focus, ext));
      && r.value.collection == name
      && r.value.answer == reply.answer
      && |r.value.sources| == |reply.nodes|
      && forall k :: 0 <= k < |reply.nodes| ==> r.value.sources[k] == SourceOf(reply.nodes[k])
  {
    if name !in engines then None
    else
      match engines[name].query(EngineQueryText(name, query, focus, ext))
      case EngineFailed => None
      case Answered(answer, nodes) =>
        Some(RetrievalResult(answer, seq(|nodes|, k requires 0 <= k < |nodes| => SourceOf(nodes[k])), name))
  }

  method QueryCollection(engines: map<string, Engine>, name: string, query: string, focus: string,
                         ext: Externals) returns (r: Option<RetrievalResult>)
    ensures r == Retrieve(engines, name, query, focus, ext)
  {
    if name !in engines {
      return None;
    }
    var reply := engines[name].query(EngineQueryText(name, query, focus, ext));
    if reply.EngineFailed? {
      return None;
    }
    var sources: seq<Source> := [];
    var i := 0;
    while i < |reply.nodes|
      invariant 0 <= i <= |reply.nodes|
      invariant |sources| == i
      invariant forall k :: 0 <= k < i ==> sources[k] == SourceOf(reply.nodes[k])
    {
      sources := sources + [SourceOf(reply.nodes[i])];
      i := i + 1;
    }
    assert sources == seq(|reply.nodes|, k requires 0 <= k < |reply.nodes| => SourceOf(reply.nodes[k]));
    r := Some(RetrievalResult(reply.answer, sources, name));
  }

  /** The present retrieval results for `names`, queried in the given order (the loops of
      the callers keep a result only when it is not absent). */
  function Kept(engines: map<string, Engine>, names: seq<string>, query: string, focus: string,
                ext: Externals): seq<RetrievalResult>
  {
    if names == [] then []
    else
      var last := Retrieve(engines, names[|names| - 1], query, focus, ext);
      Kept(engines, names[..|names| - 1], query, focus, ext) + (if last.Some? then [last.value] else [])
  }

  /** Every kept result is the retrieval of a planned name, in plan order, with no result
      for a name that is absent or whose engine fails. */
  lemma {:induction false} KeptSpec(engines: map<string, Engine>, names: seq<string>, query: string,
                                    focus: string, ext: Externals)
    ensures |Kept(engines, names, query, focus, ext)| <= |names|
    ensures forall r :: r in Kept(engines, names, query, focus, ext) ==>
      r.collection in names && r.collection in engines && Retrieve(engines, r.collection, query, focus, ext) == Some(r)
    ensures (forall c :: c in names ==> Retrieve(engines, c, query, focus, ext).None?) <==>
      Kept(engines, names, query, focus, ext) == []
    decreases |names|
  {
    if names != [] {
      var init := names[..|names| - 1];
      KeptSpec(engines, init, query, focus, ext);
      assert forall c :: c in names <==> c in init || c == names[|names| - 1];
    }
  }

  /** One more name adds its result when present. */
  lemma KeptSnoc(engines: map<string, Engine>, names: seq<string>, name: string, query: string,
                 focus: string, ext: Externals)
    ensures var r := Retrieve(engines, name, query, focus, ext);
      Kept(engines, names + [name], query, focus, ext)
      == Kept(engines, names, query, focus, ext) + (if r.Some? then [r.value] else [])
  {
    assert (names + [name])[..|names|] == names;
  }

  /** Kept results of consecutive plan segments follow each other. */
  lemma {:induction false} KeptAppend(engines: map<string, Engine>, a: seq<string>, b: seq<string>,
                                      query: string, focus: string, ext: Externals)
    ensures Kept(engines, a + b, query, focus, ext)
            == Kept(engines, a, query, focus, ext) + Kept(engines, b, query, focus, ext)
    decreases |b|
  {
    if b == [] {
      assert a + b == a;
    } else {
      var b' := b[..|b| - 1];
      assert (a + b)[..|a + b| - 1] == a + b';
      assert (a + b)[|a + b| - 1] == b[|b| - 1];
      KeptAppend(engines, a, b', query, focus, ext);
    }
  }

  /** The responses list handed to the synthesis functions. */
  function AsResponses(kept: seq<RetrievalResult>): (r: seq<Option<RetrievalResult>>)
    ensures |r| == |kept| && forall k :: 0 <= k < |kept| ==> r[k] == Some(kept[k])
  {
    seq(|kept|, k requires 0 <= k < |kept| => Some(kept[k]))
  }

  // ===========================================================================
  // Synthesis

  /** The synthesised answer with the merged provenance. */
  datatype Synthesis = Synthesis(answer: string, sources: seq<Source>, collectionsUsed: seq<string>)

  const FormattingApology := "Sorry, there was an internal error formatting the response."
  const GenerationApology := "Sorry, there was an error generating the response."

  /** The answer a completion gives; a raised KeyError or other error becomes an apology. */
  function AnswerOf(c: Completion): string
  {
    match c
    case Completed(text) => text
    case KeyErrorRaised => FormattingApology
    case ErrorRaised => GenerationApology
  }

  /** The sources of the present results, in order. */
  function MergedSources(responses: seq<Option<RetrievalResult>>): seq<Source>
  {
    if responses == [] then []
    else
      var last := responses[|responses| - 1];
      MergedSources(responses[..|responses| - 1]) + (if last.Some? then last.value.sources else [])
  }

  /** The collection names of the present results, in order. */
  function PresentNames(responses: seq<Option<RetrievalResult>>): seq<string>
  {
    if responses == [] then []
    else
      var last := responses[|responses| - 1];
      PresentNames(responses[..|responses| - 1]) + (if last.Some? then [last.value.collection] else [])
  }

  /** `filter(None, names)`: the non-empty names. */
  function NonEmpty(names: seq<string>): (r: seq<string>)
    ensures forall c :: c in r <==> c in names && c != ""
  {
    if names == [] then []
    else NonEmpty(names[..|names| - 1]) + (if names[|names| - 1] != "" then [names[|names| - 1]] else [])
  }

  /** `list(set(filter(None, names)))`, ordered by first occurrence. */
  function UsedCollections(responses: seq<Option<RetrievalResult>>): seq<string>
  {
    Dedup(NonEmpty(PresentNames(responses)))
  }

  /** The merged sources are exactly the sources of the present results. */
  lemma {:induction false} MergedSourcesMembers(responses: seq<Option<RetrievalResult>>)
    ensures forall src :: src in MergedSources(responses) <==>
      exists i :: 0 <= i < |responses| && responses[i].Some? && src in responses[i].value.sources
    decreases |responses|
  {
    if responses != [] {
      var init := responses[..|responses| - 1];
      MergedSourcesMembers(init);
      assert forall i :: 0 <= i < |init| ==> init[i] == responses[i];
    }
  }

  /** Merging concatenates: the sources of a longer list extend those of a prefix. */
  lemma {:induction false} MergedSourcesAppend(a: seq<Option<RetrievalResult>>, b: seq<Option<RetrievalResult>>)
    ensures MergedSources(a + b) == MergedSources(a) + MergedSources(b)
    decreases |b|
  {
    if b == [] {
      assert a + b == a;
    } else {
      var b' := b[..|b| - 1];
      assert (a + b)[..|a + b| - 1] == a + b';
      assert (a + b)[|a + b| - 1] == b[|b| - 1];
      MergedSourcesAppend(a, b');
    }
  }

  /** The names of the present results, and no others. */
  lemma {:induction false} PresentNamesMembers(responses: seq<Option<RetrievalResult>>)
    ensures forall c :: c in PresentNames(responses) <==>
      exists i :: 0 <= i < |responses| && responses[i].Some? && responses[i].value.collection == c
    decreases |responses|
  {
    if responses != [] {
      var init := responses[..|responses| - 1];
      PresentNamesMembers(init);
      assert forall i :: 0 <= i < |init| ==> init[i] == responses[i];
    }
  }

  /** `collections_used` has no duplicates and holds exactly the non-empty names of the
      present results. */
  lemma UsedCollectionsSpec(responses: seq<Option<RetrievalResult>>)
    ensures Distinct(UsedCollections(responses))
    ensures forall c :: c in UsedCollections(responses) <==>
      c != "" && exists i :: 0 <= i < |responses| && responses[i].Some? && responses[i].value.collection == c
  {
    PresentNamesMembers(responses);
  }

  /** The merge loop shared by both synthesis functions. */
  method MergeResponses(responses: seq<Option<RetrievalResult>>)
    returns (allSources: seq<Source>, collectionsUsed: seq<string>)
    ensures allSources == MergedSources(responses)
    ensures collectionsUsed == UsedCollections(responses)
  {
    allSources := [];
    var names: seq<string> := [];
    var i := 0;
    while i < |responses|
      invariant 0 <= i <= |responses|
      invariant allSources == MergedSources(responses[..i])
      invariant names == PresentNames(responses[..i])
    {
      assert responses[..i + 1][..i] == responses[..i];
      if responses[i].Some? {
        allSources := allSources + responses[i].value.sources;
        names := names + [responses[i].value.collection];
      }
      i := i + 1;
    }
    assert responses[..i] == responses;
    collectionsUsed := Dedup(NonEmpty(names));
  }

  function CoReviewerSynthesis(query: string, responses: seq<Option<RetrievalResult>>,
                               history: seq<Message>, initialReview: bool, ext: Externals): Synthesis
  {
    Synthesis(AnswerOf(ext.llm(CoReviewerPrompt(query, responses, history, initialReview))),
              MergedSources(responses), UsedCollections(responses))
  }

  function InteractiveSynthesis(query: string, responses: seq<Option<RetrievalResult>>,
                                history: seq<Message>, ext: Externals): Synthesis
  {
    Synthesis(AnswerOf(ext.llm(InteractivePrompt(query, responses, history))),
              MergedSources(responses), UsedCollections(responses))
  }

  method SynthesizeCoReviewerResponse(query: string, responses: seq<Option<RetrievalResult>>,
                                      history: seq<Message>, initialReview: bool, ext: Externals)
    returns (r: Synthesis)
    ensures r == CoReviewerSynthesis(query, responses, history, initialReview, ext)
  {
    var completion := ext.llm(CoReviewerPrompt(query, responses, history, initialReview));
    var answer := AnswerOf(completion);
    var allSources, collectionsUsed := MergeResponses(responses);
    r := Synthesis(answer, allSources, collectionsUsed);
  }

  method SynthesizeInteractiveResponse(query: string, responses: seq<Option<RetrievalResult>>,
                                       history: seq<Message>, ext: Externals)
    returns (r: Synthesis)
    ensures r == InteractiveSynthesis(query, responses, history, ext)
  {
    var completion := ext.llm(InteractivePrompt(query, responses, history));
    var answer := AnswerOf(completion);
    var allSources, collectionsUsed := MergeResponses(responses);
    r := Synthesis(answer, allSources, collectionsUsed);
  }
}
