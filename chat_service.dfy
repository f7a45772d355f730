/** One chat turn of the retrieval pipeline: resolve or create the session, substitute the
    canonical initial-review query once, plan, fan out over the planned collections,
    synthesise, and record the exchange in the session's history. */
module ChatService {
  import opened Common
  import opened Schemas
  import opened RagUtils
  import Sessions

  /** A validated `/chat` request. */
  datatype ChatRequest = ChatRequest(query: string, prId: string, mode: Mode, sessionId: Option<string>)

  datatype ChatResponse = ChatResponse(
    sessionId: string,
    answer: string,
    sources: seq<Source>,
    collectionsUsed: seq<string>,
    mode: Mode,
    prId: string)

  /** A turn returns the response data or raises an HTTP error. */
  datatype ChatOutcome = Responded(response: ChatResponse) | Failed(error: HttpError)

  const NoResultsAnswer := "I couldn't retrieve specific information for your query from the available data sources."
  const ApiKeyPlaceholder := "your_openai_api_key_here"

  // ===========================================================================
  // Session resolution

  /** How the request's session id is resolved against the store. */
  datatype Resolution = UseExisting(id: string) | CreateNew | Conflict | NotFound

  /** An empty or absent id creates a session; a stored id is used when its pr_id and mode
      match the request and is a conflict otherwise; any other id is not found. */
  function Resolve(sessions: map<string, SessionData>, req: ChatRequest): (r: Resolution)
    ensures r.CreateNew? <==> req.sessionId.None? || req.sessionId.value == ""
    ensures r.NotFound? <==> req.sessionId.Some? && req.sessionId.value != "" && req.sessionId.value !in sessions
    ensures r.Conflict? <==>
      && req.sessionId.Some? && req.sessionId.value != "" && req.sessionId.value in sessions
      && (sessions[req.sessionId.value].prId != req.prId || sessions[req.sessionId.value].mode != req.mode)
    ensures r.UseExisting? ==>
      && r.id == req.sessionId.value && r.id in sessions
      && sessions[r.id].prId == req.prId && sessions[r.id].mode == req.mode
  {
    match req.sessionId
    case None => CreateNew
    case Some(id) =>
      if id == "" then CreateNew
      else if id !in sessions then NotFound
      else if sessions[id].prId != req.prId || sessions[id].mode != req.mode then Conflict
      else UseExisting(id)
  }

  /** OPENAI_API_KEY is set, non-empty and not the placeholder. */
  predicate ApiKeyConfigured(apiKey: Option<string>)
  {
    apiKey.Some? && apiKey.value != "" && apiKey.value != ApiKeyPlaceholder
  }

  // ===========================================================================
  // Retrieval fan-out

  /** The retrieval loop of a turn. */
  method RunRetrieval(engines: map<string, Engine>, names: seq<string>, query: string, focus: string,
                      ext: Externals) returns (responses: seq<RetrievalResult>)
    ensures responses == Kept(engines, names, query, focus, ext)
  {
    responses := [];
    var i := 0;
    while i < |names|
      invariant 0 <= i <= |names|
      invariant responses == Kept(engines, names[..i], query, focus, ext)
    {
      assert names[..i + 1][..i] == names[..i];
      var response := QueryCollection(engines, names[i], query, focus, ext);
      if response.Some? {
        responses := responses + [response.value];
      }
      i := i + 1;
    }
    assert names[..i] == names;
  }

  // ===========================================================================
  // One turn on a session's values

  /** Planning, retrieval and synthesis for the effective query; None where it raises (the
      planner raises, or a non-empty plan has no "search_focus" key). */
  function Pipeline(query: string, initial: bool, prId: string, mode: Mode, engines: map<string, Engine>,
                    collections: seq<string>, history: seq<Message>, ext: Externals): Option<Synthesis>
  {
    match PlanFor(query, collections, prId, ext)
    case PlanRaised => None
    case Planned(plan) =>
      if plan.collections != [] && plan.searchFocus.None? then None
      else
        var focus := if plan.searchFocus.Some? then PyStr(plan.searchFocus.value) else "";
        var kept := Kept(engines, plan.collections, query, focus, ext);
        if kept == [] then Some(Synthesis(NoResultsAnswer, [], plan.collections))
        else if mode == CoReviewer then Some(CoReviewerSynthesis(query, AsResponses(kept), history, initial, ext))
        else Some(InteractiveSynthesis(query, AsResponses(kept), history, ext))
  }

  /** The outcome of a turn and the session's history and flag after it. */
  datatype TurnResult = TurnResult(outcome: ChatOutcome, history: seq<Message>, flag: bool)

  /** Whether this turn is the session's initial review, and the query it processes. */
  function EffectiveQuery(mode: Mode, flag: bool, userQuery: string): (r: (string, bool))
    ensures r.1 <==> mode == CoReviewer && !flag
    ensures r.0 == if r.1 then InitialReviewQuery else userQuery
  {
    if mode == CoReviewer && !flag then (InitialReviewQuery, true) else (userQuery, false)
  }

  /** A turn on a session with the given values, once the session is resolved. */
  function Turn(sid: string, prId: string, mode: Mode, engines: map<string, Engine>, collections: seq<string>,
                history: seq<Message>, flag: bool, req: ChatRequest, ext: Externals): TurnResult
  {
    if !ApiKeyConfigured(ext.apiKey) then TurnResult(Failed(HttpError(500, ApiKeyMissing)), history, flag)
    else
      var (query, initial) := EffectiveQuery(req.mode, flag, req.query);
      var h1 := history + [Message(User, query)];
      var f1 := flag || initial;
      match Pipeline(query, initial, prId, mode, engines, collections, h1, ext)
      case None => TurnResult(Failed(HttpError(500, ChatProcessingFailed)), h1, f1)
      case Some(syn) =>
        TurnResult(Responded(ChatResponse(sid, syn.answer, syn.sources, syn.collectionsUsed, mode, prId)),
                   h1 + [Message(User, query), Message(Assistant, syn.answer)], f1)
  }

  // ===========================================================================
  // The request handler

  /** `process_chat_request` against the shared session store. */
  method ProcessChatRequest(store: Sessions.SessionManager, req: ChatRequest, ext: Externals)
    returns (out: ChatOutcome, ghost sid: string)
    modifies store, if Resolve(store.sessions, req).UseExisting? then {store.sessions[Resolve(store.sessions, req).id]} else {}
    ensures Resolve(old(store.sessions), req).Conflict? ==>
      out == Failed(HttpError(400, SessionConflict)) && store.sessions == old(store.sessions)
    ensures Resolve(old(store.sessions), req).NotFound? ==>
      out == Failed(HttpError(404, SessionNotFound)) && store.sessions == old(store.sessions)
    ensures Resolve(old(store.sessions), req).UseExisting? ==>
      && sid == Resolve(old(store.sessions), req).id && sid in old(store.sessions)
      && var s := old(store.sessions)[sid];
      var t := Turn(sid, s.prId, s.mode, s.queryEngines, s.collections,
                    old(s.chatHistory), old(s.initialReviewGenerated), req, ext);
      && store.sessions == old(store.sessions)
      && out == t.outcome && s.chatHistory == t.history && s.initialReviewGenerated == t.flag
    ensures Resolve(old(store.sessions), req).CreateNew? && IndexFor(req.prId, ext.indexes).LoadFailed? ==>
      out == Failed(HttpError(500, IndexLoadFailed)) && store.sessions == old(store.sessions)
    ensures Resolve(old(store.sessions), req).CreateNew? && IndexFor(req.prId, ext.indexes).Loaded? ==>
      var data := IndexFor(req.prId, ext.indexes).data;
      var t := Turn(sid, req.prId, req.mode, data.queryEngines, data.collections, [], false, req, ext);
      && sid !in old(store.sessions) && sid in store.sessions
      && store.sessions == old(store.sessions)[sid := store.sessions[sid]]
      && fresh(store.sessions[sid])
      && store.sessions[sid].prId == req.prId && store.sessions[sid].mode == req.mode
      && store.sessions[sid].queryEngines == data.queryEngines
      && store.sessions[sid].collections == data.collections
      && out == t.outcome
      && store.sessions[sid].chatHistory == t.history
      && store.sessions[sid].initialReviewGenerated == t.flag
  {
    var resolution := Resolve(store.sessions, req);
    var sessionId := "";
    sid := sessionId;
    var session: SessionData;
    if resolution.Conflict? {
      return Failed(HttpError(400, SessionConflict)), sid;
    } else if resolution.NotFound? {
      return Failed(HttpError(404, SessionNotFound)), sid;
    } else if resolution.UseExisting? {
      sessionId := resolution.id;
      sid := sessionId;
      session := store.sessions[sessionId];
    } else {
      sessionId := store.CreateSessionId();
      sid := sessionId;
      var loaded := LoadProjectIndex(req.prId, ext.indexes);
      if loaded.LoadFailed? {
        return Failed(HttpError(500, IndexLoadFailed)), sid;
      }
      session := new SessionData(req.prId, req.mode, loaded.data.queryEngines, loaded.data.collections);
      store.StoreSession(sessionId, session);
    }
    ghost var history0 := session.chatHistory;
    ghost var flag0 := session.initialReviewGenerated;

    if !ApiKeyConfigured(ext.apiKey) {
      return Failed(HttpError(500, ApiKeyMissing)), sid;
    }

    var query := req.query;
    var initial := false;
    if req.mode == CoReviewer && !session.initialReviewGenerated {
      query := InitialReviewQuery;
      initial := true;
      session.chatHistory := session.chatHistory + [Message(User, query)];
      store.SetInitialReviewGenerated(sessionId);
    } else {
      session.chatHistory := session.chatHistory + [Message(User, req.query)];
    }
    assert session.chatHistory == history0 + [Message(User, query)];
    assert session.initialReviewGenerated == (flag0 || initial);

    var planned := GetCollectionPlan(query, session.collections, session.prId, ext);
    if planned.PlanRaised? {
      return Failed(HttpError(500, ChatProcessingFailed)), sid;
    }
    var plan := planned.plan;
    if plan.collections != [] && plan.searchFocus.None? {
      return Failed(HttpError(500, ChatProcessingFailed)), sid;
    }
    var focus := if plan.searchFocus.Some? then PyStr(plan.searchFocus.value) else "";
    var responses := RunRetrieval(session.queryEngines, plan.collections, query, focus, ext);

    var result: Synthesis;
    if responses == [] {
      result := Synthesis(NoResultsAnswer, [], plan.collections);
    } else if session.mode == CoReviewer {
      result := SynthesizeCoReviewerResponse(query, AsResponses(responses), session.chatHistory, initial, ext);
    } else {
      result := SynthesizeInteractiveResponse(query, AsResponses(responses), session.chatHistory, ext);
    }

    store.UpdateSessionHistory(sessionId, query, result.answer);
    out := Responded(ChatResponse(sessionId, result.answer, result.sources, result.collectionsUsed,
                                  session.mode, session.prId));
  }

  // ===========================================================================
  // Properties of a turn

  /** The history grows by the effective query, and on success by the query/answer pair
      again; a missing API key changes nothing. */
  lemma TurnHistory(sid: string, prId: string, mode: Mode, engines: map<string, Engine>,
                    collections: seq<string>, history: seq<Message>, flag: bool, req: ChatRequest,
                    ext: Externals)
    ensures var t := Turn(sid, prId, mode, engines, collections, history, flag, req, ext);
      var query := EffectiveQuery(req.mode, flag, req.query).0;
      && (!ApiKeyConfigured(ext.apiKey) ==> t.history == history && t.flag == flag)
      && (ApiKeyConfigured(ext.apiKey) && t.outcome.Failed? ==>
            t.outcome.error == HttpError(500, ChatProcessingFailed) && t.history == history + [Message(User, query)])
      && (t.outcome.Responded? ==>
            t.history == history + [Message(User, query), Message(User, query),
                                    Message(Assistant, t.outcome.response.answer)])
  {
  }

  /** The flag only goes from false to true, and does so exactly on a co-reviewer turn that
      passes the API key check; that turn and only that turn processes the initial-review
      query in place of the user's. */
  lemma TurnFlagOnce(sid: string, prId: string, mode: Mode, engines: map<string, Engine>,
                     collections: seq<string>, history: seq<Message>, flag: bool, req: ChatRequest,
                     ext: Externals)
    ensures var t := Turn(sid, prId, mode, engines, collections, history, flag, req, ext);
      && (flag ==> t.flag)
      && (!flag && t.flag <==> ApiKeyConfigured(ext.apiKey) && req.mode == CoReviewer && !flag)
      && (ApiKeyConfigured(ext.apiKey) ==>
            t.history[|history|] == Message(User, if !flag && req.mode == CoReviewer then InitialReviewQuery else req.query))
  {
  }

  /** Once the initial review has been generated, a later turn processes the user's own query. */
  lemma SecondTurnUsesQuery(sid: string, prId: string, mode: Mode, engines: map<string, Engine>,
                            collections: seq<string>, history: seq<Message>, flag: bool,
                            first: ChatRequest, second: ChatRequest, ext: Externals)
    requires ApiKeyConfigured(ext.apiKey)
    ensures var t1 := Turn(sid, prId, mode, engines, collections, history, flag, first, ext);
      var t2 := Turn(sid, prId, mode, engines, collections, t1.history, t1.flag, second, ext);
      first.mode == CoReviewer ==> t2.history[|t1.history|] == Message(User, second.query)
  {
  }

  /** A successful response carries the session id, the session's mode and pr_id; when no
      collection yields a result the answer is the fixed message, with no sources and the
      planned collections as `collections_used`. */
  lemma TurnResponse(sid: string, prId: string, mode: Mode, engines: map<string, Engine>,
                     collections: seq<string>, history: seq<Message>, flag: bool, req: ChatRequest,
                     ext: Externals)
    ensures var t := Turn(sid, prId, mode, engines, collections, history, flag, req, ext);
      t.outcome.Responded? ==> t.outcome.response.sessionId == sid && t.outcome.response.mode == mode
                                && t.outcome.response.prId == prId
    ensures ApiKeyConfigured(ext.apiKey) ==>
      var (query, initial) := EffectiveQuery(req.mode, flag, req.query);
      var planned := PlanFor(query, collections, prId, ext);
      planned.Planned? && planned.plan.searchFocus.Some? ==>
        var focus := PyStr(planned.plan.searchFocus.value);
        Kept(engines, planned.plan.collections, query, focus, ext) == [] ==>
          Turn(sid, prId, mode, engines, collections, history, flag, req, ext).outcome
          == Responded(ChatResponse(sid, NoResultsAnswer, [], planned.plan.collections, mode, prId))
  {
  }
}
