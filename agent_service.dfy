/** The agent-based entry point: it finds or creates the session, substitutes the standard
    initial-review request on the first co-reviewer turn, and hands the request to the agent
    that has every available tool registered. */
module AgentServices {
  import opened Common
  import opened Schemas
  import RagUtils
  import opened Tools
  import opened Agent
  import Sessions

  /** `process_request` returns the agent's response or raises an HTTP error. */
  datatype ServiceOutcome = Served(response: AgentResponse) | ServiceFailed(error: HttpError)

  /** Whether a turn on a session in state `v` is its initial review. */
  predicate IsInitial(v: SessionView)
  {
    !v.initialReviewGenerated && v.mode == CoReviewer
  }

  /** The session flag after a turn: set by an initial turn, otherwise kept. */
  function FlagAfter(v: SessionView): (r: bool)
    ensures r <==> v.initialReviewGenerated || IsInitial(v)
    ensures !IsInitial(v.(initialReviewGenerated := r))
  {
    v.initialReviewGenerated || IsInitial(v)
  }

  /** One turn on a session that was in state `v`: the agent sees the request (or the standard
      initial-review request), the session's history, the session with its flag already
      updated, and the request's pr_id and mode. Anything the agent raises becomes HTTP 500. */
  function ServiceTurn(tools: seq<Tool>, request: string, sid: string, prId: string, mode: string,
                       v: SessionView, ext: Externals): (r: ServiceOutcome)
    ensures r.ServiceFailed? ==> r.error == HttpError(500, Unexpected)
    ensures r.Served? ==> r.response.initialRequest.Some? ==> r.response.initialRequest.value == IsInitial(v)
  {
    var initial := IsInitial(v);
    var ctx := SessionContext(sid, prId, v.chatHistory, Some(v.(initialReviewGenerated := FlagAfter(v))),
                              mode, initial);
    match AgentRun(tools, if initial then InitialReviewQuery else request, ctx, ext)
    case AgentRaised => ServiceFailed(HttpError(500, Unexpected))
    case AgentAnswered(response) => Served(response)
  }

  /** The initial review is asked for at most once per session, and only in co-reviewer mode:
      after any turn, the next turn on the same session is an ordinary one. */
  lemma InitialReviewOnce(v: SessionView)
    ensures IsInitial(v) ==> v.mode == CoReviewer && !v.initialReviewGenerated
    ensures !IsInitial(v.(initialReviewGenerated := FlagAfter(v)))
    ensures v.mode == InteractiveAssistant ==> !IsInitial(v)
  {
  }

  class AgentService {
    const agent: BaseAgent
    const sessionManager: Sessions.SessionManager

    /** The service registers the available tools with its agent, in order, and starts with no
        sessions. */
    constructor ()
      ensures fresh(agent) && fresh(sessionManager)
      ensures agent.tools == AvailableTools()
      ensures sessionManager.sessions == map[]
    {
      agent := new BaseAgent();
      sessionManager := new Sessions.SessionManager();
      new;
      var available := AvailableTools();
      var i := 0;
      while i < |available|
        invariant 0 <= i <= |available|
        invariant agent.tools == available[..i]
        invariant sessionManager.sessions == map[]
      {
        agent.RegisterTool(available[i]);
        assert available[..i + 1] == available[..i] + [available[i]];
        i := i + 1;
      }
      assert available[..i] == available;
    }

    /** `process_request`. A non-empty id of a stored session is reused; otherwise (an empty,
        absent or unknown id) a new session is created under a new id, whatever the request's
        pr_id and mode. The flag is set before the agent runs and the history is never
        changed. */
    method ProcessRequest(request: string, sessionId: string, prId: string, mode: string, ext: Externals)
      returns (out: ServiceOutcome, ghost sid: string)
      modifies sessionManager, if sessionId != "" && sessionId in sessionManager.sessions
                               then {sessionManager.sessions[sessionId]} else {}
      ensures forall s :: s in old(sessionManager.sessions.Values)
                          && !(sessionId != "" && sessionId in old(sessionManager.sessions)
                               && s == old(sessionManager.sessions)[sessionId]) ==>
        unchanged(s)
      ensures sessionId != "" && sessionId in old(sessionManager.sessions) ==>
        && sid == sessionId
        && sessionManager.sessions == old(sessionManager.sessions)
        && out == ServiceTurn(agent.tools, request, sid, prId, mode, old(sessionManager.sessions[sid].View()), ext)
        && sessionManager.sessions[sid].chatHistory == old(sessionManager.sessions[sid].chatHistory)
        && sessionManager.sessions[sid].initialReviewGenerated == FlagAfter(old(sessionManager.sessions[sid].View()))
      ensures !(sessionId != "" && sessionId in old(sessionManager.sessions)) ==>
        var index := RagUtils.IndexFor(prId, ext.indexes);
        && (index.LoadFailed? ==>
              out == ServiceFailed(HttpError(500, IndexLoadFailed))
              && sessionManager.sessions == old(sessionManager.sessions))
        && (index.Loaded? && ParseMode(mode).None? ==>
              out == ServiceFailed(HttpError(500, Unexpected))
              && sessionManager.sessions == old(sessionManager.sessions))
        && (index.Loaded? && ParseMode(mode).Some? ==>
              var fresh0 := SessionView(prId, ParseMode(mode).value, [], false,
                                        index.data.queryEngines, index.data.collections);
              && sid !in old(sessionManager.sessions)
              && sid in sessionManager.sessions
              && fresh(sessionManager.sessions[sid])
              && sessionManager.sessions == old(sessionManager.sessions)[sid := sessionManager.sessions[sid]]
              && sessionManager.sessions[sid].View() == fresh0.(initialReviewGenerated := FlagAfter(fresh0))
              && out == ServiceTurn(agent.tools, request, sid, prId, mode, fresh0, ext))
    {
      var id := sessionId;
      var found: Option<SessionData> := None;
      if sessionId != "" {
        found := sessionManager.GetSession(sessionId);
      }
      var session: SessionData;
      if found.Some? {
        session := found.value;
      } else {
        id := sessionManager.CreateSessionId();
        var created := sessionManager.CreateSession(id, prId, mode, ext.indexes);
        if created.CreateRaised? {
          sid := id;
          if created.raised.HttpRaised? {
            return ServiceFailed(created.raised.error), sid;
          }
          return ServiceFailed(HttpError(500, Unexpected)), sid;
        }
        session := created.session;
      }
      sid := id;
      ghost var before := session.View();
      var initial := !session.initialReviewGenerated && session.mode == CoReviewer;
      var actualRequest := request;
      if initial {
        actualRequest := InitialReviewQuery;
        sessionManager.SetInitialReviewGenerated(id);
      }
      assert session.View() == before.(initialReviewGenerated := FlagAfter(before));
      var ctx := SessionContext(id, prId, session.chatHistory, Some(session.View()), mode, initial);
      var response := agent.ProcessRequest(actualRequest, ctx, ext);
      if response.AgentRaised? {
        return ServiceFailed(HttpError(500, Unexpected)), sid;
      }
      out := Served(response.response);
    }
  }
}
