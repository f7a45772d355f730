/** The in-memory session store: a map from session id to the mutable session record. */
module Sessions {
  import opened Common
  import opened Schemas
  import RagUtils

  /** `create_session` returns the new session or raises. */
  datatype CreateOutcome = Created(session: SessionData) | CreateRaised(raised: Raised)

  class SessionManager {
    var sessions: map<string, SessionData>

    constructor ()
      ensures sessions == map[]
    {
      sessions := map[];
    }

    /** `get_session`: the stored session for a known id, nothing for an unknown one. */
    function GetSession(id: string): (r: Option<SessionData>)
      reads this
      ensures r.Some? <==> id in sessions
      ensures r.Some? ==> r.value == sessions[id]
    {
      if id in sessions then Some(sessions[id]) else None
    }

    /** `create_session_id`: an id under which nothing is stored yet. The random UUID of the
        source is replaced by a string one character longer than every stored id. */
    method CreateSessionId() returns (id: string)
      ensures id !in sessions
      ensures GetSession(id).None?
    {
      var pending := sessions.Keys;
      var longest: nat := 0;
      while pending != {}
        invariant pending <= sessions.Keys
        invariant forall k :: k in sessions && k !in pending ==> |k| <= longest
        decreases pending
      {
        var k :| k in pending;
        if |k| > longest {
          longest := |k|;
        }
        pending := pending - {k};
      }
      id := seq(longest + 1, _ => 'x');
    }

    /** `store_session`: `id` now names `s`; every other id is unchanged. */
    method StoreSession(id: string, s: SessionData)
      modifies this
      ensures GetSession(id) == Some(s)
      ensures forall other :: other != id ==> GetSession(other) == old(GetSession(other))
      ensures sessions == old(sessions)[id := s]
    {
      sessions := sessions[id := s];
    }

    /** `create_session`: loads the pull request's index (an error there is raised as HTTP 500),
        validates the mode, and stores a fresh session with an empty history and the flag
        unset under the given id. */
    method CreateSession(id: string, prId: string, mode: string, indexes: map<string, ProjectIndex>)
      returns (r: CreateOutcome)
      modifies this
      ensures RagUtils.IndexFor(prId, indexes).LoadFailed? ==>
        r == CreateRaised(HttpRaised(HttpError(500, IndexLoadFailed))) && sessions == old(sessions)
      ensures RagUtils.IndexFor(prId, indexes).Loaded? && ParseMode(mode).None? ==>
        r == CreateRaised(OtherRaised) && sessions == old(sessions)
      ensures r.Created? <==> RagUtils.IndexFor(prId, indexes).Loaded? && ParseMode(mode).Some?
      ensures r.Created? ==>
        var data := RagUtils.IndexFor(prId, indexes).data;
        && fresh(r.session)
        && sessions == old(sessions)[id := r.session]
        && r.session.prId == prId && ModeName(r.session.mode) == mode
        && r.session.chatHistory == [] && !r.session.initialReviewGenerated
        && r.session.queryEngines == data.queryEngines && r.session.collections == data.collections
    {
      var loaded := RagUtils.LoadProjectIndex(prId, indexes);
      if loaded.LoadFailed? {
        return CreateRaised(HttpRaised(HttpError(500, IndexLoadFailed)));
      }
      var parsedMode := ParseMode(mode);
      if parsedMode.None? {
        return CreateRaised(OtherRaised);
      }
      var s := new SessionData(prId, parsedMode.value, loaded.data.queryEngines, loaded.data.collections);
      StoreSession(id, s);
      r := Created(s);
    }

    /** `update_session_history`: for a known id, the user query and then the answer are
        appended to that session's history and nothing else changes; an unknown id changes
        nothing. */
    method UpdateSessionHistory(id: string, userQuery: string, answer: string)
      modifies this, if id in sessions then {sessions[id]} else {}
      ensures sessions == old(sessions)
      ensures id in sessions ==>
        && sessions[id].chatHistory
           == old(sessions[id].chatHistory) + [Message(User, userQuery), Message(Assistant, answer)]
        && sessions[id].initialReviewGenerated == old(sessions[id].initialReviewGenerated)
      ensures id !in sessions ==> forall s :: s in sessions.Values ==> unchanged(s)
    {
      var found := GetSession(id);
      if found.Some? {
        var session := found.value;
        session.chatHistory := session.chatHistory + [Message(User, userQuery)];
        session.chatHistory := session.chatHistory + [Message(Assistant, answer)];
        StoreSession(id, session);
      }
    }

    /** `set_initial_review_generated`: for a known id the flag is set (so a second call
        changes nothing further) and the history is kept; an unknown id changes nothing. */
    method SetInitialReviewGenerated(id: string)
      modifies this, if id in sessions then {sessions[id]} else {}
      ensures sessions == old(sessions)
      ensures id in sessions ==>
        && sessions[id].initialReviewGenerated
        && sessions[id].chatHistory == old(sessions[id].chatHistory)
      ensures id !in sessions ==> forall s :: s in sessions.Values ==> unchanged(s)
    {
      var found := GetSession(id);
      if found.Some? {
        var session := found.value;
        session.initialReviewGenerated := true;
        StoreSession(id, session);
      }
    }
  }
}
