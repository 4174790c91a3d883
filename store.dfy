/**
 * The `/ask` handler of app.py over the process-wide session map
 * `user_auth_state`: a class whose one field is that map, and whose method Ask
 * runs one request step by step as the handler does, updating the session's
 * record field by field.
 */
module App {
  import opened Opt
  import opened Extract
  import opened Config
  import opened Session

  /** A request body: `query` and `session_id`, each possibly missing. */
  datatype Request = Request(query: Option<string>, sessionId: Option<string>)

  /** Python truthiness of an optional string: neither None nor empty. */
  predicate Truthy(v: Option<string>) { v.Some? && v.value != "" }

  /** The record a session id currently has, or the initial record for a new id. */
  function Lookup(states: map<string, AuthState>, id: string): AuthState
  {
    if id in states then states[id] else Initial
  }

  /** Every record in the map is well formed. */
  ghost predicate AllWellFormed(states: map<string, AuthState>)
  {
    forall id :: id in states ==> WellFormed(states[id])
  }

  lemma CommitKeepsWellFormed(states: map<string, AuthState>, id: string, s: AuthState)
    requires AllWellFormed(states) && WellFormed(s)
    ensures AllWellFormed(states[id := s])
  {
  }

  class SessionStore {
    /** `user_auth_state`: session id to authentication record. */
    var states: map<string, AuthState>

    ghost predicate Valid()
      reads this
    {
      AllWellFormed(states)
    }

    constructor ()
      ensures Valid() && states == map[]
    {
      states := map[];
    }

    /**
     * The directory check on the session's record once both credentials are
     * stored: success sets `authenticated`, failure clears `phone` and `zip`.
     */
    method CheckStoredPair(id: string, auth: AuthState) returns (r: Response)
      requires auth.phone.Some? && auth.zip.Some?
      requires id in states && states[id] == auth
      modifies this
      ensures states == old(states)[id := CheckPair(auth).state]
      ensures r == CheckPair(auth).response
    {
      if Key(auth.phone.value, auth.zip.value) in UserData {
        var auth' := auth.(authenticated := true);
        states := states[id := auth'];
        return AuthReply(SuccessMessage, true, None);
      } else {
        var auth' := auth.(phone := None);
        states := states[id := auth'];
        auth' := auth'.(zip := None);
        states := states[id := auth'];
        return AuthReply(FailureMessage, false, None);
      }
    }

    /**
     * One POST to `/ask`. A request lacking a field is refused before the map
     * is touched; otherwise the session's record is looked up (or created) and
     * the turn computed by Session.Turn is committed in place of it.
     */
    method Ask(req: Request, replies: Replies) returns (r: Response)
      requires Valid()
      modifies this
      ensures Valid()
      ensures req.query.None? || req.sessionId.None? ==> r == BadRequest && states == old(states)
      ensures req.query.Some? && req.sessionId.Some? ==>
        var t := Turn(Lookup(old(states), req.sessionId.value), req.query.value, replies);
        states == old(states)[req.sessionId.value := t.state] && r == t.response
      ensures r.ServerError? ==> r.source != ShouldNotReach
    {
      if req.query.None? || req.sessionId.None? {
        return BadRequest;
      }
      var query, id := req.query.value, req.sessionId.value;
      ghost var t := Turn(Lookup(states, id), query, replies);
      ghost var before := states;

      var auth := if id in states then states[id] else Initial;
      states := states[id := auth];
      assert auth == Lookup(before, id) && WellFormed(auth);
      TurnKeepsWellFormed(auth, query, replies);
      CommitKeepsWellFormed(before, id, t.state);
      ghost var start := auth;

      if auth.authenticated {
        match replies.ebayAuthAgent {
          case Answered(text) => return AuthenticatedAnswer(text);
          case Raised(e) => return ServerError(AuthenticatedAgentError, e);
        }
      } else {
        if replies.authAgent.Raised? {
          return ServerError(AuthenticationAgentError, replies.authAgent.error);
        }
        var processed := false;

        if auth.phone.None? {
          var phone := ExtractPhone(query);
          assert Truthy(phone) <==> phone.Some?;
          if Truthy(phone) {
            assert Captured(start, query) == CapturedPhone(phone.value);
            auth := auth.(phone := phone);
            states := states[id := auth];
            assert states == before[id := auth];
            processed := true;
            if Truthy(auth.zip) {
              r := CheckStoredPair(id, auth);
              return;
            } else {
              return AuthReply(NeedZipMessage, false, Some(Zip));
            }
          }
        }

        if !processed && auth.zip.None? {
          var zip := ExtractZip(query);
          assert Truthy(zip) <==> zip.Some?;
          if Truthy(zip) {
            assert Captured(start, query) == CapturedZip(zip.value);
            auth := auth.(zip := zip);
            states := states[id := auth];
            assert states == before[id := auth];
            processed := true;
            if Truthy(auth.phone) {
              r := CheckStoredPair(id, auth);
              return;
            } else {
              return AuthReply(NeedPhoneMessage, false, Some(Phone));
            }
          }
        }

        if !processed {
          assert Captured(start, query) == NothingCaptured;
          match replies.guestAgent {
            case Answered(text) => return GuestAnswer(text);
            case Raised(e) => return ServerError(AuthenticationAgentError, e);
          }
        }
      }
      return ServerError(ShouldNotReach, "");
    }
  }
}
