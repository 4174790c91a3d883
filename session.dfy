/**
 * One turn of the per-session authentication logic of `ask_agent` (app.py),
 * stated as a function from the session's record and the user's query to the
 * new record and the reply. The imperative handler in module App is proved
 * to compute exactly this.
 */
module Session {
  import opened Opt
  import opened Extract
  import opened Config

  /** A session record: `{"authenticated": ..., "phone": ..., "zip": ...}`. */
  datatype AuthState = AuthState(authenticated: bool, phone: Option<string>, zip: Option<string>)

  /** The record given to a session id seen for the first time. */
  const Initial := AuthState(false, None, None)

  /** The credential an authentication prompt asks for (the `"needs"` field). */
  datatype Credential = Phone | Zip

  /** What one `.run` call of an external assistant does: returns text, or raises `e` (kept as `str(e)`). */
  datatype AgentOutcome = Answered(text: string) | Raised(error: string)

  /**
   * The outcomes of the three assistants for this request's query: the
   * authentication agent (app.py:64), the authenticated eBay agent (app.py:50)
   * and the guest eBay agent (app.py:139). Only the ones the turn calls matter.
   */
  datatype Replies = Replies(authAgent: AgentOutcome, ebayAuthAgent: AgentOutcome, guestAgent: AgentOutcome)

  /** Which `except` (or the final fallback) produced a 500 reply. */
  datatype ErrorSource = AuthenticatedAgentError | AuthenticationAgentError | ShouldNotReach

  /** The JSON replies of the `/ask` endpoint. */
  datatype Response =
    | BadRequest                                  // 400, "Missing 'query' or 'session_id' in request body"
    | AuthReply(message: string, authenticated: bool, needs: Option<Credential>)  // agent "Authentication Agent"
    | AuthenticatedAnswer(text: string)           // agent "eBay Authenticated Agent", authenticated true
    | GuestAnswer(text: string)                   // agent "eBay Guest Agent", authenticated false, needs_auth
    | ServerError(source: ErrorSource, detail: string)  // 500
    // The 500 texts: "eBay Authenticated Agent Error: " + detail (AuthenticatedAgentError),
    // "Authentication Agent Error: " + detail (AuthenticationAgentError), and
    // "Should not reach here" (ShouldNotReach).

  const SuccessMessage := "Authentication successful. You can now ask eBay-related questions."
  const FailureMessage := "Authentication failed. Please provide your phone number and zip code."
  const NeedZipMessage := "Please provide your zip code for authentication."
  const NeedPhoneMessage := "Please provide your phone number for authentication."

  /** A turn's outcome: the session's new record and the reply. */
  datatype Step = Step(state: AuthState, response: Response)

  /**
   * The records the handler can produce: stored credentials have the
   * extractors' shapes, an authenticated session holds a pair found in the
   * directory, and an unauthenticated one never holds both credentials.
   */
  ghost predicate WellFormed(s: AuthState)
  {
    && (s.phone.Some? ==> |s.phone.value| == 10 && forall k :: 0 <= k < 10 ==> IsDigit(s.phone.value[k]))
    && (s.zip.Some? ==> |s.zip.value| == 5 && forall k :: 0 <= k < 5 ==> IsDigit(s.zip.value[k]))
    && (s.authenticated <==> s.phone.Some? && s.zip.Some?)
    && (s.authenticated ==> Key(s.phone.value, s.zip.value) in UserData)
  }

  /** The credential a turn takes from the query: a phone if none is stored, else a zip if none is stored. */
  datatype Capture = CapturedPhone(phone: string) | CapturedZip(zip: string) | NothingCaptured

  function Captured(s: AuthState, query: string): Capture
  {
    if s.phone.None? && ExtractPhone(query).Some? then CapturedPhone(ExtractPhone(query).value)
    else if s.zip.None? && ExtractZip(query).Some? then CapturedZip(ExtractZip(query).value)
    else NothingCaptured
  }

  /** The directory check on a stored pair: found authenticates, not found clears both credentials. */
  function CheckPair(s: AuthState): Step
    requires s.phone.Some? && s.zip.Some?
  {
    if Key(s.phone.value, s.zip.value) in UserData then
      Step(s.(authenticated := true), AuthReply(SuccessMessage, true, None))
    else
      Step(s.(phone := None, zip := None), AuthReply(FailureMessage, false, None))
  }

  /**
   * After a credential has been stored: with both present, the directory
   * decides between authenticating and clearing both; otherwise the missing
   * one is asked for.
   */
  function Settle(s: AuthState, missing: Credential): Step
  {
    if s.phone.Some? && s.zip.Some? then CheckPair(s)
    else
      Step(s, AuthReply(if missing == Zip then NeedZipMessage else NeedPhoneMessage, false, Some(missing)))
  }

  /**
   * One turn of a session whose record is s, for a request carrying query.
   * Its ensures are visible in the branches below; that the handler itself
   * never falls through to its "Should not reach here" reply is stated on
   * App.SessionStore.Ask, whose step-by-step body is proved to agree with Turn.
   */
  function Turn(s: AuthState, query: string, replies: Replies): (t: Step)
    ensures t.response.ServerError? ==> t.response.source != ShouldNotReach && t.state == s
    ensures t.response.ServerError? ==> (t.response.source == AuthenticatedAgentError <==> s.authenticated)
    ensures !t.response.BadRequest?
  {
    if s.authenticated then
      match replies.ebayAuthAgent
      case Answered(text) => Step(s, AuthenticatedAnswer(text))
      case Raised(e) => Step(s, ServerError(AuthenticatedAgentError, e))
    else if replies.authAgent.Raised? then
      Step(s, ServerError(AuthenticationAgentError, replies.authAgent.error))
    else
      match Captured(s, query)
      case CapturedPhone(phone) => Settle(s.(phone := Some(phone)), Zip)
      case CapturedZip(zip) => Settle(s.(zip := Some(zip)), Phone)
      case NothingCaptured =>
        match replies.guestAgent
        case Answered(text) => Step(s, GuestAnswer(text))
        case Raised(e) => Step(s, ServerError(AuthenticationAgentError, e))
  }

  // ----- properties of a turn -----

  /** Every turn keeps a record well formed. */
  lemma TurnKeepsWellFormed(s: AuthState, query: string, replies: Replies)
    requires WellFormed(s)
    ensures WellFormed(Turn(s, query, replies).state)
  {
  }

  /**
   * An authenticated session stays authenticated with its credentials untouched,
   * and its query goes to the authenticated assistant, whether that succeeds or fails.
   */
  lemma AuthenticatedIsFinal(s: AuthState, query: string, replies: Replies)
    requires s.authenticated
    ensures Turn(s, query, replies).state == s
    ensures var r := Turn(s, query, replies).response;
      match replies.ebayAuthAgent
      case Answered(text) => r == AuthenticatedAnswer(text)
      case Raised(e) => r == ServerError(AuthenticatedAgentError, e)
  {
  }

  /** `authenticated` is set only in the turn whose stored pair is found in the directory. */
  lemma AuthenticatesOnlyFromDirectory(s: AuthState, query: string, replies: Replies)
    requires !s.authenticated
    requires Turn(s, query, replies).state.authenticated
    ensures var t := Turn(s, query, replies);
      && t.state.phone.Some? && t.state.zip.Some?
      && Key(t.state.phone.value, t.state.zip.value) in UserData
      && t.response == AuthReply(SuccessMessage, true, None)
  {
  }

  /** A failed directory check clears both credentials and leaves the session unauthenticated. */
  lemma FailedCheckClears(s: AuthState, query: string, replies: Replies)
    requires !s.authenticated
    requires Turn(s, query, replies).response == AuthReply(FailureMessage, false, None)
    ensures Turn(s, query, replies).state == Initial
  {
  }

  /**
   * Errors and forwarded answers never change the record: state changes only
   * with an authentication prompt. So repeating a query that was forwarded or
   * failed meets the same record again and gets the same reply.
   */
  lemma OnlyAuthRepliesChangeState(s: AuthState, query: string, replies: Replies)
    requires !Turn(s, query, replies).response.AuthReply?
    ensures Turn(s, query, replies).state == s
  {
  }

  /**
   * Phone before zip, one credential per turn: when a phone is wanted and the
   * query has one, the zip branch is skipped even if the query also holds a zip.
   */
  lemma PhoneTakesPrecedence(s: AuthState, query: string, replies: Replies)
    requires WellFormed(s) && !s.authenticated && replies.authAgent.Answered?
    requires s.phone.None? && ExtractPhone(query).Some?
    ensures var t := Turn(s, query, replies);
      if s.zip.None? then
        t == Step(s.(phone := ExtractPhone(query)), AuthReply(NeedZipMessage, false, Some(Zip)))
      else if Key(ExtractPhone(query).value, s.zip.value) in UserData then
        t == Step(AuthState(true, ExtractPhone(query), s.zip), AuthReply(SuccessMessage, true, None))
      else
        t == Step(Initial, AuthReply(FailureMessage, false, None))
  {
  }

  /** A zip is taken only when no phone was taken, and it never replaces a stored phone. */
  lemma ZipOnlyWithoutPhone(s: AuthState, query: string, replies: Replies)
    requires !s.authenticated
    requires var t := Turn(s, query, replies); t.state.zip.Some? && t.state.zip != s.zip
    ensures s.zip.None? && (s.phone.Some? || ExtractPhone(query).None?)
    ensures Turn(s, query, replies).state.zip == ExtractZip(query)
    ensures Turn(s, query, replies).state.phone == s.phone
  {
  }

  /**
   * A turn that captures nothing goes to the guest assistant and changes
   * nothing; it never ends in the "Should not reach here" fallback.
   */
  lemma NothingCapturedGoesToGuest(s: AuthState, query: string, replies: Replies)
    requires !s.authenticated && replies.authAgent.Answered?
    requires s.phone.Some? || ExtractPhone(query).None?
    requires s.zip.Some? || ExtractZip(query).None?
    ensures var t := Turn(s, query, replies);
      && t.state == s
      && match replies.guestAgent
         case Answered(text) => t.response == GuestAnswer(text)
         case Raised(e) => t.response == ServerError(AuthenticationAgentError, e)
  {
  }

  /**
   * With a phone stored, the matching zip authenticates and any other zip
   * resets the session to its initial record.
   */
  lemma ZipCompletesPair(s: AuthState, query: string, replies: Replies)
    requires WellFormed(s) && !s.authenticated && s.phone.Some?
    requires replies.authAgent.Answered? && ExtractZip(query).Some?
    ensures var t := Turn(s, query, replies);
      if Key(s.phone.value, ExtractZip(query).value) in UserData then
        t == Step(AuthState(true, s.phone, ExtractZip(query)), AuthReply(SuccessMessage, true, None))
      else
        t == Step(Initial, AuthReply(FailureMessage, false, None))
  {
  }
}
