# eBay agent gateway: session authentication, modelled in Dafny

The gateway's `/ask` endpoint receives `{query, session_id}`. It authenticates each
session by phone number and zip code before handing questions to an "authenticated"
assistant. Until then, questions go to a "guest" assistant. This project models the
part of `app.py` that does the work:

- the two credential extractors, `re.search(r'\b\d{10}\b')` and `re.search(r'\b\d{5}\b')`;
- the process-wide session map `user_auth_state`;
- the per-turn state machine of `ask_agent`.

It then proves what that logic guarantees.

Files and modules:

- `option.dfy` (`Opt`): the `None`-or-value type.
- `extract.dfy` (`Extract`): the regular expression `\b\d{n}\b` as a predicate
  `MatchesAt`. `re.search` becomes a leftmost scan (`FindFrom`, `Search`).
  `ExtractPhone` and `ExtractZip` are built on them. Lemmas cover word tokens,
  digit runs and overlap.
- `config.dfy` (`Config`): the directory `USER_DATA` as a set of keys, and the key
  format `"{phone}-{zip}"`.
- `session.dfy` (`Session`): the session record, replies and assistant outcomes.
  `Turn` is a declarative transition function for one request: the new record
  plus the reply. Lemmas state the invariants and ordering rules of the state
  machine.
- `store.dfy` (`App`): `SessionStore`, a class whose field `states` is
  `user_auth_state`. `Ask` follows the handler statement by statement, including
  the `processed_auth` flag and the field-by-field record updates. It is proved
  to commit exactly `Turn`'s record and return exactly `Turn`'s reply, and to
  keep every stored record well formed.
- `scenarios.dfy` (`Scenarios`): concrete utterances and a four-request
  conversation against a fresh store.

Modelling choices:

- The three assistant `.run` calls are external. Each is represented by what it
  does for this request's query: `Answered(text)` or `Raised(str(e))`. Together
  they are the `Replies` parameter. The authentication agent's answer
  (app.py:64) is only logged, so only whether it raised matters.
- Replies are a datatype rather than JSON. `ServerError` records which `except`
  produced the 500 (app.py:56-58 or 147-149) or the fallback of app.py:151, and
  the `str(e)` detail; the comment on `Response` gives the corresponding texts.
- The handler mutates a dict that is aliased with the map entry. The model
  keeps the record as a value and writes it back into the map after every field
  assignment, clearing `phone` and `zip` in two writes as app.py:86-87 does, so
  the map goes through the same intermediate states.
- Python truthiness (`if phone:`, `if auth_state["zip"]:`) is modelled as
  `Truthy`: present and non-empty. `is None` is modelled as `None?`. Under the
  store invariant the two coincide.
- `\d` and `\w` are restricted to ASCII: a digit is `0`-`9`, and a word
  character is an ASCII letter, digit or `_`. Python's Unicode classes are wider.

Behaviour of the handler worth knowing:

- An utterance holding both a phone and a zip on a fresh session stores only the
  phone and asks for the zip (app.py:71-101). The pair is not validated in that
  turn.
- Each turn takes at most one credential, phone first: the zip branch runs only
  when no phone was taken (app.py:104).
- A turn that captures nothing goes to the guest assistant (app.py:136-145). It
  never re-prompts.
- A failed directory check clears `phone` and `zip` (app.py:86-87, 119-120). Its
  message asks for both credentials again.
- Every unauthenticated turn first calls the authentication agent (app.py:64). If
  that call raises, the reply is a 500 before any credential is looked at.
- A failing guest assistant is reported as "Authentication Agent Error", because
  the handler catches it with the same `except` (app.py:147-149).

## Model

| member | source | states |
|---|---|---|
| Extract.FindFrom | app.py:15 | the scan that `re.search` performs: a result is a match at or after the start position with no match between the start and it; no result means no match anywhere from the start |
| Extract.Search | app.py:15-18 | absent exactly when the text has no match; otherwise n digits, taken at the leftmost matching index |
| Extract.ExtractPhone | app.py:13-18 | None exactly when no boundary-delimited 10-digit run exists; otherwise 10 digits equal to the text at the leftmost such index |
| Extract.ExtractZip | app.py:21-26 | None exactly when no boundary-delimited 5-digit run exists; otherwise 5 digits equal to the text at the leftmost such index |
| Extract.MatchIsDigitToken | app.py:15 | for a non-empty pattern, `\b\d{n}\b` matches at i iff n digits start at i and neither neighbour is a word character (a whole word token of n digits) |
| Extract.NoMatchInsideLongerRun | app.py:15 | no match lies inside a longer run of digits, so 11 or more digits hold no phone |
| Extract.MatchesDisjointOrSame | app.py:13-26 | two matches of digit patterns are the same token or disjoint |
| Extract.ZipNeverInsidePhone | app.py:13-26 | the zip found in a text never overlaps the phone found in it |
| Extract.SearchFindsLeftmost | app.py:15-17 | the leftmost match index determines the returned text |
| Config.Key | app.py:77 | the key `"{phone}-{zip}"` splits back into phone and zip at the dash |
| Config.DirectoryPairs | config.py:8-15 | a 10-digit phone and 5-digit zip are in the directory exactly for its two listed pairs |
| Session.Turn | app.py:46-149 | a 500 reply leaves the record unchanged, is never the line-151 fallback, and names the branch whose call failed: the authenticated-agent error exactly when the session was authenticated; a turn never answers 400 |
| Session.TurnKeepsWellFormed | app.py:71-134 | every turn keeps the record invariant: stored credentials are 10 and 5 digits; authenticated iff both are stored; when authenticated, their key is in the directory |
| Session.AuthenticatedIsFinal | app.py:46-58 | an authenticated session keeps its record unchanged and its query goes to the authenticated assistant; its text or its error is returned |
| Session.AuthenticatesOnlyFromDirectory | app.py:76-117 | `authenticated` becomes true only in a turn whose stored pair is a directory key, with the success reply (phone branch app.py:76-84, zip branch app.py:109-117) |
| Session.FailedCheckClears | app.py:85-126 | the failure reply comes with phone and zip cleared and the session unauthenticated (app.py:85-93 and 118-126) |
| Session.OnlyAuthRepliesChangeState | app.py:46-149 | errors and forwarded answers leave the record unchanged |
| Session.PhoneTakesPrecedence | app.py:71-104 | when a phone is wanted and present, it is taken and the zip branch is skipped even if the query holds a zip; with no zip stored the reply asks for the zip; with a zip stored the directory decides: the matching pair authenticates, any other pair resets the session to its initial record |
| Session.ZipOnlyWithoutPhone | app.py:103-108 | a zip is stored only when none was stored and no phone was taken in that turn; the phone field is left unchanged |
| Session.NothingCapturedGoesToGuest | app.py:136-145 | a turn that captures nothing forwards to the guest assistant and leaves the record unchanged |
| Session.ZipCompletesPair | app.py:104-126 | with a phone stored, a matching zip authenticates; any other zip resets the session to its initial record |
| App.SessionStore.constructor | app.py:10 | the store starts as an empty map |
| App.SessionStore.CheckStoredPair | app.py:76-126 | the directory check on the stored pair, committed to the session's entry; one helper for both copies (app.py:76-93 and 109-126) |
| App.SessionStore.Ask | app.py:29-151 | a request without query or session_id gets 400 and leaves the map untouched. Otherwise the session's entry, created as `{False, None, None}` when absent, is replaced by `Turn`'s record and the reply is `Turn`'s reply. All other entries are kept, every record stays well formed, and line 151 is never reached |
| Scenarios.PhoneInSentence | app.py:13-18 | "my number is 1234567890" yields that phone |
| Scenarios.ElevenDigitsNoPhone | app.py:15 | eleven digits yield no phone |
| Scenarios.PhoneHoldsNoZip | app.py:23 | a bare 10-digit phone yields no zip |
| Scenarios.NoDigitsNoCredentials | app.py:13-26 | a text without digits yields neither credential |
| Scenarios.ZipAlone | app.py:21-26 | "98109" yields that zip and no phone |
| Scenarios.BothInOneQuery | app.py:13-26 | "1234567890 98109" yields both values to the two extractors |
| Scenarios.FreshSessionGivesPhone | app.py:71-101 | a fresh session sending its phone stores it and is asked for the zip |
| Scenarios.MatchingZipAuthenticates | app.py:104-117 | then "98109" authenticates the session |
| Scenarios.OtherZipResets | app.py:118-126 | then "00000" resets it to the initial record with the failure reply |
| Scenarios.BothOnFreshSessionStoresPhoneOnly | app.py:71-101 | phone and zip in one first query: only the phone is stored and the zip is asked for |
| Scenarios.Conversation | app.py:29-151 | against a fresh store: phone, then zip, then a question answered by the authenticated assistant; a second session without credentials is answered by the guest assistant |

## Left out

- Flask plumbing is not modelled. This covers the route, `request.get_json`,
  `jsonify`, status codes as transport, the `print` logging (app.py:65-66) and
  `app.run`. A missing or empty body is modelled as a request lacking both fields.
- JSON values of other types are not modelled: `query` and `session_id` are
  strings here. On an unauthenticated session a non-string query ends in the
  500 of app.py:147-149, raised by the authentication agent or by `re.search`.
  On an authenticated session it goes unchanged to the authenticated agent
  (app.py:50). An unhashable session id would raise outside the `try`.
- The assistant factories `create_ebay_auth_agent()` and `create_auth_agent()`
  are called outside the `try` (app.py:48, 61). Their failures escape to the
  framework and are not modelled. agents/ebay_guest_agent.py,
  agents/ebay_auth_agent.py and agents/auth_agent.py are not part of this model:
  they only build LangChain agents with a hosted LLM and a search tool.
- config.py's `OLLAMA_BASE_URL` and `LLM_MODEL` are environment reads and are not
  modelled. Only the keys of `USER_DATA` are kept; every value is
  `{"authenticated": True}` and is never read.
- Unicode `\d` and `\w` are not modelled: both are ASCII only.
- Concurrent requests on the shared map are not modelled. Each `Ask` runs as one
  atomic step.
