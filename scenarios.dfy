/**
 * Concrete conversations with the handler of app.py: what the extractors find
 * in sample utterances and how a session's record evolves turn by turn.
 */
module Scenarios {
  import opened Opt
  import opened Extract
  import opened Config
  import opened Session
  import opened App

  const Sentence := "my number is 1234567890"

  lemma PhoneInSentence()
    ensures ExtractPhone(Sentence) == Some("1234567890")
  {
    assert MatchesAt(Sentence, 13, 10);
    forall j: nat | j < 13 ensures !MatchesAt(Sentence, j, 10) {
      if j < 3 { NonDigitBlocks(Sentence, j, 10, 2); } else { NonDigitBlocks(Sentence, j, 10, 12); }
    }
    SearchFindsLeftmost(Sentence, 13, 10);
    assert Sentence[13..23] == "1234567890";
  }

  /** Eleven digits in a row hold no phone number. */
  lemma ElevenDigitsNoPhone()
    ensures ExtractPhone("12345678901") == None
  {
    var text := "12345678901";
    assert DigitsAt(text, 0, 11);
    forall i: nat ensures !MatchesAt(text, i, 10) {
      if i <= 1 { NoMatchInsideLongerRun(text, 0, 11, i, 10); }
    }
  }

  /** A phone number holds no zip code. */
  lemma PhoneHoldsNoZip()
    ensures ExtractZip("1234567890") == None
  {
    var text := "1234567890";
    assert DigitsAt(text, 0, 10);
    forall i: nat ensures !MatchesAt(text, i, 5) {
      if i <= 5 { NoMatchInsideLongerRun(text, 0, 10, i, 5); }
    }
  }

  /** A query without digits holds neither credential. */
  lemma NoDigitsNoCredentials(text: string)
    requires forall k :: 0 <= k < |text| ==> !IsDigit(text[k])
    ensures ExtractPhone(text) == None && ExtractZip(text) == None
  {
    forall i: nat, n: nat | 0 < n ensures !MatchesAt(text, i, n) {
      if i < |text| { NonDigitBlocks(text, i, n, i); }
    }
  }

  lemma ZipAlone()
    ensures ExtractPhone("98109") == None && ExtractZip("98109") == Some("98109")
  {
    assert Leftmost("98109", 0, 5);
    SearchFindsLeftmost("98109", 0, 5);
    assert "98109"[0..5] == "98109";
  }

  const BothCredentials := "1234567890 98109"

  lemma BothInOneQuery()
    ensures ExtractPhone(BothCredentials) == Some("1234567890")
    ensures ExtractZip(BothCredentials) == Some("98109")
  {
    assert Leftmost(BothCredentials, 0, 10);
    SearchFindsLeftmost(BothCredentials, 0, 10);
    assert BothCredentials[0..10] == "1234567890";
    assert MatchesAt(BothCredentials, 11, 5);
    forall j: nat | j < 11 ensures !MatchesAt(BothCredentials, j, 5) {
      if j <= 5 {
        NoMatchInsideLongerRun(BothCredentials, 0, 10, j, 5);
      } else {
        NonDigitBlocks(BothCredentials, j, 5, 10);
      }
    }
    SearchFindsLeftmost(BothCredentials, 11, 5);
    assert BothCredentials[11..16] == "98109";
  }

  const PhoneStored := AuthState(false, Some("1234567890"), None)

  /** A fresh session that sends its phone number is asked for its zip code. */
  lemma FreshSessionGivesPhone(replies: Replies)
    requires replies.authAgent.Answered?
    ensures Turn(Initial, Sentence, replies) == Step(PhoneStored, AuthReply(NeedZipMessage, false, Some(Zip)))
  {
    PhoneInSentence();
  }

  /** The matching zip code then authenticates the session. */
  lemma MatchingZipAuthenticates(replies: Replies)
    requires replies.authAgent.Answered?
    ensures Turn(PhoneStored, "98109", replies) ==
              Step(AuthState(true, Some("1234567890"), Some("98109")), AuthReply(SuccessMessage, true, None))
  {
    ZipAlone();
    assert Key("1234567890", "98109") == "1234567890-98109";
  }

  /** Any other zip code clears the session back to its initial record. */
  lemma OtherZipResets(replies: Replies)
    requires replies.authAgent.Answered?
    ensures Turn(PhoneStored, "00000", replies) == Step(Initial, AuthReply(FailureMessage, false, None))
  {
    assert Leftmost("00000", 0, 5);
    SearchFindsLeftmost("00000", 0, 5);
    DirectoryPairs("1234567890", "00000");
  }

  /**
   * Phone and zip code in the same first query: only the phone is stored and
   * the zip code is asked for; the pair is not checked in this turn.
   */
  lemma BothOnFreshSessionStoresPhoneOnly(replies: Replies)
    requires replies.authAgent.Answered?
    ensures Turn(Initial, BothCredentials, replies) == Step(PhoneStored, AuthReply(NeedZipMessage, false, Some(Zip)))
  {
    BothInOneQuery();
  }

  /**
   * A store serving one session through phone, zip code and a question, while
   * a second session without credentials is answered as a guest.
   */
  method Conversation(replies: Replies) returns (first: Response, second: Response, third: Response, other: Response)
    requires replies.authAgent.Answered?
    ensures first == AuthReply(NeedZipMessage, false, Some(Zip))
    ensures second == AuthReply(SuccessMessage, true, None)
    ensures third == match replies.ebayAuthAgent
                     case Answered(text) => AuthenticatedAnswer(text)
                     case Raised(e) => ServerError(AuthenticatedAgentError, e)
    ensures other == match replies.guestAgent
                     case Answered(text) => GuestAnswer(text)
                     case Raised(e) => ServerError(AuthenticationAgentError, e)
  {
    var store := new SessionStore();
    FreshSessionGivesPhone(replies);
    first := store.Ask(Request(Some(Sentence), Some("s1")), replies);
    MatchingZipAuthenticates(replies);
    second := store.Ask(Request(Some("98109"), Some("s1")), replies);
    third := store.Ask(Request(Some("what is the return policy?"), Some("s1")), replies);
    NoDigitsNoCredentials("hi");
    other := store.Ask(Request(Some("hi"), Some("s2")), replies);
  }
}
