/** server-error.go: the error the gateway reports for a rejected call. */
module ServerErrors {

  /** Envelope `code`, `internalCode`, `devMessage` and the Russian user message. */
  datatype ServerError = ServerError(statusCode: string, internalCode: string, message: string, userMessage: string)

  const ErrorPrefix := "OPLATI error "

  /**
   * `Error()` (server-error.go:15-17): the prefix, the internal code, ": " and the
   * message, read position by position; the status code and user message play no part.
   */
  function ErrorText(s: ServerError): (r: string)
    ensures |r| == 15 + |s.internalCode| + |s.message|
    ensures r[..13] == ErrorPrefix
    ensures r[13..13 + |s.internalCode|] == s.internalCode
    ensures r[13 + |s.internalCode|..15 + |s.internalCode|] == ": "
    ensures r[15 + |s.internalCode|..] == s.message
  {
    ErrorPrefix + s.internalCode + ": " + s.message
  }

  /** Two errors with the same internal code and message print the same. */
  lemma ErrorTextIgnoresStatusAndUserMessage(s: ServerError, t: ServerError)
    requires s.internalCode == t.internalCode && s.message == t.message
    ensures ErrorText(s) == ErrorText(t)
  {
  }

  /** In the text, the first ':' after the prefix is the one that follows the internal code. */
  lemma FirstColonEndsCode(s: ServerError)
    requires forall i :: 0 <= i < |s.internalCode| ==> s.internalCode[i] != ':'
    ensures ErrorText(s)[13 + |s.internalCode|] == ':'
    ensures forall j :: 13 <= j < 13 + |s.internalCode| ==> ErrorText(s)[j] != ':'
  {
    var r := ErrorText(s);
    forall j | 13 <= j < 13 + |s.internalCode| ensures r[j] != ':' {
      assert r[j] == r[13..13 + |s.internalCode|][j - 13];
    }
  }

  /**
   * When the internal code has no ':' (the gateway's codes are identifiers), the text
   * determines both the code and the message.
   */
  lemma ErrorTextRecoversFields(s: ServerError, t: ServerError)
    requires forall i :: 0 <= i < |s.internalCode| ==> s.internalCode[i] != ':'
    requires forall i :: 0 <= i < |t.internalCode| ==> t.internalCode[i] != ':'
    requires ErrorText(s) == ErrorText(t)
    ensures s.internalCode == t.internalCode && s.message == t.message
  {
    FirstColonEndsCode(s);
    FirstColonEndsCode(t);
    var r := ErrorText(s);
    assert |s.internalCode| == |t.internalCode|;
    assert s.internalCode == r[13..13 + |s.internalCode|];
  }
}
