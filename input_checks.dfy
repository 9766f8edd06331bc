/**
 * `validate_user_input` and `sanitize_response` (utils/agent_utils.py).
 */
module InputChecks {
  import opened PyStrings

  const MaxMessageLength: nat := 1000

  const SanitizedApology: string := "I apologize, but I couldn't generate a proper response. Please try again."

  /**
   * `validate_user_input`: a message is accepted when it is not only
   * whitespace and, counting its whitespace, is at most 1000 characters.
   */
  function ValidateUserInput(message: string): (ok: bool)
    ensures ok <==> !IsBlank(message) && |message| <= MaxMessageLength
  {
    if message == "" || |Strip(message)| == 0 then false
    else if |message| > MaxMessageLength then false
    else true
  }

  /**
   * The length limit counts surrounding whitespace: a message of exactly 1000
   * characters followed by a space is rejected, although its stripped text is
   * within the limit.
   */
  lemma PaddingCounts(message: string)
    requires !IsBlank(message) && |message| == MaxMessageLength
    ensures ValidateUserInput(message)
    ensures !ValidateUserInput(message + " ")
    ensures |Strip(message + " ")| <= MaxMessageLength
  {
    var p := message + " ";
    assert !IsBlank(p) by {
      var k :| 0 <= k < |message| && !IsSpace(message[k]);
      assert p[k] == message[k];
    }
    var r := Strip(p);
    var n := LeadingSpaces(p);
    assert r[|r| - 1] == p[n + |r| - 1];
    assert IsSpace(p[|p| - 1]);
  }

  /**
   * `sanitize_response`: an empty response becomes the fixed apology and any
   * other is returned unchanged (the sensitive-pattern scan only logs).
   */
  function SanitizeResponse(response: string): (r: string)
    ensures r != ""
    ensures response != "" ==> r == response
    ensures response == "" ==> r == SanitizedApology
  {
    if response == "" then SanitizedApology else response
  }

  /** Sanitising twice is sanitising once. */
  lemma SanitizeIdempotent(response: string)
    ensures SanitizeResponse(SanitizeResponse(response)) == SanitizeResponse(response)
  {
  }
}
