/** Identifier checks (utils/call_utils.py). */
module CallUtils {
  import opened Strings
  import opened Constants

  /** Characters that must not appear in a call id placed in a URL path. */
  const DangerousChars := "!@#$%^&*()[]{};:,./<>?\\|`~"

  /**
   * `is_prisma_call_id`: does the identifier look like a record-keeping call
   * id rather than a telephony sid?
   */
  predicate IsPrismaCallId(id: string)
    ensures IsPrismaCallId(id) ==> |id| >= 20 && id[0] == 'c' && id[1] == 'm'
    ensures |id| >= 20 && id[0] == 'c' && id[1] == 'm' ==> IsPrismaCallId(id)
  {
    id != "" && StartsWith(id, PrismaIdPrefix) && |id| >= MinPrismaIdLength
  }

  /** `validate_call_id`: non-empty and free of URL-breaking characters. */
  predicate ValidateCallId(callId: string)
    ensures ValidateCallId(callId) ==> callId != ""
    ensures ValidateCallId(callId) <==>
      callId != "" && forall i | 0 <= i < |callId| :: callId[i] !in DangerousChars
  {
    if callId == "" then false
    else if exists c | c in callId :: c in DangerousChars then false
    else true
  }

  /** No identifier shorter than the minimum CUID length is a call id. */
  lemma ShortIdIsNotCallId(id: string)
    requires |id| < MinPrismaIdLength
    ensures !IsPrismaCallId(id)
  {
  }
}
