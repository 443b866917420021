/** Constant values shared by the service (utils/constants.py). */
module Constants {

  /** Speaker tags of transcript entries. */
  const SpeakerCaller := "caller"
  const SpeakerAi := "ai"
  const SpeakerAdmin := "admin"

  /** Call status values understood by the record-keeping API. */
  datatype CallStatus =
    | Initiated | Ringing | InProgress | Completed | Processed | Failed | Missed | Declined
  {
    function Name(): string {
      match this
      case Initiated => "INITIATED"
      case Ringing => "RINGING"
      case InProgress => "IN_PROGRESS"
      case Completed => "COMPLETED"
      case Processed => "PROCESSED"
      case Failed => "FAILED"
      case Missed => "MISSED"
      case Declined => "DECLINED"
    }
  }

  /** Record-keeping call identifiers are CUIDs: "cm" followed by at least 18 more characters. */
  const PrismaIdPrefix := "cm"
  const MinPrismaIdLength := 20

  /** Maximum call duration in seconds. */
  const MaxCallDurationSeconds := 3600
}
