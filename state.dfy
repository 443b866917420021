/**
 * The process-wide call registry (state.py): live speech-backend
 * connections, the call mappings recorded by the telephony webhooks, and the
 * agent-leg to original-call links.
 */
module State {
  import opened PyDict
  import opened OpenAIService

  /**
   * One entry of `incoming_call_mapping`. Absent string fields are "";
   * `twilioCallSid` is set only on the entry an outbound call stores under
   * its call id, and `timestamp` is the clock reading at insertion.
   */
  datatype CallMapping = CallMapping(
    callId: string,
    fromNumber: string,
    toNumber: string,
    timestamp: int,
    isOutgoing: bool,
    twilioCallSid: string,
    initialPrompts: seq<string>)

  class Registry {
    /** `active_connections`: connection key to speech-backend socket */
    var active: map<string, BackendSocket>
    /** `incoming_call_mapping`: call sid or call id to mapping */
    var incoming: Dict<string, CallMapping>
    /** `agent_call_mapping`: agent-leg sid to original call sid */
    var agent: Dict<string, string>

    /**
     * Both dictionaries are well formed, every writer of
     * `incoming_call_mapping` stores a non-empty call id, and connections are
     * registered under non-empty keys only.
     */
    ghost predicate Valid()
      reads this
    {
      && "" !in active
      && incoming.Valid()
      && agent.Valid()
      && forall k | k in incoming.items :: incoming.items[k].callId != ""
    }

    constructor ()
      ensures Valid()
      ensures active == map[] && incoming == Empty() && agent == Empty()
    {
      active := map[];
      incoming := Empty();
      agent := Empty();
    }
  }
}
